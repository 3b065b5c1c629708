/** The `todos` table row (convex/schema.ts). */
module Schema {
  import opened Wrappers
  import opened Constants

  /**
   * A document id. The store hands ids out in insertion order, so a larger
   * id is a younger document; this stands for Convex's `_creationTime`.
   */
  type Id = nat

  /** The authenticated user's `_id`, stored as the owner of a todo. */
  type UserId = string

  datatype Todo = Todo(
    id: Id,
    userId: UserId,
    title: string,
    description: Option<string>,
    status: Status,
    dueDate: Option<int>,
    priority: Priority,
    createdAt: int,
    updatedAt: int)
}
