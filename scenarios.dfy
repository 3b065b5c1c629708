/**
 * Concrete runs of the endpoints on a fresh store, one user, a limiter that
 * admits everything and a clock that moves forward.
 */
module Scenarios {
  import opened Wrappers
  import opened Constants
  import opened Schema
  import opened JsString
  import opened Validation
  import opened Todos
  import opened Endpoints

  /** A limiter that admits every call. */
  function AdmitAll(): RateLimiter
  {
    (_, _) => RateLimitStatus(true, 0)
  }

  /** Creates "Buy milk" (medium priority) for `user` on an empty store. */
  method CreateBuyMilk(user: UserId, now: int) returns (store: Table, id: Id)
    ensures fresh(store) && store.Valid()
    ensures id in store.todos
    ensures store.todos[id] == Todo(id, user, "Buy milk", None, Active, None, Medium, now, now)
  {
    store := new Table();
    var args := CreateArgs("Buy milk", None, None, Medium);
    assert !IsWhitespace(args.title[0]);
    assert HasNonWhitespace(args.title);
    assert Utf16Length(args.title) <= 2 * |args.title|;
    assert IsValidTitle(args.title);
    assert IsValidPriority(PriorityName(Medium));
    var r := Create(store, Some(user), AdmitAll(), args, now);
    id := r.value;
  }

  /**
   * As the code stands, an archived todo can be moved to completed through
   * `update`, although the lifecycle table forbids archived -> completed.
   */
  method ArchivedCompletedByUpdate() returns (before: Status, after: Status)
    ensures before == Archived && after == Completed
    ensures !IsValidStatusTransition(before, after)
  {
    var store, id := CreateBuyMilk("alice", 1000);
    var r1 := Archive(store, Some("alice"), id, 1001);
    before := store.todos[id].status;
    var r2 := Update(store, Some("alice"), AdmitAll(), id, StatusPatch(Completed), 1002);
    assert r2.Ok?;
    after := store.todos[id].status;
  }

  /**
   * As the code stands, `complete` moves an archived todo to completed,
   * although the lifecycle table forbids archived -> completed.
   */
  method ArchivedCompletedByComplete() returns (before: Status, after: Status)
    ensures before == Archived && after == Completed
    ensures !IsValidStatusTransition(before, after)
  {
    var store, id := CreateBuyMilk("alice", 1000);
    var r1 := Archive(store, Some("alice"), id, 1001);
    before := store.todos[id].status;
    var r2 := Complete(store, Some("alice"), id, 1002);
    after := store.todos[id].status;
  }

  /** With the lifecycle enforced, both routes refuse archived -> completed and leave the todo archived. */
  method LifecycleRefusesArchivedToCompleted() returns (viaUpdate: Result<()>, viaComplete: Result<()>, status: Status)
    ensures viaUpdate == Err(IllegalTransition(Archived, Completed))
    ensures viaComplete == Err(IllegalTransition(Archived, Completed))
    ensures status == Archived
  {
    var store, id := CreateBuyMilk("alice", 1000);
    var r1 := Archive(store, Some("alice"), id, 1001);
    viaUpdate := UpdateWithLifecycle(store, Some("alice"), AdmitAll(), id, StatusPatch(Completed), 1002);
    viaComplete := CompleteWithLifecycle(store, Some("alice"), id, 1003);
    status := store.todos[id].status;
  }

  /**
   * The walk-through: a new todo is active with equal timestamps; `complete`
   * makes it completed and moves `updatedAt`; completed -> active and
   * active -> archived are legal updates; another user gets `Forbidden`
   * and nobody gets the todo once it is removed.
   */
  method Walkthrough() returns (created: Todo, completed: Todo, reopened: Todo, archived: Todo,
                                stranger: Result<Todo>, afterRemove: Result<Todo>)
    ensures created.status == Active && created.createdAt == created.updatedAt
    ensures completed.status == Completed && completed.updatedAt > created.updatedAt
    ensures completed.createdAt == created.createdAt
    ensures reopened.status == Active && IsValidStatusTransition(completed.status, reopened.status)
    ensures archived.status == Archived && IsValidStatusTransition(reopened.status, archived.status)
    ensures stranger == Err(Forbidden)
    ensures afterRemove == Err(NotFound)
  {
    var store, id := CreateBuyMilk("alice", 1000);
    created := store.todos[id];
    var r1 := Complete(store, Some("alice"), id, 2000);
    completed := store.todos[id];
    var r2 := Update(store, Some("alice"), AdmitAll(), id, StatusPatch(Active), 3000);
    reopened := store.todos[id];
    var r3 := Update(store, Some("alice"), AdmitAll(), id, StatusPatch(Archived), 4000);
    archived := store.todos[id];
    stranger := Get(store, Some("bob"), id);
    var r4 := Remove(store, Some("alice"), AdmitAll(), id);
    afterRemove := Get(store, Some("alice"), id);
  }
}
