/**
 * The todo endpoints (convex/endpoints/todos.ts). Every handler first
 * resolves the caller, then, for create, update and remove, asks the rate
 * limiter, then (for operations on one todo) checks existence and
 * ownership, then validates, and only then touches the store. Each handler
 * is one atomic step: a handler that fails leaves the store as it was.
 */
module Endpoints {
  import opened Wrappers
  import opened Constants
  import opened Schema
  import opened Validation
  import opened Todos

  /** The rate limits the handlers consult (convex/rateLimiter.ts). */
  datatype LimitName = CreateTodoLimit | UpdateTodoLimit | DeleteTodoLimit

  /** What `rateLimiter.limit` answers: admitted or not, and the wait in milliseconds. */
  datatype RateLimitStatus = RateLimitStatus(ok: bool, retryAfter: int)

  /** The rate limiter's answer for a limit and the caller's id. */
  type RateLimiter = (LimitName, UserId) -> RateLimitStatus

  /** The errors a handler throws, by kind. */
  datatype Error =
    | Unauthenticated
    | RateLimited(retryAfter: int)
    | ValidationFailed(message: string)
    | NotFound
    | Forbidden
    | IllegalTransition(from: Status, to: Status)

  datatype Result<T> = Ok(value: T) | Err(error: Error)

  /** The arguments of `create`. */
  datatype CreateArgs = CreateArgs(title: string, description: Option<string>, dueDate: Option<int>, priority: Priority)

  /** The create arguments as the validator sees them. */
  function CreateFieldsOf(args: CreateArgs): CreateFields
  {
    CreateFields(args.title, args.description, args.dueDate, PriorityName(args.priority))
  }

  /** The update arguments (without the id) as the validator sees them. */
  function UpdateFieldsOf(p: Patch): UpdateFields
  {
    UpdateFields(p.title, p.description,
                 if p.status.Some? then Some(StatusName(p.status.value)) else None,
                 p.dueDate,
                 if p.priority.Some? then Some(PriorityName(p.priority.value)) else None)
  }

  /**
   * Status and priority arrive already narrowed by the argument validators,
   * so the field validator can only reject the title, description or due date.
   */
  lemma EnumFieldsAlwaysValid(args: CreateArgs, p: Patch, now: int)
    ensures ValidateTodoCreate(CreateFieldsOf(args), now).valid <==>
      IsValidTitle(args.title) && IsValidDescription(args.description) && IsValidDueDate(args.dueDate, now)
    ensures ValidateTodoUpdate(UpdateFieldsOf(p), now).valid <==>
      (p.title.None? || IsValidTitle(p.title.value)) &&
      (p.description.None? || IsValidDescription(p.description)) &&
      (p.dueDate.None? || IsValidDueDate(p.dueDate, now))
  {
    EnumNamesAreValid();
    var c, u := CreateFieldsOf(args), UpdateFieldsOf(p);
    assert IsValidPriority(c.priority);
    assert u.status.None? || IsValidStatus(u.status.value);
    assert u.priority.None? || IsValidPriority(u.priority.value);
  }

  /**
   * The existence-then-ownership check of get, update, remove, complete and
   * archive: a missing id is `NotFound` whoever asks, an id owned by someone
   * else is `Forbidden`.
   */
  function FetchOwned(todos: map<Id, Todo>, userId: UserId, id: Id): (r: Result<Todo>)
    ensures id !in todos <==> r == Err(NotFound)
    ensures id in todos && todos[id].userId != userId <==> r == Err(Forbidden)
    ensures r.Ok? <==> id in todos && todos[id].userId == userId
    ensures r.Ok? ==> r.value == todos[id]
  {
    if id !in todos then Err(NotFound)
    else if todos[id].userId != userId then Err(Forbidden)
    else Ok(todos[id])
  }

  /**
   * `create`: authenticate, rate-limit on `createTodo` keyed by the caller,
   * validate, then insert an active todo owned by the caller.
   */
  method Create(store: Table, auth: Option<UserId>, limiter: RateLimiter, args: CreateArgs, now: int)
    returns (r: Result<Id>)
    requires store.Valid()
    modifies store
    ensures store.Valid()
    ensures auth.None? ==> r == Err(Unauthenticated)
    ensures auth.Some? && !limiter(CreateTodoLimit, auth.value).ok ==>
      r == Err(RateLimited(limiter(CreateTodoLimit, auth.value).retryAfter))
    ensures auth.Some? && limiter(CreateTodoLimit, auth.value).ok && !ValidateTodoCreate(CreateFieldsOf(args), now).valid ==>
      r == Err(ValidationFailed(ValidateTodoCreate(CreateFieldsOf(args), now).error.value))
    ensures r.Ok? <==> auth.Some? && limiter(CreateTodoLimit, auth.value).ok &&
                       ValidateTodoCreate(CreateFieldsOf(args), now).valid
    ensures r.Err? ==> store.todos == old(store.todos) && store.nextId == old(store.nextId)
    ensures r.Ok? ==>
      && auth.Some? && r.value == old(store.nextId) && r.value !in old(store.todos)
      && store.nextId == old(store.nextId) + 1
      && store.todos == old(store.todos)[r.value := Todo(r.value, auth.value, args.title, args.description,
                                                         Active, args.dueDate, args.priority, now, now)]
    ensures r.Ok? ==> List(store, auth).value == [store.todos[r.value]] + old(List(store, auth).value)
  {
    if auth.None? {
      return Err(Unauthenticated);
    }
    var user := auth.value;
    var rateLimitStatus := limiter(CreateTodoLimit, user);
    if !rateLimitStatus.ok {
      return Err(RateLimited(rateLimitStatus.retryAfter));
    }
    var validation := ValidateTodoCreate(CreateFieldsOf(args), now);
    if !validation.valid {
      return Err(ValidationFailed(validation.error.value));
    }
    ghost var before, n := store.todos, store.nextId;
    var id := store.CreateTodo(NewTodo(user, args.title, args.description, Active, args.dueDate, args.priority), now);
    InsertExtendsOwnersList(before, n, store.todos[id]);
    return Ok(id);
  }

  /** `list`: all of the caller's todos, youngest first. */
  function List(store: Table, auth: Option<UserId>): (r: Result<seq<Todo>>)
    reads store
    requires store.Valid()
    ensures r.Err? <==> auth.None?
    ensures r.Err? ==> r.error == Unauthenticated
    ensures r.Ok? ==> forall t :: t in r.value ==> t.userId == auth.value && t.id in store.todos
    ensures r.Ok? ==> IsIndexScan(r.value, store.todos, store.nextId, ByUser(auth.value))
  {
    if auth.None? then Err(Unauthenticated)
    else Ok(store.GetTodosByUser(auth.value))
  }

  /** `listByStatus`: the caller's todos with that status, youngest first. */
  function ListByStatus(store: Table, auth: Option<UserId>, status: Status): (r: Result<seq<Todo>>)
    reads store
    requires store.Valid()
    ensures r.Err? <==> auth.None?
    ensures r.Err? ==> r.error == Unauthenticated
    ensures r.Ok? ==> forall t :: t in r.value ==> t.userId == auth.value && t.status == status
    ensures r.Ok? ==> r.value == WithStatus(List(store, auth).value, status)
  {
    if auth.None? then Err(Unauthenticated)
    else Ok(store.GetTodosByUserAndStatus(auth.value, status))
  }

  /** `listByPriority`: the caller's todos with that priority, youngest first. */
  function ListByPriority(store: Table, auth: Option<UserId>, priority: Priority): (r: Result<seq<Todo>>)
    reads store
    requires store.Valid()
    ensures r.Err? <==> auth.None?
    ensures r.Err? ==> r.error == Unauthenticated
    ensures r.Ok? ==> forall t :: t in r.value ==> t.userId == auth.value && t.priority == priority
    ensures r.Ok? ==> r.value == WithPriority(List(store, auth).value, priority)
  {
    if auth.None? then Err(Unauthenticated)
    else Ok(store.GetTodosByUserAndPriority(auth.value, priority))
  }

  /** `get`: the todo, if it exists and the caller owns it. */
  function Get(store: Table, auth: Option<UserId>, id: Id): (r: Result<Todo>)
    reads store
    requires store.Valid()
    ensures auth.None? ==> r == Err(Unauthenticated)
    ensures auth.Some? && id !in store.todos ==> r == Err(NotFound)
    ensures auth.Some? && id in store.todos && store.todos[id].userId != auth.value ==> r == Err(Forbidden)
    ensures r.Ok? <==> auth.Some? && id in store.todos && store.todos[id].userId == auth.value
    ensures r.Ok? ==> r.value == store.todos[id] && r.value.id == id
  {
    if auth.None? then Err(Unauthenticated)
    else match store.GetTodoById(id)
      case None => Err(NotFound)
      case Some(todo) => if todo.userId != auth.value then Err(Forbidden) else Ok(todo)
  }

  /**
   * `update`: authenticate, rate-limit on `updateTodo`, check existence and
   * ownership, validate the fields present, then patch them. The status
   * lifecycle table is not consulted.
   */
  method Update(store: Table, auth: Option<UserId>, limiter: RateLimiter, id: Id, patch: Patch, now: int)
    returns (r: Result<()>)
    requires store.Valid()
    modifies store
    ensures store.Valid() && store.nextId == old(store.nextId)
    ensures auth.None? ==> r == Err(Unauthenticated)
    ensures auth.Some? && !limiter(UpdateTodoLimit, auth.value).ok ==>
      r == Err(RateLimited(limiter(UpdateTodoLimit, auth.value).retryAfter))
    ensures auth.Some? && limiter(UpdateTodoLimit, auth.value).ok && FetchOwned(old(store.todos), auth.value, id).Err? ==>
      r == Err(FetchOwned(old(store.todos), auth.value, id).error)
    ensures (auth.Some? && limiter(UpdateTodoLimit, auth.value).ok && FetchOwned(old(store.todos), auth.value, id).Ok? &&
             !ValidateTodoUpdate(UpdateFieldsOf(patch), now).valid) ==>
      r == Err(ValidationFailed(ValidateTodoUpdate(UpdateFieldsOf(patch), now).error.value))
    ensures r.Ok? <==> auth.Some? && limiter(UpdateTodoLimit, auth.value).ok &&
                       FetchOwned(old(store.todos), auth.value, id).Ok? &&
                       ValidateTodoUpdate(UpdateFieldsOf(patch), now).valid
    ensures r.Err? ==> store.todos == old(store.todos)
    ensures r.Ok? ==>
      && auth.Some? && id in old(store.todos) && old(store.todos)[id].userId == auth.value
      && store.todos == old(store.todos)[id := ApplyPatch(old(store.todos)[id], patch, now)]
  {
    if auth.None? {
      return Err(Unauthenticated);
    }
    var user := auth.value;
    var rateLimitStatus := limiter(UpdateTodoLimit, user);
    if !rateLimitStatus.ok {
      return Err(RateLimited(rateLimitStatus.retryAfter));
    }
    var todo := FetchOwned(store.todos, user, id);
    if todo.Err? {
      return Err(todo.error);
    }
    var validation := ValidateTodoUpdate(UpdateFieldsOf(patch), now);
    if !validation.valid {
      return Err(ValidationFailed(validation.error.value));
    }
    var _ := store.UpdateTodo(id, patch, now);
    return Ok(());
  }

  /**
   * `remove`: authenticate, rate-limit on `deleteTodo`, check existence and
   * ownership, then delete.
   */
  method Remove(store: Table, auth: Option<UserId>, limiter: RateLimiter, id: Id) returns (r: Result<()>)
    requires store.Valid()
    modifies store
    ensures store.Valid() && store.nextId == old(store.nextId)
    ensures auth.None? ==> r == Err(Unauthenticated)
    ensures auth.Some? && !limiter(DeleteTodoLimit, auth.value).ok ==>
      r == Err(RateLimited(limiter(DeleteTodoLimit, auth.value).retryAfter))
    ensures auth.Some? && limiter(DeleteTodoLimit, auth.value).ok && FetchOwned(old(store.todos), auth.value, id).Err? ==>
      r == Err(FetchOwned(old(store.todos), auth.value, id).error)
    ensures r.Ok? <==> auth.Some? && limiter(DeleteTodoLimit, auth.value).ok &&
                       FetchOwned(old(store.todos), auth.value, id).Ok?
    ensures r.Err? ==> store.todos == old(store.todos)
    ensures r.Ok? ==>
      && auth.Some? && id in old(store.todos) && old(store.todos)[id].userId == auth.value
      && id !in store.todos && store.todos == old(store.todos) - {id}
  {
    if auth.None? {
      return Err(Unauthenticated);
    }
    var user := auth.value;
    var rateLimitStatus := limiter(DeleteTodoLimit, user);
    if !rateLimitStatus.ok {
      return Err(RateLimited(rateLimitStatus.retryAfter));
    }
    var todo := FetchOwned(store.todos, user, id);
    if todo.Err? {
      return Err(todo.error);
    }
    var _ := store.DeleteTodo(id);
    return Ok(());
  }

  /** The patch `complete` and `archive` write: the status alone. */
  function StatusPatch(s: Status): Patch
  {
    Patch(None, None, Some(s), None, None)
  }

  /**
   * `complete`: authenticate, check existence and ownership, then set the
   * status to completed whatever it was. No rate limit is consulted.
   */
  method Complete(store: Table, auth: Option<UserId>, id: Id, now: int) returns (r: Result<()>)
    requires store.Valid()
    modifies store
    ensures store.Valid() && store.nextId == old(store.nextId)
    ensures auth.None? ==> r == Err(Unauthenticated)
    ensures auth.Some? && FetchOwned(old(store.todos), auth.value, id).Err? ==>
      r == Err(FetchOwned(old(store.todos), auth.value, id).error)
    ensures !(r.Err? && r.error.RateLimited?)
    ensures r.Ok? <==> auth.Some? && FetchOwned(old(store.todos), auth.value, id).Ok?
    ensures r.Err? ==> store.todos == old(store.todos)
    ensures r.Ok? ==>
      && auth.Some? && id in old(store.todos) && old(store.todos)[id].userId == auth.value
      && store.todos == old(store.todos)[id := ApplyPatch(old(store.todos)[id], StatusPatch(Completed), now)]
      && store.todos[id].status == Completed && store.todos[id].updatedAt == now
  {
    if auth.None? {
      return Err(Unauthenticated);
    }
    var todo := FetchOwned(store.todos, auth.value, id);
    if todo.Err? {
      return Err(todo.error);
    }
    var _ := store.UpdateTodo(id, StatusPatch(Completed), now);
    return Ok(());
  }

  /**
   * `archive`: authenticate, check existence and ownership, then set the
   * status to archived whatever it was. No rate limit is consulted.
   */
  method Archive(store: Table, auth: Option<UserId>, id: Id, now: int) returns (r: Result<()>)
    requires store.Valid()
    modifies store
    ensures store.Valid() && store.nextId == old(store.nextId)
    ensures auth.None? ==> r == Err(Unauthenticated)
    ensures auth.Some? && FetchOwned(old(store.todos), auth.value, id).Err? ==>
      r == Err(FetchOwned(old(store.todos), auth.value, id).error)
    ensures !(r.Err? && r.error.RateLimited?)
    ensures r.Ok? <==> auth.Some? && FetchOwned(old(store.todos), auth.value, id).Ok?
    ensures r.Err? ==> store.todos == old(store.todos)
    ensures r.Ok? ==>
      && auth.Some? && id in old(store.todos) && old(store.todos)[id].userId == auth.value
      && store.todos == old(store.todos)[id := ApplyPatch(old(store.todos)[id], StatusPatch(Archived), now)]
      && store.todos[id].status == Archived && store.todos[id].updatedAt == now
  {
    if auth.None? {
      return Err(Unauthenticated);
    }
    var todo := FetchOwned(store.todos, auth.value, id);
    if todo.Err? {
      return Err(todo.error);
    }
    var _ := store.UpdateTodo(id, StatusPatch(Archived), now);
    return Ok(());
  }

  /**
   * `update` with the status lifecycle enforced: as `Update`, but a status
   * the lifecycle table does not allow from the current one is refused with
   * `IllegalTransition` after field validation.
   */
  method UpdateWithLifecycle(store: Table, auth: Option<UserId>, limiter: RateLimiter, id: Id, patch: Patch, now: int)
    returns (r: Result<()>)
    requires store.Valid()
    modifies store
    ensures store.Valid() && store.nextId == old(store.nextId)
    ensures auth.None? ==> r == Err(Unauthenticated)
    ensures auth.Some? && !limiter(UpdateTodoLimit, auth.value).ok ==>
      r == Err(RateLimited(limiter(UpdateTodoLimit, auth.value).retryAfter))
    ensures auth.Some? && limiter(UpdateTodoLimit, auth.value).ok && FetchOwned(old(store.todos), auth.value, id).Err? ==>
      r == Err(FetchOwned(old(store.todos), auth.value, id).error)
    ensures (auth.Some? && limiter(UpdateTodoLimit, auth.value).ok && FetchOwned(old(store.todos), auth.value, id).Ok? &&
             !ValidateTodoUpdate(UpdateFieldsOf(patch), now).valid) ==>
      r == Err(ValidationFailed(ValidateTodoUpdate(UpdateFieldsOf(patch), now).error.value))
    ensures (auth.Some? && limiter(UpdateTodoLimit, auth.value).ok && FetchOwned(old(store.todos), auth.value, id).Ok? &&
             ValidateTodoUpdate(UpdateFieldsOf(patch), now).valid && patch.status.Some? &&
             !IsValidStatusTransition(old(store.todos)[id].status, patch.status.value)) ==>
      r == Err(IllegalTransition(old(store.todos)[id].status, patch.status.value))
    ensures r.Ok? <==> auth.Some? && limiter(UpdateTodoLimit, auth.value).ok &&
                       FetchOwned(old(store.todos), auth.value, id).Ok? &&
                       ValidateTodoUpdate(UpdateFieldsOf(patch), now).valid &&
                       (patch.status.Some? ==> IsValidStatusTransition(old(store.todos)[id].status, patch.status.value))
    ensures r.Err? ==> store.todos == old(store.todos)
    ensures r.Ok? ==>
      && auth.Some? && id in old(store.todos) && old(store.todos)[id].userId == auth.value
      && store.todos == old(store.todos)[id := ApplyPatch(old(store.todos)[id], patch, now)]
      && (patch.status.Some? ==> IsValidStatusTransition(old(store.todos)[id].status, store.todos[id].status))
  {
    if auth.None? {
      return Err(Unauthenticated);
    }
    var user := auth.value;
    var rateLimitStatus := limiter(UpdateTodoLimit, user);
    if !rateLimitStatus.ok {
      return Err(RateLimited(rateLimitStatus.retryAfter));
    }
    var todo := FetchOwned(store.todos, user, id);
    if todo.Err? {
      return Err(todo.error);
    }
    var validation := ValidateTodoUpdate(UpdateFieldsOf(patch), now);
    if !validation.valid {
      return Err(ValidationFailed(validation.error.value));
    }
    if patch.status.Some? && !IsValidStatusTransition(todo.value.status, patch.status.value) {
      return Err(IllegalTransition(todo.value.status, patch.status.value));
    }
    var _ := store.UpdateTodo(id, patch, now);
    return Ok(());
  }

  /**
   * `complete` with the status lifecycle enforced: as `Complete`, but a todo
   * whose status may not move to completed is refused with `IllegalTransition`.
   */
  method CompleteWithLifecycle(store: Table, auth: Option<UserId>, id: Id, now: int) returns (r: Result<()>)
    requires store.Valid()
    modifies store
    ensures store.Valid() && store.nextId == old(store.nextId)
    ensures auth.None? ==> r == Err(Unauthenticated)
    ensures auth.Some? && FetchOwned(old(store.todos), auth.value, id).Err? ==>
      r == Err(FetchOwned(old(store.todos), auth.value, id).error)
    ensures (auth.Some? && FetchOwned(old(store.todos), auth.value, id).Ok? &&
             !IsValidStatusTransition(old(store.todos)[id].status, Completed)) ==>
      r == Err(IllegalTransition(old(store.todos)[id].status, Completed))
    ensures r.Ok? <==> auth.Some? && FetchOwned(old(store.todos), auth.value, id).Ok? &&
                       IsValidStatusTransition(old(store.todos)[id].status, Completed)
    ensures r.Err? ==> store.todos == old(store.todos)
    ensures r.Ok? ==>
      && auth.Some? && id in old(store.todos) && old(store.todos)[id].userId == auth.value
      && IsValidStatusTransition(old(store.todos)[id].status, Completed)
      && store.todos == old(store.todos)[id := ApplyPatch(old(store.todos)[id], StatusPatch(Completed), now)]
  {
    if auth.None? {
      return Err(Unauthenticated);
    }
    var todo := FetchOwned(store.todos, auth.value, id);
    if todo.Err? {
      return Err(todo.error);
    }
    if !IsValidStatusTransition(todo.value.status, Completed) {
      return Err(IllegalTransition(todo.value.status, Completed));
    }
    var _ := store.UpdateTodo(id, StatusPatch(Completed), now);
    return Ok(());
  }

  datatype PriorityCounts = PriorityCounts(high: nat, medium: nat, low: nat)

  /** What `stats` returns. */
  datatype Stats = Stats(total: nat, active: nat, completed: nat, archived: nat, byPriority: PriorityCounts)

  /** Every todo has exactly one of the three statuses. */
  lemma {:induction false} StatusesPartition(ts: seq<Todo>)
    ensures |ts| == |WithStatus(ts, Active)| + |WithStatus(ts, Completed)| + |WithStatus(ts, Archived)|
  {
    if ts != [] {
      StatusesPartition(ts[1..]);
    }
  }

  /** Every todo has exactly one of the three priorities. */
  lemma {:induction false} PrioritiesPartition(ts: seq<Todo>)
    ensures |ts| == |WithPriority(ts, High)| + |WithPriority(ts, Medium)| + |WithPriority(ts, Low)|
  {
    if ts != [] {
      PrioritiesPartition(ts[1..]);
    }
  }

  /**
   * The counts `stats` derives from a list of todos: one per status, and one
   * per priority among the active todos only. Each count is the number of
   * positions of the list holding such a todo; the status counts add up to
   * the total and the priority counts add up to the active count.
   */
  function ComputeStats(all: seq<Todo>): (r: Stats)
    ensures r.total == |all|
    ensures r.active == |set i | 0 <= i < |all| && all[i].status == Active|
    ensures r.completed == |set i | 0 <= i < |all| && all[i].status == Completed|
    ensures r.archived == |set i | 0 <= i < |all| && all[i].status == Archived|
    ensures r.byPriority.high == |set i | 0 <= i < |all| && all[i].status == Active && all[i].priority == High|
    ensures r.byPriority.medium == |set i | 0 <= i < |all| && all[i].status == Active && all[i].priority == Medium|
    ensures r.byPriority.low == |set i | 0 <= i < |all| && all[i].status == Active && all[i].priority == Low|
    ensures r.total == r.active + r.completed + r.archived
    ensures r.byPriority.high + r.byPriority.medium + r.byPriority.low == r.active
  {
    var active := WithStatus(all, Active);
    StatusesPartition(all);
    PrioritiesPartition(active);
    WithStatusCount(all, Active);
    WithStatusCount(all, Completed);
    WithStatusCount(all, Archived);
    ActiveWithPriorityCount(all, High);
    ActiveWithPriorityCount(all, Medium);
    ActiveWithPriorityCount(all, Low);
    Stats(|all|, |active|, |WithStatus(all, Completed)|, |WithStatus(all, Archived)|,
          PriorityCounts(|WithPriority(active, High)|, |WithPriority(active, Medium)|, |WithPriority(active, Low)|))
  }

  /**
   * `stats`: the counts over the caller's own stored todos only: the total,
   * one count per status, and one count per priority among the active ones.
   */
  function GetStats(store: Table, auth: Option<UserId>): (r: Result<Stats>)
    reads store
    requires store.Valid()
    ensures r.Err? <==> auth.None?
    ensures r.Err? ==> r.error == Unauthenticated
    ensures r.Ok? ==> r.value.total == |set k | k in store.todos && store.todos[k].userId == auth.value|
    ensures r.Ok? ==> forall s :: StatusCount(r.value, s) == OwnedWithStatus(store.todos, auth.value, s)
    ensures r.Ok? ==> forall p :: PriorityCount(r.value, p) == OwnedActiveWithPriority(store.todos, auth.value, p)
    ensures r.Ok? ==> r.value.active == store.CountActiveTodosByUser(auth.value)
    ensures r.Ok? ==> r.value.total == r.value.active + r.value.completed + r.value.archived
    ensures r.Ok? ==> r.value.byPriority.high + r.value.byPriority.medium + r.value.byPriority.low == r.value.active
  {
    if auth.None? then Err(Unauthenticated)
    else
      StatsCountOwnedTodos(store, auth.value);
      Ok(ComputeStats(store.GetTodosByUser(auth.value)))
  }

  /** The count of `stats` for status `s`. */
  function StatusCount(st: Stats, s: Status): nat
  {
    match s
    case Active => st.active
    case Completed => st.completed
    case Archived => st.archived
  }

  /** The count of `stats.byPriority` for priority `p`. */
  function PriorityCount(st: Stats, p: Priority): nat
  {
    match p
    case High => st.byPriority.high
    case Medium => st.byPriority.medium
    case Low => st.byPriority.low
  }

  /** How many stored todos `u` owns with status `s`. */
  ghost function OwnedWithStatus(todos: map<Id, Todo>, u: UserId, s: Status): nat
  {
    |set k | k in todos && todos[k].userId == u && todos[k].status == s|
  }

  /** How many stored active todos `u` owns with priority `p`. */
  ghost function OwnedActiveWithPriority(todos: map<Id, Todo>, u: UserId, p: Priority): nat
  {
    |set k | k in todos && todos[k].userId == u && todos[k].status == Active && todos[k].priority == p|
  }

  /**
   * Every count of `stats` is the number of the owner's stored todos of
   * that kind; the total and active counts agree with the store's own counts.
   */
  lemma StatsCountOwnedTodos(store: Table, u: UserId)
    requires store.Valid()
    ensures ComputeStats(store.GetTodosByUser(u)).total == store.CountTodosByUser(u)
    ensures ComputeStats(store.GetTodosByUser(u)).active == store.CountActiveTodosByUser(u)
    ensures forall s :: StatusCount(ComputeStats(store.GetTodosByUser(u)), s) == OwnedWithStatus(store.todos, u, s)
    ensures forall p :: PriorityCount(ComputeStats(store.GetTodosByUser(u)), p) == OwnedActiveWithPriority(store.todos, u, p)
  {
    forall s ensures StatusCount(ComputeStats(store.GetTodosByUser(u)), s) == OwnedWithStatus(store.todos, u, s) {
      StatusCountIsOwned(store, u, s);
    }
    forall p ensures PriorityCount(ComputeStats(store.GetTodosByUser(u)), p) == OwnedActiveWithPriority(store.todos, u, p) {
      PriorityCountIsOwned(store, u, p);
    }
    StatusCountIsOwned(store, u, Active);
    var active := store.GetTodosByUserAndStatus(u, Active);
    assert |active| == store.CountActiveTodosByUser(u);
  }

  /** The `stats` count of status `s` is the number of the owner's stored todos with that status. */
  lemma StatusCountIsOwned(store: Table, u: UserId, s: Status)
    requires store.Valid()
    ensures StatusCount(ComputeStats(store.GetTodosByUser(u)), s) == OwnedWithStatus(store.todos, u, s)
  {
    var all := store.GetTodosByUser(u);
    var st := ComputeStats(all);
    WithStatusCount(all, s);
    assert StatusCount(st, s) == |WithStatus(all, s)|;
    OwnedStatusCount(store.todos, store.nextId, u, s);
  }

  /** Filtering the owner's read by status counts the owner's stored todos with that status. */
  lemma OwnedStatusCount(m: map<Id, Todo>, n: nat, u: UserId, s: Status)
    requires forall k :: k in m ==> k < n
    ensures |WithStatus(NewestFirst(m, n, ByUser(u)), s)| == OwnedWithStatus(m, u, s)
  {
    StatusScanIsFilter(m, n, u, s);
    ScanLength(m, n, ByUserAndStatus(u, s));
    assert MatchingIds(m, n, ByUserAndStatus(u, s)) == set k | k in m && m[k].userId == u && m[k].status == s;
  }

  /** The `stats` count of priority `p` is the number of the owner's stored active todos with that priority. */
  lemma PriorityCountIsOwned(store: Table, u: UserId, p: Priority)
    requires store.Valid()
    ensures PriorityCount(ComputeStats(store.GetTodosByUser(u)), p) == OwnedActiveWithPriority(store.todos, u, p)
  {
    var all := store.GetTodosByUser(u);
    var st := ComputeStats(all);
    ActiveWithPriorityCount(all, p);
    assert PriorityCount(st, p) == |WithPriority(WithStatus(all, Active), p)|;
    OwnedActivePriorityCount(store.todos, store.nextId, u, p);
  }

  /** Filtering the owner's read by active status and then priority counts the owner's stored todos of that kind. */
  lemma OwnedActivePriorityCount(m: map<Id, Todo>, n: nat, u: UserId, p: Priority)
    requires forall k :: k in m ==> k < n
    ensures |WithPriority(WithStatus(NewestFirst(m, n, ByUser(u)), Active), p)| == OwnedActiveWithPriority(m, u, p)
  {
    StatusScanIsFilter(m, n, u, Active);
    StatusScanPriorityCount(m, n, u, Active, p);
    assert (set k | k in m && k < n && m[k].userId == u && m[k].status == Active && m[k].priority == p) ==
      set k | k in m && m[k].userId == u && m[k].status == Active && m[k].priority == p;
  }

  /**
   * Creating one active high-priority todo adds exactly one to the total,
   * the active count and the high count, and leaves every other count alone.
   */
  lemma NewHighTodoBumpsStats(t: Todo, ts: seq<Todo>)
    requires t.status == Active && t.priority == High
    ensures var before := ComputeStats(ts);
      ComputeStats([t] + ts) ==
        before.(total := before.total + 1, active := before.active + 1,
                byPriority := before.byPriority.(high := before.byPriority.high + 1))
  {
    assert ([t] + ts)[1..] == ts;
    var a := WithStatus([t] + ts, Active);
    assert a == [t] + WithStatus(ts, Active);
    assert a[1..] == WithStatus(ts, Active);
  }

  /**
   * After a todo is inserted for user `u` under the next id, `u`'s list
   * starts with it and then continues with the list as it was.
   */
  lemma InsertExtendsOwnersList(m: map<Id, Todo>, n: nat, t: Todo)
    requires forall k :: k in m ==> k < n
    ensures NewestFirst(m[n := t], n + 1, ByUser(t.userId)) == [t] + NewestFirst(m, n, ByUser(t.userId))
  {
    InsertComesFirst(m, n, t, ByUser(t.userId));
  }

  /** Another user's todo is never returned by `get`: it is `Forbidden`. */
  lemma OwnershipIsolation(store: Table, owner: UserId, other: UserId, id: Id)
    requires store.Valid()
    requires owner != other && id in store.todos && store.todos[id].userId == owner
    ensures Get(store, Some(other), id) == Err(Forbidden)
  {
  }

  /** A missing id is `NotFound` for every caller, owner or not. */
  lemma ExistencePrecedesOwnership(store: Table, caller: UserId, id: Id)
    requires store.Valid() && id !in store.todos
    ensures Get(store, Some(caller), id) == Err(NotFound)
    ensures FetchOwned(store.todos, caller, id) == Err(NotFound)
  {
  }
}
