/**
 * The record store gateway for the `todos` table (convex/db/todos.ts): the
 * only code that reads or writes the table. A `Table` holds the stored
 * documents by id and the counter that hands out the next id.
 */
module Todos {
  import opened Wrappers
  import opened Constants
  import opened Schema

  /** The arguments of `createTodo`: a todo without its id and timestamps. */
  datatype NewTodo = NewTodo(
    userId: UserId,
    title: string,
    description: Option<string>,
    status: Status,
    dueDate: Option<int>,
    priority: Priority)

  /** The arguments of `updateTodo`: the fields to overwrite, each optional. */
  datatype Patch = Patch(
    title: Option<string>,
    description: Option<string>,
    status: Option<Status>,
    dueDate: Option<int>,
    priority: Option<Priority>)

  /** `{ ...args, updatedAt: now }` patched onto `t`: present fields overwrite, absent ones stay. */
  function ApplyPatch(t: Todo, p: Patch, now: int): (r: Todo)
    ensures r.id == t.id && r.userId == t.userId && r.createdAt == t.createdAt
    ensures r.updatedAt == now
  {
    t.(title := if p.title.Some? then p.title.value else t.title,
       description := if p.description.Some? then p.description else t.description,
       status := if p.status.Some? then p.status.value else t.status,
       dueDate := if p.dueDate.Some? then p.dueDate else t.dueDate,
       priority := if p.priority.Some? then p.priority.value else t.priority,
       updatedAt := now)
  }

  /**
   * A patch overwrites exactly the fields it carries: every field it carries
   * takes the new value, every field it leaves out keeps the old one.
   */
  lemma PatchOverwritesOnlyPresentFields(t: Todo, p: Patch, now: int)
    ensures var r := ApplyPatch(t, p, now);
      (p.title.Some? ==> r.title == p.title.value) && (p.title.None? ==> r.title == t.title) &&
      (p.description.Some? ==> r.description == p.description) && (p.description.None? ==> r.description == t.description) &&
      (p.status.Some? ==> r.status == p.status.value) && (p.status.None? ==> r.status == t.status) &&
      (p.dueDate.Some? ==> r.dueDate == p.dueDate) && (p.dueDate.None? ==> r.dueDate == t.dueDate) &&
      (p.priority.Some? ==> r.priority == p.priority.value) && (p.priority.None? ==> r.priority == t.priority)
  {
  }

  /** Patching twice with the same fields at the same time is patching once. */
  lemma PatchIdempotent(t: Todo, p: Patch, now: int)
    ensures ApplyPatch(ApplyPatch(t, p, now), p, now) == ApplyPatch(t, p, now)
  {
  }

  /** An empty patch only moves `updatedAt`. */
  lemma EmptyPatchTouchesOnlyUpdatedAt(t: Todo, now: int)
    ensures ApplyPatch(t, Patch(None, None, None, None, None), now) == t.(updatedAt := now)
  {
  }

  /** The equality prefix of one of the table's indexes. */
  datatype Index =
    | ByUser(userId: UserId)
    | ByUserAndStatus(userId: UserId, status: Status)
    | ByUserAndPriority(userId: UserId, priority: Priority)

  predicate Matches(t: Todo, q: Index)
  {
    match q
    case ByUser(u) => t.userId == u
    case ByUserAndStatus(u, s) => t.userId == u && t.status == s
    case ByUserAndPriority(u, p) => t.userId == u && t.priority == p
  }

  /** Every stored document sits under its own id. */
  ghost predicate KeyedById(m: map<Id, Todo>)
  {
    forall k :: k in m ==> m[k].id == k
  }

  /**
   * `r` is what an index read `.order("desc").collect()` returns over the
   * documents with ids below `n`: each matching document exactly once,
   * nothing else, youngest first.
   */
  ghost predicate IsIndexScan(r: seq<Todo>, m: map<Id, Todo>, n: nat, q: Index)
  {
    && (forall t :: t in r ==> t.id < n && t.id in m && m[t.id] == t && Matches(t, q))
    && (forall k :: k in m && k < n && Matches(m[k], q) ==> m[k] in r)
    && IdsDecreasing(r)
  }

  /** Ids strictly decrease along `r`: youngest first, each document once. */
  predicate IdsDecreasing(r: seq<Todo>)
  {
    forall i, j :: 0 <= i < j < |r| ==> r[i].id > r[j].id
  }

  /** The documents below id `n` that match `q`, youngest first. */
  function NewestFirst(m: map<Id, Todo>, n: nat, q: Index): seq<Todo>
    decreases n
  {
    if n == 0 then []
    else
      var rest := NewestFirst(m, n - 1, q);
      if n - 1 in m && Matches(m[n - 1], q) then [m[n - 1]] + rest else rest
  }

  /** `NewestFirst` is the index read: matching documents only, all of them, youngest first. */
  lemma NewestFirstIsIndexScan(m: map<Id, Todo>, n: nat, q: Index)
    requires KeyedById(m)
    ensures IsIndexScan(NewestFirst(m, n, q), m, n, q)
  {
    ScanSound(m, n, q);
    ScanComplete(m, n, q);
    ScanYoungestFirst(m, n, q);
  }

  /** Everything an index read returns is a stored, matching document below id `n`. */
  lemma {:induction false} ScanSound(m: map<Id, Todo>, n: nat, q: Index)
    requires KeyedById(m)
    ensures forall t :: t in NewestFirst(m, n, q) ==> t.id < n && t.id in m && m[t.id] == t && Matches(t, q)
  {
    if n > 0 {
      ScanSound(m, n - 1, q);
    }
  }

  /** Every stored, matching document below id `n` is returned. */
  lemma {:induction false} ScanComplete(m: map<Id, Todo>, n: nat, q: Index)
    ensures forall k :: k in m && k < n && Matches(m[k], q) ==> m[k] in NewestFirst(m, n, q)
  {
    if n > 0 {
      ScanComplete(m, n - 1, q);
      assert forall t :: t in NewestFirst(m, n - 1, q) ==> t in NewestFirst(m, n, q);
    }
  }

  /** Ids strictly decrease along an index read: youngest first, each document once. */
  lemma {:induction false} ScanYoungestFirst(m: map<Id, Todo>, n: nat, q: Index)
    requires KeyedById(m)
    ensures IdsDecreasing(NewestFirst(m, n, q))
  {
    if n > 0 {
      ScanYoungestFirst(m, n - 1, q);
      var rest := NewestFirst(m, n - 1, q);
      if n - 1 in m && Matches(m[n - 1], q) {
        ScanSound(m, n - 1, q);
        var t := m[n - 1];
        assert t.id == n - 1;
        assert forall j :: 0 <= j < |rest| ==> rest[j] in rest;
        ConsDecreasing(t, rest);
      }
    }
  }

  /** A document younger than everything in a decreasing run can go in front of it. */
  lemma ConsDecreasing(t: Todo, rest: seq<Todo>)
    requires IdsDecreasing(rest)
    requires forall j :: 0 <= j < |rest| ==> rest[j].id < t.id
    ensures IdsDecreasing([t] + rest)
  {
    var r := [t] + rest;
    forall i, j | 0 <= i < j < |r| ensures r[i].id > r[j].id {
      assert r[j] == rest[j - 1];
      if i > 0 {
        assert r[i] == rest[i - 1];
      }
    }
  }

  /** The ids of the documents below id `n` that match `q`. */
  ghost function MatchingIds(m: map<Id, Todo>, n: nat, q: Index): set<Id>
  {
    set k | k in m && k < n && Matches(m[k], q)
  }

  /** Raising the bound by one adds the id `n` exactly when it is stored and matches. */
  lemma MatchingIdsStep(m: map<Id, Todo>, n: nat, q: Index)
    ensures MatchingIds(m, n + 1, q) ==
      MatchingIds(m, n, q) + (if n in m && Matches(m[n], q) then {n} else {})
    ensures n !in MatchingIds(m, n, q)
  {
  }

  /** An index read returns as many documents as there are matching ids. */
  lemma {:induction false} ScanLength(m: map<Id, Todo>, n: nat, q: Index)
    ensures |NewestFirst(m, n, q)| == |MatchingIds(m, n, q)|
  {
    if n == 0 {
      assert MatchingIds(m, n, q) == {};
    } else {
      ScanLength(m, n - 1, q);
      MatchingIdsStep(m, n - 1, q);
    }
  }

  /** An index read only looks at the documents below id `n`. */
  lemma {:induction false} ScanFrame(m1: map<Id, Todo>, m2: map<Id, Todo>, n: nat, q: Index)
    requires forall k :: 0 <= k < n ==> (k in m1 <==> k in m2)
    requires forall k :: 0 <= k < n && k in m1 ==> m1[k] == m2[k]
    ensures NewestFirst(m1, n, q) == NewestFirst(m2, n, q)
  {
    if n > 0 {
      ScanFrame(m1, m2, n - 1, q);
    }
  }

  /** A document inserted under the next id comes first in every index read it matches. */
  lemma InsertComesFirst(m: map<Id, Todo>, n: nat, t: Todo, q: Index)
    requires forall k :: k in m ==> k < n
    ensures NewestFirst(m[n := t], n + 1, q) == (if Matches(t, q) then [t] else []) + NewestFirst(m, n, q)
  {
    ScanFrame(m[n := t], m, n, q);
  }

  /** `ts` keeping only the todos with status `s`, in order (`filter`). */
  function WithStatus(ts: seq<Todo>, s: Status): (r: seq<Todo>)
    ensures |r| <= |ts|
  {
    if ts == [] then []
    else (if ts[0].status == s then [ts[0]] else []) + WithStatus(ts[1..], s)
  }

  /** `ts` keeping only the todos with priority `p`, in order (`filter`). */
  function WithPriority(ts: seq<Todo>, p: Priority): (r: seq<Todo>)
    ensures |r| <= |ts|
  {
    if ts == [] then []
    else (if ts[0].priority == p then [ts[0]] else []) + WithPriority(ts[1..], p)
  }

  /** The (owner, status) index read is the owner's read filtered by status, in the same order. */
  lemma {:induction false} StatusScanIsFilter(m: map<Id, Todo>, n: nat, u: UserId, s: Status)
    ensures NewestFirst(m, n, ByUserAndStatus(u, s)) == WithStatus(NewestFirst(m, n, ByUser(u)), s)
  {
    if n > 0 {
      StatusScanIsFilter(m, n - 1, u, s);
      var all := NewestFirst(m, n, ByUser(u));
      if n - 1 in m && Matches(m[n - 1], ByUser(u)) {
        assert all[1..] == NewestFirst(m, n - 1, ByUser(u));
      }
    }
  }

  /** The (owner, priority) index read is the owner's read filtered by priority, in the same order. */
  lemma {:induction false} PriorityScanIsFilter(m: map<Id, Todo>, n: nat, u: UserId, p: Priority)
    ensures NewestFirst(m, n, ByUserAndPriority(u, p)) == WithPriority(NewestFirst(m, n, ByUser(u)), p)
  {
    if n > 0 {
      PriorityScanIsFilter(m, n - 1, u, p);
      var all := NewestFirst(m, n, ByUser(u));
      if n - 1 in m && Matches(m[n - 1], ByUser(u)) {
        assert all[1..] == NewestFirst(m, n - 1, ByUser(u));
      }
    }
  }

  /** Filtering by status keeps exactly the todos with status `s`. */
  lemma {:induction false} WithStatusMembers(ts: seq<Todo>, s: Status)
    ensures forall t :: t in WithStatus(ts, s) <==> t in ts && t.status == s
  {
    if ts != [] {
      WithStatusMembers(ts[1..], s);
      assert ts == [ts[0]] + ts[1..];
    }
  }

  /** Filtering by status keeps order: a concatenation is filtered part by part. */
  lemma {:induction false} WithStatusConcat(a: seq<Todo>, b: seq<Todo>, s: Status)
    ensures WithStatus(a + b, s) == WithStatus(a, s) + WithStatus(b, s)
  {
    if a == [] {
      assert a + b == b;
    } else {
      var head := if a[0].status == s then [a[0]] else [];
      assert (a + b)[0] == a[0] && (a + b)[1..] == a[1..] + b;
      assert WithStatus(a + b, s) == head + WithStatus(a[1..] + b, s);
      assert WithStatus(a, s) == head + WithStatus(a[1..], s);
      WithStatusConcat(a[1..], b, s);
      assert head + (WithStatus(a[1..], s) + WithStatus(b, s)) == (head + WithStatus(a[1..], s)) + WithStatus(b, s);
    }
  }

  /** Filtering by priority keeps exactly the todos with priority `p`. */
  lemma {:induction false} WithPriorityMembers(ts: seq<Todo>, p: Priority)
    ensures forall t :: t in WithPriority(ts, p) <==> t in ts && t.priority == p
  {
    if ts != [] {
      WithPriorityMembers(ts[1..], p);
      assert ts == [ts[0]] + ts[1..];
    }
  }

  /** Filtering by priority keeps order: a concatenation is filtered part by part. */
  lemma {:induction false} WithPriorityConcat(a: seq<Todo>, b: seq<Todo>, p: Priority)
    ensures WithPriority(a + b, p) == WithPriority(a, p) + WithPriority(b, p)
  {
    if a == [] {
      assert a + b == b;
    } else {
      var head := if a[0].priority == p then [a[0]] else [];
      assert (a + b)[0] == a[0] && (a + b)[1..] == a[1..] + b;
      assert WithPriority(a + b, p) == head + WithPriority(a[1..] + b, p);
      assert WithPriority(a, p) == head + WithPriority(a[1..], p);
      WithPriorityConcat(a[1..], b, p);
      assert head + (WithPriority(a[1..], p) + WithPriority(b, p)) == (head + WithPriority(a[1..], p)) + WithPriority(b, p);
    }
  }

  /** Appending `x` adds its position to those holding status `s` exactly when `x` has status `s`. */
  lemma StatusPositionsStep(ts: seq<Todo>, x: Todo, s: Status)
    ensures |set i | 0 <= i < |ts + [x]| && (ts + [x])[i].status == s| ==
      |set i | 0 <= i < |ts| && ts[i].status == s| + (if x.status == s then 1 else 0)
  {
    var before := set i | 0 <= i < |ts| && ts[i].status == s;
    var after := set i | 0 <= i < |ts + [x]| && (ts + [x])[i].status == s;
    assert after == before + (if x.status == s then {|ts|} else {});
  }

  /** Appending `x` adds its position to those holding priority `p` exactly when `x` has priority `p`. */
  lemma PriorityPositionsStep(ts: seq<Todo>, x: Todo, p: Priority)
    ensures |set i | 0 <= i < |ts + [x]| && (ts + [x])[i].priority == p| ==
      |set i | 0 <= i < |ts| && ts[i].priority == p| + (if x.priority == p then 1 else 0)
  {
    var before := set i | 0 <= i < |ts| && ts[i].priority == p;
    var after := set i | 0 <= i < |ts + [x]| && (ts + [x])[i].priority == p;
    assert after == before + (if x.priority == p then {|ts|} else {});
  }

  /** Appending `x` adds its position to those holding an active todo of priority `p` exactly when `x` is one. */
  lemma ActivePriorityPositionsStep(ts: seq<Todo>, x: Todo, p: Priority)
    ensures |set i | 0 <= i < |ts + [x]| && (ts + [x])[i].status == Active && (ts + [x])[i].priority == p| ==
      |set i | 0 <= i < |ts| && ts[i].status == Active && ts[i].priority == p| +
      (if x.status == Active && x.priority == p then 1 else 0)
  {
    var before := set i | 0 <= i < |ts| && ts[i].status == Active && ts[i].priority == p;
    var after := set i | 0 <= i < |ts + [x]| && (ts + [x])[i].status == Active && (ts + [x])[i].priority == p;
    assert after == before + (if x.status == Active && x.priority == p then {|ts|} else {});
  }

  /** `ts.filter(t => t.status === s).length`: the number of positions of `ts` holding status `s`. */
  lemma {:induction false} WithStatusCount(ts: seq<Todo>, s: Status)
    ensures |WithStatus(ts, s)| == |set i | 0 <= i < |ts| && ts[i].status == s|
  {
    if ts != [] {
      var init, x := ts[..|ts| - 1], ts[|ts| - 1];
      assert init + [x] == ts;
      WithStatusCount(init, s);
      WithStatusConcat(init, [x], s);
      StatusPositionsStep(init, x, s);
    }
  }

  /** `ts.filter(t => t.priority === p).length`: the number of positions of `ts` holding priority `p`. */
  lemma {:induction false} WithPriorityCount(ts: seq<Todo>, p: Priority)
    ensures |WithPriority(ts, p)| == |set i | 0 <= i < |ts| && ts[i].priority == p|
  {
    if ts != [] {
      var init, x := ts[..|ts| - 1], ts[|ts| - 1];
      assert init + [x] == ts;
      WithPriorityCount(init, p);
      WithPriorityConcat(init, [x], p);
      PriorityPositionsStep(init, x, p);
    }
  }

  /** The number of positions of `ts` holding an active todo of priority `p`. */
  lemma {:induction false} ActiveWithPriorityCount(ts: seq<Todo>, p: Priority)
    ensures |WithPriority(WithStatus(ts, Active), p)| ==
      |set i | 0 <= i < |ts| && ts[i].status == Active && ts[i].priority == p|
  {
    if ts != [] {
      var init, x := ts[..|ts| - 1], ts[|ts| - 1];
      assert init + [x] == ts;
      ActiveWithPriorityCount(init, p);
      WithStatusConcat(init, [x], Active);
      WithPriorityConcat(WithStatus(init, Active), WithStatus([x], Active), p);
      assert |WithPriority(WithStatus([x], Active), p)| == if x.status == Active && x.priority == p then 1 else 0;
      ActivePriorityPositionsStep(init, x, p);
    }
  }

  /** Raising the id bound by one adds id `n` to the owner's (status, priority) ids exactly when it belongs there. */
  lemma OwnedIdsStep(m: map<Id, Todo>, n: nat, u: UserId, s: Status, p: Priority)
    ensures |set k | k in m && k < n + 1 && m[k].userId == u && m[k].status == s && m[k].priority == p| ==
      |set k | k in m && k < n && m[k].userId == u && m[k].status == s && m[k].priority == p| +
      (if n in m && m[n].userId == u && m[n].status == s && m[n].priority == p then 1 else 0)
  {
    var before := set k | k in m && k < n && m[k].userId == u && m[k].status == s && m[k].priority == p;
    var after := set k | k in m && k < n + 1 && m[k].userId == u && m[k].status == s && m[k].priority == p;
    assert after == before + (if n in m && m[n].userId == u && m[n].status == s && m[n].priority == p then {n} else {});
  }

  /**
   * Among the owner's todos with status `s`, those with priority `p` are
   * as many as the stored ids below `n` with that owner, status and priority.
   */
  lemma {:induction false} StatusScanPriorityCount(m: map<Id, Todo>, n: nat, u: UserId, s: Status, p: Priority)
    ensures |WithPriority(NewestFirst(m, n, ByUserAndStatus(u, s)), p)| ==
      |set k | k in m && k < n && m[k].userId == u && m[k].status == s && m[k].priority == p|
  {
    if n == 0 {
      assert (set k | k in m && k < n && m[k].userId == u && m[k].status == s && m[k].priority == p) == {};
    } else {
      StatusScanPriorityCount(m, n - 1, u, s, p);
      OwnedIdsStep(m, n - 1, u, s, p);
      var rest := NewestFirst(m, n - 1, ByUserAndStatus(u, s));
      if n - 1 in m && Matches(m[n - 1], ByUserAndStatus(u, s)) {
        assert ([m[n - 1]] + rest)[1..] == rest;
      }
    }
  }

  /**
   * The order of the `by_user_status_and_created` index, descending:
   * `a` comes before `b` when it was created later, or at the same
   * `createdAt` but inserted later.
   */
  predicate CreatedAfter(a: Todo, b: Todo)
  {
    a.createdAt > b.createdAt || (a.createdAt == b.createdAt && a.id > b.id)
  }

  /** No todo of `s` comes after one created later than it. */
  ghost predicate SortedByCreated(s: seq<Todo>)
  {
    forall i, j :: 0 <= i < j < |s| ==> !CreatedAfter(s[j], s[i])
  }

  /** Puts `x` into `s` before the first todo it was created after. */
  function InsertByCreated(x: Todo, s: seq<Todo>): seq<Todo>
  {
    if s == [] || CreatedAfter(x, s[0]) then [x] + s
    else [s[0]] + InsertByCreated(x, s[1..])
  }

  /** Inserting adds exactly `x`. */
  lemma {:induction false} InsertByCreatedAddsOne(x: Todo, s: seq<Todo>)
    ensures multiset(InsertByCreated(x, s)) == multiset(s) + multiset{x}
  {
    if s != [] && !CreatedAfter(x, s[0]) {
      InsertByCreatedAddsOne(x, s[1..]);
      assert s == [s[0]] + s[1..];
    }
  }

  /** Inserting into a sorted sequence keeps it sorted. */
  lemma {:induction false} InsertByCreatedKeepsSorted(x: Todo, s: seq<Todo>)
    requires SortedByCreated(s)
    ensures SortedByCreated(InsertByCreated(x, s))
  {
    if s != [] && !CreatedAfter(x, s[0]) {
      var rest := InsertByCreated(x, s[1..]);
      InsertByCreatedKeepsSorted(x, s[1..]);
      InsertByCreatedAddsOne(x, s[1..]);
      var r := [s[0]] + rest;
      forall e | e in rest ensures !CreatedAfter(e, s[0]) {
        assert e in multiset(rest);
        if e != x {
          assert e in multiset(s[1..]);
          var k :| 0 <= k < |s[1..]| && s[1..][k] == e;
          assert s[k + 1] == e;
        }
      }
      forall i, j | 0 <= i < j < |r| ensures !CreatedAfter(r[j], r[i]) {
        assert r[j] == rest[j - 1];
        if i > 0 {
          assert r[i] == rest[i - 1];
        }
      }
    }
  }

  /** The documents of `s` in `by_user_status_and_created` order. */
  function SortByCreated(s: seq<Todo>): seq<Todo>
  {
    if s == [] then [] else InsertByCreated(s[0], SortByCreated(s[1..]))
  }

  /** Sorting keeps the same documents and puts them in creation order. */
  lemma {:induction false} SortByCreatedSpec(s: seq<Todo>)
    ensures multiset(SortByCreated(s)) == multiset(s)
    ensures SortedByCreated(SortByCreated(s))
  {
    if s != [] {
      SortByCreatedSpec(s[1..]);
      InsertByCreatedAddsOne(s[0], SortByCreated(s[1..]));
      InsertByCreatedKeepsSorted(s[0], SortByCreated(s[1..]));
      assert s == [s[0]] + s[1..];
    }
  }

  /** A sequence already strictly in creation order is left as it is. */
  lemma {:induction false} SortKeepsOrdered(s: seq<Todo>)
    requires forall i, j :: 0 <= i < j < |s| ==> CreatedAfter(s[i], s[j])
    ensures SortByCreated(s) == s
  {
    if s != [] {
      SortKeepsOrdered(s[1..]);
      assert s == [s[0]] + s[1..];
    }
  }

  /** `createdAt` never decreases from an older document to a younger one. */
  ghost predicate ClockMonotone(m: map<Id, Todo>)
  {
    forall a, b :: a in m && b in m && a < b ==> m[a].createdAt <= m[b].createdAt
  }

  /**
   * When timestamps follow insertion order, the created-at index read of a
   * status is the plain (owner, status) read.
   */
  lemma CreatedOrderIsInsertionOrder(m: map<Id, Todo>, n: nat, u: UserId, s: Status)
    requires KeyedById(m)
    ensures ClockMonotone(m) ==>
      SortByCreated(NewestFirst(m, n, ByUserAndStatus(u, s))) == NewestFirst(m, n, ByUserAndStatus(u, s))
  {
    if ClockMonotone(m) {
      var r := NewestFirst(m, n, ByUserAndStatus(u, s));
      NewestFirstIsIndexScan(m, n, ByUserAndStatus(u, s));
      forall i, j | 0 <= i < j < |r| ensures CreatedAfter(r[i], r[j]) {
        assert r[j].id < r[i].id && m[r[j].id] == r[j] && m[r[i].id] == r[i];
      }
      SortKeepsOrdered(r);
    }
  }

  /** The `todos` table. */
  class Table {
    var todos: map<Id, Todo>
    var nextId: nat

    /** Every document sits under its id, and every id in use was handed out already. */
    ghost predicate Valid()
      reads this
    {
      forall k :: k in todos ==> k < nextId && todos[k].id == k
    }

    /** An empty table. */
    constructor ()
      ensures Valid() && todos == map[] && nextId == 0
    {
      todos := map[];
      nextId := 0;
    }

    /**
     * `createTodo`: stores every supplied field under a fresh id, with
     * `createdAt` and `updatedAt` both set to `now`.
     */
    method CreateTodo(args: NewTodo, now: int) returns (id: Id)
      requires Valid()
      modifies this
      ensures Valid()
      ensures id == old(nextId) && id !in old(todos) && nextId == old(nextId) + 1
      ensures todos == old(todos)[id := Todo(id, args.userId, args.title, args.description, args.status,
                                                 args.dueDate, args.priority, now, now)]
    {
      id := nextId;
      todos := todos[id := Todo(id, args.userId, args.title, args.description, args.status,
                                args.dueDate, args.priority, now, now)];
      nextId := nextId + 1;
    }

    /** `getTodoById`: the stored document with that id, if there is one. */
    function GetTodoById(id: Id): (r: Option<Todo>)
      reads this
      requires Valid()
      ensures r.Some? <==> id in todos
      ensures r.Some? ==> r.value == todos[id] && r.value.id == id
    {
      if id in todos then Some(todos[id]) else None
    }

    /** `getTodosByUser`: the owner's todos, each once, youngest first. */
    function GetTodosByUser(userId: UserId): (r: seq<Todo>)
      reads this
      requires Valid()
      ensures IsIndexScan(r, todos, nextId, ByUser(userId))
    {
      NewestFirstIsIndexScan(todos, nextId, ByUser(userId));
      NewestFirst(todos, nextId, ByUser(userId))
    }

    /** `getTodosByUserAndStatus`: the owner's todos with that status, youngest first. */
    function GetTodosByUserAndStatus(userId: UserId, status: Status): (r: seq<Todo>)
      reads this
      requires Valid()
      ensures IsIndexScan(r, todos, nextId, ByUserAndStatus(userId, status))
      ensures r == WithStatus(GetTodosByUser(userId), status)
    {
      StatusScanIsFilter(todos, nextId, userId, status);
      NewestFirstIsIndexScan(todos, nextId, ByUserAndStatus(userId, status));
      NewestFirst(todos, nextId, ByUserAndStatus(userId, status))
    }

    /** `getTodosByUserAndPriority`: the owner's todos with that priority, youngest first. */
    function GetTodosByUserAndPriority(userId: UserId, priority: Priority): (r: seq<Todo>)
      reads this
      requires Valid()
      ensures IsIndexScan(r, todos, nextId, ByUserAndPriority(userId, priority))
      ensures r == WithPriority(GetTodosByUser(userId), priority)
    {
      PriorityScanIsFilter(todos, nextId, userId, priority);
      NewestFirstIsIndexScan(todos, nextId, ByUserAndPriority(userId, priority));
      NewestFirst(todos, nextId, ByUserAndPriority(userId, priority))
    }

    /**
     * `getActiveTodosByUser`: the owner's active todos in the order of the
     * `by_user_status_and_created` index, latest `createdAt` first.
     */
    function GetActiveTodosByUser(userId: UserId): (r: seq<Todo>)
      reads this
      requires Valid()
      ensures multiset(r) == multiset(GetTodosByUserAndStatus(userId, Active))
      ensures SortedByCreated(r)
      ensures ClockMonotone(todos) ==> r == GetTodosByUserAndStatus(userId, Active)
    {
      CreatedOrderIsInsertionOrder(todos, nextId, userId, Active);
      SortByCreatedSpec(NewestFirst(todos, nextId, ByUserAndStatus(userId, Active)));
      SortByCreated(NewestFirst(todos, nextId, ByUserAndStatus(userId, Active)))
    }

    /**
     * `updateTodo`: patches the supplied fields and `updatedAt`. A missing id
     * makes the store raise, which aborts the mutation: nothing changes.
     */
    method UpdateTodo(id: Id, patch: Patch, now: int) returns (found: bool)
      requires Valid()
      modifies this
      ensures Valid() && nextId == old(nextId)
      ensures found <==> id in old(todos)
      ensures todos == if found then old(todos)[id := ApplyPatch(old(todos)[id], patch, now)] else old(todos)
    {
      found := id in todos;
      if found {
        todos := todos[id := ApplyPatch(todos[id], patch, now)];
      }
    }

    /**
     * `deleteTodo`: removes the document for good. A missing id makes the
     * store raise, which aborts the mutation: nothing changes.
     */
    method DeleteTodo(id: Id) returns (found: bool)
      requires Valid()
      modifies this
      ensures Valid() && nextId == old(nextId)
      ensures found <==> id in old(todos)
      ensures todos == old(todos) - {id}
    {
      found := id in todos;
      todos := todos - {id};
    }

    /** `countTodosByUser`: how many stored todos the user owns. */
    function CountTodosByUser(userId: UserId): (n: nat)
      reads this
      requires Valid()
      ensures n == |set k | k in todos && todos[k].userId == userId|
    {
      ScanLength(todos, nextId, ByUser(userId));
      assert MatchingIds(todos, nextId, ByUser(userId)) == set k | k in todos && todos[k].userId == userId;
      |GetTodosByUser(userId)|
    }

    /** `countActiveTodosByUser`: how many of the user's stored todos are active. */
    function CountActiveTodosByUser(userId: UserId): (n: nat)
      reads this
      requires Valid()
      ensures n == |set k | k in todos && todos[k].userId == userId && todos[k].status == Active|
    {
      ScanLength(todos, nextId, ByUserAndStatus(userId, Active));
      assert MatchingIds(todos, nextId, ByUserAndStatus(userId, Active)) ==
        set k | k in todos && todos[k].userId == userId && todos[k].status == Active;
      var active := GetActiveTodosByUser(userId);
      assert |active| == |multiset(active)|;
      |active|
    }
  }
}
