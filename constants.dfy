/**
 * Application constants of the todo domain: the field limits, the two
 * enumerations and the status lifecycle table (convex/helpers/constants.ts).
 */
module Constants {
  import opened Wrappers

  const MAX_TITLE_LENGTH: nat := 200
  const MAX_DESCRIPTION_LENGTH: nat := 2000

  /** The `TodoStatus` union type. */
  datatype Status = Active | Completed | Archived

  /** The `TodoPriority` union type. */
  datatype Priority = Low | Medium | High

  /** The string literal each status is written as. */
  function StatusName(s: Status): string
  {
    match s
    case Active => "active"
    case Completed => "completed"
    case Archived => "archived"
  }

  /** The string literal each priority is written as. */
  function PriorityName(p: Priority): string
  {
    match p
    case Low => "low"
    case Medium => "medium"
    case High => "high"
  }

  const TODO_STATUSES: seq<string> := ["active", "completed", "archived"]
  const TODO_PRIORITIES: seq<string> := ["low", "medium", "high"]

  /** Narrows a string to the status it names, if it names one. */
  function ParseStatus(s: string): (r: Option<Status>)
    ensures r.Some? <==> s in TODO_STATUSES
    ensures r.Some? ==> StatusName(r.value) == s
    ensures forall st :: StatusName(st) == s ==> r == Some(st)
  {
    if s == "active" then Some(Active)
    else if s == "completed" then Some(Completed)
    else if s == "archived" then Some(Archived)
    else None
  }

  /** Narrows a string to the priority it names, if it names one. */
  function ParsePriority(s: string): (r: Option<Priority>)
    ensures r.Some? <==> s in TODO_PRIORITIES
    ensures r.Some? ==> PriorityName(r.value) == s
    ensures forall p :: PriorityName(p) == s ==> r == Some(p)
  {
    if s == "low" then Some(Low)
    else if s == "medium" then Some(Medium)
    else if s == "high" then Some(High)
    else None
  }

  /** `STATUS_TRANSITIONS`: the legal successors of each status. */
  const STATUS_TRANSITIONS: map<Status, seq<Status>> :=
    map[Active := [Completed, Archived],
        Completed := [Active, Archived],
        Archived := [Active]]

  /**
   * `isValidStatusTransition`: table lookup, with `false` for a status the
   * table has no entry for. The table forbids exactly the self moves and
   * the move from archived back to completed.
   */
  function IsValidStatusTransition(from: Status, to: Status): (ok: bool)
    ensures ok <==> from != to && !(from == Archived && to == Completed)
  {
    assert from.Active? || from.Completed? || from.Archived?;
    if from in STATUS_TRANSITIONS then to in STATUS_TRANSITIONS[from] else false
  }

  /** The table has an entry for every status, so the `?? false` fallback is never taken. */
  lemma TransitionTableIsTotal(s: Status)
    ensures s in STATUS_TRANSITIONS
    ensures IsValidStatusTransition(s, s) == false
    ensures forall t :: IsValidStatusTransition(s, t) <==> t in STATUS_TRANSITIONS[s]
  {
  }

  /** The legal moves are exactly the five listed edges. */
  lemma LegalMovesExactly(from: Status, to: Status)
    ensures IsValidStatusTransition(from, to) <==>
      (from, to) in {(Active, Completed), (Active, Archived),
                     (Completed, Active), (Completed, Archived),
                     (Archived, Active)}
  {
  }

  /** archived -> completed is the only move between different statuses that the table forbids. */
  lemma OnlyArchivedToCompletedForbidden(from: Status, to: Status)
    requires from != to
    ensures !IsValidStatusTransition(from, to) <==> from == Archived && to == Completed
  {
  }

  /** Every status has a legal way out. */
  lemma EveryStatusHasSuccessor(from: Status)
    ensures exists to :: IsValidStatusTransition(from, to)
  {
    var to := if from == Active then Completed else Active;
    assert IsValidStatusTransition(from, to);
  }

  /** Every status reaches every other one in at most two legal moves. */
  lemma ReachableInTwoMoves(from: Status, to: Status)
    requires from != to
    ensures IsValidStatusTransition(from, to) ||
            exists via :: IsValidStatusTransition(from, via) && IsValidStatusTransition(via, to)
  {
    if from == Archived && to == Completed {
      assert IsValidStatusTransition(Archived, Active) && IsValidStatusTransition(Active, Completed);
    }
  }

  /** The enumerations' literals, in declaration order. */
  lemma NamesMatchLiterals()
    ensures TODO_STATUSES == [StatusName(Active), StatusName(Completed), StatusName(Archived)]
    ensures TODO_PRIORITIES == [PriorityName(Low), PriorityName(Medium), PriorityName(High)]
    ensures forall s :: ParseStatus(StatusName(s)) == Some(s)
    ensures forall p :: ParsePriority(PriorityName(p)) == Some(p)
  {
  }
}
