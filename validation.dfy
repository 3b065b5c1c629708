/**
 * Field validators for todo input (convex/helpers/validation.ts): pure
 * predicates over each field and the two composite checks, which report
 * the first rule that fails.
 */
module Validation {
  import opened Wrappers
  import opened Constants
  import opened JsString

  /** `{ valid, error? }` as the composite validators return it. */
  datatype Validation = Validation(valid: bool, error: Option<string>)

  const TITLE_ERROR: string := "Title must be between 1 and 200 characters"
  const DESCRIPTION_ERROR: string := "Description must be under 2000 characters"
  const DUE_DATE_ERROR: string := "Due date must be in the future"
  const STATUS_ERROR: string := "Status must be active, completed, or archived"
  const PRIORITY_ERROR: string := "Priority must be low, medium, or high"

  /**
   * `isValidTitle`: the trimmed title must be non-empty, while the 200 limit
   * applies to the untrimmed length.
   */
  function IsValidTitle(title: string): (ok: bool)
    ensures ok <==> HasNonWhitespace(title) && Utf16Length(title) <= MAX_TITLE_LENGTH
  {
    TrimLengthPositiveIffNotBlank(title);
    Utf16Length(Trim(title)) > 0 && Utf16Length(title) <= 200
  }

  /**
   * `isValidDescription`: an absent or empty description is accepted
   * (`!description`), any other must fit in 2000 code units. The empty case
   * would pass the length test anyway.
   */
  function IsValidDescription(description: Option<string>): (ok: bool)
    ensures ok <==> description.None? || Utf16Length(description.value) <= MAX_DESCRIPTION_LENGTH
  {
    match description
    case None => true
    case Some(d) => if d == [] then true else Utf16Length(d) <= 2000
  }

  /**
   * `isValidDueDate`: an absent due date and the falsy timestamp 0 are
   * accepted; any other must lie strictly after `now`.
   */
  function IsValidDueDate(dueDate: Option<int>, now: int): (ok: bool)
    ensures dueDate.Some? && dueDate.value != 0 ==> (ok <==> now < dueDate.value)
    ensures dueDate.None? || dueDate == Some(0) ==> ok
  {
    match dueDate
    case None => true
    case Some(d) => if d == 0 then true else d > now
  }

  /** `isValidStatus`: exactly the three status literals. */
  function IsValidStatus(status: string): (ok: bool)
    ensures ok <==> ParseStatus(status).Some?
    ensures ok <==> exists s :: StatusName(s) == status
  {
    assert ParseStatus(status).Some? ==> StatusName(ParseStatus(status).value) == status;
    status in ["active", "completed", "archived"]
  }

  /** `isValidPriority`: exactly the three priority literals. */
  function IsValidPriority(priority: string): (ok: bool)
    ensures ok <==> ParsePriority(priority).Some?
    ensures ok <==> exists p :: PriorityName(p) == priority
  {
    assert ParsePriority(priority).Some? ==> PriorityName(ParsePriority(priority).value) == priority;
    priority in ["low", "medium", "high"]
  }

  /** Every status name and every priority name passes its validator. */
  lemma EnumNamesAreValid()
    ensures forall s :: IsValidStatus(StatusName(s))
    ensures forall p :: IsValidPriority(PriorityName(p))
  {
    forall s ensures IsValidStatus(StatusName(s)) {
      match s
      case Active => assert StatusName(s) == TODO_STATUSES[0];
      case Completed => assert StatusName(s) == TODO_STATUSES[1];
      case Archived => assert StatusName(s) == TODO_STATUSES[2];
    }
    forall p ensures IsValidPriority(PriorityName(p)) {
      match p
      case Low => assert PriorityName(p) == TODO_PRIORITIES[0];
      case Medium => assert PriorityName(p) == TODO_PRIORITIES[1];
      case High => assert PriorityName(p) == TODO_PRIORITIES[2];
    }
  }

  /** One rule of a composite check: whether it passed and what to report if not. */
  datatype Check = Check(passed: bool, message: string)

  /**
   * Reference semantics of an if-chain of early returns: valid when every
   * rule passes, otherwise the message of the first rule that fails.
   */
  function FirstFailure(checks: seq<Check>): Validation
  {
    if checks == [] then Validation(true, None)
    else if !checks[0].passed then Validation(false, Some(checks[0].message))
    else FirstFailure(checks[1..])
  }

  /**
   * What the first-failure reading promises: an error exactly when some
   * rule fails, and then the message of the earliest failing rule.
   */
  lemma {:induction false} FirstFailureSpec(checks: seq<Check>)
    ensures FirstFailure(checks).valid <==> FirstFailure(checks).error.None?
    ensures FirstFailure(checks).valid <==> forall i :: 0 <= i < |checks| ==> checks[i].passed
    ensures !FirstFailure(checks).valid ==>
      (exists i :: 0 <= i < |checks| && !checks[i].passed &&
         (forall j :: 0 <= j < i ==> checks[j].passed) &&
         FirstFailure(checks).error == Some(checks[i].message))
  {
    if checks != [] && checks[0].passed {
      var rest := checks[1..];
      FirstFailureSpec(rest);
      assert forall i :: 1 <= i < |checks| ==> checks[i] == rest[i - 1];
      if !FirstFailure(rest).valid {
        var i :| 0 <= i < |rest| && !rest[i].passed &&
          (forall j :: 0 <= j < i ==> rest[j].passed) && FirstFailure(rest).error == Some(rest[i].message);
        assert !checks[i + 1].passed && forall j :: 0 <= j < i + 1 ==> checks[j].passed;
      }
    }
  }

  /** The arguments of `validateTodoCreate`. */
  datatype CreateFields = CreateFields(title: string, description: Option<string>, dueDate: Option<int>, priority: string)

  /** The arguments of `validateTodoUpdate`: every field optional. */
  datatype UpdateFields = UpdateFields(title: Option<string>, description: Option<string>, status: Option<string>,
                                       dueDate: Option<int>, priority: Option<string>)

  /** The rules of `validateTodoCreate`, in the order they are tried. */
  function CreateChecks(args: CreateFields, now: int): seq<Check>
  {
    [Check(IsValidTitle(args.title), TITLE_ERROR),
     Check(IsValidDescription(args.description), DESCRIPTION_ERROR),
     Check(IsValidDueDate(args.dueDate, now), DUE_DATE_ERROR),
     Check(IsValidPriority(args.priority), PRIORITY_ERROR)]
  }

  /** The rules of `validateTodoUpdate`, in the order they are tried; an absent field passes. */
  function UpdateChecks(args: UpdateFields, now: int): seq<Check>
  {
    [Check(args.title.None? || IsValidTitle(args.title.value), TITLE_ERROR),
     Check(args.description.None? || IsValidDescription(args.description), DESCRIPTION_ERROR),
     Check(args.status.None? || IsValidStatus(args.status.value), STATUS_ERROR),
     Check(args.dueDate.None? || IsValidDueDate(args.dueDate, now), DUE_DATE_ERROR),
     Check(args.priority.None? || IsValidPriority(args.priority.value), PRIORITY_ERROR)]
  }

  /**
   * `validateTodoCreate`: valid iff title, description, due date and
   * priority all pass; otherwise exactly one error, that of the first
   * failing rule in the order title, description, due date, priority.
   */
  function ValidateTodoCreate(args: CreateFields, now: int): (r: Validation)
    ensures r.valid <==> r.error.None?
    ensures r.valid <==> IsValidTitle(args.title) && IsValidDescription(args.description) &&
                         IsValidDueDate(args.dueDate, now) && IsValidPriority(args.priority)
  {
    if !IsValidTitle(args.title) then Validation(false, Some(TITLE_ERROR))
    else if !IsValidDescription(args.description) then Validation(false, Some(DESCRIPTION_ERROR))
    else if !IsValidDueDate(args.dueDate, now) then Validation(false, Some(DUE_DATE_ERROR))
    else if !IsValidPriority(args.priority) then Validation(false, Some(PRIORITY_ERROR))
    else Validation(true, None)
  }

  /**
   * `validateTodoUpdate`: only the fields present are checked, in the order
   * title, description, status, due date, priority; the first failure is
   * reported.
   */
  function ValidateTodoUpdate(args: UpdateFields, now: int): (r: Validation)
    ensures r.valid <==> r.error.None?
    ensures r.valid <==>
      (args.title.None? || IsValidTitle(args.title.value)) &&
      (args.description.None? || IsValidDescription(args.description)) &&
      (args.status.None? || IsValidStatus(args.status.value)) &&
      (args.dueDate.None? || IsValidDueDate(args.dueDate, now)) &&
      (args.priority.None? || IsValidPriority(args.priority.value))
  {
    if args.title.Some? && !IsValidTitle(args.title.value) then Validation(false, Some(TITLE_ERROR))
    else if args.description.Some? && !IsValidDescription(args.description) then Validation(false, Some(DESCRIPTION_ERROR))
    else if args.status.Some? && !IsValidStatus(args.status.value) then Validation(false, Some(STATUS_ERROR))
    else if args.dueDate.Some? && !IsValidDueDate(args.dueDate, now) then Validation(false, Some(DUE_DATE_ERROR))
    else if args.priority.Some? && !IsValidPriority(args.priority.value) then Validation(false, Some(PRIORITY_ERROR))
    else Validation(true, None)
  }

  /** `validateTodoCreate` is the first-failure reading of its four rules. */
  lemma CreateIsFirstFailure(args: CreateFields, now: int)
    ensures ValidateTodoCreate(args, now) == FirstFailure(CreateChecks(args, now))
  {
    var c0 := Check(IsValidTitle(args.title), TITLE_ERROR);
    var c1 := Check(IsValidDescription(args.description), DESCRIPTION_ERROR);
    var c2 := Check(IsValidDueDate(args.dueDate, now), DUE_DATE_ERROR);
    var c3 := Check(IsValidPriority(args.priority), PRIORITY_ERROR);
    FirstFailureOfFour(c0, c1, c2, c3);
    assert CreateChecks(args, now) == [c0, c1, c2, c3];
  }

  /** `validateTodoUpdate` is the first-failure reading of its five rules. */
  lemma UpdateIsFirstFailure(args: UpdateFields, now: int)
    ensures ValidateTodoUpdate(args, now) == FirstFailure(UpdateChecks(args, now))
  {
    var c0 := Check(args.title.None? || IsValidTitle(args.title.value), TITLE_ERROR);
    var c1 := Check(args.description.None? || IsValidDescription(args.description), DESCRIPTION_ERROR);
    var c2 := Check(args.status.None? || IsValidStatus(args.status.value), STATUS_ERROR);
    var c3 := Check(args.dueDate.None? || IsValidDueDate(args.dueDate, now), DUE_DATE_ERROR);
    var c4 := Check(args.priority.None? || IsValidPriority(args.priority.value), PRIORITY_ERROR);
    FirstFailureOfFour(c1, c2, c3, c4);
    FirstFailureCons(c0, [c1, c2, c3, c4]);
    assert UpdateChecks(args, now) == [c0] + [c1, c2, c3, c4];
  }

  /** Four rules read first-failure are four early returns. */
  lemma FirstFailureOfFour(c0: Check, c1: Check, c2: Check, c3: Check)
    ensures FirstFailure([c0, c1, c2, c3]) ==
      if !c0.passed then Validation(false, Some(c0.message))
      else if !c1.passed then Validation(false, Some(c1.message))
      else if !c2.passed then Validation(false, Some(c2.message))
      else if !c3.passed then Validation(false, Some(c3.message))
      else Validation(true, None)
  {
    FirstFailureCons(c3, []);
    FirstFailureCons(c2, [c3]);
    FirstFailureCons(c1, [c2, c3]);
    FirstFailureCons(c0, [c1, c2, c3]);
    assert [c3] + [] == [c3];
    assert [c2] + [c3] == [c2, c3];
    assert [c1] + [c2, c3] == [c1, c2, c3];
    assert [c0] + [c1, c2, c3] == [c0, c1, c2, c3];
  }

  /** One rule in front of the others is tried first. */
  lemma FirstFailureCons(c: Check, rest: seq<Check>)
    ensures FirstFailure([c] + rest) ==
      if !c.passed then Validation(false, Some(c.message)) else FirstFailure(rest)
  {
    assert ([c] + rest)[1..] == rest;
  }

  /** An update that carries no field is always valid. */
  lemma EmptyUpdateIsValid(now: int)
    ensures ValidateTodoUpdate(UpdateFields(None, None, None, None, None), now) == Validation(true, None)
  {
  }

  /** Title boundaries: for a non-blank title, 200 code units pass and 201 fail; a blank title fails. */
  lemma TitleBoundaries(title: string)
    ensures HasNonWhitespace(title) && Utf16Length(title) == 200 ==> IsValidTitle(title)
    ensures Utf16Length(title) == 201 ==> !IsValidTitle(title)
    ensures !HasNonWhitespace(title) ==> !IsValidTitle(title)
  {
  }

  /** A concrete witness: two hundred letters pass, two hundred and one do not, blanks never do. */
  lemma {:induction false} TitleLengthExamples()
    ensures IsValidTitle(seq(200, _ => 'a'))
    ensures !IsValidTitle(seq(201, _ => 'a'))
    ensures !IsValidTitle(seq(200, _ => ' '))
  {
    var a200 := seq(200, _ => 'a');
    var a201 := seq(201, _ => 'a');
    var b200 := seq(200, _ => ' ');
    BmpLength(a200);
    BmpLength(a201);
    assert !IsWhitespace(a200[0]);
    assert forall i :: 0 <= i < |b200| ==> IsWhitespace(b200[i]);
  }

  /** Description boundaries: 2000 code units pass, 2001 fail, absent and empty pass. */
  lemma DescriptionBoundaries(d: string)
    ensures Utf16Length(d) == 2000 ==> IsValidDescription(Some(d))
    ensures Utf16Length(d) == 2001 ==> !IsValidDescription(Some(d))
    ensures IsValidDescription(None) && IsValidDescription(Some(""))
  {
  }

  /** Due-date boundaries: `now` itself fails, one millisecond later passes, 0 passes. */
  lemma DueDateBoundaries(now: int)
    ensures now != 0 ==> !IsValidDueDate(Some(now), now)
    ensures now + 1 != 0 ==> IsValidDueDate(Some(now + 1), now)
    ensures IsValidDueDate(Some(0), now) && IsValidDueDate(None, now)
  {
  }
}
