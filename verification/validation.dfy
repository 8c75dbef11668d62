/**
 * The checks that POST /api/reminders applies to a submitted batch before anything
 * is stored (backend/server.js, lines 60-98).
 */
module Validation {
  import opened Common
  import opened Email

  /**
   * One element of the submitted `reminders` array, as the server reads it. Each
   * field is absent (missing or null) or a string.
   */
  datatype Candidate = Candidate(
    eventName: Option<string>,
    eventDate: Option<string>,
    customerEmail: Option<string>,
    eventType: Option<string>,
    otherEventType: Option<string>)

  /** The `reminders` member of the request body. */
  datatype BatchField = Missing | NotAnArray | Items(records: seq<Candidate>)

  /** The rule that turned a request away; each has its own 400 message. */
  datatype ValidationError =
    | InvalidReminderData
    | MissingRequiredField
    | InvalidEmail
    | MissingOtherType

  /** The message the endpoint sends with status 400 for each rule. */
  function Message(e: ValidationError): (m: string)
    ensures m != ""
  {
    match e
    case InvalidReminderData => "Invalid reminder data"
    case MissingRequiredField => "All required fields must be provided"
    case InvalidEmail => "Invalid email format"
    case MissingOtherType => "Please specify the other event type"
  }

  /** JavaScript truthiness of a string-valued field: absent and "" are falsy. */
  predicate Truthy(v: Option<string>) {
    v.Some? && v.value != ""
  }

  /** The four fields every record must carry with a truthy value. */
  predicate HasRequiredFields(c: Candidate) {
    Truthy(c.eventName) && Truthy(c.eventDate) && Truthy(c.customerEmail) && Truthy(c.eventType)
  }

  /** The first rule that `c` breaks, in the order the endpoint tests them, or None. */
  function CheckRecord(c: Candidate): (r: Option<ValidationError>)
    ensures r != Some(InvalidReminderData)
    ensures r == None ==> HasRequiredFields(c)
  {
    if !HasRequiredFields(c) then Some(MissingRequiredField)
    else if !MatchesEmailPattern(c.customerEmail.value) then Some(InvalidEmail)
    else if c.eventType == Some("Other") && !Truthy(c.otherEventType) then Some(MissingOtherType)
    else None
  }

  /** The verdict for the first record of `records` that breaks a rule, or None. */
  function FirstFailure(records: seq<Candidate>): (r: Option<ValidationError>)
    ensures r == None <==> forall k :: 0 <= k < |records| ==> CheckRecord(records[k]) == None
  {
    if |records| == 0 then None
    else if CheckRecord(records[0]).Some? then CheckRecord(records[0])
    else FirstFailure(records[1..])
  }

  /** The verdict on a whole request body: None means the batch is inserted. */
  function CheckBody(body: BatchField): (r: Option<ValidationError>)
    ensures r == None ==> body.Items? && |body.records| > 0
    ensures r == None ==> forall k :: 0 <= k < |body.records| ==> HasRequiredFields(body.records[k])
  {
    match body
    case Missing => Some(InvalidReminderData)
    case NotAnArray => Some(InvalidReminderData)
    case Items(records) =>
      if |records| == 0 then Some(InvalidReminderData) else FirstFailure(records)
  }

  /**
   * The validation loop of the endpoint: visit the records in order and stop at
   * the first rule broken, returning its verdict.
   */
  method ValidateEach(records: seq<Candidate>) returns (err: Option<ValidationError>)
    ensures err == FirstFailure(records)
  {
    for i := 0 to |records|
      invariant FirstFailure(records) == FirstFailure(records[i..])
    {
      assert records[i..][1..] == records[i + 1..];
      var reminder := records[i];
      if !Truthy(reminder.eventName) || !Truthy(reminder.eventDate)
        || !Truthy(reminder.customerEmail) || !Truthy(reminder.eventType)
      {
        return Some(MissingRequiredField);
      }
      if !MatchesEmailPattern(reminder.customerEmail.value) {
        return Some(InvalidEmail);
      }
      if reminder.eventType == Some("Other") && !Truthy(reminder.otherEventType) {
        return Some(MissingOtherType);
      }
    }
    assert records[|records|..] == [];
    return None;
  }

  /** Each verdict of CheckRecord, stated by the rules that lead to it. */
  lemma CheckRecordVerdicts(c: Candidate)
    ensures CheckRecord(c) == Some(MissingRequiredField) <==> !HasRequiredFields(c)
    ensures CheckRecord(c) == Some(InvalidEmail) <==>
      HasRequiredFields(c) && !IsWellFormedEmail(c.customerEmail.value)
    ensures CheckRecord(c) == Some(MissingOtherType) <==>
      HasRequiredFields(c) && IsWellFormedEmail(c.customerEmail.value) &&
      c.eventType == Some("Other") && !Truthy(c.otherEventType)
    ensures CheckRecord(c) == None <==>
      HasRequiredFields(c) && IsWellFormedEmail(c.customerEmail.value) &&
      (c.eventType == Some("Other") ==> Truthy(c.otherEventType))
  {
    if HasRequiredFields(c) {
      PatternIsWellFormedEmail(c.customerEmail.value);
    }
  }

  /** "Other" without a truthy specification is turned away, whatever the other fields hold. */
  lemma OtherWithoutSpecificationRejected(c: Candidate)
    requires c.eventType == Some("Other") && !Truthy(c.otherEventType)
    ensures CheckRecord(c).Some?
  {
  }

  /** Any truthy type other than "Other" passes the third rule, with or without otherEventType. */
  lemma OrdinaryTypePassesTypeRule(c: Candidate)
    requires Truthy(c.eventType) && c.eventType != Some("Other")
    ensures CheckRecord(c) != Some(MissingOtherType)
  {
  }

  /** A failure is the verdict of some record all of whose predecessors pass. */
  lemma {:induction false} FirstFailureLocated(records: seq<Candidate>)
    requires FirstFailure(records).Some?
    ensures exists k :: 0 <= k < |records| && CheckRecord(records[k]) == FirstFailure(records) &&
                        (forall l :: 0 <= l < k ==> CheckRecord(records[l]) == None)
  {
    if CheckRecord(records[0]).Some? {
      assert CheckRecord(records[0]) == FirstFailure(records);
    } else {
      FirstFailureLocated(records[1..]);
      var k :| 0 <= k < |records[1..]| && CheckRecord(records[1..][k]) == FirstFailure(records[1..]) &&
               (forall l :: 0 <= l < k ==> CheckRecord(records[1..][l]) == None);
      assert CheckRecord(records[k + 1]) == FirstFailure(records);
      forall l | 0 <= l < k + 1
        ensures CheckRecord(records[l]) == None
      {
        if l > 0 { assert records[l] == records[1..][l - 1]; }
      }
    }
  }

  /**
   * All or nothing: a body is accepted exactly when it is a non-empty array every
   * record of which passes; one failing record turns the whole batch away.
   */
  lemma AcceptedIff(body: BatchField)
    ensures CheckBody(body) == None <==>
      body.Items? && |body.records| > 0 &&
      forall k :: 0 <= k < |body.records| ==> CheckRecord(body.records[k]) == None
  {
  }

  /** A missing, non-array or empty `reminders` gets "Invalid reminder data". */
  lemma MalformedBodyRejected(body: BatchField)
    requires !body.Items? || |body.records| == 0
    ensures CheckBody(body) == Some(InvalidReminderData)
    ensures Message(CheckBody(body).value) == "Invalid reminder data"
  {
  }
}
