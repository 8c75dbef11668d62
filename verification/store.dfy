/**
 * The reminder collection and the two things that change it: the batch insert
 * behind POST /api/reminders and the daily dispatch job (backend/server.js,
 * lines 25-54, 60-98 and 110-171). Instants are integers in milliseconds.
 */
module Store {
  import opened Common
  import opened Validation

  /** One stored reminder document. `id` stands for the generated `_id`. */
  datatype Reminder = Reminder(
    id: nat,
    eventName: string,
    eventDate: int,
    customerEmail: string,
    eventType: string,
    otherEventType: Option<string>,
    isReminderSent: bool,
    createdAt: int)

  /** What the endpoint answers: 201 with the saved documents, or 400 with a message. */
  datatype Response = Created(saved: seq<Reminder>) | BadRequest(message: string)

  /** Length of the dispatch window: one day. */
  const DayMillis: int := 86_400_000

  /**
   * The document stored for an accepted candidate: the schema's defaults give
   * `otherEventType` null when absent and `isReminderSent` false; `createdAt` is
   * the insertion instant. `toInstant` is the cast of the date text to an instant.
   */
  function ToRecord(c: Candidate, id: nat, now: int, toInstant: string -> int): (r: Reminder)
    requires HasRequiredFields(c)
  {
    Reminder(id, c.eventName.value, toInstant(c.eventDate.value), c.customerEmail.value,
             c.eventType.value, c.otherEventType, false, now)
  }

  /** The documents `insertMany` creates for `batch` when the table already holds `base` of them. */
  function NewRecords(batch: seq<Candidate>, base: nat, now: int, toInstant: string -> int): (rs: seq<Reminder>)
    requires forall k :: 0 <= k < |batch| ==> HasRequiredFields(batch[k])
    ensures |rs| == |batch|
    ensures forall k :: 0 <= k < |rs| ==> rs[k].id == base + k && !rs[k].isReminderSent
  {
    seq(|batch|, k requires 0 <= k < |batch| => ToRecord(batch[k], base + k, now, toInstant))
  }

  /** The label the reminder mail shows as the event type. */
  function EventTypeLabel(r: Reminder): Option<string>
  {
    if r.eventType == "Other" then r.otherEventType else Some(r.eventType)
  }

  /** The job's query: not yet sent and dated in [todayStart, todayStart + 1 day). */
  predicate Due(r: Reminder, todayStart: int) {
    !r.isReminderSent && todayStart <= r.eventDate < todayStart + DayMillis
  }

  /** Positions, in increasing order, of the due records among the first n. */
  function DuePrefix(rows: seq<Reminder>, n: nat, todayStart: int): (ids: seq<nat>)
    requires n <= |rows|
    ensures forall k :: 0 <= k < |ids| ==> ids[k] < n
  {
    if n == 0 then []
    else DuePrefix(rows, n - 1, todayStart) + (if Due(rows[n - 1], todayStart) then [n - 1] else [])
  }

  /**
   * The prefix query selects exactly the due records among the first n, each
   * once, in increasing position.
   */
  lemma {:induction false} DuePrefixSelects(rows: seq<Reminder>, n: nat, todayStart: int)
    requires n <= |rows|
    ensures forall k :: 0 <= k < |DuePrefix(rows, n, todayStart)| ==>
      Due(rows[DuePrefix(rows, n, todayStart)[k]], todayStart)
    ensures forall k, l :: 0 <= k < l < |DuePrefix(rows, n, todayStart)| ==>
      DuePrefix(rows, n, todayStart)[k] < DuePrefix(rows, n, todayStart)[l]
    ensures forall j :: 0 <= j < n ==> (j in DuePrefix(rows, n, todayStart) <==> Due(rows[j], todayStart))
  {
    if n > 0 {
      DuePrefixSelects(rows, n - 1, todayStart);
    }
  }

  /** Positions of all due records, in table order: what the job's query returns. */
  function DueIndices(rows: seq<Reminder>, todayStart: int): seq<nat>
  {
    DuePrefix(rows, |rows|, todayStart)
  }

  /**
   * The table after one run of the job, `deliver` saying whether sending the
   * mail for a record (and marking it) succeeded.
   */
  function AfterDispatch(rows: seq<Reminder>, todayStart: int, deliver: Reminder -> bool): seq<Reminder>
  {
    seq(|rows|, j requires 0 <= j < |rows| =>
      if Due(rows[j], todayStart) && deliver(rows[j]) then rows[j].(isReminderSent := true) else rows[j])
  }

  /** The reminder collection. */
  class ReminderStore {
    var table: array<Reminder>

    /** Every document's id is its position, so an update by id is an update by position. */
    ghost predicate Valid()
      reads this, table
    {
      forall j :: 0 <= j < table.Length ==> table[j].id == j
    }

    constructor ()
      ensures Valid() && fresh(table) && table.Length == 0
    {
      table := new Reminder[0];
    }

    /** `insertMany`: append one fresh, unsent document per candidate. */
    method InsertMany(batch: seq<Candidate>, now: int, toInstant: string -> int) returns (saved: seq<Reminder>)
      requires Valid()
      requires forall k :: 0 <= k < |batch| ==> HasRequiredFields(batch[k])
      modifies this
      ensures Valid() && fresh(table)
      ensures saved == NewRecords(batch, old(table.Length), now, toInstant)
      ensures table[..] == old(table[..]) + saved
    {
      var n := table.Length;
      var grown := new Reminder[n + |batch|];
      for j := 0 to n
        modifies grown
        invariant forall l :: 0 <= l < j ==> grown[l] == table[l]
      {
        grown[j] := table[j];
      }
      saved := NewRecords(batch, n, now, toInstant);
      for k := 0 to |batch|
        modifies grown
        invariant forall l :: 0 <= l < n ==> grown[l] == table[l]
        invariant forall l :: 0 <= l < k ==> grown[n + l] == saved[l]
      {
        grown[n + k] := ToRecord(batch[k], n + k, now, toInstant);
      }
      assert grown[..] == table[..] + saved;
      table := grown;
    }

    /**
     * The POST /api/reminders handler: reject a malformed body or a batch with a
     * failing record, otherwise insert the whole batch.
     */
    method Submit(body: BatchField, now: int, toInstant: string -> int) returns (res: Response)
      requires Valid()
      modifies this
      ensures Valid()
      ensures CheckBody(body).Some? ==>
        res == BadRequest(Message(CheckBody(body).value)) && table == old(table) && table[..] == old(table[..])
      ensures CheckBody(body).None? ==> fresh(table)
      ensures CheckBody(body).None? ==>
        body.Items? && res == Created(NewRecords(body.records, old(table.Length), now, toInstant)) &&
        table[..] == old(table[..]) + res.saved
    {
      if !body.Items? || |body.records| == 0 {
        return BadRequest(Message(InvalidReminderData));
      }
      var err := ValidateEach(body.records);
      if err.Some? {
        return BadRequest(Message(err.value));
      }
      var saved := InsertMany(body.records, now, toInstant);
      res := Created(saved);
    }

    /** The job's query: positions of the unsent records dated today, in table order. */
    method FindDue(todayStart: int) returns (ids: seq<nat>)
      ensures ids == DueIndices(table[..], todayStart)
    {
      ids := [];
      for j := 0 to table.Length
        invariant ids == DuePrefix(table[..], j, todayStart)
      {
        if !table[j].isReminderSent && todayStart <= table[j].eventDate < todayStart + DayMillis {
          ids := ids + [j];
        }
      }
    }

    /**
     * One run of the daily job: send a mail for each due record in turn and mark
     * it sent when the send succeeds; a failure is swallowed and the loop goes on.
     * Returns the ids of the records a send was attempted for, in order.
     */
    method RunDailyJob(todayStart: int, deliver: Reminder -> bool) returns (attempted: seq<nat>)
      requires Valid()
      modifies table
      ensures Valid()
      ensures attempted == DueIndices(old(table[..]), todayStart)
      ensures table[..] == AfterDispatch(old(table[..]), todayStart, deliver)
    {
      var found := FindDue(todayStart);
      ghost var rows := table[..];
      DuePrefixSelects(rows, |rows|, todayStart);
      attempted := [];
      var k := 0;
      while k < |found|
        invariant 0 <= k <= |found|
        invariant Valid()
        invariant attempted == found[..k]
        invariant forall j :: 0 <= j < table.Length ==>
          table[j] == if j in found[..k] && deliver(rows[j]) then rows[j].(isReminderSent := true) else rows[j]
      {
        var reminder := table[found[k]];
        assert found[k] !in found[..k];
        assert found[..k + 1] == found[..k] + [found[k]];
        attempted := attempted + [reminder.id];
        if deliver(reminder) {
          table[reminder.id] := reminder.(isReminderSent := true);
        }
        k := k + 1;
      }
      assert found[..k] == found;
    }
  }
}
