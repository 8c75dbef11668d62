/**
 * What one run of the daily job does to the reminder table, and what a second
 * run on the same day then finds (backend/server.js, lines 110-171).
 */
module Dispatch {
  import opened Common
  import opened Validation
  import opened Store

  /** The ids among `ids` whose send failed, in the same order. */
  function Failed(ids: seq<nat>, rows: seq<Reminder>, deliver: Reminder -> bool): seq<nat>
    requires forall k :: 0 <= k < |ids| ==> ids[k] < |rows|
  {
    if |ids| == 0 then []
    else
      var last := ids[|ids| - 1];
      Failed(ids[..|ids| - 1], rows, deliver) + (if deliver(rows[last]) then [] else [last])
  }

  /** Failed keeps exactly the ids whose send failed. */
  lemma {:induction false} FailedSelects(ids: seq<nat>, rows: seq<Reminder>, deliver: Reminder -> bool)
    requires forall k :: 0 <= k < |ids| ==> ids[k] < |rows|
    ensures forall x :: x in Failed(ids, rows, deliver) <==> x in ids && !deliver(rows[x])
    ensures (forall x :: x in ids ==> deliver(rows[x])) ==> Failed(ids, rows, deliver) == []
  {
    if |ids| > 0 {
      var init := ids[..|ids| - 1];
      FailedSelects(init, rows, deliver);
      assert ids == init + [ids[|ids| - 1]];
    }
  }

  /**
   * A run changes nothing but the sent flags, and a flag ends up true exactly
   * when it was true already or the record was due and its send succeeded.
   */
  lemma DispatchSetsFlags(rows: seq<Reminder>, todayStart: int, deliver: Reminder -> bool)
    ensures |AfterDispatch(rows, todayStart, deliver)| == |rows|
    ensures forall j :: 0 <= j < |rows| ==>
      AfterDispatch(rows, todayStart, deliver)[j] ==
        rows[j].(isReminderSent := AfterDispatch(rows, todayStart, deliver)[j].isReminderSent)
    ensures forall j :: 0 <= j < |rows| ==>
      (AfterDispatch(rows, todayStart, deliver)[j].isReminderSent <==>
        rows[j].isReminderSent || (Due(rows[j], todayStart) && deliver(rows[j])))
  {
  }

  /** A record dated before today or from tomorrow on is neither selected nor changed. */
  lemma OtherDaysUntouched(rows: seq<Reminder>, todayStart: int, deliver: Reminder -> bool, j: nat)
    requires j < |rows|
    requires rows[j].eventDate < todayStart || todayStart + DayMillis <= rows[j].eventDate
    ensures j !in DueIndices(rows, todayStart)
    ensures AfterDispatch(rows, todayStart, deliver)[j] == rows[j]
  {
    DuePrefixSelects(rows, |rows|, todayStart);
  }

  /** A record is due after a run exactly when it was due before and its send failed. */
  lemma DueAfterRun(rows: seq<Reminder>, todayStart: int, deliver: Reminder -> bool, j: nat)
    requires j < |rows|
    ensures |AfterDispatch(rows, todayStart, deliver)| == |rows|
    ensures Due(AfterDispatch(rows, todayStart, deliver)[j], todayStart) <==>
      Due(rows[j], todayStart) && !deliver(rows[j])
  {
  }

  /** The query over the table after a run finds, among the first n, just the failed sends. */
  lemma {:induction false} RerunPrefix(rows: seq<Reminder>, n: nat, todayStart: int, deliver: Reminder -> bool)
    requires n <= |rows|
    ensures n <= |AfterDispatch(rows, todayStart, deliver)|
    ensures DuePrefix(AfterDispatch(rows, todayStart, deliver), n, todayStart) ==
      Failed(DuePrefix(rows, n, todayStart), rows, deliver)
  {
    var after := AfterDispatch(rows, todayStart, deliver);
    assert |after| == |rows|;
    if n > 0 {
      RerunPrefix(rows, n - 1, todayStart, deliver);
      DueAfterRun(rows, todayStart, deliver, n - 1);
      var p := DuePrefix(rows, n - 1, todayStart);
      var q := DuePrefix(after, n - 1, todayStart);
      assert q == Failed(p, rows, deliver);
      if Due(rows[n - 1], todayStart) {
        var p' := p + [n - 1];
        assert DuePrefix(rows, n, todayStart) == p';
        assert p'[..|p'| - 1] == p;
        assert Failed(p', rows, deliver) ==
          Failed(p, rows, deliver) + (if deliver(rows[n - 1]) then [] else [n - 1]);
      } else {
        assert DuePrefix(rows, n, todayStart) == p;
        assert DuePrefix(after, n, todayStart) == q;
      }
    }
  }

  /**
   * A second run on the same day selects exactly the records whose send failed
   * in the first, in the same order: a success is never sent again.
   */
  lemma SecondRunRetriesOnlyFailures(rows: seq<Reminder>, todayStart: int, deliver: Reminder -> bool)
    ensures DueIndices(AfterDispatch(rows, todayStart, deliver), todayStart) ==
      Failed(DueIndices(rows, todayStart), rows, deliver)
  {
    RerunPrefix(rows, |rows|, todayStart, deliver);
  }

  /** When every send succeeds, a second run the same day finds nothing to send. */
  lemma AllDeliveredThenNothingDue(rows: seq<Reminder>, todayStart: int, deliver: Reminder -> bool)
    requires forall r :: deliver(r)
    ensures DueIndices(AfterDispatch(rows, todayStart, deliver), todayStart) == []
  {
    SecondRunRetriesOnlyFailures(rows, todayStart, deliver);
    var due := DueIndices(rows, todayStart);
    FailedSelects(due, rows, deliver);
  }

  /**
   * The mail for an accepted record always has a non-empty type label: the
   * specification for "Other", the type itself otherwise.
   */
  lemma AcceptedRecordLabel(c: Candidate, id: nat, now: int, toInstant: string -> int)
    requires CheckRecord(c) == None
    ensures EventTypeLabel(ToRecord(c, id, now, toInstant)) ==
      if c.eventType == Some("Other") then c.otherEventType else c.eventType
    ensures Truthy(EventTypeLabel(ToRecord(c, id, now, toInstant)))
  {
  }
}
