/**
 * A client of the store: one well-formed reminder is submitted, then the daily
 * job runs twice on its day with every send succeeding.
 */
module Scenario {
  import opened Common
  import opened Email
  import opened Validation
  import opened Store
  import opened Dispatch

  /**
   * "Mom's Birthday" on its day: the first run attempts exactly one send and
   * marks the record sent, the second run attempts nothing.
   */
  method BirthdayReminderSentOnce(todayStart: int, toInstant: string -> int)
    returns (saved: seq<Reminder>, firstRun: seq<nat>, sentAfterFirstRun: bool, secondRun: seq<nat>)
    requires todayStart <= toInstant("2024-06-01") < todayStart + DayMillis
    ensures |saved| == 1 && !saved[0].isReminderSent
    ensures firstRun == [0] && sentAfterFirstRun && secondRun == []
  {
    var store := new ReminderStore();
    var email := "a@b.com";
    assert email[..1] == "a" && email[2..3] == "b" && email[4..] == "com";
    assert MatchesEmailPattern(email) by {
      assert email[1] == '@' && email[3] == '.';
    }
    var c := Candidate(Some("Mom's Birthday"), Some("2024-06-01"), Some(email), Some("Birthday"), None);
    assert CheckRecord(c) == None;
    assert [c][1..] == [];
    var res := store.Submit(Items([c]), 0, toInstant);
    saved := res.saved;
    assert store.table[..] == saved;
    assert Due(saved[0], todayStart);
    assert DueIndices(saved, todayStart) == DuePrefix(saved, 0, todayStart) + [0];
    var deliver: Reminder -> bool := r => true;
    firstRun := store.RunDailyJob(todayStart, deliver);
    sentAfterFirstRun := store.table[0].isReminderSent;
    AllDeliveredThenNothingDue(saved, todayStart, deliver);
    secondRun := store.RunDailyJob(todayStart, deliver);
  }
}
