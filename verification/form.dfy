/**
 * The reminder form's list of entries and the payload it submits
 * (frontend/src/components/ReminderForm.js, lines 6-37).
 */
module Form {
  import opened Common
  import opened Validation

  /** One reminder block of the form; its fields are named after `id`. */
  datatype Entry = Entry(id: nat)

  /** The form never offers more than this many blocks. */
  const MaxEntries: nat := 3

  /** The list the form starts with: one block, id 1. */
  function Initial(): seq<Entry> {
    [Entry(1)]
  }

  /** `filter(reminder => reminder.id !== id)`. */
  function WithoutId(entries: seq<Entry>, id: nat): seq<Entry>
  {
    if |entries| == 0 then []
    else (if entries[0].id == id then [] else [entries[0]]) + WithoutId(entries[1..], id)
  }

  /** The list after "add": a block numbered length + 1 while there are fewer than three. */
  function AddEntry(entries: seq<Entry>): seq<Entry>
  {
    if |entries| < MaxEntries then entries + [Entry(|entries| + 1)] else entries
  }

  /** The list after "remove id": every block with that id goes, unless only one block is left. */
  function RemoveEntry(entries: seq<Entry>, id: nat): seq<Entry>
  {
    if |entries| > 1 then WithoutId(entries, id) else entries
  }

  /** The values the browser's FormData holds, by field name. */
  type FormData = map<string, string>

  /** `formData.get(key)`: null when the form has no such field. */
  function Get(form: FormData, key: string): Option<string>
  {
    if key in form then Some(form[key]) else None
  }

  /** `value || null`: a missing or empty string becomes null. */
  function OrNull(v: Option<string>): Option<string>
  {
    if Truthy(v) then v else None
  }

  /** The decimal digit for d. */
  function Digit(d: nat): char
    requires d < 10
  {
    (('0' as int) + d) as char
  }

  /** The decimal text of n, as a template literal renders a number. */
  function NatText(n: nat): (t: string)
    ensures |t| >= 1
    ensures n >= 10 ==> |t| >= 2
  {
    if n < 10 then [Digit(n)] else NatText(n / 10) + [Digit(n % 10)]
  }

  /** The name of field `field` in the block numbered id, e.g. "eventName-2". */
  function FieldKey(field: string, id: nat): string
  {
    field + "-" + NatText(id)
  }

  /** The record the form submits for one block. */
  function PayloadFor(e: Entry, form: FormData): Candidate
  {
    Candidate(
      eventName := Get(form, FieldKey("eventName", e.id)),
      eventDate := Get(form, FieldKey("eventDate", e.id)),
      customerEmail := Get(form, FieldKey("customerEmail", e.id)),
      eventType := Get(form, FieldKey("eventType", e.id)),
      otherEventType := OrNull(Get(form, FieldKey("otherEventType", e.id))))
  }

  /** The form component's `reminders` state and the handlers that use it. */
  class ReminderForm {
    var reminders: seq<Entry>

    /** The form shows at most three blocks. */
    ghost predicate Valid()
      reads this
    {
      |reminders| <= MaxEntries
    }

    constructor ()
      ensures Valid() && reminders == Initial()
    {
      reminders := [Entry(1)];
    }

    /** `handleAddReminder`. */
    method AddReminder()
      requires Valid()
      modifies this
      ensures Valid() && reminders == AddEntry(old(reminders))
    {
      if |reminders| < 3 {
        reminders := reminders + [Entry(|reminders| + 1)];
      }
    }

    /** `handleRemoveReminder(id)`. */
    method RemoveReminder(id: nat)
      requires Valid()
      modifies this
      ensures Valid() && reminders == RemoveEntry(old(reminders), id)
    {
      if |reminders| > 1 {
        WithoutIdShape(reminders, id);
        reminders := WithoutId(reminders, id);
      }
    }

    /** The payload loop of `handleSubmit`: one record per block, in block order. */
    method BuildReminderData(form: FormData) returns (data: seq<Candidate>)
      ensures |data| == |reminders|
      ensures forall k :: 0 <= k < |data| ==> data[k] == PayloadFor(reminders[k], form)
    {
      data := [];
      for k := 0 to |reminders|
        invariant |data| == k
        invariant forall l :: 0 <= l < k ==> data[l] == PayloadFor(reminders[l], form)
      {
        var id := reminders[k].id;
        data := data + [Candidate(
          eventName := Get(form, FieldKey("eventName", id)),
          eventDate := Get(form, FieldKey("eventDate", id)),
          customerEmail := Get(form, FieldKey("customerEmail", id)),
          eventType := Get(form, FieldKey("eventType", id)),
          otherEventType := OrNull(Get(form, FieldKey("otherEventType", id))))];
      }
    }
  }

  /**
   * Removing by id drops every block with that id, keeps every other block, and
   * adds nothing.
   */
  lemma {:induction false} WithoutIdShape(entries: seq<Entry>, id: nat)
    ensures |WithoutId(entries, id)| <= |entries|
    ensures forall e: Entry :: e in WithoutId(entries, id) ==> e in entries && e.id != id
    ensures forall e: Entry :: e.id != id ==> multiset(WithoutId(entries, id))[e] == multiset(entries)[e]
  {
    if |entries| > 0 {
      WithoutIdShape(entries[1..], id);
      assert entries == [entries[0]] + entries[1..];
    }
  }

  /** Removing from a concatenation removes from each part: the kept blocks stay in order. */
  lemma {:induction false} WithoutIdConcat(a: seq<Entry>, b: seq<Entry>, id: nat)
    ensures WithoutId(a + b, id) == WithoutId(a, id) + WithoutId(b, id)
  {
    if |a| > 0 {
      WithoutIdConcat(a[1..], b, id);
      assert (a + b)[1..] == a[1..] + b;
    } else {
      assert a + b == b;
    }
  }

  /** A user action on the list. */
  datatype Action = Add | Remove(id: nat)

  /** The list after one action, as the source's handlers compute it. */
  function Apply(entries: seq<Entry>, a: Action): seq<Entry>
  {
    match a
    case Add => AddEntry(entries)
    case Remove(id) => RemoveEntry(entries, id)
  }

  /** The list after a sequence of actions, first to last. */
  function Run(entries: seq<Entry>, actions: seq<Action>): seq<Entry>
    decreases |actions|
  {
    if |actions| == 0 then entries else Run(Apply(entries, actions[0]), actions[1..])
  }

  /** No sequence of adds and removes takes the list above three blocks. */
  lemma {:induction false} RunStaysBounded(entries: seq<Entry>, actions: seq<Action>)
    requires |entries| <= MaxEntries
    ensures |Run(entries, actions)| <= MaxEntries
    decreases |actions|
  {
    if |actions| > 0 {
      var next := Apply(entries, actions[0]);
      if actions[0].Remove? {
        WithoutIdShape(entries, actions[0].id);
      }
      RunStaysBounded(next, actions[1..]);
    }
  }

  /** Distinct block numbers give distinct field names. */
  lemma {:induction false} NatTextInjective(a: nat, b: nat)
    requires NatText(a) == NatText(b)
    ensures a == b
  {
    if a >= 10 && b >= 10 {
      var ta, tb := NatText(a / 10), NatText(b / 10);
      assert NatText(a) == ta + [Digit(a % 10)];
      assert NatText(b) == tb + [Digit(b % 10)];
      assert ta == NatText(a)[..|ta|];
      assert tb == NatText(b)[..|tb|];
      assert Digit(a % 10) == NatText(a)[|ta|];
      NatTextInjective(a / 10, b / 10);
    } else if a < 10 && b < 10 {
      assert Digit(a) == NatText(a)[0];
    }
  }

  /** Two blocks with different ids read disjoint sets of form fields. */
  lemma FieldKeysDistinct(field: string, id1: nat, id2: nat)
    requires id1 != id2
    ensures FieldKey(field, id1) != FieldKey(field, id2)
  {
    if FieldKey(field, id1) == FieldKey(field, id2) {
      var p := field + "-";
      assert FieldKey(field, id1)[|p|..] == NatText(id1);
      assert FieldKey(field, id2)[|p|..] == NatText(id2);
      NatTextInjective(id1, id2);
    }
  }

  /** An empty or missing "other" field is submitted as null; any other value as it is. */
  lemma OtherTypeOrNull(e: Entry, form: FormData)
    ensures var key := FieldKey("otherEventType", e.id);
      PayloadFor(e, form).otherEventType ==
        if key in form && form[key] != "" then Some(form[key]) else None
  {
  }

  /**
   * Block numbers collide once a block has been removed: from the initial list,
   * add, remove 1 and add give two blocks numbered 2, and removing 2 then
   * leaves no block at all.
   */
  lemma IdCollisionEmptiesList()
    ensures Run(Initial(), [Add, Remove(1), Add]) == [Entry(2), Entry(2)]
    ensures Run(Initial(), [Add, Remove(1), Add, Remove(2)]) == []
  {
    assert AddEntry(Initial()) == [Entry(1), Entry(2)];
    assert RemoveEntry([Entry(1), Entry(2)], 1) == [Entry(2)];
    assert AddEntry([Entry(2)]) == [Entry(2), Entry(2)];
    assert RemoveEntry([Entry(2), Entry(2)], 2) == [];
  }

  /** Every block carries its own number. */
  predicate DistinctIds(entries: seq<Entry>) {
    forall k, l :: 0 <= k < l < |entries| ==> entries[k].id != entries[l].id
  }

  /** The largest block number in use (0 for no block). */
  function MaxId(entries: seq<Entry>): (m: nat)
    ensures forall k :: 0 <= k < |entries| ==> entries[k].id <= m
  {
    if |entries| == 0 then 0
    else
      var rest := MaxId(entries[1..]);
      if entries[0].id > rest then entries[0].id else rest
  }

  /** "Add" numbering the new block one above the largest number in use. */
  function AddFreshEntry(entries: seq<Entry>): seq<Entry>
  {
    if |entries| < MaxEntries then entries + [Entry(MaxId(entries) + 1)] else entries
  }

  /** One action with the corrected "add". */
  function ApplyFixed(entries: seq<Entry>, a: Action): seq<Entry>
  {
    match a
    case Add => AddFreshEntry(entries)
    case Remove(id) => RemoveEntry(entries, id)
  }

  /** A sequence of actions with the corrected "add". */
  function RunFixed(entries: seq<Entry>, actions: seq<Action>): seq<Entry>
    decreases |actions|
  {
    if |actions| == 0 then entries else RunFixed(ApplyFixed(entries, actions[0]), actions[1..])
  }

  /** When no block has the id, removing it changes nothing. */
  lemma {:induction false} WithoutAbsentId(entries: seq<Entry>, id: nat)
    requires forall k :: 0 <= k < |entries| ==> entries[k].id != id
    ensures WithoutId(entries, id) == entries
  {
    if |entries| > 0 {
      WithoutAbsentId(entries[1..], id);
    }
  }

  /** With distinct numbers, removing by id drops at most one block and keeps numbers distinct. */
  lemma {:induction false} WithoutIdDistinct(entries: seq<Entry>, id: nat)
    requires DistinctIds(entries)
    ensures DistinctIds(WithoutId(entries, id))
    ensures |WithoutId(entries, id)| >= |entries| - 1
  {
    if |entries| > 0 {
      var tail := entries[1..];
      assert DistinctIds(tail);
      WithoutIdDistinct(tail, id);
      WithoutIdShape(tail, id);
      if entries[0].id == id {
        WithoutAbsentId(tail, id);
      } else {
        var w := WithoutId(tail, id);
        forall l | 0 <= l < |w|
          ensures entries[0].id != w[l].id
        {
          assert w[l] in tail;
        }
      }
    }
  }

  /**
   * With the corrected "add", numbers stay distinct and the list never drops
   * below one block nor rises above three.
   */
  lemma {:induction false} FixedRunKeepsOneBlock(entries: seq<Entry>, actions: seq<Action>)
    requires 1 <= |entries| <= MaxEntries && DistinctIds(entries)
    ensures 1 <= |RunFixed(entries, actions)| <= MaxEntries
    ensures DistinctIds(RunFixed(entries, actions))
    decreases |actions|
  {
    if |actions| > 0 {
      var next := ApplyFixed(entries, actions[0]);
      if actions[0].Remove? && |entries| > 1 {
        WithoutIdDistinct(entries, actions[0].id);
        WithoutIdShape(entries, actions[0].id);
      }
      FixedRunKeepsOneBlock(next, actions[1..]);
    }
  }
}
