/**
 * Drop resolution (`ReminderDropDelegate`): the dragged plain text's first
 * line names a reminder, which is looked up by exact title in the cache.
 * Each drag callback runs its resolution as one atomic step against the
 * cache as it is at that step.
 */
module ReminderDrop {
  import opened Wrappers
  import opened TextLines
  import opened EventKit
  import opened ReminderManagement

  /**
   * `stringValue.split(separator: "\n").first`: the first non-empty line of
   * the payload, or `None` when the payload holds nothing but newlines.
   */
  function FirstLine(payload: string): (title: Option<string>)
    ensures title.None? <==> forall k :: 0 <= k < |payload| ==> payload[k] == '\n'
    ensures title.Some? ==> IsLine(title.value)
  {
    SplitLinesEmpty(payload);
    var lines := SplitLines(payload);
    if lines == [] then None else Some(lines[0])
  }

  /**
   * The first line is the text between the leading newlines and the next
   * newline (or the end of the payload).
   */
  lemma {:induction false} FirstLineIsFirstSegment(payload: string)
    requires FirstLine(payload).Some?
    ensures exists i, j ::
      0 <= i < j <= |payload| &&
      (forall k :: 0 <= k < i ==> payload[k] == '\n') &&
      FirstLine(payload).value == payload[i..j] &&
      (j == |payload| || payload[j] == '\n')
    decreases |payload|
  {
    if payload[0] == '\n' {
      var tail := payload[1..];
      assert FirstLine(tail) == FirstLine(payload);
      FirstLineIsFirstSegment(tail);
      var i, j :| 0 <= i < j <= |tail| &&
        (forall k :: 0 <= k < i ==> tail[k] == '\n') &&
        FirstLine(tail).value == tail[i..j] &&
        (j == |tail| || tail[j] == '\n');
      assert payload[i + 1..j + 1] == tail[i..j];
      assert forall k :: 0 <= k < i + 1 ==> payload[k] == '\n' by {
        forall k | 0 <= k < i + 1 ensures payload[k] == '\n' {
          if k > 0 { assert payload[k] == tail[k - 1]; }
        }
      }
      assert j + 1 == |payload| || payload[j + 1] == '\n';
    } else {
      var n := LineLength(payload);
      assert FirstLine(payload).value == payload[0..n];
    }
  }

  /** The drag payload `"Buy milk\nextra notes"` names the reminder "Buy milk". */
  lemma FirstLineExample()
    ensures FirstLine("Buy milk\nextra notes") == Some("Buy milk")
  {
    var payload := "Buy milk\nextra notes";
    assert payload == "Buy milk" + "\n" + "extra notes";
    SplitLinesCons("Buy milk", "extra notes");
    assert SplitLines(payload)[0] == "Buy milk";
  }

  /** Index of the first cached reminder whose title is exactly `title`, or `|cache|` if none. */
  function FirstTitleMatch(cache: seq<Reminder>, title: string): (k: nat)
    ensures k <= |cache|
    ensures forall j :: 0 <= j < k ==> cache[j].title != Some(title)
    ensures k < |cache| ==> cache[k].title == Some(title)
  {
    if cache == [] then 0
    else if cache[0].title == Some(title) then 0
    else 1 + FirstTitleMatch(cache[1..], title)
  }

  /** `reminderForTitle`: `reminders.first(where: { $0.title == title })`. */
  function ReminderForTitle(cache: seq<Reminder>, title: string): (found: Option<Reminder>)
    ensures found.None? <==> forall r :: r in cache ==> r.title != Some(title)
    ensures found.Some? ==>
      exists i :: (0 <= i < |cache| && cache[i] == found.value &&
        found.value.title == Some(title) &&
        forall j :: 0 <= j < i ==> cache[j].title != Some(title))
  {
    var k := FirstTitleMatch(cache, title);
    if k < |cache| then Some(cache[k]) else None
  }

  /**
   * `reminderForDropInfo`: `payload` is the decoded plain text, or `None` when
   * there was no item provider, loading threw, no data came or it was not UTF-8.
   */
  function ReminderForPayload(cache: seq<Reminder>, payload: Option<string>): (found: Option<Reminder>)
    ensures found.Some? ==>
      (found.value in cache && found.value.title.Some? &&
       payload.Some? && FirstLine(payload.value) == found.value.title)
    ensures found.None? <==>
      payload.None? || FirstLine(payload.value).None? ||
      forall r :: r in cache ==> r.title != FirstLine(payload.value)
    ensures payload.Some? && FirstLine(payload.value).Some? ==>
      found == ReminderForTitle(cache, FirstLine(payload.value).value)
  {
    match payload
    case None => None
    case Some(text) =>
      match FirstLine(text)
      case None => None
      case Some(title) => ReminderForTitle(cache, title)
  }

  /**
   * After a refresh, a fetched incomplete reminder whose title no other
   * fetched reminder shares is the one a lookup of that title finds.
   */
  lemma LookupAfterRefresh(fetched: seq<Reminder>, r: Reminder, title: string)
    requires r in fetched && !r.isCompleted && r.title == Some(title)
    requires forall s :: s in fetched && s.title == Some(title) ==> s == r
    ensures ReminderForTitle(Incomplete(fetched), title) == Some(r)
  {
    assert r in Incomplete(fetched);
  }

  /** After a refresh, a lookup never finds a completed reminder. */
  lemma LookupNeverCompleted(fetched: seq<Reminder>, title: string)
    ensures match ReminderForTitle(Incomplete(fetched), title)
      case None => true
      case Some(r) => !r.isCompleted && r in fetched
  {
  }

  /** The delegate's two bindings: the hovered reminder and the dropped reminder. */
  class ReminderDropDelegate {
    var prototypeReminder: Option<Reminder>
    var targetReminder: Option<Reminder>

    constructor (prototypeReminder: Option<Reminder>, targetReminder: Option<Reminder>)
      ensures this.prototypeReminder == prototypeReminder
      ensures this.targetReminder == targetReminder
    {
      this.prototypeReminder := prototypeReminder;
      this.targetReminder := targetReminder;
    }

    /** `dropEntered`: shows the resolved reminder as the hover match; a failed resolution changes nothing. */
    method DropEntered(payload: Option<string>, manager: ReminderManager)
      modifies this`prototypeReminder
      ensures var found := ReminderForPayload(manager.reminders, payload);
        prototypeReminder == if found.Some? then found else old(prototypeReminder)
      ensures manager.Valid() && prototypeReminder != old(prototypeReminder) ==>
        prototypeReminder.Some? && !prototypeReminder.value.isCompleted
    {
      var found := ReminderForPayload(manager.reminders, payload);
      if found.Some? {
        prototypeReminder := found;
      }
    }

    /** `dropExited`: clears the hover match, but only when the payload resolves to a cached reminder. */
    method DropExited(payload: Option<string>, manager: ReminderManager)
      modifies this`prototypeReminder
      ensures var found := ReminderForPayload(manager.reminders, payload);
        prototypeReminder == if found.Some? then None else old(prototypeReminder)
    {
      var found := ReminderForPayload(manager.reminders, payload);
      if found.Some? {
        prototypeReminder := None;
      }
    }

    /** `performDrop`: accepts the drop whatever happens; sets the dropped reminder only on a match. */
    method PerformDrop(payload: Option<string>, manager: ReminderManager) returns (accepted: bool)
      modifies this`targetReminder
      ensures accepted
      ensures var found := ReminderForPayload(manager.reminders, payload);
        targetReminder == if found.Some? then found else old(targetReminder)
      ensures manager.Valid() && targetReminder != old(targetReminder) ==>
        targetReminder.Some? && !targetReminder.value.isCompleted
    {
      var found := ReminderForPayload(manager.reminders, payload);
      if found.Some? {
        targetReminder := found;
      }
      accepted := true;
    }
  }
}
