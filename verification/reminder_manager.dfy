/**
 * The process-wide cache of incomplete reminders (`ReminderManager`).
 * It starts empty and is replaced wholesale by every refresh; a refresh
 * whose fetch yields nothing leaves it as it was.
 */
module ReminderManagement {
  import opened Wrappers
  import opened EventKit

  /** `filter({ !$0.isCompleted })`: the incomplete reminders, in their order. */
  function Incomplete(all: seq<Reminder>): (kept: seq<Reminder>)
    ensures |kept| <= |all|
    ensures forall i :: 0 <= i < |kept| ==> !kept[i].isCompleted
    ensures forall r :: r in kept <==> r in all && !r.isCompleted
  {
    if all == [] then []
    else if all[0].isCompleted then Incomplete(all[1..])
    else [all[0]] + Incomplete(all[1..])
  }

  /** The cache after a refresh whose fetch produced `fetched` (`None`: the fetch gave nil). */
  function Refreshed(cache: seq<Reminder>, fetched: Option<seq<Reminder>>): (next: seq<Reminder>)
    ensures fetched.None? ==> next == cache
    ensures fetched.Some? ==> forall r :: r in next <==> r in fetched.value && !r.isCompleted
  {
    match fetched
    case None => cache
    case Some(all) => Incomplete(all)
  }

  /** Filtering distributes over concatenation: the relative order of what is kept is the fetched order. */
  lemma {:induction false} IncompleteAppend(a: seq<Reminder>, b: seq<Reminder>)
    ensures Incomplete(a + b) == Incomplete(a) + Incomplete(b)
    decreases |a|
  {
    if a == [] {
      assert a + b == b;
    } else {
      assert (a + b)[1..] == a[1..] + b;
      IncompleteAppend(a[1..], b);
    }
  }

  /** Each reminder is kept as many times as it was fetched when incomplete, and dropped when complete. */
  lemma {:induction false} IncompleteCount(all: seq<Reminder>, r: Reminder)
    ensures multiset(Incomplete(all))[r] == if r.isCompleted then 0 else multiset(all)[r]
    decreases |all|
  {
    if all != [] {
      IncompleteCount(all[1..], r);
      assert all == [all[0]] + all[1..];
    }
  }

  /** Filtering the cache again changes nothing. */
  lemma {:induction false} IncompleteIdempotent(all: seq<Reminder>)
    ensures Incomplete(Incomplete(all)) == Incomplete(all)
    decreases |all|
  {
    if all != [] {
      IncompleteIdempotent(all[1..]);
      if !all[0].isCompleted {
        var rest := Incomplete(all[1..]);
        assert ([all[0]] + rest)[1..] == rest;
      }
    }
  }

  /** Refreshing twice with the same fetch result gives the same cache as refreshing once. */
  lemma RefreshTwice(cache: seq<Reminder>, fetched: Option<seq<Reminder>>)
    ensures Refreshed(Refreshed(cache, fetched), fetched) == Refreshed(cache, fetched)
  {
  }

  class ReminderManager {
    /** The cached incomplete reminders, in fetch order. */
    var reminders: seq<Reminder>

    /** Every cached reminder is incomplete. */
    ghost predicate Valid()
      reads this
    {
      forall i :: 0 <= i < |reminders| ==> !reminders[i].isCompleted
    }

    /** The cache starts empty. */
    constructor ()
      ensures Valid()
      ensures reminders == []
    {
      reminders := [];
    }

    /**
     * `fetchReminders`: `fetched` is what the store's query delivered to the
     * completion handler (`None` when it delivered nil).
     */
    method FetchReminders(fetched: Option<seq<Reminder>>)
      requires Valid()
      modifies this
      ensures Valid()
      ensures reminders == Refreshed(old(reminders), fetched)
    {
      match fetched {
        case None =>
        case Some(all) =>
          var kept := Incomplete(all);
          reminders := kept;
      }
    }
  }
}
