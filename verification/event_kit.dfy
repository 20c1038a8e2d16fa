/**
 * The parts of the operating system's reminder store that the app touches:
 * reminder records and the shared store's save/commit calls. The store is an
 * external collaborator; it is modelled here as a queue of saved records,
 * a list of committed records and a count of commit calls, with every
 * failure supplied by the caller.
 */
module EventKit {
  import opened Wrappers

  /** A reminder record: identity, optional title and notes, its calendar, completion. */
  datatype Reminder = Reminder(
    id: string,
    title: Option<string>,
    notes: Option<string>,
    calendar: string,
    isCompleted: bool)

  /** A reminder created by the app: the calendar it goes into and its title. */
  datatype NewReminder = NewReminder(calendar: string, title: string)

  class ReminderStore {
    /** Records saved with `commit: false` and not yet committed, in save order. */
    var saved: seq<NewReminder>
    /** Records made durable by a successful commit, in order. */
    var committed: seq<NewReminder>
    /** How many times `commit()` was called. */
    var commitCalls: nat

    constructor ()
      ensures saved == [] && committed == [] && commitCalls == 0
    {
      saved, committed, commitCalls := [], [], 0;
    }

    /** `save(item, commit: false)`: queues the record unless the call throws. */
    method Save(item: NewReminder, fails: bool) returns (thrown: bool)
      modifies this`saved
      ensures thrown == fails
      ensures saved == if fails then old(saved) else old(saved) + [item]
    {
      thrown := fails;
      if !fails {
        saved := saved + [item];
      }
    }

    /** `commit()`: makes every queued record durable unless the call throws. */
    method Commit(fails: bool) returns (thrown: bool)
      modifies this
      ensures thrown == fails
      ensures commitCalls == old(commitCalls) + 1
      ensures fails ==> saved == old(saved) && committed == old(committed)
      ensures !fails ==> saved == [] && committed == old(committed) + old(saved)
    {
      thrown := fails;
      commitCalls := commitCalls + 1;
      if !fails {
        committed := committed + saved;
        saved := [];
      }
    }
  }
}
