/**
 What a user may rely on: an unordered channel that delivers each message at most once and drops
 one only for a cause. Messages do not depend on each other, so the channel is given by what may
 become of a single one.
 */
module Fates {
  datatype Cause = NeverConnected | UserQuit | SenderDropped | ConnectionOver | ReceiverDropped | TaskPanicked

  datatype Fate = Unsent | OnItsWay | Delivered | Dropped(cause: Cause)

  /** A panic concerns one message; any other cause must be a fault of the whole channel. */
  predicate Excused(cause: Cause, faults: set<Cause>) {
    cause.TaskPanicked? || cause in faults
  }

  predicate Next(before: Fate, faults: set<Cause>, after: Fate) {
    || after == before
    || (before.Unsent? && after.OnItsWay?)
    || (before.Unsent? && after.Dropped? && after.cause in faults)
    || (before.OnItsWay? && after.Delivered?)
    || (before.OnItsWay? && after.Dropped? && Excused(after.cause, faults))
  }

  /** A run of `n` steps of the abstract channel, for one message; steps may do nothing. */
  ghost predicate Leads(before: Fate, faults: set<Cause>, after: Fate, n: nat)
    decreases n
  {
    if n == 0 then after == before
    else exists fate :: Next(before, faults, fate) && Leads(fate, faults, after, n - 1)
  }

  lemma LeadsOn(before: Fate, fate: Fate, now: set<Cause>, faults: set<Cause>, after: Fate, n: nat)
    requires Next(before, now, fate) && now <= faults && Leads(fate, faults, after, n)
    ensures Leads(before, faults, after, n + 1)
  {
    assert Next(before, faults, fate);
  }

  /** What was delivered or dropped stays so. */
  lemma {:induction false} SettledStays(before: Fate, faults: set<Cause>, after: Fate, n: nat)
    requires Leads(before, faults, after, n) && (before.Delivered? || before.Dropped?)
    ensures after == before
  {
    if n > 0 {
      var fate :| Next(before, faults, fate) && Leads(fate, faults, after, n - 1);
      SettledStays(fate, faults, after, n - 1);
    }
  }
}
