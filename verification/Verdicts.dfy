/** What it takes for a handle to be answered `Error`, and what `Error` and `Sent` say of a message. */
module Verdicts {
  import opened Options
  import opened Sending
  import opened Bags
  import opened Fates
  import opened Channels
  import opened Delivery
  import O = Outboxes
  import I = Inboxes

  /** Why the handle of a call can say `Error`. The first three drop the sender, the others use it. */
  datatype Reason =
    | SendPanicked
    | BufferTimedOut
    | BufferDropped
    | StreamStopped
    | ConnectionBroke(error: ConnectionError)

  predicate DropsTheSender(reason: Reason) {
    reason.SendPanicked? || reason.BufferTimedOut? || reason.BufferDropped?
  }

  /** The reason, if any, that a step gives the call of `p`. */
  function ReasonIn(c: Channel, step: Step, p: Parcel): seq<Reason> {
    match step
    case Out(Ends(q, _, Panicked)) => if q == p then [SendPanicked] else []
    case Out(Ends(q, _, Returned(Some(e)))) => if q == p then ReasonOf(e) else []
    case Out(Abandon(TimesOut)) => if p in c.out.pending then [BufferTimedOut] else []
    case Out(Abandon(IsDropped)) => if p in c.out.pending then [BufferDropped] else []
    case _ => []
  }

  function ReasonOf(e: SendingError): seq<Reason> {
    if e == WriteAll(WriteStopped) then [StreamStopped]
    else
      match ConnectionErrorIn(e)
      case Some(VersionMismatch) => [ConnectionBroke(VersionMismatch)]
      case Some(TransportError) => [ConnectionBroke(TransportError)]
      case Some(CidsExhausted) => [ConnectionBroke(CidsExhausted)]
      case _ => []
  }

  /** All reasons that a run gives the call of `p`. */
  ghost function Reasons(c: Channel, steps: seq<Step>, p: Parcel): seq<Reason>
    requires Valid(c, steps)
    decreases |steps|
  {
    if steps == [] then [] else ReasonIn(c, steps[0], p) + Reasons(Apply(c, steps[0]), steps[1..], p)
  }

  predicate IsError(cell: Oneshot) {
    cell.SenderGone? || cell == Holding(SendingResult.Error) || cell == Taken(SendingResult.Error)
  }

  /** The handle of `p` is or was answered `Error`, or will be when it is asked next. */
  ghost predicate EndsInError(o: O.Outbox, p: Parcel) {
    O.IsSent(o, p) && p.id < |o.results| && IsError(o.results[p.id])
  }

  // ---------------------------------------------------------------------------------------------
  // Error, exactly
  // ---------------------------------------------------------------------------------------------

  /** The result channel of `p` is as the reasons so far make it. */
  ghost predicate Explains(reasons: seq<Reason>, o: O.Outbox, p: Parcel) {
    && |reasons| <= 1
    && (reasons != [] <==> EndsInError(o, p))
    && (reasons != [] ==>
          && (o.results[p.id].SenderGone? ==> DropsTheSender(reasons[0]))
          && (o.results[p.id].Holding? ==> !DropsTheSender(reasons[0])))
  }

  /** What the end of a task leaves is an error exactly if there is a reason for it. */
  lemma LeftByHasReason(c: Channel, p: Parcel, stage: O.Stage, end: O.TaskEnd)
    requires EnabledOut(c, O.Ends(p, stage, end))
    ensures var reasons := ReasonIn(c, Out(O.Ends(p, stage, end)), p);
            && |reasons| <= 1
            && (reasons != [] <==> IsError(O.LeftBy(end)))
            && (reasons != [] ==> (DropsTheSender(reasons[0]) <==> O.LeftBy(end).SenderGone?))
            && !O.LeftBy(end).Taken?
  {
    match end
    case Panicked =>
    case Returned(None) =>
    case Returned(Some(e)) =>
      match ConnectionErrorIn(e)
      case Some(_) =>
      case None =>
  }

  lemma EndExplains(c: Channel, s: O.OutStep, p: Parcel, before: seq<Reason>)
    requires EnabledOut(c, s) && s.Ends? && O.Numbered(c.out) && O.OneSenderEach(c.out)
    requires Explains(before, c.out, p)
    ensures Explains(before + ReasonIn(c, Out(s), p), ApplyOut(c, s).out, p)
  {
    O.TaskParcelIsAwaited(c.out, s.p, s.stage);
    if s.p == p {
      LeftByHasReason(c, p, s.stage, s.end);
      assert before == [];
      assert before + ReasonIn(c, Out(s), p) == ReasonIn(c, Out(s), p);
    } else {
      assert ReasonIn(c, Out(s), p) == [];
      assert before + [] == before;
    }
  }

  lemma AbandonExplains(c: Channel, parting: O.Parting, p: Parcel, before: seq<Reason>)
    requires EnabledOut(c, O.Abandon(parting)) && O.Numbered(c.out) && O.OneSenderEach(c.out)
    requires Explains(before, c.out, p)
    ensures Explains(before + ReasonIn(c, Out(O.Abandon(parting)), p), ApplyOut(c, O.Abandon(parting)).out, p)
  {
    var now := ReasonIn(c, Out(O.Abandon(parting)), p);
    assert before + [] == before && [] + now == now;
    if p in c.out.pending {
      PendingIsLeft(c.out, parting, p);
      assert before == [];
    } else if O.IsSent(c.out, p) && p.id < |c.out.results| {
      NotPendingStays(c.out, O.LeftWhen(parting), p);
    }
  }

  lemma PendingIsLeft(o: O.Outbox, parting: O.Parting, p: Parcel)
    requires O.Numbered(o) && O.OneSenderEach(o) && O.Enabled(o, O.Abandon(parting)) && p in o.pending
    ensures O.Awaited(o, p) && O.Apply(o, O.Abandon(parting)).results[p.id] == O.LeftWhen(parting)
  {
    var k: nat :| k < |o.pending| && o.pending[k] == p;
    O.PendingIsSent(o, k);
    O.SettleAllAt(o.results, o.pending, O.LeftWhen(parting), p.id);
  }

  lemma NotPendingStays(o: O.Outbox, left: Oneshot, p: Parcel)
    requires O.Numbered(o) && O.OneSenderEach(o) && O.IsSent(o, p) && p.id < |o.results| && p !in o.pending
    ensures O.SettleAll(o.results, o.pending, left)[p.id] == o.results[p.id]
  {
    O.SettleAllAt(o.results, o.pending, left, p.id);
    if k: nat :| k < |o.pending| && o.pending[k].id == p.id {
      O.PendingIsSent(o, k);
    }
  }

  lemma OtherCallExplains(c: Channel, s: O.OutStep, p: Parcel, before: seq<Reason>)
    requires EnabledOut(c, s) && !s.Ends? && !s.Abandon? && O.Numbered(c.out)
    requires Explains(before, c.out, p)
    ensures Explains(before + ReasonIn(c, Out(s), p), ApplyOut(c, s).out, p)
  {
    assert before + [] == before;
    var o, d := c.out, ApplyOut(c, s).out;
    if p.id < |o.sent| {
      assert d.sent[p.id] == o.sent[p.id];
    }
  }

  lemma StepExplains(c: Channel, step: Step, p: Parcel, before: seq<Reason>)
    requires Enabled(c, step) && O.Numbered(c.out) && O.OneSenderEach(c.out) && Explains(before, c.out, p)
    ensures Explains(before + ReasonIn(c, step, p), Apply(c, step).out, p)
  {
    match step
    case Out(s) =>
      if s.Ends? {
        EndExplains(c, s, p, before);
      } else if s.Abandon? {
        AbandonExplains(c, s.parting, p, before);
      } else {
        OtherCallExplains(c, s, p, before);
      }
    case _ => assert before + [] == before;
  }

  lemma OutboxStep(c: Channel, step: Step)
    requires Enabled(c, step) && O.Inv(c.out)
    ensures O.Inv(Apply(c, step).out)
  {
    if step.Out? {
      O.StepKeepsInv(c.out, step.out);
    }
  }

  lemma {:induction false} RunKeepsOutbox(c: Channel, steps: seq<Step>)
    requires Valid(c, steps) && O.Inv(c.out)
    ensures O.Inv(After(c, steps).out)
    decreases |steps|
  {
    if steps != [] {
      OutboxStep(c, steps[0]);
      RunKeepsOutbox(Apply(c, steps[0]), steps[1..]);
    }
  }

  lemma {:induction false} RunExplains(c: Channel, steps: seq<Step>, p: Parcel, before: seq<Reason>)
    requires Valid(c, steps) && O.Inv(c.out) && Explains(before, c.out, p)
    ensures Explains(before + Reasons(c, steps, p), After(c, steps).out, p)
    decreases |steps|
  {
    if steps == [] {
      assert before + [] == before;
    } else {
      var now, rest := ReasonIn(c, steps[0], p), Reasons(Apply(c, steps[0]), steps[1..], p);
      StepExplains(c, steps[0], p, before);
      OutboxStep(c, steps[0]);
      RunExplains(Apply(c, steps[0]), steps[1..], p, before + now);
      assert before + (now + rest) == before + now + rest;
    }
  }

  lemma NothingToExplain(receiver: Receiver, p: Parcel)
    ensures O.Inv(EmptyChannel(receiver).out) && Explains([], EmptyChannel(receiver).out, p)
  {
    EmptyChannelInv(receiver);
  }

  /**
   In every run a call ends in `Error` exactly if its task panicked, it was buffered when a timeout
   was noticed or when the client was dropped, its stream was stopped, or the connection broke in one
   of three ways. No more than one of these ever happens to a call, and its channel shows, until it
   is asked, that the sender was dropped unused in the first three and that `Error` was sent in the
   others.
   */
  lemma ErrorHasItsReason(receiver: Receiver, steps: seq<Step>, p: Parcel)
    requires Valid(EmptyChannel(receiver), steps)
    ensures Explains(Reasons(EmptyChannel(receiver), steps, p), After(EmptyChannel(receiver), steps).out, p)
  {
    NothingToExplain(receiver, p);
    RunExplains(EmptyChannel(receiver), steps, p, []);
    assert [] + Reasons(EmptyChannel(receiver), steps, p) == Reasons(EmptyChannel(receiver), steps, p);
  }

  /** A handle that answered `Error` is one of such a call. */
  lemma ErrorAnswerIsError(o: O.Outbox, k: nat)
    requires O.Inv(o) && k < |o.answers| && o.answers[k].state == Result(SendingResult.Error)
    ensures o.answers[k].id < |o.sent| && EndsInError(o, o.sent[o.answers[k].id])
  {
    assert o.sent[o.answers[k].id].id == o.answers[k].id;
  }

  // ---------------------------------------------------------------------------------------------
  // What panics and errors have to do with what was written and what can be read
  // ---------------------------------------------------------------------------------------------

  /** The connection ended, or the sender quit or was dropped early, or it never was. */
  predicate Troubled(ends: Ends) {
    Over(ends) || ends.quit || ends.unreachable || ends.dropped
  }

  /** A stream is finished by a task that is past its write. */
  ghost predicate FinishedByTask(c: Channel, p: Parcel) {
    p in c.finished ==>
      O.IsSent(c.out, p) && !Has(c.out.pending, p) && !Has(c.out.opening, p) && !Has(c.out.writing, p)
  }

  /** A settled call wrote its stream to its end or failed. */
  ghost predicate WrittenOrFailed(c: Channel, p: Parcel) {
    && (Settled(c.out, p) && p !in c.finished ==> EndsInError(c.out, p) || Troubled(c.ends))
    && (EndsInError(c.out, p) && p in c.finished ==> c.ends.lost)
  }

  /**
   A message is lost to a panic only if it is too long, was written to its end and does not decode,
   or was never written to its end by a task that is gone.
   */
  ghost predicate PanicExcused(c: Channel, p: Parcel) {
    Has(c.losses.taskPanicked, p) ==>
      || TooLong(c.receiver, p.body)
      || (p in c.finished && p.body !in c.receiver.decodable)
      || (p !in c.finished && Settled(c.out, p))
  }

  ghost predicate Explained(c: Channel, p: Parcel) {
    FinishedByTask(c, p) && WrittenOrFailed(c, p) && PanicExcused(c, p)
  }

  lemma EndKeepsFinishedByTask(c: Channel, q: Parcel, stage: O.Stage, end: O.TaskEnd, p: Parcel)
    requires EnabledOut(c, O.Ends(q, stage, end)) && FinishedByTask(c, p)
    ensures FinishedByTask(ApplyOut(c, O.Ends(q, stage, end)), p)
  {
    CountWithout(O.Bag(c.out, stage), q, p);
  }

  lemma OpenKeepsFinishedByTask(c: Channel, q: Parcel, p: Parcel)
    requires EnabledOut(c, O.Moves(q, O.Opening)) && FinishedByTask(c, p)
    ensures FinishedByTask(ApplyOut(c, O.Moves(q, O.Opening)), p)
  {
    CountWithout(c.out.opening, q, p);
    CountPush(c.out.writing, q, p);
  }

  lemma WriteKeepsFinishedByTask(c: Channel, q: Parcel, p: Parcel)
    requires EnabledOut(c, O.Moves(q, O.Writing)) && O.Numbered(c.out) && O.OneSenderEach(c.out) && FinishedByTask(c, p)
    ensures FinishedByTask(ApplyOut(c, O.Moves(q, O.Writing)), p)
  {
    CountWithout(c.out.writing, q, p);
    if p == q {
      O.TaskParcelIsAwaited(c.out, q, O.Writing);
    }
  }

  lemma CallKeepsFinishedByTask(c: Channel, s: O.OutStep, p: Parcel)
    requires EnabledOut(c, s) && !O.IsTaskStep(s) && FinishedByTask(c, p)
    ensures FinishedByTask(ApplyOut(c, s), p)
  {
    match s
    case Buffer(body) => CountPush(c.out.pending, O.NextParcel(c.out, body), p);
    case Spawn(body) => CountPush(c.out.opening, O.NextParcel(c.out, body), p);
    case Flush => CountConcat(c.out.opening, c.out.pending, p);
    case _ =>
  }

  lemma AbandonLeaves(o: O.Outbox, parting: O.Parting, p: Parcel)
    requires O.Numbered(o) && O.OneSenderEach(o) && O.Enabled(o, O.Abandon(parting))
    requires O.IsSent(o, p) && p.id < |o.results|
    ensures O.Apply(o, O.Abandon(parting)).results[p.id]
         == if Has(o.pending, p) then O.LeftWhen(parting) else o.results[p.id]
    ensures Has(o.pending, p) ==> o.results[p.id].Waiting?
  {
    CountPositive(o.pending, p);
    if p in o.pending {
      PendingIsLeft(o, parting, p);
    } else {
      NotPendingStays(o, O.LeftWhen(parting), p);
    }
  }

  lemma AbandonKeepsWrittenOrFailed(c: Channel, parting: O.Parting, p: Parcel)
    requires EnabledOut(c, O.Abandon(parting)) && O.Numbered(c.out) && O.OneSenderEach(c.out)
    requires FinishedByTask(c, p) && WrittenOrFailed(c, p)
    ensures WrittenOrFailed(ApplyOut(c, O.Abandon(parting)), p)
  {
    if O.IsSent(c.out, p) && p.id < |c.out.results| {
      AbandonLeaves(c.out, parting, p);
    }
  }

  lemma CallKeepsWrittenOrFailed(c: Channel, s: O.OutStep, p: Parcel)
    requires EnabledOut(c, s) && !O.IsTaskStep(s) && !s.Abandon? && O.Numbered(c.out)
    requires FinishedByTask(c, p) && WrittenOrFailed(c, p)
    ensures WrittenOrFailed(ApplyOut(c, s), p)
  {
    if p.id < |c.out.sent| {
      assert ApplyOut(c, s).out.sent[p.id] == c.out.sent[p.id];
    }
  }

  lemma MoveKeepsWrittenOrFailed(c: Channel, q: Parcel, stage: O.Stage, p: Parcel)
    requires EnabledOut(c, O.Moves(q, stage)) && O.Numbered(c.out) && O.OneSenderEach(c.out) && WrittenOrFailed(c, p)
    ensures WrittenOrFailed(ApplyOut(c, O.Moves(q, stage)), p)
  {
    O.TaskParcelIsAwaited(c.out, q, stage);
  }

  lemma EndKeepsWrittenOrFailed(c: Channel, q: Parcel, stage: O.Stage, end: O.TaskEnd, p: Parcel)
    requires EnabledOut(c, O.Ends(q, stage, end)) && O.Numbered(c.out) && O.OneSenderEach(c.out)
    requires FinishedByTask(c, p) && WrittenOrFailed(c, p)
    requires Has(c.out.stopping, q) ==> q in c.finished
    ensures WrittenOrFailed(ApplyOut(c, O.Ends(q, stage, end)), p)
  {
    O.TaskParcelIsAwaited(c.out, q, stage);
    if p == q {
      EndSaysWhy(c, q, stage, end);
    }
  }

  lemma EndSaysWhy(c: Channel, q: Parcel, stage: O.Stage, end: O.TaskEnd)
    requires EnabledOut(c, O.Ends(q, stage, end))
    ensures !stage.Stopping? ==> IsError(O.LeftBy(end)) || Over(c.ends)
    ensures stage.Stopping? && IsError(O.LeftBy(end)) ==> c.ends.lost
    ensures !O.LeftBy(end).Waiting?
  {
    match end
    case Panicked =>
    case Returned(None) =>
    case Returned(Some(e)) =>
      match ConnectionErrorIn(e)
      case Some(_) =>
      case None =>
  }

  lemma OutStepKeepsWritten(c: Channel, s: O.OutStep, p: Parcel)
    requires EnabledOut(c, s) && O.Numbered(c.out) && O.OneSenderEach(c.out)
    requires forall q :: Has(c.out.stopping, q) ==> q in c.finished
    requires FinishedByTask(c, p) && WrittenOrFailed(c, p)
    ensures FinishedByTask(ApplyOut(c, s), p) && WrittenOrFailed(ApplyOut(c, s), p)
  {
    if s.Ends? {
      EndKeepsFinishedByTask(c, s.p, s.stage, s.end, p);
      EndKeepsWrittenOrFailed(c, s.p, s.stage, s.end, p);
    } else if s.Moves? {
      if s.stage.Opening? {
        OpenKeepsFinishedByTask(c, s.p, p);
      } else {
        WriteKeepsFinishedByTask(c, s.p, p);
      }
      MoveKeepsWrittenOrFailed(c, s.p, s.stage, p);
    } else {
      CallKeepsFinishedByTask(c, s, p);
      if s.Abandon? {
        AbandonKeepsWrittenOrFailed(c, s.parting, p);
      } else {
        CallKeepsWrittenOrFailed(c, s, p);
      }
    }
  }

  /** Once its call is settled, a stream is not finished any more. */
  lemma UnfinishedStays(c: Channel, step: Step, p: Parcel)
    requires Enabled(c, step) && O.Inv(c.out) && p !in c.finished && Settled(c.out, p)
    ensures p !in Apply(c, step).finished && Settled(Apply(c, step).out, p)
  {
    if step.Out? {
      OutStepCannotRevive(c, step.out, p);
      StepKeepsSettled(c.out, step.out, p);
    }
  }

  /** A message whose reader runs and that was not written to its end has no sender left. */
  lemma CutShortIsSettled(c: Channel, p: Parcel)
    requires Inv(c) && Has(c.inbox.readers, p) && p !in c.finished && !Has(c.out.writing, p)
    ensures Settled(c.out, p)
  {
    assert AccountedFor(c, p);
    assert O.Senders(c.out, p) == if O.Awaited(c.out, p) then 1 else 0;
    assert Has(c.out.stopping, p) ==> p in c.finished;
  }

  lemma PanickedTaskIsSettled(c: Channel, p: Parcel, stage: O.Stage)
    requires Inv(c) && EnabledOut(c, O.Ends(p, stage, O.Panicked)) && stage.Opening? && FinishedByTask(c, p)
    ensures var d := ApplyOut(c, O.Ends(p, stage, O.Panicked)); p !in d.finished && Settled(d.out, p)
  {
    O.TaskParcelIsAwaited(c.out, p, stage);
  }

  lemma NewPanicExcused(c: Channel, step: Step, p: Parcel)
    requires Inv(c) && Enabled(c, step) && FinishedByTask(c, p)
    requires step == Out(O.Ends(p, O.Opening, O.Panicked)) || step == In(I.ReadPanics(p))
    ensures PanicExcused(Apply(c, step), p)
  {
    if step.Out? {
      PanickedTaskIsSettled(c, p, O.Opening);
    } else if !TooLong(c.receiver, p.body) && p !in c.finished {
      CutShortIsSettled(c, p);
    }
  }

  lemma StepKeepsPanicExcused(c: Channel, step: Step, p: Parcel)
    requires Inv(c) && Enabled(c, step) && FinishedByTask(c, p) && PanicExcused(c, p)
    ensures PanicExcused(Apply(c, step), p)
  {
    if Has(c.losses.taskPanicked, p) {
      if p !in c.finished && !TooLong(c.receiver, p.body) {
        UnfinishedStays(c, step, p);
      }
    } else if Has(Apply(c, step).losses.taskPanicked, p) {
      PanicIsRecorded(c, step, p);
      NewPanicExcused(c, step, p);
    }
  }

  lemma StepKeepsExplained(c: Channel, step: Step, p: Parcel)
    requires Inv(c) && Enabled(c, step) && Explained(c, p)
    ensures Explained(Apply(c, step), p)
  {
    StepKeepsPanicExcused(c, step, p);
    if step.Out? {
      OutStepKeepsWritten(c, step.out, p);
    }
  }

  lemma {:induction false} RunKeepsExplained(c: Channel, steps: seq<Step>, p: Parcel)
    requires Inv(c) && Valid(c, steps) && Explained(c, p)
    ensures Explained(After(c, steps), p)
    decreases |steps|
  {
    if steps != [] {
      StepKeepsExplained(c, steps[0], p);
      StepKeepsInv(c, steps[0]);
      RunKeepsExplained(Apply(c, steps[0]), steps[1..], p);
    }
  }

  lemma ReachableExplained(c: Channel, p: Parcel)
    requires Reachable(c)
    ensures Explained(c, p)
  {
    var receiver, steps :| Valid(EmptyChannel(receiver), steps) && After(EmptyChannel(receiver), steps) == c;
    EmptyChannelInv(receiver);
    RunKeepsExplained(EmptyChannel(receiver), steps, p);
  }

  // ---------------------------------------------------------------------------------------------
  // A channel without faults
  // ---------------------------------------------------------------------------------------------

  lemma FaultlessIsUntroubled(c: Channel)
    requires Faults(c) == {}
    ensures !Troubled(c.ends) && c.inbox.receiverAlive
  {
    NotFaulty(c, NeverConnected);
    NotFaulty(c, UserQuit);
    NotFaulty(c, SenderDropped);
    NotFaulty(c, ConnectionOver);
    NotFaulty(c, ReceiverDropped);
  }

  /** On such a channel a message is lost exactly to panics. */
  lemma FaultlessLosses(c: Channel, p: Parcel)
    requires Inv(c) && Faults(c) == {}
    ensures LostTimes(c.losses, p) == Count(c.losses.taskPanicked, p)
  {
    FaultlessIsUntroubled(c);
  }

  /**
   On a channel without faults, once nothing is on its way, a message was delivered exactly if it
   was sent, the receiver can read it, and its handle does not say `Error`.
   */
  lemma HealthyChannelDelivers(c: Channel, p: Parcel)
    requires Reachable(c) && Faults(c) == {} && NothingOnItsWay(c)
    ensures Polled(c, p) == 1 <==> O.IsSent(c.out, p) && Readable(c.receiver, p.body) && !EndsInError(c.out, p)
  {
    ReachableInv(c);
    ReachableExplained(c, p);
    FaultlessIsUntroubled(c);
    FaultlessLosses(c, p);
    assert AccountedFor(c, p);
    if Polled(c, p) > 0 {
      PolledIsWhole(c, p);
    }
  }

  lemma PolledIsWhole(c: Channel, p: Parcel)
    requires Inv(c) && Polled(c, p) > 0
    ensures p in c.finished && Readable(c.receiver, p.body)
  {
    MessageOf(c.inbox.drained, p);
    var k :| 0 <= k < |c.inbox.drained| && c.inbox.drained[k] == I.Message(p);
    assert (c.inbox.drained + c.inbox.queue + c.inbox.abandoned)[k] == I.Message(p);
    assert EventExcused(I.Message(p), c);
  }

  /**
   What `Sent` is worth on a channel without faults, exactly: once nothing is on its way, the
   message was dropped if the receiver cannot read it, and delivered if it can.
   */
  lemma SentIsDroppedIffUnreadable(c: Channel, p: Parcel)
    requires Reachable(c) && Faults(c) == {} && NothingOnItsWay(c)
    requires O.IsSent(c.out, p) && ResolvesTo(c, p.id, Sent)
    ensures FateOf(c, p).Dropped? <==> !Readable(c.receiver, p.body)
    ensures FateOf(c, p).Delivered? <==> Readable(c.receiver, p.body)
  {
    ReachableInv(c);
    HealthyChannelDelivers(c, p);
    assert AccountedFor(c, p);
  }

  // ---------------------------------------------------------------------------------------------
  // Errors on a channel without faults
  // ---------------------------------------------------------------------------------------------

  /** Without a fault, a write is stopped only by a reader for which the message is too long. */
  lemma StoppedIsTooLong(c: Channel, p: Parcel, stage: O.Stage)
    requires Inv(c) && Explained(c, p) && Faults(c) == {}
    requires EnabledOut(c, O.Ends(p, stage, O.Returned(Some(WriteAll(WriteStopped)))))
    ensures TooLong(c.receiver, p.body)
  {
    O.TaskParcelIsAwaited(c.out, p, stage);
    FaultlessLosses(c, p);
    assert AccountedFor(c, p);
    if Has(I.Messages(c.inbox.queue), p) {
      QueuedIsFinished(c, p);
    } else if Polled(c, p) > 0 {
      PolledIsWhole(c, p);
    }
  }

  /** All reasons are of the call's own making: its task panicked, or its message is too long. */
  ghost predicate OwnMaking(reasons: seq<Reason>, tooLong: bool) {
    forall k :: 0 <= k < |reasons| ==> reasons[k].SendPanicked? || (reasons[k].StreamStopped? && tooLong)
  }

  lemma ReasonWithoutFault(c: Channel, step: Step, p: Parcel)
    requires Inv(c) && Explained(c, p) && Enabled(c, step) && Faults(c) == {} && Faults(Apply(c, step)) == {}
    ensures OwnMaking(ReasonIn(c, step, p), TooLong(c.receiver, p.body))
  {
    FaultlessIsUntroubled(c);
    FaultlessIsUntroubled(Apply(c, step));
    match step
    case Out(Ends(q, stage, Returned(Some(e)))) =>
      if q == p && e == WriteAll(WriteStopped) {
        StoppedIsTooLong(c, p, stage);
      }
    case _ =>
  }

  lemma FaultlessAllAlong(c: Channel, steps: seq<Step>)
    requires Valid(c, steps) && steps != [] && Faults(After(c, steps)) == {}
    ensures Faults(c) == {} && Faults(Apply(c, steps[0])) == {}
    ensures After(c, steps) == After(Apply(c, steps[0]), steps[1..])
  {
    FaultsOnlyGrow(c, steps);
    FaultsOnlyGrow(Apply(c, steps[0]), steps[1..]);
  }

  lemma StepKeepsInvAndExplained(c: Channel, step: Step, p: Parcel)
    requires Inv(c) && Enabled(c, step) && Explained(c, p)
    ensures Inv(Apply(c, step)) && Explained(Apply(c, step), p)
  {
    StepKeepsExplained(c, step, p);
    StepKeepsInv(c, step);
  }

  lemma {:induction false} ReasonsWithoutFault(c: Channel, steps: seq<Step>, p: Parcel)
    requires Inv(c) && Explained(c, p) && Valid(c, steps) && Faults(After(c, steps)) == {}
    ensures OwnMaking(Reasons(c, steps, p), TooLong(c.receiver, p.body))
    decreases |steps|
  {
    if steps != [] {
      var d := Apply(c, steps[0]);
      FaultlessAllAlong(c, steps);
      ReasonWithoutFault(c, steps[0], p);
      StepKeepsInvAndExplained(c, steps[0], p);
      StepKeepsReceiver(c, steps[0]);
      ReasonsWithoutFault(d, steps[1..], p);
    }
  }

  /** Without faults of the channel a call ends in `Error` only by its own making. */
  lemma FaultlessErrorIsOwnMaking(receiver: Receiver, steps: seq<Step>, p: Parcel)
    requires Valid(EmptyChannel(receiver), steps) && Faults(After(EmptyChannel(receiver), steps)) == {}
    ensures OwnMaking(Reasons(EmptyChannel(receiver), steps, p), TooLong(receiver, p.body))
  {
    EmptyChannelInv(receiver);
    ReasonsWithoutFault(EmptyChannel(receiver), steps, p);
  }

  /**
   In a run without faults of the channel, a readable message was delivered, once nothing is on its
   way, exactly if its own send task did not panic.
   */
  lemma ReadableArrivesIffNoSendPanic(receiver: Receiver, steps: seq<Step>, p: Parcel)
    requires Valid(EmptyChannel(receiver), steps)
    requires var c := After(EmptyChannel(receiver), steps);
             Faults(c) == {} && NothingOnItsWay(c) && O.IsSent(c.out, p) && Readable(c.receiver, p.body)
    ensures Polled(After(EmptyChannel(receiver), steps), p) == 1
       <==> SendPanicked !in Reasons(EmptyChannel(receiver), steps, p)
  {
    var c, start := After(EmptyChannel(receiver), steps), EmptyChannel(receiver);
    HealthyChannelDelivers(c, p);
    ErrorHasItsReason(receiver, steps, p);
    RunKeepsReceiver(start, steps);
    FaultlessErrorIsOwnMaking(receiver, steps, p);
    var reasons := Reasons(start, steps, p);
    assert reasons != [] ==> reasons == [reasons[0]];
  }

  /** On a channel without faults a settled call ended in `Sent` or in `Error`. */
  lemma FaultlessSettled(c: Channel, p: Parcel)
    requires Reachable(c) && Faults(c) == {} && Settled(c.out, p)
    ensures ResolvesTo(c, p.id, Sent) <==> !EndsInError(c.out, p)
  {
    FaultlessIsUntroubled(c);
    ReachableInv(c);
    assert CellExcused(c.out.results[p.id], c.ends);
  }

  /**
   In a run without faults of the channel a message that is not too long, whether or not it can be
   decoded, ends in `Sent` exactly if its own send task did not panic.
   */
  lemma ShortMessageIsSentIffNoPanic(receiver: Receiver, steps: seq<Step>, p: Parcel)
    requires Valid(EmptyChannel(receiver), steps)
    requires var c := After(EmptyChannel(receiver), steps);
             Faults(c) == {} && Settled(c.out, p) && !TooLong(receiver, p.body)
    ensures ResolvesTo(After(EmptyChannel(receiver), steps), p.id, Sent)
       <==> SendPanicked !in Reasons(EmptyChannel(receiver), steps, p)
  {
    FaultlessSettled(After(EmptyChannel(receiver), steps), p);
    ErrorHasItsReason(receiver, steps, p);
    FaultlessErrorIsOwnMaking(receiver, steps, p);
    var reasons := Reasons(EmptyChannel(receiver), steps, p);
    assert reasons != [] ==> reasons == [reasons[0]];
  }
}
