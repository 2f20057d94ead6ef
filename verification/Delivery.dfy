/** What every run of one direction of a connection guarantees to the users at its two ends. */
module Delivery {
  import opened Options
  import opened Sending
  import opened Bags
  import opened Fates
  import opened Channels
  import O = Outboxes
  import I = Inboxes

  ghost predicate Reachable(c: Channel) {
    exists receiver, steps :: Valid(EmptyChannel(receiver), steps) && After(EmptyChannel(receiver), steps) == c
  }

  lemma ReachableInv(c: Channel)
    requires Reachable(c)
    ensures Inv(c)
  {
    var receiver, steps :| Valid(EmptyChannel(receiver), steps) && After(EmptyChannel(receiver), steps) == c;
    EmptyChannelInv(receiver);
    RunKeepsInv(EmptyChannel(receiver), steps);
  }

  lemma StepKeepsReceiver(c: Channel, step: Step)
    requires Enabled(c, step)
    ensures Apply(c, step).receiver == c.receiver
  {
  }

  lemma {:induction false} RunKeepsReceiver(c: Channel, steps: seq<Step>)
    requires Valid(c, steps)
    ensures After(c, steps).receiver == c.receiver
    decreases |steps|
  {
    if steps != [] {
      StepKeepsReceiver(c, steps[0]);
      RunKeepsReceiver(Apply(c, steps[0]), steps[1..]);
    }
  }

  /** The steps of a run that are the sending side's, and the receiving side's. */
  function OutSteps(steps: seq<Step>): seq<O.OutStep> {
    if steps == [] then [] else (if steps[0].Out? then [steps[0].out] else []) + OutSteps(steps[1..])
  }

  function InSteps(steps: seq<Step>): seq<I.InStep> {
    if steps == [] then [] else (if steps[0].In? then [steps[0].inn] else []) + InSteps(steps[1..])
  }

  /**
   Either side of a channel goes through a run of its own, so that what every run of an outbox or an
   inbox does is done by every channel.
   */
  lemma {:induction false} SenderRuns(c: Channel, steps: seq<Step>)
    requires Valid(c, steps)
    ensures O.Valid(c.out, OutSteps(steps)) && O.After(c.out, OutSteps(steps)) == After(c, steps).out
    decreases |steps|
  {
    if steps != [] {
      var rest := OutSteps(steps[1..]);
      SenderRuns(Apply(c, steps[0]), steps[1..]);
      if steps[0].Out? {
        assert ([steps[0].out] + rest)[1..] == rest;
        assert OutSteps(steps) == [steps[0].out] + rest;
        assert Apply(c, steps[0]).out == O.Apply(c.out, steps[0].out);
      } else {
        assert OutSteps(steps) == rest && Apply(c, steps[0]).out == c.out;
      }
    }
  }

  lemma {:induction false} ReceiverRuns(c: Channel, steps: seq<Step>)
    requires Valid(c, steps)
    ensures I.Valid(c.inbox, InSteps(steps)) && I.After(c.inbox, InSteps(steps)) == After(c, steps).inbox
    decreases |steps|
  {
    if steps != [] {
      var rest := InSteps(steps[1..]);
      ReceiverRuns(Apply(c, steps[0]), steps[1..]);
      if steps[0].In? {
        assert ([steps[0].inn] + rest)[1..] == rest;
        assert InSteps(steps) == [steps[0].inn] + rest;
        assert Apply(c, steps[0]).inbox == I.Apply(c.inbox, steps[0].inn);
      } else {
        assert InSteps(steps) == rest && Apply(c, steps[0]).inbox == c.inbox;
      }
    }
  }

  /**
   Conservation: a message exists only if it was sent, and is then in exactly one of the buffer, a
   send task, a stream, a reader, the queue, the user's hands, or the losses.
   */
  lemma EveryMessageIsAccountedFor(c: Channel, q: Parcel)
    requires Reachable(c)
    ensures Places(c, q) + Polled(c, q) + LostTimes(c.losses, q) == if O.IsSent(c.out, q) then 1 else 0
    ensures Polled(c, q) <= 1
  {
    ReachableInv(c);
    assert AccountedFor(c, q);
  }

  /** A step in which a task panics over `p`: its send task before it could be read, or its reader. */
  predicate PanicsOver(step: Step, p: Parcel) {
    step == Out(O.Ends(p, O.Opening, O.Panicked)) || step == In(I.ReadPanics(p))
  }

  ghost predicate PanickedIn(steps: seq<Step>, p: Parcel) {
    exists k :: 0 <= k < |steps| && PanicsOver(steps[k], p)
  }

  lemma PanickedFirstOrLater(steps: seq<Step>, p: Parcel)
    requires steps != []
    ensures PanickedIn(steps, p) <==> PanicsOver(steps[0], p) || PanickedIn(steps[1..], p)
  {
    if PanickedIn(steps[1..], p) {
      var k :| 0 <= k < |steps[1..]| && PanicsOver(steps[1..][k], p);
      assert steps[k + 1] == steps[1..][k];
    }
    if k :| 0 < k < |steps| && PanicsOver(steps[k], p) {
      assert steps[1..][k - 1] == steps[k];
    }
  }

  lemma EndIsRecorded(c: Channel, q: Parcel, stage: O.Stage, end: O.TaskEnd, p: Parcel)
    requires EnabledOut(c, O.Ends(q, stage, end))
    ensures var s := O.Ends(q, stage, end);
            Has(ApplyOut(c, s).losses.taskPanicked, p) <==> Has(c.losses.taskPanicked, p) || PanicsOver(Out(s), p)
  {
    CountPush(c.losses.taskPanicked, q, p);
  }

  lemma ReadPanicIsRecorded(c: Channel, q: Parcel, p: Parcel)
    requires EnabledIn(c, I.ReadPanics(q))
    ensures var d := ApplyIn(c, I.ReadPanics(q));
            Has(d.losses.taskPanicked, p) <==> Has(c.losses.taskPanicked, p) || PanicsOver(In(I.ReadPanics(q)), p)
  {
    CountPush(c.losses.taskPanicked, q, p);
  }

  lemma OtherStepsArePanicFree(c: Channel, step: Step, p: Parcel)
    requires Enabled(c, step) && !(step.Out? && step.out.Ends?) && !(step.In? && step.inn.ReadPanics?)
    ensures Apply(c, step).losses.taskPanicked == c.losses.taskPanicked && !PanicsOver(step, p)
  {
  }

  lemma PanicIsRecorded(c: Channel, step: Step, p: Parcel)
    requires Enabled(c, step)
    ensures Has(Apply(c, step).losses.taskPanicked, p) <==> Has(c.losses.taskPanicked, p) || PanicsOver(step, p)
  {
    if step.Out? && step.out.Ends? {
      EndIsRecorded(c, step.out.p, step.out.stage, step.out.end, p);
    } else if step.In? && step.inn.ReadPanics? {
      ReadPanicIsRecorded(c, step.inn.p, p);
    } else {
      OtherStepsArePanicFree(c, step, p);
    }
  }

  /** A message is lost to a panic exactly if its task or its reader panicked over it in this run. */
  lemma {:induction false} LostToPanicIff(c: Channel, steps: seq<Step>, p: Parcel)
    requires Valid(c, steps)
    ensures Has(After(c, steps).losses.taskPanicked, p) <==> Has(c.losses.taskPanicked, p) || PanickedIn(steps, p)
    decreases |steps|
  {
    if steps != [] {
      PanicIsRecorded(c, steps[0], p);
      LostToPanicIff(Apply(c, steps[0]), steps[1..], p);
      PanickedFirstOrLater(steps, p);
    }
  }

  /** Nothing is polled that was not sent, nothing twice, and only what was written to its end and can be read. */
  lemma PolledWasSentWhole(c: Channel, k: nat)
    requires Reachable(c) && k < |c.inbox.drained| && c.inbox.drained[k].Message?
    ensures var p := c.inbox.drained[k].p;
            && O.IsSent(c.out, p)
            && p in c.finished && Readable(c.receiver, p.body)
            && Polled(c, p) == 1
            && FateOf(c, p) == Delivered
  {
    ReachableInv(c);
    var p := c.inbox.drained[k].p;
    MessageCounts(c.inbox.drained, k);
    assert AccountedFor(c, p);
    var events := c.inbox.drained + c.inbox.queue + c.inbox.abandoned;
    assert events[k] == I.Message(p);
    assert EventExcused(I.Message(p), c);
  }

  lemma MessageCounts(events: seq<I.StreamEvent>, k: nat)
    requires k < |events| && events[k].Message?
    ensures Has(I.Messages(events), events[k].p)
  {
    var before, p := I.Messages(events[..k]), events[k].p;
    I.MessagesConcat(events[..k + 1], events[k + 1..]);
    assert events == events[..k + 1] + events[k + 1..];
    assert events[..k + 1][..k] == events[..k];
    CountPush(before, p, p);
    CountConcat(before + [p], I.Messages(events[k + 1..]), p);
  }

  /** Only a fault of the channel or a panicking task makes a message disappear. */
  lemma NothingIsLostWithoutCause(c: Channel, q: Parcel)
    requires Reachable(c) && FateOf(c, q).Dropped?
    ensures Excused(FateOf(c, q).cause, Faults(c))
  {
    ReachableInv(c);
  }

  lemma {:induction false} FaultsOnlyGrow(c: Channel, steps: seq<Step>)
    requires Valid(c, steps)
    ensures Faults(c) <= Faults(After(c, steps))
    decreases |steps|
  {
    if steps != [] {
      forall cause | cause in Faults(c) ensures cause in Faults(Apply(c, steps[0])) {
        FaultsGrow(c, steps[0], cause);
      }
      FaultsOnlyGrow(Apply(c, steps[0]), steps[1..]);
    }
  }

  lemma StepRefinesInv(c: Channel, step: Step, q: Parcel)
    requires Inv(c) && Enabled(c, step)
    ensures Inv(Apply(c, step))
    ensures Next(FateOf(c, q), Faults(Apply(c, step)), FateOf(Apply(c, step), q))
  {
    assert AccountedFor(c, q);
    StepRefines(c, step, q);
    StepKeepsInv(c, step);
  }

  /**
   Every run of the channel is, for every message, a run of the at-most-once channel that drops
   only for the causes there were in the end.
   */
  lemma {:induction false} RunRefines(c: Channel, steps: seq<Step>, q: Parcel)
    requires Inv(c) && Valid(c, steps)
    ensures var d := After(c, steps); Leads(FateOf(c, q), Faults(d), FateOf(d, q), |steps|)
    decreases |steps|
  {
    if steps != [] {
      var c1, d := Apply(c, steps[0]), After(c, steps);
      StepRefinesInv(c, steps[0], q);
      FaultsOnlyGrow(c1, steps[1..]);
      RunRefines(c1, steps[1..], q);
      assert d == After(c1, steps[1..]);
      LeadsOn(FateOf(c, q), FateOf(c1, q), Faults(c1), Faults(d), FateOf(d, q), |steps| - 1);
    }
  }

  ghost predicate NothingOnItsWay(c: Channel) {
    c.out.pending == [] && c.out.opening == [] && c.streams == [] && c.inbox.readers == [] && c.inbox.queue == []
  }

  lemma NotFaulty(c: Channel, cause: Cause)
    requires Faults(c) == {} && !cause.TaskPanicked?
    ensures !Faulty(cause, c.ends, c.inbox.receiverAlive)
  {
    assert cause !in Faults(c);
  }

  // ---------------------------------------------------------------------------------------------
  // Results and events blame the right end
  // ---------------------------------------------------------------------------------------------

  /** The result a handle has had or will get next, if it is settled. */
  ghost predicate ResolvesTo(c: Channel, id: nat, result: SendingResult) {
    id < |c.out.results| && (c.out.results[id] == Holding(result) || c.out.results[id] == Taken(result))
  }

  lemma BlameIsSound(c: Channel, id: nat)
    requires Reachable(c)
    ensures ResolvesTo(c, id, WeClosed) ==> c.ends.quit
    ensures ResolvesTo(c, id, PeerClosedOrDied) ==> c.ends.peerClosed || c.ends.lost || c.ends.unreachable
    ensures ResolvesTo(c, id, Sent) ==> id < |c.out.sent| && c.out.sent[id] in c.finished
  {
    ReachableInv(c);
    if id < |c.out.results| {
      assert CellExcused(c.out.results[id], c.ends);
    }
  }

  /**
   A receiver is told that it was disconnected only if the other side closed or the connection died,
   and told of a timeout only if it died; if only its own side closed it is never told.
   */
  lemma NoDisconnectedWithoutTheOtherSide(c: Channel, k: nat)
    requires Reachable(c) && k < |c.inbox.enqueued| && c.inbox.enqueued[k].Disconnected?
    ensures c.ends.closed || c.ends.lost
    ensures c.inbox.enqueued[k].details.Timeout? ==> c.ends.lost
  {
    ReachableInv(c);
    assert EventExcused(c.inbox.enqueued[k], c);
  }

  /**
   `Sent` says that the stream was written, not that the message gets through: while a task awaits
   the stream's end and the reader of the other side runs, that reader can still panic over a
   message it cannot read and the handle say `Sent`.
   */
  lemma SentIsNotReceived(c: Channel, p: Parcel) returns (steps: seq<Step>)
    requires Inv(c) && Has(c.out.stopping, p) && Has(c.inbox.readers, p) && !Readable(c.receiver, p.body)
    ensures Valid(c, steps)
    ensures var d := After(c, steps);
            ResolvesTo(d, p.id, Sent) && FateOf(d, p) == Dropped(TaskPanicked) && Faults(d) == Faults(c)
  {
    var panics, ends := In(I.ReadPanics(p)), Out(O.Ends(p, O.Stopping, O.Returned(None)));
    PanicDropsMessage(c, p);
    TaskSaysSent(Apply(c, panics), p);
    StepThenRun(Apply(c, panics), ends, []);
    StepThenRun(c, panics, [ends]);
    steps := [panics] + [ends];
    assert [ends] == [ends] + [];
  }

  lemma PanicIsDropped(c: Channel, p: Parcel)
    requires Enabled(c, In(I.ReadPanics(p)))
    requires AccountedFor(c, p) && AccountedFor(Apply(c, In(I.ReadPanics(p))), p)
    ensures FateOf(Apply(c, In(I.ReadPanics(p))), p) == Dropped(TaskPanicked)
  {
    StepFlows(c, In(I.ReadPanics(p)), p);
    CountOne(p, p);
    LoseAt(c.losses, [p], TaskPanicked, p);
  }

  lemma PanicDropsMessage(c: Channel, p: Parcel)
    requires Inv(c) && Has(c.inbox.readers, p) && MayPanic(c, p)
    ensures Enabled(c, In(I.ReadPanics(p)))
    ensures var d := Apply(c, In(I.ReadPanics(p)));
            && Inv(d) && d.out == c.out && d.ends == c.ends && d.inbox.receiverAlive == c.inbox.receiverAlive
            && FateOf(d, p) == Dropped(TaskPanicked)
  {
    StepKeepsInv(c, In(I.ReadPanics(p)));
    assert AccountedFor(c, p) && AccountedFor(Apply(c, In(I.ReadPanics(p))), p);
    PanicIsDropped(c, p);
  }

  lemma TaskSaysSent(c: Channel, p: Parcel)
    requires Inv(c) && Has(c.out.stopping, p)
    ensures Enabled(c, Out(O.Ends(p, O.Stopping, O.Returned(None))))
    ensures var d := Apply(c, Out(O.Ends(p, O.Stopping, O.Returned(None))));
            && ResolvesTo(d, p.id, Sent)
            && d == c.(out := d.out) && d.out == d.out.(pending := c.out.pending, opening := c.out.opening)
  {
    O.TaskParcelIsAwaited(c.out, p, O.Stopping);
  }

  // ---------------------------------------------------------------------------------------------
  // What still arrives
  // ---------------------------------------------------------------------------------------------

  /** The channel of the call of `p` has or had its result. */
  ghost predicate Settled(o: O.Outbox, p: Parcel) {
    O.IsSent(o, p) && p.id < |o.results| && !o.results[p.id].Waiting?
  }

  /** Nothing more of `p` can be written: this side closed, or its call is settled. */
  ghost predicate NoMoreWritten(c: Channel, p: Parcel) {
    c.ends.closed || Settled(c.out, p)
  }

  /** Everything of `p` was written, and it is still somewhere on the receiver's side of things. */
  ghost predicate Arriving(c: Channel, p: Parcel) {
    && p in c.finished
    && (|| Polled(c, p) > 0
        || (c.inbox.receiverAlive && Has(I.Messages(c.inbox.queue), p))
        || (c.inbox.receiverAlive && Readable(c.receiver, p.body)
            && (Has(c.inbox.readers, p) || (Has(c.streams, p) && !c.inbox.loop.Ended?))))
  }

  /** Some run hands `p` to the receiving user. */
  ghost predicate CanBePolled(c: Channel, p: Parcel) {
    exists steps :: Valid(c, steps) && Polled(After(c, steps), p) > 0
  }

  /** What the receiver's side holds of `p` comes from what it held before. */
  lemma ReaderSideOnlyMoves(c: Channel, s: I.InStep, p: Parcel)
    requires EnabledIn(c, s)
    ensures var d := ApplyIn(c, s);
            && (Has(d.inbox.readers, p) ==> Has(c.inbox.readers, p) || (Has(c.streams, p) && c.inbox.loop.Accepting?))
            && (Has(d.streams, p) ==> Has(c.streams, p))
  {
    if s.AcceptOk? {
      CountWithout(c.streams, s.p, p);
      CountPush(c.inbox.readers, s.p, p);
    } else if s.ReadOk? || s.ReadFails? || s.ReadPanics? {
      CountWithout(c.inbox.readers, s.p, p);
    }
  }

  lemma QueueSideOnlyMoves(c: Channel, s: I.InStep, p: Parcel)
    requires EnabledIn(c, s)
    ensures var d := ApplyIn(c, s);
            && (Has(I.Messages(d.inbox.queue), p) ==>
                  || Has(I.Messages(c.inbox.queue), p)
                  || (c.inbox.receiverAlive && Has(c.inbox.readers, p) && p in c.finished
                      && Readable(c.receiver, p.body)))
            && (Polled(d, p) > Polled(c, p) ==> Has(I.Messages(c.inbox.queue), p))
  {
    match s
    case AcceptFails(error) =>
      if I.ErrorToEvent(error).Emit? {
        MessagesPushed(c.inbox.queue, I.Disconnected(I.ErrorToEvent(error).details), p);
      }
    case ReadFails(_, error) =>
      if I.ErrorToEvent(error).Emit? {
        MessagesPushed(c.inbox.queue, I.Disconnected(I.ErrorToEvent(error).details), p);
      }
    case ReadOk(q) => MessagesPushed(c.inbox.queue, I.Message(q), p);
    case Poll =>
      if c.inbox.queue != [] {
        MessagesPopped(c.inbox.queue, p);
        MessagesPushed(c.inbox.drained, c.inbox.queue[0], p);
      }
    case _ =>
  }

  lemma InStepCannotRevive(c: Channel, s: I.InStep, p: Parcel)
    requires EnabledIn(c, s) && !Arriving(c, p) && Polled(c, p) == 0
    requires Has(I.Messages(c.inbox.queue), p) ==> p in c.finished && c.inbox.receiverAlive
    ensures !Arriving(ApplyIn(c, s), p) && Polled(ApplyIn(c, s), p) == 0
  {
    ReaderSideOnlyMoves(c, s, p);
    QueueSideOnlyMoves(c, s, p);
  }

  /** The tasks do nothing for `p` any more. */
  lemma OutStepCannotRevive(c: Channel, s: O.OutStep, p: Parcel)
    requires EnabledOut(c, s) && O.Numbered(c.out) && O.OneSenderEach(c.out) && NoMoreWritten(c, p)
    ensures var d := ApplyOut(c, s);
            (p in d.finished <==> p in c.finished) && (Has(d.streams, p) <==> Has(c.streams, p))
  {
    if s.Moves? {
      O.TaskParcelIsAwaited(c.out, s.p, s.stage);
      CountPush(c.streams, s.p, p);
    }
  }

  lemma StepCannotRevive(c: Channel, step: Step, p: Parcel)
    requires Enabled(c, step) && O.Numbered(c.out) && O.OneSenderEach(c.out) && NoMoreWritten(c, p)
    requires !Arriving(c, p) && Polled(c, p) == 0
    requires Has(I.Messages(c.inbox.queue), p) ==> p in c.finished && c.inbox.receiverAlive
    ensures !Arriving(Apply(c, step), p) && Polled(Apply(c, step), p) == 0
  {
    match step
    case Out(s) => OutStepCannotRevive(c, s, p);
    case In(s) => InStepCannotRevive(c, s, p);
    case StreamVanishes(q) => CountWithout(c.streams, q, p);
    case _ =>
  }

  lemma StepKeepsSettled(o: O.Outbox, s: O.OutStep, p: Parcel)
    requires O.Inv(o) && O.Enabled(o, s) && Settled(o, p)
    ensures Settled(O.Apply(o, s), p)
  {
    O.StepSettles(o, s);
  }

  lemma StepKeepsNoMoreWritten(c: Channel, step: Step, p: Parcel)
    requires O.Inv(c.out) && Enabled(c, step) && NoMoreWritten(c, p)
    ensures NoMoreWritten(Apply(c, step), p)
  {
    if step.Out? && !c.ends.closed {
      StepKeepsSettled(c.out, step.out, p);
    }
  }

  lemma {:induction false} MessageOf(events: seq<I.StreamEvent>, p: Parcel)
    requires Has(I.Messages(events), p)
    ensures I.Message(p) in events
  {
    var n := |events| - 1;
    if events[n] != I.Message(p) {
      if events[n].Message? {
        CountPush(I.Messages(events[..n]), events[n].p, p);
      }
      MessageOf(events[..n], p);
    }
  }

  lemma QueuedIsFinished(c: Channel, p: Parcel)
    requires Inv(c) && Has(I.Messages(c.inbox.queue), p)
    ensures p in c.finished && c.inbox.receiverAlive
  {
    MessageOf(c.inbox.queue, p);
    assert c.inbox.queue != [];
    var k :| 0 <= k < |c.inbox.queue| && c.inbox.queue[k] == I.Message(p);
    assert (c.inbox.drained + c.inbox.queue + c.inbox.abandoned)[|c.inbox.drained| + k] == I.Message(p);
    assert EventExcused(I.Message(p), c);
  }

  lemma StillNotArriving(c: Channel, step: Step, p: Parcel)
    requires Inv(c) && NoMoreWritten(c, p) && !Arriving(c, p) && Polled(c, p) == 0 && Enabled(c, step)
    ensures var d := Apply(c, step);
            Inv(d) && NoMoreWritten(d, p) && !Arriving(d, p) && Polled(d, p) == 0
  {
    if Has(I.Messages(c.inbox.queue), p) {
      QueuedIsFinished(c, p);
    }
    StepCannotRevive(c, step, p);
    StepKeepsNoMoreWritten(c, step, p);
    StepKeepsInv(c, step);
  }

  lemma {:induction false} NeverArrives(c: Channel, p: Parcel, steps: seq<Step>)
    requires Inv(c) && NoMoreWritten(c, p) && !Arriving(c, p) && Polled(c, p) == 0 && Valid(c, steps)
    ensures Polled(After(c, steps), p) == 0
    decreases |steps|
  {
    if steps != [] {
      StillNotArriving(c, steps[0], p);
      NeverArrives(Apply(c, steps[0]), p, steps[1..]);
    }
  }

  /** Polling until the queue is empty hands over every message in it. */
  lemma {:induction false} PollAll(c: Channel) returns (steps: seq<Step>)
    requires c.inbox.receiverAlive
    ensures Valid(c, steps)
    ensures After(c, steps).inbox.drained == c.inbox.drained + c.inbox.queue && After(c, steps).out == c.out
    decreases |c.inbox.queue|
  {
    if c.inbox.queue == [] {
      steps := [];
      assert c.inbox.drained + c.inbox.queue == c.inbox.drained;
    } else {
      var d := Apply(c, In(I.Poll));
      var rest := PollAll(d);
      StepThenRun(c, In(I.Poll), rest);
      steps := [In(I.Poll)] + rest;
      assert c.inbox.drained + c.inbox.queue == c.inbox.drained + [c.inbox.queue[0]] + c.inbox.queue[1..];
    }
  }

  lemma QueuedArrives(c: Channel, p: Parcel) returns (steps: seq<Step>)
    requires c.inbox.receiverAlive && Has(I.Messages(c.inbox.queue), p)
    ensures Valid(c, steps) && Polled(After(c, steps), p) > 0 && After(c, steps).out == c.out
  {
    steps := PollAll(c);
    I.MessagesConcat(c.inbox.drained, c.inbox.queue);
    CountConcat(I.Messages(c.inbox.drained), I.Messages(c.inbox.queue), p);
  }

  lemma ReadArrives(c: Channel, p: Parcel) returns (steps: seq<Step>)
    requires c.inbox.receiverAlive && Has(c.inbox.readers, p) && p in c.finished && Readable(c.receiver, p.body)
    ensures Valid(c, steps) && Polled(After(c, steps), p) > 0 && After(c, steps).out == c.out
  {
    var step := In(I.ReadOk(p));
    MessagesPushed(c.inbox.queue, I.Message(p), p);
    var rest := QueuedArrives(Apply(c, step), p);
    StepThenRun(c, step, rest);
    steps := [step] + rest;
  }

  lemma AcceptedArrives(c: Channel, p: Parcel) returns (steps: seq<Step>)
    requires c.inbox.receiverAlive && Has(c.streams, p) && c.inbox.loop.Accepting?
    requires p in c.finished && Readable(c.receiver, p.body)
    ensures Valid(c, steps) && Polled(After(c, steps), p) > 0 && After(c, steps).out == c.out
  {
    var step := In(I.AcceptOk(p));
    CountPush(c.inbox.readers, p, p);
    var rest := ReadArrives(Apply(c, step), p);
    StepThenRun(c, step, rest);
    steps := [step] + rest;
  }

  lemma ArrivingArrives(c: Channel, p: Parcel) returns (steps: seq<Step>)
    requires Arriving(c, p)
    ensures Valid(c, steps) && Polled(After(c, steps), p) > 0 && After(c, steps).out == c.out
  {
    if Polled(c, p) > 0 {
      steps := [];
    } else if c.inbox.receiverAlive && Has(I.Messages(c.inbox.queue), p) {
      steps := QueuedArrives(c, p);
    } else if Has(c.inbox.readers, p) {
      steps := ReadArrives(c, p);
    } else if c.inbox.loop.Accepting? {
      steps := AcceptedArrives(c, p);
    } else {
      var rest := AcceptedArrives(Apply(c, In(I.Listen)), p);
      StepThenRun(c, In(I.Listen), rest);
      steps := [In(I.Listen)] + rest;
    }
  }

  /**
   Once nothing more of it can be written, a message can still reach the receiving user exactly
   when it was written to its end, can be read, and is still on the receiver's side.
   */
  lemma WhatStillArrives(c: Channel, p: Parcel)
    requires Inv(c) && NoMoreWritten(c, p)
    ensures Arriving(c, p) <==> CanBePolled(c, p)
  {
    if Arriving(c, p) {
      var steps := ArrivingArrives(c, p);
    } else {
      if Polled(c, p) > 0 {
        PolledIsArriving(c, p);
      }
      forall steps | Valid(c, steps) ensures Polled(After(c, steps), p) == 0 {
        NeverArrives(c, p, steps);
      }
    }
  }

  /** What a handle's `Sent` is worth: the message was written to its end, and only that. */
  lemma WhatSentLetsThrough(c: Channel, p: Parcel)
    requires Reachable(c) && O.IsSent(c.out, p) && ResolvesTo(c, p.id, Sent)
    ensures p in c.finished
    ensures CanBePolled(c, p) <==> Arriving(c, p)
  {
    ReachableInv(c);
    WhatStillArrives(c, p);
  }

  /** The handle of a message that is still going to arrive can already say `WeClosed`. */
  lemma WeClosedMayStillArrive(c: Channel, p: Parcel)
    requires Inv(c) && c.ends.closed && Has(c.out.stopping, p) && Arriving(c, p)
    ensures var end := Out(O.Ends(p, O.Stopping, ClosedWhile(O.Stopping)));
            && Enabled(c, end)
            && ResolvesTo(Apply(c, end), p.id, WeClosed)
            && Arriving(Apply(c, end), p)
  {
    O.TaskParcelIsAwaited(c.out, p, O.Stopping);
  }

  lemma PolledIsArriving(c: Channel, p: Parcel)
    requires Inv(c) && Polled(c, p) > 0
    ensures Arriving(c, p)
  {
    MessageOf(c.inbox.drained, p);
    var k :| 0 <= k < |c.inbox.drained| && c.inbox.drained[k] == I.Message(p);
    assert (c.inbox.drained + c.inbox.queue + c.inbox.abandoned)[k] == I.Message(p);
    assert EventExcused(I.Message(p), c);
  }

  // ---------------------------------------------------------------------------------------------
  // Quiescence
  // ---------------------------------------------------------------------------------------------

  /** What a task awaiting this reports on a connection this side closed. */
  function ClosedWhile(stage: O.Stage): O.TaskEnd {
    match stage
    case Opening => O.Returned(Some(OpenUni(LocallyClosed)))
    case Writing => O.Returned(Some(WriteAll(WriteConnectionLost(LocallyClosed))))
    case Stopping => O.Returned(Some(Stopped(StoppedConnectionLost(LocallyClosed))))
  }

  lemma ClosedTaskCanReturn(c: Channel, p: Parcel, stage: O.Stage)
    requires Inv(c) && c.ends.closed && Has(O.Bag(c.out, stage), p)
    ensures Enabled(c, Out(O.Ends(p, stage, ClosedWhile(stage))))
  {
    O.TaskParcelIsAwaited(c.out, p, stage);
  }

  /** Steps of send tasks only. */
  ghost predicate TaskSteps(steps: seq<Step>) {
    forall k :: 0 <= k < |steps| ==> steps[k].Out? && O.IsTaskStep(steps[k].out)
  }

  lemma {:induction false} TaskRunsAreFinite(c: Channel, steps: seq<Step>)
    requires Valid(c, steps) && TaskSteps(steps)
    ensures |steps| + O.Remaining(After(c, steps).out) <= O.Remaining(c.out)
    ensures After(c, steps).ends == c.ends && After(c, steps).out.pending == c.out.pending
    decreases |steps|
  {
    if steps != [] {
      O.TaskStepProgresses(c.out, steps[0].out);
      TaskRunsAreFinite(Apply(c, steps[0]), steps[1..]);
    }
  }

  /** No send task can make a step. */
  ghost predicate TasksStuck(c: Channel) {
    forall s: O.OutStep :: O.IsTaskStep(s) ==> !EnabledOut(c, s)
  }

  lemma ClosedTasksAreNotStuck(c: Channel, stage: O.Stage)
    requires Inv(c) && c.ends.closed && O.Bag(c.out, stage) != []
    ensures !TasksStuck(c)
  {
    var p := O.Bag(c.out, stage)[0];
    CountPositive(O.Bag(c.out, stage), p);
    ClosedTaskCanReturn(c, p, stage);
    assert EnabledOut(c, O.Ends(p, stage, ClosedWhile(stage)));
  }

  lemma StuckMeansDone(c: Channel)
    requires Inv(c) && c.ends.closed && TasksStuck(c)
    ensures O.Remaining(c.out) == 0
  {
    if O.Bag(c.out, O.Opening) != [] {
      ClosedTasksAreNotStuck(c, O.Opening);
    }
    if O.Bag(c.out, O.Writing) != [] {
      ClosedTasksAreNotStuck(c, O.Writing);
    }
    if O.Bag(c.out, O.Stopping) != [] {
      ClosedTasksAreNotStuck(c, O.Stopping);
    }
  }

  /**
   After a close, send tasks make at most as many steps as they have operations left, whatever
   their order and outcomes; and when none can go on, every handle has its answer.
   */
  lemma ClosedTasksComeToRest(c: Channel, steps: seq<Step>)
    requires Inv(c) && c.ends.closed && c.out.pending == []
    requires Valid(c, steps) && TaskSteps(steps)
    ensures |steps| <= O.Remaining(c.out)
    ensures var d := After(c, steps);
            TasksStuck(d) ==> forall i :: 0 <= i < |d.out.results| ==> !d.out.results[i].Waiting?
  {
    TaskRunsAreFinite(c, steps);
    RunKeepsInv(c, steps);
    var d := After(c, steps);
    if TasksStuck(d) {
      StuckMeansDone(d);
      O.NoTaskNoWaiting(d.out);
    }
  }

  // ---------------------------------------------------------------------------------------------
  // After the connection died
  // ---------------------------------------------------------------------------------------------

  /** No task of either side can make a step. */
  ghost predicate NothingMoves(c: Channel) {
    && TasksStuck(c)
    && (forall s: I.InStep :: s.AcceptOk? || s.AcceptFails? || s.ReadOk? || s.ReadFails? || s.ReadPanics? ==>
          !EnabledIn(c, s))
    && forall p :: !Enabled(c, StreamVanishes(p))
  }

  lemma DeadTasksEnd(c: Channel, stage: O.Stage)
    requires Inv(c) && c.ends.lost && TasksStuck(c)
    ensures O.Bag(c.out, stage) == []
  {
    var end := O.Returned(Some(match stage
                               case Opening => OpenUni(TimedOut)
                               case Writing => WriteAll(WriteConnectionLost(TimedOut))
                               case Stopping => Stopped(StoppedConnectionLost(TimedOut))));
    if O.Bag(c.out, stage) != [] {
      var p := O.Bag(c.out, stage)[0];
      CountPositive(O.Bag(c.out, stage), p);
      O.TaskParcelIsAwaited(c.out, p, stage);
      assert O.IsTaskStep(O.Ends(p, stage, end)) && EnabledOut(c, O.Ends(p, stage, end));
    }
  }

  /**
   A dead connection leaves nothing hanging: when nothing moves any more, the accept loop has ended, no
   reader, stream or send task is left, and every handle whose call is not buffered has its answer.
   */
  lemma DeathEndsEverything(c: Channel)
    requires Reachable(c) && c.ends.lost && NothingMoves(c)
    ensures !c.inbox.loop.Accepting? && c.inbox.readers == [] && c.streams == []
    ensures c.out.opening == [] && c.out.writing == [] && c.out.stopping == []
    ensures c.out.pending == [] ==> forall i :: 0 <= i < |c.out.results| ==> !c.out.results[i].Waiting?
  {
    ReachableInv(c);
    assert !EnabledIn(c, I.AcceptFails(TimedOut));
    if c.inbox.readers != [] {
      CountPositive(c.inbox.readers, c.inbox.readers[0]);
      assert EnabledIn(c, I.ReadFails(c.inbox.readers[0], TimedOut));
    }
    if c.streams != [] {
      CountPositive(c.streams, c.streams[0]);
      assert Enabled(c, StreamVanishes(c.streams[0]));
    }
    DeadTasksEnd(c, O.Opening);
    DeadTasksEnd(c, O.Writing);
    DeadTasksEnd(c, O.Stopping);
    if c.out.pending == [] {
      O.NoTaskNoWaiting(c.out);
    }
  }
}
