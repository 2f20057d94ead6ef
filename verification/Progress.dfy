/** What happens when nothing goes wrong: every message gets through, in a bounded number of steps. */
module Progress {
  import opened Options
  import opened Sending
  import opened Bags
  import opened Channels
  import D = Delivery
  import V = Verdicts
  import O = Outboxes
  import I = Inboxes

  /** An operation that was awaited succeeds, or the user takes an event. */
  predicate Progresses(c: Channel, step: Step) {
    match step
    case Out(s) => s.Moves? || (s.Ends? && s.stage.Stopping? && s.end == O.Returned(None))
    case In(s) => s.AcceptOk? || s.ReadOk? || (s.Poll? && c.inbox.queue != [])
    case _ => false
  }

  /** A call of either user that neither refuses, quits nor gives up anything. */
  predicate Proceeds(step: Step) {
    match step
    case Out(s) => s.Buffer? || s.Spawn? || s.Flush? || s.Ask?
    case In(s) => s.Listen? || s.Poll?
    case _ => false
  }

  predicate FaultFree(c: Channel, step: Step) {
    Progresses(c, step) || Proceeds(step)
  }

  ghost predicate FaultFreeRun(c: Channel, steps: seq<Step>)
    requires Valid(c, steps)
    decreases |steps|
  {
    steps == [] || (FaultFree(c, steps[0]) && FaultFreeRun(Apply(c, steps[0]), steps[1..]))
  }

  ghost predicate ProgressRun(c: Channel, steps: seq<Step>)
    requires Valid(c, steps)
    decreases |steps|
  {
    steps == [] || (Progresses(c, steps[0]) && ProgressRun(Apply(c, steps[0]), steps[1..]))
  }

  // ---------------------------------------------------------------------------------------------
  // Progress is bounded
  // ---------------------------------------------------------------------------------------------

  /** How many operations are still to succeed, up to the user taking every event. */
  ghost function Load(c: Channel): nat {
    6 * |c.out.opening| + 2 * |c.out.writing| + |c.out.stopping|
    + 3 * |c.streams| + 2 * |c.inbox.readers| + |c.inbox.queue|
  }

  lemma ProgressTakesOne(c: Channel, step: Step)
    requires Enabled(c, step) && Progresses(c, step) && c.inbox.receiverAlive
    ensures Load(Apply(c, step)) == Load(c) - 1
    ensures Apply(c, step).inbox.receiverAlive
  {
    match step
    case Out(s) => WithoutLength(O.Bag(c.out, s.stage), s.p);
    case In(s) =>
      if s.AcceptOk? {
        WithoutLength(c.streams, s.p);
      } else if s.ReadOk? {
        WithoutLength(c.inbox.readers, s.p);
      }
  }

  /** Without new calls, exactly so many steps of progress are left, whatever their order. */
  lemma {:induction false} ProgressIsBounded(c: Channel, steps: seq<Step>)
    requires c.inbox.receiverAlive && Valid(c, steps) && ProgressRun(c, steps)
    ensures |steps| + Load(After(c, steps)) == Load(c)
    decreases |steps|
  {
    if steps != [] {
      ProgressTakesOne(c, steps[0]);
      ProgressIsBounded(Apply(c, steps[0]), steps[1..]);
    }
  }

  // ---------------------------------------------------------------------------------------------
  // At rest, everything has arrived
  // ---------------------------------------------------------------------------------------------

  /** Nothing has gone wrong so far. */
  ghost predicate Flawless(c: Channel) {
    && c.ends == ENDS_OPEN
    && c.losses == NO_LOSSES
    && c.inbox.receiverAlive && !c.inbox.loop.Ended?
  }

  /** A stream that was opened is being written or was written to its end. */
  ghost predicate Fed(c: Channel, p: Parcel) {
    Has(c.streams, p) || Has(c.inbox.readers, p) ==> p in c.finished || Has(c.out.writing, p)
  }

  lemma StepKeepsFlawless(c: Channel, step: Step)
    requires Enabled(c, step) && FaultFree(c, step) && Flawless(c)
    ensures Flawless(Apply(c, step))
  {
  }

  lemma OutStepKeepsFed(c: Channel, s: O.OutStep, p: Parcel)
    requires EnabledOut(c, s) && FaultFree(c, Out(s)) && Fed(c, p)
    ensures Fed(ApplyOut(c, s), p)
  {
    if s.Moves? {
      CountWithout(O.Bag(c.out, s.stage), s.p, p);
      CountPush(c.out.writing, s.p, p);
      CountPush(c.streams, s.p, p);
    }
  }

  lemma InStepKeepsFed(c: Channel, s: I.InStep, p: Parcel)
    requires EnabledIn(c, s) && FaultFree(c, In(s)) && Fed(c, p)
    ensures Fed(ApplyIn(c, s), p)
  {
    if s.AcceptOk? {
      CountWithout(c.streams, s.p, p);
      CountPush(c.inbox.readers, s.p, p);
    } else if s.ReadOk? {
      CountWithout(c.inbox.readers, s.p, p);
    }
  }

  lemma {:induction false} RunKeepsFlawless(c: Channel, steps: seq<Step>, p: Parcel)
    requires Valid(c, steps) && FaultFreeRun(c, steps) && Flawless(c) && Fed(c, p)
    ensures Flawless(After(c, steps)) && Fed(After(c, steps), p)
    decreases |steps|
  {
    if steps != [] {
      StepKeepsFlawless(c, steps[0]);
      if steps[0].Out? {
        OutStepKeepsFed(c, steps[0].out, p);
      } else {
        InStepKeepsFed(c, steps[0].inn, p);
      }
      RunKeepsFlawless(Apply(c, steps[0]), steps[1..], p);
    }
  }

  /** No step of progress is possible. */
  ghost predicate AtRest(c: Channel) {
    forall step: Step :: Progresses(c, step) ==> !Enabled(c, step)
  }

  lemma TaskMeansProgress(c: Channel, stage: O.Stage)
    requires Inv(c) && Flawless(c) && O.Bag(c.out, stage) != []
    ensures !AtRest(c)
  {
    var p := O.Bag(c.out, stage)[0];
    CountPositive(O.Bag(c.out, stage), p);
    O.TaskParcelIsAwaited(c.out, p, stage);
    var step := if stage.Stopping? then Out(O.Ends(p, stage, O.Returned(None))) else Out(O.Moves(p, stage));
    assert Progresses(c, step) && Enabled(c, step);
  }

  /** Nothing but streams that cannot be read is left with the readers. */
  ghost predicate OnlyUnreadableRead(c: Channel) {
    forall p :: Has(c.inbox.readers, p) ==> !Readable(c.receiver, p.body)
  }

  lemma UnreadMeansProgress(c: Channel)
    requires Flawless(c) && c.inbox.loop.Accepting? && c.out.writing == []
    requires forall p :: Fed(c, p)
    requires c.streams != [] || !OnlyUnreadableRead(c) || c.inbox.queue != []
    ensures !AtRest(c)
  {
    if c.streams != [] {
      CountPositive(c.streams, c.streams[0]);
      assert Enabled(c, In(I.AcceptOk(c.streams[0])));
    } else if p :| Has(c.inbox.readers, p) && Readable(c.receiver, p.body) {
      assert Fed(c, p);
      assert Enabled(c, In(I.ReadOk(p)));
    } else {
      assert Enabled(c, In(I.Poll));
    }
  }

  lemma RestMeansRead(c: Channel)
    requires Inv(c) && Flawless(c) && AtRest(c) && c.inbox.loop.Accepting?
    requires forall p :: Fed(c, p)
    ensures c.out.opening == [] && c.streams == [] && OnlyUnreadableRead(c) && c.inbox.queue == []
  {
    if c.out.opening != [] {
      TaskMeansProgress(c, O.Opening);
    }
    if c.out.writing != [] {
      TaskMeansProgress(c, O.Writing);
    } else if c.streams != [] || !OnlyUnreadableRead(c) || c.inbox.queue != [] {
      UnreadMeansProgress(c);
    }
  }

  /**
   However a run without faults interleaves, once it can make no progress, with the connection
   established on both sides and noticed, the user has exactly the readable messages sent, once each.
   */
  lemma FaultFreeRunsDeliver(receiver: Receiver, steps: seq<Step>, q: Parcel)
    requires Valid(EmptyChannel(receiver), steps) && FaultFreeRun(EmptyChannel(receiver), steps)
    requires var c := After(EmptyChannel(receiver), steps);
             AtRest(c) && c.inbox.loop.Accepting? && c.out.pending == []
    ensures var c := After(EmptyChannel(receiver), steps);
            Polled(c, q) == if O.IsSent(c.out, q) && Readable(c.receiver, q.body) then 1 else 0
  {
    var c := After(EmptyChannel(receiver), steps);
    D.ReachableInv(c);
    forall p ensures Flawless(c) && Fed(c, p) {
      RunKeepsFlawless(EmptyChannel(receiver), steps, p);
    }
    assert Flawless(c) by {
      RunKeepsFlawless(EmptyChannel(receiver), steps, q);
    }
    RestMeansRead(c);
    RestMeansDelivered(c, q);
  }

  lemma RestMeansDelivered(c: Channel, q: Parcel)
    requires Inv(c) && Flawless(c) && OnlyUnreadableRead(c)
    requires c.out.pending == [] && c.out.opening == [] && c.streams == [] && c.inbox.queue == []
    ensures Polled(c, q) == if O.IsSent(c.out, q) && Readable(c.receiver, q.body) then 1 else 0
  {
    assert AccountedFor(c, q);
    if Polled(c, q) > 0 {
      V.PolledIsWhole(c, q);
    }
  }

  // ---------------------------------------------------------------------------------------------
  // Without faults no handle says `Error`
  // ---------------------------------------------------------------------------------------------

  lemma {:induction false} FaultFreeRunsHaveNoReasons(c: Channel, steps: seq<Step>, p: Parcel)
    requires Valid(c, steps) && FaultFreeRun(c, steps)
    ensures V.Reasons(c, steps, p) == []
    decreases |steps|
  {
    if steps != [] {
      FaultFreeRunsHaveNoReasons(Apply(c, steps[0]), steps[1..], p);
    }
  }

  /** In a run without faults no handle is or ever was answered `Error`. */
  lemma FaultFreeRunsNeverError(receiver: Receiver, steps: seq<Step>)
    requires Valid(EmptyChannel(receiver), steps) && FaultFreeRun(EmptyChannel(receiver), steps)
    ensures var o := After(EmptyChannel(receiver), steps).out;
            && (forall p :: !V.EndsInError(o, p))
            && (forall k :: 0 <= k < |o.answers| ==> o.answers[k].state != Result(SendingResult.Error))
  {
    var c := After(EmptyChannel(receiver), steps);
    D.ReachableInv(c);
    forall p ensures !V.EndsInError(c.out, p) {
      FaultFreeRunsHaveNoReasons(EmptyChannel(receiver), steps, p);
      V.ErrorHasItsReason(receiver, steps, p);
    }
    forall k | 0 <= k < |c.out.answers| ensures c.out.answers[k].state != Result(SendingResult.Error) {
      if c.out.answers[k].state == Result(SendingResult.Error) {
        V.ErrorAnswerIsError(c.out, k);
      }
    }
  }
}
