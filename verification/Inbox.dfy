/**
 The receiving side of one direction of a connection, the same code for a client and for a client
 on the server: an accept loop, one reader task per accepted stream, and the one event queue they
 all write to and the user polls.

 `enqueued`, `drained`, `abandoned` and `tally` are histories.
 */
module Inboxes {
  import opened Options
  import opened Sending
  import Bags

  datatype Details = NoDetails | Timeout

  /** What an accept loop or a reader puts in the queue. */
  datatype StreamEvent = Message(p: Parcel) | Disconnected(details: Details)

  /** What the code makes of a connection error while receiving. */
  datatype Verdict = Emit(details: Details) | Silent | Panic

  function ErrorToEvent(error: ConnectionError): Verdict {
    match error
    case ApplicationClosed => Emit(NoDetails)
    case ConnectionClosed => Emit(NoDetails)
    case LocallyClosed => Silent
    case TimedOut => Emit(Timeout)
    case _ => Panic
  }

  /**
   What an error means to a receiver and to a sender: silence on the one side is `WeClosed` on the
   other; a user told of a disconnection has sends that end in `PeerClosedOrDied`, and a timeout is
   told as such. The two sides differ on `Reset`, which a sender survives and a receiver does not.
   */
  lemma ReceiverAndSenderAgree(error: ConnectionError)
    ensures ErrorToEvent(error).Silent? <==> FromConnectionError(error) == WeClosed
    ensures FromConnectionError(error) == PeerClosedOrDied <==> ErrorToEvent(error).Emit? || error.Reset?
    ensures ErrorToEvent(error) == Emit(Timeout) <==> error.TimedOut?
    ensures ErrorToEvent(error).Panic? <==> FromConnectionError(error) == SendingResult.Error || error.Reset?
  {
  }

  datatype LoopPhase = NotStarted | Accepting | Ended(error: ConnectionError)

  /** How many streams were accepted, and how their readers ended. */
  datatype Tally = Tally(accepted: nat, messages: nat, disconnects: nat, quiet: nat)

  datatype Inbox = Inbox(
    loop: LoopPhase,
    readers: seq<Parcel>,
    queue: seq<StreamEvent>,
    receiverAlive: bool,
    enqueued: seq<StreamEvent>,
    drained: seq<StreamEvent>,
    abandoned: seq<StreamEvent>,
    tally: Tally)

  const EMPTY_INBOX := Inbox(NotStarted, [], [], true, [], [], [], Tally(0, 0, 0, 0))

  datatype InStep =
    | Listen
    | AcceptOk(p: Parcel)
    | AcceptFails(error: ConnectionError)
    | ReadOk(p: Parcel)
    | ReadFails(p: Parcel, error: ConnectionError)
    | ReadPanics(p: Parcel)
    | Poll
    | DropReceiver

  predicate Enabled(b: Inbox, step: InStep) {
    match step
    case Listen => b.loop.NotStarted?
    case AcceptOk(_) => b.loop.Accepting?
    case AcceptFails(_) => b.loop.Accepting?
    case ReadOk(p) => Bags.Has(b.readers, p)
    case ReadFails(p, _) => Bags.Has(b.readers, p)
    case ReadPanics(p) => Bags.Has(b.readers, p)
    case Poll => b.receiverAlive
    case DropReceiver => true
  }

  /** A send on the event queue; it has no effect once the receiver is gone. */
  function Enqueue(b: Inbox, event: StreamEvent): Inbox {
    if b.receiverAlive then b.(queue := b.queue + [event], enqueued := b.enqueued + [event]) else b
  }

  function Apply(b: Inbox, step: InStep): Inbox
    requires Enabled(b, step)
  {
    match step
    case Listen => b.(loop := Accepting)
    case AcceptOk(p) =>
      b.(readers := b.readers + [p], tally := b.tally.(accepted := b.tally.accepted + 1))
    case AcceptFails(error) =>
      var over := b.(loop := Ended(error));
      var verdict := ErrorToEvent(error);
      if verdict.Emit? then Enqueue(over, Disconnected(verdict.details)) else over
    case ReadOk(p) =>
      Enqueue(
        b.(readers := Bags.Without(b.readers, p), tally := b.tally.(messages := b.tally.messages + 1)),
        Message(p))
    case ReadFails(p, error) =>
      var gone := b.(readers := Bags.Without(b.readers, p));
      var verdict := ErrorToEvent(error);
      if verdict.Emit? then
        Enqueue(gone.(tally := b.tally.(disconnects := b.tally.disconnects + 1)), Disconnected(verdict.details))
      else
        gone.(tally := b.tally.(quiet := b.tally.quiet + 1))
    case ReadPanics(p) =>
      b.(readers := Bags.Without(b.readers, p), tally := b.tally.(quiet := b.tally.quiet + 1))
    case Poll =>
      if b.queue == [] then b
      else b.(queue := b.queue[1..], drained := b.drained + [b.queue[0]])
    case DropReceiver =>
      b.(receiverAlive := false, queue := [], abandoned := b.abandoned + b.queue)
  }

  /** What the user's poll returns. */
  function PollAnswer(b: Inbox): Option<StreamEvent> {
    if b.queue == [] then None else Some(b.queue[0])
  }

  ghost predicate Valid(b: Inbox, steps: seq<InStep>)
    decreases |steps|
  {
    steps == [] || (Enabled(b, steps[0]) && Valid(Apply(b, steps[0]), steps[1..]))
  }

  ghost function After(b: Inbox, steps: seq<InStep>): Inbox
    requires Valid(b, steps)
    decreases |steps|
  {
    if steps == [] then b else After(Apply(b, steps[0]), steps[1..])
  }

  // ---------------------------------------------------------------------------------------------
  // Queue agreement and counting
  // ---------------------------------------------------------------------------------------------

  /** The messages among the events, in order. */
  function Messages(events: seq<StreamEvent>): seq<Parcel> {
    if events == [] then []
    else
      var before := Messages(events[..|events| - 1]);
      var last := events[|events| - 1];
      if last.Message? then before + [last.p] else before
  }

  lemma {:induction false} MessagesConcat(a: seq<StreamEvent>, b: seq<StreamEvent>)
    ensures Messages(a + b) == Messages(a) + Messages(b)
  {
    if b == [] {
      assert a + b == a;
    } else {
      var n := |b| - 1;
      MessagesConcat(a, b[..n]);
      assert (a + b)[..|a + b| - 1] == a + b[..n];
    }
  }

  /** Nothing enqueued is reordered, repeated or lost while the receiver lives. */
  ghost predicate QueueAgrees(b: Inbox) {
    && b.drained + b.queue + b.abandoned == b.enqueued
    && (b.receiverAlive ==> b.abandoned == [])
    && (!b.receiverAlive ==> b.queue == [])
  }

  /** How many events the accept loop itself has for the user. */
  function LoopTells(loop: LoopPhase): nat {
    if loop.Ended? && ErrorToEvent(loop.error).Emit? then 1 else 0
  }

  /** Every accepted stream has a reader that runs or ended in one of three ways. */
  ghost predicate Counted(b: Inbox) {
    && b.tally.accepted == |b.readers| + b.tally.messages + b.tally.disconnects + b.tally.quiet
    && |Messages(b.enqueued)| <= b.tally.messages
    && (b.receiverAlive ==> |Messages(b.enqueued)| == b.tally.messages)
    && |b.enqueued| - |Messages(b.enqueued)| <= b.tally.disconnects + LoopTells(b.loop)
    && (b.receiverAlive ==> |b.enqueued| - |Messages(b.enqueued)| == b.tally.disconnects + LoopTells(b.loop))
    && (b.loop.NotStarted? ==> b.tally.accepted == 0)
  }

  ghost predicate Inv(b: Inbox) {
    QueueAgrees(b) && Counted(b)
  }

  lemma EnqueueKeepsInv(b: Inbox, event: StreamEvent)
    requires QueueAgrees(b)
    ensures var b' := Enqueue(b, event);
            && QueueAgrees(b')
            && |Messages(b'.enqueued)|
            == |Messages(b.enqueued)| + if b.receiverAlive && event.Message? then 1 else 0
  {
    assert (b.enqueued + [event])[..|b.enqueued|] == b.enqueued;
    if b.receiverAlive {
      assert b.drained + (b.queue + [event]) + [] == b.drained + b.queue + [] + [event];
    }
  }

  lemma StepKeepsQueueAgrees(b: Inbox, step: InStep)
    requires QueueAgrees(b) && Enabled(b, step)
    ensures QueueAgrees(Apply(b, step))
  {
    match step
    case Poll =>
      if b.queue != [] {
        assert b.drained + [b.queue[0]] + b.queue[1..] == b.drained + b.queue;
      }
    case DropReceiver =>
      assert b.drained + [] + (b.abandoned + b.queue) == b.drained + b.queue + b.abandoned;
    case AcceptFails(error) =>
      if ErrorToEvent(error).Emit? {
        EnqueueKeepsInv(b.(loop := Ended(error)), Disconnected(ErrorToEvent(error).details));
      }
    case ReadOk(p) =>
      EnqueueKeepsInv(b.(readers := Bags.Without(b.readers, p)), Message(p));
    case ReadFails(p, error) =>
      if ErrorToEvent(error).Emit? {
        EnqueueKeepsInv(b.(readers := Bags.Without(b.readers, p)), Disconnected(ErrorToEvent(error).details));
      }
    case _ =>
  }

  lemma AcceptFailsKeepsCounted(b: Inbox, error: ConnectionError)
    requires QueueAgrees(b) && Counted(b) && Enabled(b, AcceptFails(error))
    ensures Counted(Apply(b, AcceptFails(error)))
  {
    if ErrorToEvent(error).Emit? {
      EnqueueKeepsInv(b.(loop := Ended(error)), Disconnected(ErrorToEvent(error).details));
    }
  }

  lemma ReadFailsKeepsCounted(b: Inbox, p: Parcel, error: ConnectionError)
    requires QueueAgrees(b) && Counted(b) && Enabled(b, ReadFails(p, error))
    ensures Counted(Apply(b, ReadFails(p, error)))
  {
    Bags.WithoutLength(b.readers, p);
    if ErrorToEvent(error).Emit? {
      EnqueueKeepsInv(
        b.(readers := Bags.Without(b.readers, p), tally := b.tally.(disconnects := b.tally.disconnects + 1)),
        Disconnected(ErrorToEvent(error).details));
    }
  }

  lemma ReadOkKeepsCounted(b: Inbox, p: Parcel)
    requires QueueAgrees(b) && Counted(b) && Enabled(b, ReadOk(p))
    ensures Counted(Apply(b, ReadOk(p)))
  {
    Bags.WithoutLength(b.readers, p);
    EnqueueKeepsInv(
      b.(readers := Bags.Without(b.readers, p), tally := b.tally.(messages := b.tally.messages + 1)),
      Message(p));
  }

  lemma StepKeepsCounted(b: Inbox, step: InStep)
    requires QueueAgrees(b) && Counted(b) && Enabled(b, step)
    ensures Counted(Apply(b, step))
  {
    match step
    case AcceptFails(error) => AcceptFailsKeepsCounted(b, error);
    case ReadOk(p) => ReadOkKeepsCounted(b, p);
    case ReadFails(p, error) => ReadFailsKeepsCounted(b, p, error);
    case ReadPanics(p) => Bags.WithoutLength(b.readers, p);
    case _ =>
  }

  lemma StepKeepsInv(b: Inbox, step: InStep)
    requires Inv(b) && Enabled(b, step)
    ensures Inv(Apply(b, step))
  {
    StepKeepsQueueAgrees(b, step);
    StepKeepsCounted(b, step);
  }

  lemma {:induction false} RunKeepsInv(b: Inbox, steps: seq<InStep>)
    requires Inv(b) && Valid(b, steps)
    ensures Inv(After(b, steps))
    decreases |steps|
  {
    if steps != [] {
      StepKeepsInv(b, steps[0]);
      RunKeepsInv(Apply(b, steps[0]), steps[1..]);
    }
  }

  /**
   For any interleaving of the accept loop, the readers and the user: what was polled, then what is
   queued, is what was enqueued while the receiver lives, and dropping the receiver loses exactly
   the rest; there is never more than one event per accepted stream plus one.
   */
  lemma EveryInboxAgrees(steps: seq<InStep>)
    requires Valid(EMPTY_INBOX, steps)
    ensures var b := After(EMPTY_INBOX, steps);
            && (b.receiverAlive ==> b.enqueued == b.drained + b.queue)
            && (!b.receiverAlive ==> b.queue == [] && b.enqueued == b.drained + b.abandoned)
            && b.tally.accepted == |b.readers| + b.tally.messages + b.tally.disconnects + b.tally.quiet
            && |b.enqueued| + |b.readers| + b.tally.quiet <= b.tally.accepted + 1
  {
    RunKeepsInv(EMPTY_INBOX, steps);
    var b := After(EMPTY_INBOX, steps);
    assert b.drained + b.queue + [] == b.drained + b.queue;
    assert b.drained + [] == b.drained;
  }

  /** The errors that the user of the receiving side is told of, when they end the accept loop. */
  predicate IsTold(error: ConnectionError) {
    error.ApplicationClosed? || error.ConnectionClosed? || error.TimedOut?
  }

  /** The accept loop told what it had to tell, with the details. */
  ghost predicate LoopTold(b: Inbox) {
    b.receiverAlive && b.loop.Ended? && ErrorToEvent(b.loop.error).Emit? ==>
      Disconnected(ErrorToEvent(b.loop.error).details) in b.enqueued
  }

  lemma StepKeepsLoopTold(b: Inbox, step: InStep)
    requires LoopTold(b) && Enabled(b, step)
    ensures LoopTold(Apply(b, step))
  {
    if b.loop.Ended? && ErrorToEvent(b.loop.error).Emit? && b.receiverAlive {
      assert Disconnected(ErrorToEvent(b.loop.error).details) in b.enqueued;
    }
  }

  lemma {:induction false} RunKeepsLoopTold(b: Inbox, steps: seq<InStep>)
    requires LoopTold(b) && Valid(b, steps)
    ensures LoopTold(After(b, steps))
    decreases |steps|
  {
    if steps != [] {
      StepKeepsLoopTold(b, steps[0]);
      RunKeepsLoopTold(Apply(b, steps[0]), steps[1..]);
    }
  }

  /**
   Which ends of a connection a living receiver is told of: besides what readers tell, exactly one
   disconnection if the accept loop ended by a close of the other side or a timeout, and none for a
   local close, a reset or any other error; the timeout is told as one.
   */
  lemma WhichEndsAreTold(steps: seq<InStep>)
    requires Valid(EMPTY_INBOX, steps)
    requires After(EMPTY_INBOX, steps).loop.Ended? && After(EMPTY_INBOX, steps).receiverAlive
    ensures var b := After(EMPTY_INBOX, steps);
            && |b.enqueued| - |Messages(b.enqueued)| == b.tally.disconnects + (if IsTold(b.loop.error) then 1 else 0)
            && (IsTold(b.loop.error) ==>
                  Disconnected(if b.loop.error.TimedOut? then Timeout else NoDetails) in b.enqueued)
  {
    RunKeepsInv(EMPTY_INBOX, steps);
    RunKeepsLoopTold(EMPTY_INBOX, steps);
  }

  /** What the user is told when an awaited accept or read fails: the events, in the user's terms. */
  function ToldOf(error: ConnectionError): seq<StreamEvent> {
    match error
    case ApplicationClosed => [Disconnected(NoDetails)]
    case ConnectionClosed => [Disconnected(NoDetails)]
    case TimedOut => [Disconnected(Timeout)]
    case _ => []
  }

  /** The events a step has for the user: of the accept loop and the readers alike. */
  function ToldBy(step: InStep): seq<StreamEvent> {
    match step
    case ReadOk(p) => [Message(p)]
    case ReadFails(_, error) => ToldOf(error)
    case AcceptFails(error) => ToldOf(error)
    case _ => []
  }

  /** All events of a run, up to where the receiver is dropped. */
  function ToldIn(steps: seq<InStep>): seq<StreamEvent> {
    if steps == [] || steps[0].DropReceiver? then [] else ToldBy(steps[0]) + ToldIn(steps[1..])
  }

  lemma StepTells(b: Inbox, step: InStep)
    requires Enabled(b, step) && b.receiverAlive
    ensures Apply(b, step).enqueued == b.enqueued + ToldBy(step)
    ensures Apply(b, step).receiverAlive <==> !step.DropReceiver?
  {
    assert b.enqueued + [] == b.enqueued;
  }

  lemma {:induction false} NothingToldToNobody(b: Inbox, steps: seq<InStep>)
    requires Valid(b, steps) && !b.receiverAlive
    ensures After(b, steps).enqueued == b.enqueued && !After(b, steps).receiverAlive
    decreases |steps|
  {
    if steps != [] {
      NothingToldToNobody(Apply(b, steps[0]), steps[1..]);
    }
  }

  /**
   What is enqueued over any run, exactly: the message of every stream read whole, and one
   disconnection for every accept or read that failed with one of three errors, a timeout told as
   one; in the order in which they happened, until the receiver is dropped.
   */
  lemma {:induction false} EnqueuedIsTold(b: Inbox, steps: seq<InStep>)
    requires Valid(b, steps) && b.receiverAlive
    ensures After(b, steps).enqueued == b.enqueued + ToldIn(steps)
    decreases |steps|
  {
    if steps == [] {
      assert b.enqueued + [] == b.enqueued;
    } else {
      var b1 := Apply(b, steps[0]);
      StepTells(b, steps[0]);
      if steps[0].DropReceiver? {
        NothingToldToNobody(b1, steps[1..]);
      } else {
        EnqueuedIsTold(b1, steps[1..]);
        assert b.enqueued + (ToldBy(steps[0]) + ToldIn(steps[1..])) == b1.enqueued + ToldIn(steps[1..]);
      }
    }
  }

  lemma {:induction false} EndedStays(b: Inbox, steps: seq<InStep>)
    requires b.loop.Ended? && Valid(b, steps)
    ensures After(b, steps).loop == b.loop
    ensures forall k :: 0 <= k < |steps| ==> !steps[k].AcceptOk? && !steps[k].AcceptFails? && !steps[k].Listen?
    decreases |steps|
  {
    if steps != [] {
      EndedStays(Apply(b, steps[0]), steps[1..]);
      assert forall k :: 1 <= k < |steps| ==> steps[k] == steps[1..][k - 1];
    }
  }

  /**
   The accept loop ends with its first error, whatever that error is: it stays ended by that error,
   and nothing is accepted after.
   */
  lemma {:induction false} LoopEndsOnce(b: Inbox, steps: seq<InStep>, i: nat)
    requires Valid(b, steps) && i < |steps| && steps[i].AcceptFails?
    ensures After(b, steps).loop == Ended(steps[i].error)
    ensures forall k :: i < k < |steps| ==> !steps[k].AcceptOk? && !steps[k].AcceptFails?
    decreases |steps|
  {
    if i == 0 {
      EndedStays(Apply(b, steps[0]), steps[1..]);
    } else {
      LoopEndsOnce(Apply(b, steps[0]), steps[1..], i - 1);
    }
    assert forall k :: 1 <= k < |steps| ==> steps[k] == steps[1..][k - 1];
  }

  /** After the accept loop ended, no reader starts and each running reader adds at most one event. */
  lemma {:induction false} NothingNewAfterTheLoopEnds(b: Inbox, steps: seq<InStep>)
    requires b.loop.Ended? && Valid(b, steps)
    ensures var b' := After(b, steps);
            && b'.loop.Ended?
            && b'.tally.accepted == b.tally.accepted
            && |b'.enqueued| + |b'.readers| <= |b.enqueued| + |b.readers|
    decreases |steps|
  {
    if steps != [] {
      var step := steps[0];
      if step.ReadOk? || step.ReadFails? || step.ReadPanics? {
        Bags.WithoutLength(b.readers, step.p);
      }
      NothingNewAfterTheLoopEnds(Apply(b, step), steps[1..]);
    }
  }

  /** Polling as long as there are events empties the queue in order. */
  lemma {:induction false} PollingDrains(b: Inbox, steps: seq<InStep>)
    requires b.receiverAlive && |steps| <= |b.queue|
    requires forall k :: 0 <= k < |steps| ==> steps[k] == Poll
    ensures Valid(b, steps)
    ensures After(b, steps)
         == b.(queue := b.queue[|steps|..], drained := b.drained + b.queue[..|steps|])
    decreases |steps|
  {
    if steps == [] {
      assert b.drained + b.queue[..0] == b.drained;
    } else {
      var b1 := Apply(b, Poll);
      PollingDrains(b1, steps[1..]);
      assert b1.queue[|steps| - 1..] == b.queue[|steps|..];
      assert b1.drained + b1.queue[..|steps| - 1] == b.drained + b.queue[..|steps|];
    }
  }
}
