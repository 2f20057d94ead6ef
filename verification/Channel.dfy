/**
 One direction of one connection: the sender's tasks, the streams in between, the receiver's tasks
 and queue, under an environment that may end the connection at any point.

 What is assumed of the transport is in `Enabled`: an operation reports `LocallyClosed` only after
 this side closed, `ApplicationClosed` only after the other side closed, any other connection error
 only after the connection died, opening and writing do not succeed after this side closed, a write
 is stopped only once the stream has no reader to come, a stream is read to its end only if it was
 written and finished, and its reader panics only over what it cannot decode or what is too long.
 */
module Channels {
  import opened Cloneless
  import opened Sending
  import opened Bags
  import opened Fates
  import O = Outboxes
  import I = Inboxes

  /**
   What happened to the ends, seen from the sending side: its user called `disconnect`, it closed
   the connection, the other side closed it, the connection died, was never established, or the
   sender was dropped with messages still buffered.
   */
  datatype Ends = Ends(quit: bool, closed: bool, peerClosed: bool, lost: bool, unreachable: bool, dropped: bool)

  /**
   What a receiver can make of bodies: which of them decode to a message, and how long they may be.
   */
  datatype Receiver = Receiver(decodable: iset<Wire>, limit: nat)

  predicate TooLong(r: Receiver, body: Wire) {
    |body| > r.limit
  }

  predicate Readable(r: Receiver, body: Wire) {
    !TooLong(r, body) && body in r.decodable
  }

  /** Messages that will not be polled, by cause. */
  datatype Losses = Losses(
    neverConnected: seq<Parcel>,
    userQuit: seq<Parcel>,
    senderDropped: seq<Parcel>,
    connectionOver: seq<Parcel>,
    receiverDropped: seq<Parcel>,
    taskPanicked: seq<Parcel>)

  /**
   `streams` are open and not accepted yet; `finished` were written to their end. `receiver` never
   changes.
   */
  datatype Channel = Channel(
    out: O.Outbox,
    ends: Ends,
    streams: seq<Parcel>,
    finished: seq<Parcel>,
    inbox: I.Inbox,
    losses: Losses,
    receiver: Receiver)

  const NO_LOSSES := Losses([], [], [], [], [], [])

  const ENDS_OPEN := Ends(false, false, false, false, false, false)

  function EmptyChannel(receiver: Receiver): Channel {
    Channel(O.EMPTY_OUTBOX, ENDS_OPEN, [], [], I.EMPTY_INBOX, NO_LOSSES, receiver)
  }

  datatype Step =
    | Out(out: O.OutStep)
    | In(inn: I.InStep)
    | Close
    | PeerCloses
    | ConnectionDies
    | StreamVanishes(p: Parcel)

  predicate Over(ends: Ends) {
    ends.closed || ends.peerClosed || ends.lost
  }

  predicate SenderMayReport(ends: Ends, error: ConnectionError) {
    match error
    case LocallyClosed => ends.closed
    case ApplicationClosed => ends.peerClosed
    case _ => ends.lost
  }

  predicate ReceiverMayReport(ends: Ends, error: ConnectionError) {
    match error
    case LocallyClosed => ends.peerClosed
    case ApplicationClosed => ends.closed
    case _ => ends.lost
  }

  predicate MayRefuse(ends: Ends, why: SendingResult) {
    (why.WeClosed? && ends.quit) || (why.PeerClosedOrDied? && ends.unreachable)
  }

  /** The stream of `p` has neither to be accepted nor a reader. */
  predicate Unread(c: Channel, p: Parcel) {
    !Has(c.streams, p) && !Has(c.inbox.readers, p)
  }

  /**
   Which ends of a send task are possible. A write is stopped by the other side once nobody reads
   the stream any more; the errors of closed streams and of 0-RTT do not occur.
   */
  predicate MayEnd(c: Channel, p: Parcel, end: O.TaskEnd) {
    end.Returned? && end.error.Some? ==>
      match ConnectionErrorIn(end.error.value)
      case Some(error) => SenderMayReport(c.ends, error)
      case None => end.error.value == WriteAll(WriteStopped) && Unread(c, p)
  }

  /**
   Whether a reader can panic over its stream: it is too long, which shows while it is still being
   written; it was read to its end and does not decode; or it was cut short.
   */
  predicate MayPanic(c: Channel, p: Parcel) {
    || TooLong(c.receiver, p.body)
    || (p in c.finished && p.body !in c.receiver.decodable)
    || (p !in c.finished && !Has(c.out.writing, p))
  }

  predicate EnabledOut(c: Channel, s: O.OutStep) {
    && O.Enabled(c.out, s)
    && (s.Refuse? ==> MayRefuse(c.ends, s.why))
    && (s.Moves? ==> !c.ends.closed)
    && (s.Ends? ==> MayEnd(c, s.p, s.end))
  }

  predicate EnabledIn(c: Channel, s: I.InStep) {
    && I.Enabled(c.inbox, s)
    && (s.AcceptOk? ==> Has(c.streams, s.p))
    && (s.AcceptFails? || s.ReadFails? ==> ReceiverMayReport(c.ends, s.error))
    && (s.ReadOk? ==> s.p in c.finished && Readable(c.receiver, s.p.body))
    && (s.ReadPanics? ==> MayPanic(c, s.p))
  }

  predicate Enabled(c: Channel, step: Step) {
    match step
    case Out(s) => EnabledOut(c, s)
    case In(s) => EnabledIn(c, s)
    case StreamVanishes(p) => Has(c.streams, p) && Over(c.ends)
    case _ => true
  }

  /** The losses once `ps` are lost too, for that cause. */
  function Lose(l: Losses, ps: seq<Parcel>, cause: Cause): Losses {
    match cause
    case NeverConnected => l.(neverConnected := l.neverConnected + ps)
    case UserQuit => l.(userQuit := l.userQuit + ps)
    case SenderDropped => l.(senderDropped := l.senderDropped + ps)
    case ConnectionOver => l.(connectionOver := l.connectionOver + ps)
    case ReceiverDropped => l.(receiverDropped := l.receiverDropped + ps)
    case TaskPanicked => l.(taskPanicked := l.taskPanicked + ps)
  }

  /** What giving up the buffer says of the ends, and of the messages that are lost with it. */
  function Parted(ends: Ends, parting: O.Parting): Ends {
    match parting
    case Quits => ends.(quit := true)
    case TimesOut => ends.(unreachable := true)
    case IsDropped => ends.(dropped := true)
  }

  function PartingCause(parting: O.Parting): Cause {
    match parting
    case Quits => UserQuit
    case TimesOut => NeverConnected
    case IsDropped => SenderDropped
  }

  /** What an outbox step does to the rest of the channel. */
  function ApplyOut(c: Channel, s: O.OutStep): Channel
    requires EnabledOut(c, s)
  {
    var d := c.(out := O.Apply(c.out, s));
    match s
    case Refuse(body, why) =>
      d.(losses := Lose(c.losses, [O.NextParcel(c.out, body)], if why.WeClosed? then UserQuit else NeverConnected))
    case Abandon(parting) =>
      d.(ends := Parted(c.ends, parting), losses := Lose(c.losses, c.out.pending, PartingCause(parting)))
    case Moves(p, stage) =>
      if stage.Opening? then d.(streams := c.streams + [p]) else d.(finished := c.finished + [p])
    case Ends(p, stage, end) =>
      if stage.Opening? then
        d.(losses := Lose(c.losses, [p], if end.Panicked? then TaskPanicked else ConnectionOver))
      else d
    case _ => d
  }

  /** What an inbox step does to the rest of the channel. */
  function ApplyIn(c: Channel, s: I.InStep): Channel
    requires EnabledIn(c, s)
  {
    var d := c.(inbox := I.Apply(c.inbox, s));
    match s
    case AcceptOk(p) => d.(streams := Without(c.streams, p))
    case ReadOk(p) => if c.inbox.receiverAlive then d else d.(losses := Lose(c.losses, [p], ReceiverDropped))
    case ReadFails(p, _) => d.(losses := Lose(c.losses, [p], ConnectionOver))
    case ReadPanics(p) => d.(losses := Lose(c.losses, [p], TaskPanicked))
    case DropReceiver => d.(losses := Lose(c.losses, I.Messages(c.inbox.queue), ReceiverDropped))
    case _ => d
  }

  function Apply(c: Channel, step: Step): Channel
    requires Enabled(c, step)
  {
    match step
    case Out(s) => ApplyOut(c, s)
    case In(s) => ApplyIn(c, s)
    case Close => c.(ends := c.ends.(quit := true, closed := true))
    case PeerCloses => c.(ends := c.ends.(peerClosed := true))
    case ConnectionDies => c.(ends := c.ends.(lost := true))
    case StreamVanishes(p) =>
      c.(streams := Without(c.streams, p), losses := Lose(c.losses, [p], ConnectionOver))
  }

  ghost predicate Valid(c: Channel, steps: seq<Step>)
    decreases |steps|
  {
    steps == [] || (Enabled(c, steps[0]) && Valid(Apply(c, steps[0]), steps[1..]))
  }

  ghost function After(c: Channel, steps: seq<Step>): Channel
    requires Valid(c, steps)
    decreases |steps|
  {
    if steps == [] then c else After(Apply(c, steps[0]), steps[1..])
  }

  lemma StepThenRun(c: Channel, step: Step, b: seq<Step>)
    requires Enabled(c, step) && Valid(Apply(c, step), b)
    ensures Valid(c, [step] + b) && After(c, [step] + b) == After(Apply(c, step), b)
  {
    assert ([step] + b)[1..] == b;
  }

  lemma {:induction false} RunThenRun(c: Channel, a: seq<Step>, b: seq<Step>)
    requires Valid(c, a) && Valid(After(c, a), b)
    ensures Valid(c, a + b) && After(c, a + b) == After(After(c, a), b)
    decreases |a|
  {
    if a == [] {
      assert a + b == b;
    } else {
      var c1, rest := Apply(c, a[0]), a[1..] + b;
      assert a + b == [a[0]] + rest;
      RunThenRun(c1, a[1..], b);
      assert After(c, a) == After(c1, a[1..]);
      StepThenRun(c, a[0], rest);
    }
  }

  // ---------------------------------------------------------------------------------------------
  // Conservation: where a message is
  // ---------------------------------------------------------------------------------------------

  /** In how many places on the way `q` is. */
  ghost function Places(c: Channel, q: Parcel): nat {
    Count(c.out.pending, q) + Count(c.out.opening, q) + Count(c.streams, q) + Count(c.inbox.readers, q)
    + Count(I.Messages(c.inbox.queue), q)
  }

  ghost function Polled(c: Channel, q: Parcel): nat {
    Count(I.Messages(c.inbox.drained), q)
  }

  ghost function LostTimes(l: Losses, q: Parcel): nat {
    Count(l.neverConnected, q) + Count(l.userQuit, q) + Count(l.senderDropped, q)
    + Count(l.connectionOver, q) + Count(l.receiverDropped, q) + Count(l.taskPanicked, q)
  }

  ghost function CauseIn(l: Losses, q: Parcel): Cause {
    if Has(l.neverConnected, q) then NeverConnected
    else if Has(l.userQuit, q) then UserQuit
    else if Has(l.senderDropped, q) then SenderDropped
    else if Has(l.connectionOver, q) then ConnectionOver
    else if Has(l.receiverDropped, q) then ReceiverDropped
    else TaskPanicked
  }

  /** A sent message is in exactly one place, polled, or lost for one cause; no other exists. */
  ghost predicate AccountedFor(c: Channel, q: Parcel) {
    Places(c, q) + Polled(c, q) + LostTimes(c.losses, q) == if O.IsSent(c.out, q) then 1 else 0
  }

  ghost predicate Conserved(c: Channel) {
    forall q: Parcel :: AccountedFor(c, q)
  }

  lemma MessagesPushed(events: seq<I.StreamEvent>, e: I.StreamEvent, q: Parcel)
    ensures Count(I.Messages(events + [e]), q)
         == Count(I.Messages(events), q) + if e == I.Message(q) then 1 else 0
  {
    assert (events + [e])[..|events|] == events;
    if e.Message? {
      CountPush(I.Messages(events), e.p, q);
    }
  }

  lemma MessagesPopped(events: seq<I.StreamEvent>, q: Parcel)
    requires events != []
    ensures Count(I.Messages(events), q)
         == Count(I.Messages(events[1..]), q) + if events[0] == I.Message(q) then 1 else 0
  {
    I.MessagesConcat([events[0]], events[1..]);
    assert events == [events[0]] + events[1..];
    assert [events[0]][..0] == [];
    if events[0].Message? {
      CountPop(I.Messages(events), q);
      assert I.Messages(events)[1..] == I.Messages(events[1..]);
    } else {
      assert I.Messages(events) == I.Messages(events[1..]);
    }
  }

  lemma LoseAt(l: Losses, ps: seq<Parcel>, cause: Cause, q: Parcel)
    ensures LostTimes(Lose(l, ps, cause), q) == LostTimes(l, q) + Count(ps, q)
    ensures Count(ps, q) == 0 ==> CauseIn(Lose(l, ps, cause), q) == CauseIn(l, q)
    ensures LostTimes(l, q) == 0 && Count(ps, q) > 0 ==> CauseIn(Lose(l, ps, cause), q) == cause
  {
    match cause
    case NeverConnected => CountConcat(l.neverConnected, ps, q);
    case UserQuit => CountConcat(l.userQuit, ps, q);
    case SenderDropped => CountConcat(l.senderDropped, ps, q);
    case ConnectionOver => CountConcat(l.connectionOver, ps, q);
    case ReceiverDropped => CountConcat(l.receiverDropped, ps, q);
    case TaskPanicked => CountConcat(l.taskPanicked, ps, q);
  }

  /** The call a step is, the message it gives the user, and the messages it loses. */
  ghost function Called(c: Channel, step: Step): seq<Parcel> {
    match step
    case Out(Buffer(body)) => [O.NextParcel(c.out, body)]
    case Out(Spawn(body)) => [O.NextParcel(c.out, body)]
    case Out(Refuse(body, _)) => [O.NextParcel(c.out, body)]
    case _ => []
  }

  ghost function Given(c: Channel, step: Step): seq<Parcel> {
    if step == In(I.Poll) && c.inbox.queue != [] && c.inbox.queue[0].Message? then [c.inbox.queue[0].p] else []
  }

  ghost function LostBy(c: Channel, step: Step): (seq<Parcel>, Cause) {
    match step
    case Out(Refuse(body, why)) =>
      ([O.NextParcel(c.out, body)], if why.WeClosed? then UserQuit else NeverConnected)
    case Out(Abandon(parting)) => (c.out.pending, PartingCause(parting))
    case Out(Ends(p, Opening, end)) => ([p], if end.Panicked? then TaskPanicked else ConnectionOver)
    case In(ReadOk(p)) => (if c.inbox.receiverAlive then [] else [p], ReceiverDropped)
    case In(ReadFails(p, _)) => ([p], ConnectionOver)
    case In(ReadPanics(p)) => ([p], TaskPanicked)
    case In(DropReceiver) => (I.Messages(c.inbox.queue), ReceiverDropped)
    case StreamVanishes(p) => ([p], ConnectionOver)
    case _ => ([], TaskPanicked)
  }

  /** A step neither makes nor loses a message except as it says. */
  ghost predicate Flows(c: Channel, step: Step, d: Channel, q: Parcel) {
    var (ps, cause) := LostBy(c, step);
    && d.losses == (if ps == [] then c.losses else Lose(c.losses, ps, cause))
    && Polled(d, q) == Polled(c, q) + Count(Given(c, step), q)
    && Places(d, q) + Count(ps, q) + Count(Given(c, step), q) == Places(c, q) + Count(Called(c, step), q)
  }

  lemma CountOne(p: Parcel, q: Parcel)
    ensures Count([p], q) == if p == q then 1 else 0
  {
    CountPush([], p, q);
    assert [] + [p] == [p];
  }

  lemma CallFlows(c: Channel, s: O.OutStep, q: Parcel)
    requires EnabledOut(c, s) && !O.IsTaskStep(s)
    ensures Flows(c, Out(s), ApplyOut(c, s), q)
  {
    match s
    case Buffer(body) =>
      CountPush(c.out.pending, O.NextParcel(c.out, body), q);
      CountOne(O.NextParcel(c.out, body), q);
    case Spawn(body) =>
      CountPush(c.out.opening, O.NextParcel(c.out, body), q);
      CountOne(O.NextParcel(c.out, body), q);
    case Flush => CountConcat(c.out.opening, c.out.pending, q);
    case Abandon(_) =>
      if c.out.pending == [] {
        LoseNothing(c.losses);
      }
    case _ =>
  }

  lemma LoseNothing(l: Losses)
    ensures forall cause :: Lose(l, [], cause) == l
  {
    forall cause ensures Lose(l, [], cause) == l {
      assert forall ps: seq<Parcel> :: ps + [] == ps;
    }
  }

  lemma TaskMoveFlows(c: Channel, p: Parcel, stage: O.Stage, q: Parcel)
    requires EnabledOut(c, O.Moves(p, stage))
    ensures Flows(c, Out(O.Moves(p, stage)), ApplyOut(c, O.Moves(p, stage)), q)
  {
    CountWithout(O.Bag(c.out, stage), p, q);
    CountPush(c.streams, p, q);
  }

  lemma TaskEndFlows(c: Channel, p: Parcel, stage: O.Stage, end: O.TaskEnd, q: Parcel)
    requires EnabledOut(c, O.Ends(p, stage, end))
    ensures Flows(c, Out(O.Ends(p, stage, end)), ApplyOut(c, O.Ends(p, stage, end)), q)
  {
    CountWithout(O.Bag(c.out, stage), p, q);
    CountOne(p, q);
  }

  lemma AcceptFlows(c: Channel, s: I.InStep, q: Parcel)
    requires EnabledIn(c, s) && (s.Listen? || s.AcceptOk? || s.AcceptFails?)
    ensures Flows(c, In(s), ApplyIn(c, s), q)
  {
    if s.AcceptOk? {
      CountWithout(c.streams, s.p, q);
      CountPush(c.inbox.readers, s.p, q);
    } else if s.AcceptFails? && I.ErrorToEvent(s.error).Emit? {
      MessagesPushed(c.inbox.queue, I.Disconnected(I.ErrorToEvent(s.error).details), q);
    }
  }

  lemma ReadOkFlows(c: Channel, p: Parcel, q: Parcel)
    requires EnabledIn(c, I.ReadOk(p))
    ensures Flows(c, In(I.ReadOk(p)), ApplyIn(c, I.ReadOk(p)), q)
  {
    CountWithout(c.inbox.readers, p, q);
    CountOne(p, q);
    if c.inbox.receiverAlive {
      MessagesPushed(c.inbox.queue, I.Message(p), q);
      assert LostBy(c, In(I.ReadOk(p))).0 == [];
    } else {
      assert LostBy(c, In(I.ReadOk(p))) == ([p], ReceiverDropped);
    }
  }

  lemma ReadFailsFlows(c: Channel, p: Parcel, error: ConnectionError, q: Parcel)
    requires EnabledIn(c, I.ReadFails(p, error))
    ensures Flows(c, In(I.ReadFails(p, error)), ApplyIn(c, I.ReadFails(p, error)), q)
  {
    CountWithout(c.inbox.readers, p, q);
    CountOne(p, q);
    if I.ErrorToEvent(error).Emit? {
      MessagesPushed(c.inbox.queue, I.Disconnected(I.ErrorToEvent(error).details), q);
    }
  }

  lemma ReadPanicsFlows(c: Channel, p: Parcel, q: Parcel)
    requires EnabledIn(c, I.ReadPanics(p))
    ensures Flows(c, In(I.ReadPanics(p)), ApplyIn(c, I.ReadPanics(p)), q)
  {
    CountWithout(c.inbox.readers, p, q);
    CountOne(p, q);
  }

  lemma QueueFlows(c: Channel, s: I.InStep, q: Parcel)
    requires EnabledIn(c, s) && (s.Poll? || s.DropReceiver?)
    ensures Flows(c, In(s), ApplyIn(c, s), q)
  {
    if s.DropReceiver? {
      if I.Messages(c.inbox.queue) == [] {
        LoseNothing(c.losses);
      }
    } else if c.inbox.queue != [] {
      MessagesPopped(c.inbox.queue, q);
      MessagesPushed(c.inbox.drained, c.inbox.queue[0], q);
      if c.inbox.queue[0].Message? {
        CountOne(c.inbox.queue[0].p, q);
      }
    }
  }

  lemma VanishFlows(c: Channel, p: Parcel, q: Parcel)
    requires Enabled(c, StreamVanishes(p))
    ensures Flows(c, StreamVanishes(p), Apply(c, StreamVanishes(p)), q)
  {
    CountWithout(c.streams, p, q);
    CountOne(p, q);
  }

  lemma StepFlows(c: Channel, step: Step, q: Parcel)
    requires Enabled(c, step)
    ensures Flows(c, step, Apply(c, step), q)
  {
    match step
    case Out(s) =>
      if s.Moves? {
        TaskMoveFlows(c, s.p, s.stage, q);
      } else if s.Ends? {
        TaskEndFlows(c, s.p, s.stage, s.end, q);
      } else {
        CallFlows(c, s, q);
      }
    case In(ReadOk(p)) => ReadOkFlows(c, p, q);
    case In(ReadFails(p, error)) => ReadFailsFlows(c, p, error, q);
    case In(ReadPanics(p)) => ReadPanicsFlows(c, p, q);
    case In(Poll) => QueueFlows(c, I.Poll, q);
    case In(DropReceiver) => QueueFlows(c, I.DropReceiver, q);
    case In(s) => AcceptFlows(c, s, q);
    case StreamVanishes(p) => VanishFlows(c, p, q);
    case _ =>
  }

  lemma CallSends(c: Channel, step: Step, q: Parcel)
    requires Enabled(c, step) && O.Numbered(c.out)
    ensures O.IsSent(Apply(c, step).out, q) <==> O.IsSent(c.out, q) || Count(Called(c, step), q) == 1
    ensures Count(Called(c, step), q) == 0 || (Count(Called(c, step), q) == 1 && !O.IsSent(c.out, q))
  {
    if Called(c, step) != [] {
      CountOne(Called(c, step)[0], q);
    }
  }

  lemma StepAccounts(c: Channel, step: Step, q: Parcel)
    requires Enabled(c, step) && O.Numbered(c.out) && AccountedFor(c, q)
    ensures AccountedFor(Apply(c, step), q)
  {
    StepFlows(c, step, q);
    CallSends(c, step, q);
    var (ps, cause) := LostBy(c, step);
    LoseAt(c.losses, ps, cause, q);
  }

  // ---------------------------------------------------------------------------------------------
  // Refinement of the at-most-once channel
  // ---------------------------------------------------------------------------------------------

  ghost function FateOf(c: Channel, q: Parcel): Fate {
    if Polled(c, q) > 0 then Delivered
    else if Places(c, q) > 0 then OnItsWay
    else if LostTimes(c.losses, q) > 0 then Dropped(CauseIn(c.losses, q))
    else Unsent
  }

  /** The cause is a fault of the whole channel. */
  predicate Faulty(cause: Cause, ends: Ends, receiverAlive: bool) {
    match cause
    case NeverConnected => ends.unreachable
    case UserQuit => ends.quit
    case SenderDropped => ends.dropped
    case ConnectionOver => Over(ends)
    case ReceiverDropped => !receiverAlive
    case TaskPanicked => false
  }

  ghost function Faults(c: Channel): set<Cause> {
    set cause | cause in {NeverConnected, UserQuit, SenderDropped, ConnectionOver, ReceiverDropped}
                && Faulty(cause, c.ends, c.inbox.receiverAlive)
  }

  lemma FaultsGrow(c: Channel, step: Step, cause: Cause)
    requires Enabled(c, step) && Faulty(cause, c.ends, c.inbox.receiverAlive)
    ensures var d := Apply(c, step); Faulty(cause, d.ends, d.inbox.receiverAlive)
  {
  }

  /** A step that loses something has a cause for it, and only a refused call loses what it adds. */
  lemma LossHasCause(c: Channel, step: Step)
    requires Enabled(c, step) && LostBy(c, step).0 != []
    ensures var (d, cause) := (Apply(c, step), LostBy(c, step).1);
            cause.TaskPanicked? || Faulty(cause, d.ends, d.inbox.receiverAlive)
    ensures Called(c, step) != [] ==> !LostBy(c, step).1.TaskPanicked?
    ensures Given(c, step) == []
  {
    match step
    case Out(Ends(p, Opening, end)) =>
      if end.Returned? {
        assert ConnectionErrorIn(end.error.value).Some?;
      }
    case _ =>
  }

  /** What the counts of one message before and after a step say about its fate. */
  lemma FateMoves(c: Channel, d: Channel, q: Parcel,
      called: nat, given: nat, lost: nat, cause: Cause, faults: set<Cause>)
    requires Places(c, q) + Polled(c, q) + LostTimes(c.losses, q) <= 1
    requires Places(d, q) + lost + given == Places(c, q) + called
    requires Polled(d, q) == Polled(c, q) + given
    requires LostTimes(d.losses, q) == LostTimes(c.losses, q) + lost
    requires Places(d, q) + Polled(d, q) + LostTimes(d.losses, q) <= 1
    requires called > 0 ==> given == 0
    requires lost == 0 ==> CauseIn(d.losses, q) == CauseIn(c.losses, q)
    requires lost > 0 ==>
               && CauseIn(d.losses, q) == cause
               && Excused(cause, faults)
               && (called > 0 ==> cause in faults)
               && given == 0
    ensures Next(FateOf(c, q), faults, FateOf(d, q))
    ensures FateOf(d, q) == Delivered <==> FateOf(c, q) == Delivered || given > 0
  {
  }

  /** Every step of a channel is, for every message, a step of the at-most-once channel. */
  lemma StepRefines(c: Channel, step: Step, q: Parcel)
    requires Enabled(c, step) && O.Numbered(c.out) && AccountedFor(c, q)
    ensures Next(FateOf(c, q), Faults(Apply(c, step)), FateOf(Apply(c, step), q))
    ensures FateOf(Apply(c, step), q) == Delivered <==> FateOf(c, q) == Delivered || Given(c, step) == [q]
  {
    StepFlows(c, step, q);
    StepAccounts(c, step, q);
    var (ps, cause) := LostBy(c, step);
    LoseAt(c.losses, ps, cause, q);
    if ps != [] {
      LossHasCause(c, step);
    }
    if Given(c, step) != [] {
      CountOne(Given(c, step)[0], q);
    }
    var d := Apply(c, step);
    FateMoves(c, d, q, Count(Called(c, step), q), Count(Given(c, step), q), Count(ps, q), cause, Faults(d));
  }

  // ---------------------------------------------------------------------------------------------
  // Why a handle or a queue says what it says
  // ---------------------------------------------------------------------------------------------

  /** The result in a channel blames an end only for what that end did. */
  ghost predicate CellExcused(cell: Oneshot, ends: Ends) {
    (cell.Holding? || cell.Taken?) ==>
      && (cell.result.WeClosed? ==> ends.quit)
      && (cell.result.PeerClosedOrDied? ==> ends.peerClosed || ends.lost || ends.unreachable)
  }

  ghost predicate EventExcused(e: I.StreamEvent, c: Channel) {
    match e
    case Message(p) => p in c.finished && Readable(c.receiver, p.body)
    case Disconnected(details) => c.ends.lost || (c.ends.closed && details.NoDetails?)
  }

  ghost predicate LossesExcused(l: Losses, ends: Ends, alive: bool) {
    && (l.neverConnected != [] ==> ends.unreachable)
    && (l.userQuit != [] ==> ends.quit)
    && (l.senderDropped != [] ==> ends.dropped)
    && (l.connectionOver != [] ==> Over(ends))
    && (l.receiverDropped != [] ==> !alive)
  }

  ghost predicate EndsAgree(c: Channel) {
    && (c.ends.closed ==> c.ends.quit)
    && (c.inbox.loop.Ended? ==> Over(c.ends))
    && LossesExcused(c.losses, c.ends, c.inbox.receiverAlive)
  }

  ghost predicate CellsExcused(c: Channel) {
    forall i :: 0 <= i < |c.out.results| ==> CellExcused(c.out.results[i], c.ends)
  }

  ghost predicate EventsExcused(c: Channel) {
    forall e :: e in c.inbox.enqueued ==> EventExcused(e, c)
  }

  /** A task past its write has written its stream, and only such a task reports `Sent`. */
  ghost predicate SentIsWritten(c: Channel) {
    && (forall p :: Has(c.out.stopping, p) ==> p in c.finished)
    && (forall i :: 0 <= i < |c.out.results| && i < |c.out.sent| ==>
          (c.out.results[i] == Holding(Sent) || c.out.results[i] == Taken(Sent)) ==> c.out.sent[i] in c.finished)
  }

  ghost predicate Inv(c: Channel) {
    && O.Inv(c.out)
    && I.Inv(c.inbox)
    && Conserved(c)
    && EndsAgree(c)
    && CellsExcused(c)
    && EventsExcused(c)
    && SentIsWritten(c)
  }

  lemma LoseExcused(l: Losses, ps: seq<Parcel>, cause: Cause, ends: Ends, alive: bool)
    requires LossesExcused(l, ends, alive)
    requires cause.TaskPanicked? || Faulty(cause, ends, alive)
    ensures LossesExcused(Lose(l, ps, cause), ends, alive)
  {
  }

  lemma StillExcused(c: Channel, step: Step)
    requires Enabled(c, step) && LossesExcused(c.losses, c.ends, c.inbox.receiverAlive)
    ensures var d := Apply(c, step); LossesExcused(c.losses, d.ends, d.inbox.receiverAlive)
  {
    forall cause | Faulty(cause, c.ends, c.inbox.receiverAlive)
      ensures var d := Apply(c, step); Faulty(cause, d.ends, d.inbox.receiverAlive)
    {
      FaultsGrow(c, step, cause);
    }
  }

  lemma StepKeepsLossesExcused(c: Channel, step: Step)
    requires Enabled(c, step) && LossesExcused(c.losses, c.ends, c.inbox.receiverAlive)
    ensures var d := Apply(c, step); LossesExcused(d.losses, d.ends, d.inbox.receiverAlive)
  {
    var d := Apply(c, step);
    var (ps, cause) := LostBy(c, step);
    StillExcused(c, step);
    assert d.losses == if ps == [] then c.losses else Lose(c.losses, ps, cause) by {
      StepFlows(c, step, Parcel(0, []));
    }
    if ps != [] {
      LossHasCause(c, step);
      LoseExcused(c.losses, ps, cause, d.ends, d.inbox.receiverAlive);
    }
  }

  lemma StepKeepsEndsAgree(c: Channel, step: Step)
    requires Enabled(c, step) && EndsAgree(c)
    ensures EndsAgree(Apply(c, step))
  {
    StepKeepsLossesExcused(c, step);
  }

  /** A result is only ever put in a channel by a step that may. */
  lemma ResultIsExcused(c: Channel, s: O.OutStep)
    requires EnabledOut(c, s) && s.Ends? && (c.ends.closed ==> c.ends.quit)
    ensures CellExcused(O.LeftBy(s.end), c.ends)
  {
    match s.end
    case Panicked =>
    case Returned(None) =>
    case Returned(Some(e)) =>
      match e
      case OpenUni(_) =>
      case WriteAll(w) =>
        if w.WriteConnectionLost? {}
      case Stopped(t) =>
        if t.StoppedConnectionLost? {}
  }

  lemma OutStepKeepsCellsExcused(c: Channel, s: O.OutStep)
    requires EnabledOut(c, s) && CellsExcused(c) && (c.ends.closed ==> c.ends.quit)
    ensures CellsExcused(ApplyOut(c, s))
  {
    var d := ApplyOut(c, s);
    if s.Ends? {
      ResultIsExcused(c, s);
    }
    forall i | 0 <= i < |d.out.results| ensures CellExcused(d.out.results[i], d.ends) {
      if i < |c.out.results| {
        assert CellExcused(c.out.results[i], c.ends);
        if s.Abandon? {
          O.SettleAllAt(c.out.results, c.out.pending, O.LeftWhen(s.parting), i);
        }
      }
    }
  }

  lemma StepKeepsCellsExcused(c: Channel, step: Step)
    requires Enabled(c, step) && CellsExcused(c) && (c.ends.closed ==> c.ends.quit)
    ensures CellsExcused(Apply(c, step))
  {
    if step.Out? {
      OutStepKeepsCellsExcused(c, step.out);
    } else {
      var d := Apply(c, step);
      forall i | 0 <= i < |d.out.results| ensures CellExcused(d.out.results[i], d.ends) {
        assert CellExcused(c.out.results[i], c.ends);
      }
    }
  }

  lemma StepKeepsEventsExcused(c: Channel, step: Step)
    requires Enabled(c, step) && EventsExcused(c)
    ensures EventsExcused(Apply(c, step))
  {
    var d := Apply(c, step);
    forall e | e in d.inbox.enqueued ensures EventExcused(e, d) {
      if e in c.inbox.enqueued {
        assert EventExcused(e, c);
      }
    }
  }

  lemma OutStepKeepsStoppingWritten(c: Channel, s: O.OutStep, p: Parcel)
    requires EnabledOut(c, s) && Has(ApplyOut(c, s).out.stopping, p)
    requires Has(c.out.stopping, p) ==> p in c.finished
    ensures p in ApplyOut(c, s).finished
  {
    if s.Moves? {
      CountPush(c.out.stopping, s.p, p);
    } else if s.Ends? {
      CountWithout(O.Bag(c.out, s.stage), s.p, p);
    }
  }

  lemma OutStepKeepsSentWritten(c: Channel, s: O.OutStep, i: nat)
    requires EnabledOut(c, s) && SentIsWritten(c) && O.Numbered(c.out) && O.OneSenderEach(c.out)
    requires var o := ApplyOut(c, s).out;
             i < |o.results| && i < |o.sent| && (o.results[i] == Holding(Sent) || o.results[i] == Taken(Sent))
    ensures ApplyOut(c, s).out.sent[i] in ApplyOut(c, s).finished
  {
    if s.Ends? {
      O.TaskParcelIsAwaited(c.out, s.p, s.stage);
      EndedWithSent(s.end, s.stage);
    } else if s.Abandon? {
      O.SettleAllAt(c.out.results, c.out.pending, O.LeftWhen(s.parting), i);
    }
  }

  lemma EndedWithSent(end: O.TaskEnd, stage: O.Stage)
    requires O.EndsAt(end, stage)
    ensures O.LeftBy(end) == Holding(Sent) ==> stage.Stopping?
    ensures !O.LeftBy(end).Taken?
  {
  }

  lemma OutStepKeepsSentIsWritten(c: Channel, s: O.OutStep)
    requires EnabledOut(c, s) && SentIsWritten(c) && O.Numbered(c.out) && O.OneSenderEach(c.out)
    ensures SentIsWritten(ApplyOut(c, s))
  {
    var d := ApplyOut(c, s);
    forall p | Has(d.out.stopping, p) ensures p in d.finished {
      OutStepKeepsStoppingWritten(c, s, p);
    }
    forall i | 0 <= i < |d.out.results| && i < |d.out.sent|
               && (d.out.results[i] == Holding(Sent) || d.out.results[i] == Taken(Sent))
      ensures d.out.sent[i] in d.finished
    {
      OutStepKeepsSentWritten(c, s, i);
    }
  }

  lemma StepKeepsSentIsWritten(c: Channel, step: Step)
    requires Enabled(c, step) && SentIsWritten(c) && O.Inv(c.out)
    ensures SentIsWritten(Apply(c, step))
  {
    if step.Out? {
      OutStepKeepsSentIsWritten(c, step.out);
    }
  }

  lemma StepKeepsParts(c: Channel, step: Step)
    requires Enabled(c, step) && O.Inv(c.out) && I.Inv(c.inbox)
    ensures O.Inv(Apply(c, step).out) && I.Inv(Apply(c, step).inbox)
  {
    if step.Out? {
      O.StepKeepsInv(c.out, step.out);
    } else if step.In? {
      I.StepKeepsInv(c.inbox, step.inn);
    }
  }

  lemma StepKeepsConserved(c: Channel, step: Step)
    requires Enabled(c, step) && O.Numbered(c.out) && Conserved(c)
    ensures Conserved(Apply(c, step))
  {
    forall q: Parcel ensures AccountedFor(Apply(c, step), q) {
      assert AccountedFor(c, q);
      StepAccounts(c, step, q);
    }
  }

  lemma StepKeepsInv(c: Channel, step: Step)
    requires Enabled(c, step) && Inv(c)
    ensures Inv(Apply(c, step))
  {
    StepKeepsParts(c, step);
    StepKeepsConserved(c, step);
    StepKeepsEndsAgree(c, step);
    StepKeepsCellsExcused(c, step);
    StepKeepsEventsExcused(c, step);
    StepKeepsSentIsWritten(c, step);
  }

  lemma {:induction false} RunKeepsInv(c: Channel, steps: seq<Step>)
    requires Inv(c) && Valid(c, steps)
    ensures Inv(After(c, steps))
    decreases |steps|
  {
    if steps != [] {
      StepKeepsInv(c, steps[0]);
      RunKeepsInv(Apply(c, steps[0]), steps[1..]);
    }
  }

  lemma EmptyChannelInv(receiver: Receiver)
    ensures Inv(EmptyChannel(receiver))
  {
  }
}
