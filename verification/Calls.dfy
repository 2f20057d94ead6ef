/**
 What the calls of both users, and the handshake, come to over a whole session: which messages a run
 sends, which events it gives, and how connecting ends.
 */
module Calls {
  import opened Cloneless
  import opened Sending
  import opened Sessions
  import Bags
  import O = Outboxes
  import I = Inboxes
  import C = Channels
  import L = Lifecycle

  // ---------------------------------------------------------------------------------------------
  // What is sent is what the calls were given
  // ---------------------------------------------------------------------------------------------

  /** The bodies of the client's send calls, in order. */
  function ClientBodies(steps: seq<Step>): seq<Wire> {
    if steps == [] then []
    else (if steps[0].ClientSends? then [steps[0].body] else []) + ClientBodies(steps[1..])
  }

  /** The bodies of the server's send calls, in order. */
  function ServerBodies(steps: seq<Step>): seq<Wire> {
    if steps == [] then []
    else (if steps[0].ServerSends? then [steps[0].body] else []) + ServerBodies(steps[1..])
  }

  /** These bodies, numbered from `from` on. */
  function Parcels(from: nat, bodies: seq<Wire>): (ps: seq<Parcel>)
    ensures |ps| == |bodies| && forall i :: 0 <= i < |bodies| ==> ps[i] == Parcel(from + i, bodies[i])
  {
    seq(|bodies|, i requires 0 <= i < |bodies| => Parcel(from + i, bodies[i]))
  }

  predicate IsCall(step: C.Step) {
    step.Out? && (step.out.Buffer? || step.out.Spawn? || step.out.Refuse?)
  }

  lemma {:induction false} NoCallSendsNothing(c: C.Channel, steps: seq<C.Step>)
    requires C.Valid(c, steps) && forall k :: 0 <= k < |steps| ==> !IsCall(steps[k])
    ensures C.After(c, steps).out.sent == c.out.sent
    decreases |steps|
  {
    if steps != [] {
      NoCallSendsNothing(C.Apply(c, steps[0]), steps[1..]);
    }
  }

  /** What the direction is after a send call of a client that is in this phase. */
  ghost predicate Given(phase: Phase, o: O.Outbox, p: Parcel, o': O.Outbox) {
    && o'.sent == o.sent + [p]
    && (phase.Connecting? ==> o'.pending == o.pending + [p] && o'.results == o.results + [Waiting])
    && (phase.Connected? ==>
          o'.pending == o.pending && o'.opening == o.opening + [p] && o'.results == o.results + [Waiting])
    && (phase.Disconnected? ==>
          && o'.pending == o.pending && o'.opening == o.opening
          && o'.results == o.results + [Holding(if phase.who.Us? then WeClosed else PeerClosedOrDied)])
  }

  lemma SendStepGives(phase: Phase, c: C.Channel, body: Wire)
    requires !phase.Dropped? && C.Enabled(c, SendStep(phase, body))
    ensures Given(phase, c.out, Parcel(|c.out.sent|, body), C.Apply(c, SendStep(phase, body)).out)
  {
  }

  /** The direction once the call has noticed what is in the slot. */
  ghost predicate AfterNoticing(s: Session, phase: Phase, o: O.Outbox) {
    if s.phase.Connecting? && s.slot == Ready(GotConnection) then
      && phase == Connected(false)
      && o.sent == s.up.out.sent && o.results == s.up.out.results
      && o.opening == s.up.out.opening + s.up.out.pending && o.pending == []
    else if s.phase.Connecting? && s.slot == Ready(GotTimeout) then
      && phase == Disconnected(ThePeerDidntEvenConnect(false))
      && o.sent == s.up.out.sent && o.opening == s.up.out.opening && o.pending == []
    else phase == s.phase && o == s.up.out
  }

  lemma NoticingIs(s: Session)
    requires Shape(s)
    ensures C.Valid(s.up, NoticeSteps(s.phase, s.slot))
    ensures AfterNoticing(s, NoticedSession(s).phase, NoticedSession(s).up.out)
  {
    NoticedIs(s);
  }

  /** Some outbox is what noticing leaves, and what the call makes of that is `o`. */
  ghost predicate NoticedAndGiven(s: Session, phase: Phase, p: Parcel, o: O.Outbox) {
    exists noticed :: AfterNoticing(s, phase, noticed) && Given(phase, noticed, p, o)
  }

  /**
   A send call of the client first notices what is in the slot, which decides the phase and what
   becomes of the buffer; then it is numbered and given its message, which waits in the buffer while
   the client connects, is with a new task behind whatever was buffered once it is connected, and is
   refused once it is disconnected.
   */
  lemma ClientSendRecords(s: Session, body: Wire)
    requires Shape(s) && Enabled(s, ClientSends(body))
    ensures var (p, t) := (Parcel(|s.up.out.sent|, body), Apply(s, ClientSends(body)));
            t.up.out.sent == s.up.out.sent + [p] && NoticedAndGiven(s, t.phase, p, t.up.out) && t.down == s.down
  {
    ClientSendsIs(s, body);
    NoticingIs(s);
    var s1 := NoticedSession(s);
    SendStepGives(s1.phase, s1.up, body);
    assert AfterNoticing(s, s1.phase, s1.up.out);
    assert s1.up.out.sent == s.up.out.sent;
  }

  lemma ServerSendRecords(s: Session, body: Wire)
    requires Inv(s) && Enabled(s, ServerSends(body))
    ensures var (o, t) := (s.down.out, Apply(s, ServerSends(body)));
            var p := Parcel(|o.sent|, body);
            && t.down.out.sent == o.sent + [p]
            && t.down.out.opening == o.opening + [p]
            && t.down.out.results == o.results + [Waiting]
            && t.up == s.up
  {
    ServerSendsIs(s, body);
  }

  lemma OtherStepsSendNothing(s: Session, step: Step)
    requires Enabled(s, step)
    ensures !step.ClientSends? ==> Apply(s, step).up.out.sent == s.up.out.sent
    ensures !step.ServerSends? ==> Apply(s, step).down.out.sent == s.down.out.sent
  {
    if !step.ClientSends? {
      NoCallSendsNothing(s.up, UpSteps(s, step));
    }
    if !step.ServerSends? {
      NoCallSendsNothing(s.down, DownSteps(s, step));
    }
  }

  /** `sent` has become `later` by calls with these bodies. */
  ghost predicate Recorded(sent: seq<Parcel>, bodies: seq<Wire>, later: seq<Parcel>) {
    later == sent + Parcels(|sent|, bodies)
  }

  lemma RecordedOne(sent: seq<Parcel>, body: Wire)
    ensures Recorded(sent, [], sent)
    ensures Recorded(sent, [body], sent + [Parcel(|sent|, body)])
  {
    assert Parcels(|sent|, [body]) == [Parcel(|sent|, body)];
    assert sent + [] == sent;
  }

  lemma RecordedThen(sent: seq<Parcel>, a: seq<Wire>, mid: seq<Parcel>, b: seq<Wire>, later: seq<Parcel>)
    requires Recorded(sent, a, mid) && Recorded(mid, b, later)
    ensures Recorded(sent, a + b, later)
  {
    assert Parcels(|sent|, a) + Parcels(|sent| + |a|, b) == Parcels(|sent|, a + b);
  }

  lemma StepRecords(s: Session, step: Step)
    requires Inv(s) && Enabled(s, step)
    ensures Recorded(s.up.out.sent, if step.ClientSends? then [step.body] else [], Apply(s, step).up.out.sent)
    ensures Recorded(s.down.out.sent, if step.ServerSends? then [step.body] else [], Apply(s, step).down.out.sent)
  {
    OtherStepsSendNothing(s, step);
    RecordedOne(s.up.out.sent, if step.ClientSends? then step.body else []);
    RecordedOne(s.down.out.sent, if step.ServerSends? then step.body else []);
    if step.ClientSends? {
      ClientSendRecords(s, step.body);
    } else if step.ServerSends? {
      ServerSendRecords(s, step.body);
    }
  }

  /** What either side has sent, over any run, is the messages its calls were given, in order. */
  lemma {:induction false} SentIsWhatWasCalled(s: Session, steps: seq<Step>)
    requires Inv(s) && Valid(s, steps)
    ensures Recorded(s.up.out.sent, ClientBodies(steps), After(s, steps).up.out.sent)
    ensures Recorded(s.down.out.sent, ServerBodies(steps), After(s, steps).down.out.sent)
    decreases |steps|
  {
    if steps == [] {
      RecordedOne(s.up.out.sent, []);
      RecordedOne(s.down.out.sent, []);
    } else {
      var t, u := Apply(s, steps[0]), After(s, steps);
      StepKeepsInv(s, steps[0]);
      SentIsWhatWasCalled(t, steps[1..]);
      StepRecords(s, steps[0]);
      RecordedThen(s.up.out.sent, if steps[0].ClientSends? then [steps[0].body] else [], t.up.out.sent,
                   ClientBodies(steps[1..]), u.up.out.sent);
      RecordedThen(s.down.out.sent, if steps[0].ServerSends? then [steps[0].body] else [], t.down.out.sent,
                   ServerBodies(steps[1..]), u.down.out.sent);
    }
  }

  // ---------------------------------------------------------------------------------------------
  // What is polled is what was queued
  // ---------------------------------------------------------------------------------------------

  /** How often the user was given the message `p`. */
  function TimesGiven(events: seq<ClientEvent>, p: Parcel): nat {
    if events == [] then 0
    else TimesGiven(events[..|events| - 1], p) + if events[|events| - 1] == MessageEvent(p) then 1 else 0
  }

  /** The events after `Connected` are those of the queue, message for message, details for details. */
  ghost predicate SameEvents(polled: seq<ClientEvent>, drained: seq<I.StreamEvent>) {
    && |polled| == |drained|
    && (forall k, p :: 0 <= k < |drained| ==> (polled[k] == MessageEvent(p) <==> drained[k] == I.Message(p)))
    && (forall k, d :: 0 <= k < |drained| ==> (polled[k] == DisconnectedEvent(d) <==> drained[k] == I.Disconnected(d)))
  }

  lemma AllFromServerIsSame(drained: seq<I.StreamEvent>)
    ensures SameEvents(AllFromServer(drained), drained)
  {
  }

  lemma {:induction false} SameEventsSameMessages(polled: seq<ClientEvent>, drained: seq<I.StreamEvent>, p: Parcel)
    requires SameEvents(polled, drained)
    ensures TimesGiven(polled, p) == Bags.Count(I.Messages(drained), p)
    decreases |polled|
  {
    if polled != [] {
      var n := |polled| - 1;
      SameEventsSameMessages(polled[..n], drained[..n], p);
      assert polled[n] == MessageEvent(p) <==> drained[n] == I.Message(p);
      C.MessagesPushed(drained[..n], drained[n], p);
      assert drained == drained[..n] + [drained[n]];
    }
  }

  lemma {:induction false} TimesGivenLater(first: ClientEvent, rest: seq<ClientEvent>, p: Parcel)
    requires first != MessageEvent(p)
    ensures TimesGiven([first] + rest, p) == TimesGiven(rest, p)
    decreases |rest|
  {
    var all := [first] + rest;
    if rest == [] {
      assert all[..0] == [];
    } else {
      TimesGivenLater(first, rest[..|rest| - 1], p);
      assert all[..|all| - 1] == [first] + rest[..|rest| - 1];
    }
  }

  /**
   What the client's user has polled, event by event: after `Connected` the k-th event is a message
   exactly if the k-th event taken from the queue was that message, and a disconnection exactly if it
   was one with those details. Each message was given as often as the direction counts it polled.
   */
  lemma PolledIsWhatWasQueued(s: Session, p: Parcel)
    requires L.Reachable(s)
    ensures |s.polled| > 1 ==> SameEvents(s.polled[1..], s.down.inbox.drained)
    ensures TimesGiven(s.polled, p) == C.Polled(s.down, p)
  {
    L.ReachableInv(s);
    assert PhaseIn(s.phase, s.polled, s.down.inbox.drained, s.down.inbox.receiverAlive);
    PolledCounts(s.polled, s.down.inbox.drained, p);
  }

  lemma PolledCounts(polled: seq<ClientEvent>, drained: seq<I.StreamEvent>, p: Parcel)
    requires PolledAll(polled, drained) || (drained == [] && (polled == [] || polled == [FailedToConnect]))
    ensures |polled| > 1 ==> SameEvents(polled[1..], drained)
    ensures TimesGiven(polled, p) == Bags.Count(I.Messages(drained), p)
  {
    if PolledAll(polled, drained) {
      AllFromServerIsSame(drained);
      SameEventsSameMessages(AllFromServer(drained), drained, p);
      TimesGivenLater(ConnectedEvent, AllFromServer(drained), p);
    }
  }

  /**
   A poll of a client that has told `Connected`: it takes the head of the queue, a message as that
   message and a disconnection with its details, or gives nothing and changes nothing.
   */
  lemma PollTakesTheHead(s: Session)
    requires Inv(s) && s.phase == Connected(true)
    ensures Enabled(s, ClientPolls)
    ensures var (b, t) := (s.down.inbox, Apply(s, ClientPolls));
            if b.queue == [] then t == s && PollAnswer(s).None?
            else
              && t == s.(polled := t.polled, down := t.down)
              && t.polled == s.polled + [match b.queue[0]
                                         case Message(p) => MessageEvent(p)
                                         case Disconnected(details) => DisconnectedEvent(details)]
              && PollAnswer(s).Some? && PollAnswer(s).value == t.polled[|s.polled|]
              && t.down == s.down.(inbox := b.(queue := b.queue[1..], drained := b.drained + [b.queue[0]]))
  {
    ClientPollsIs(s);
    NoticedIs(s);
  }

  // ---------------------------------------------------------------------------------------------
  // How connecting ends
  // ---------------------------------------------------------------------------------------------

  /** What a client becomes whose connection is there and noticed: all that was buffered is spawned. */
  function NowConnected(s: Session): Session {
    s.(phase := Connected(true), slot := Collected, polled := [ConnectedEvent], attempting := false,
       up := s.up.(out := s.up.out.(spawned := s.up.out.sent, opening := s.up.out.sent, pending := [])),
       down := s.down.(inbox := s.down.inbox.(loop := I.Accepting)))
  }

  lemma HandshakeMakesReady(s: Session)
    requires Inv(s) && s.phase.Connecting? && s.slot.Empty?
    ensures Enabled(s, HandshakeSucceeds)
    ensures Apply(s, HandshakeSucceeds)
         == s.(attempting := false, slot := Ready(GotConnection),
               down := s.down.(inbox := s.down.inbox.(loop := I.Accepting)))
  {
    RunOne(s.down, C.In(I.Listen));
    assert C.After(s.up, []) == s.up;
  }

  lemma ReadyIsPolled(s: Session)
    requires Inv(s) && s.phase.Connecting? && s.slot == Ready(GotConnection)
    ensures Enabled(s, ClientPolls) && s.up.out.pending == s.up.out.sent
    ensures Apply(s, ClientPolls)
         == s.(phase := Connected(true), slot := Collected, polled := [ConnectedEvent],
               up := s.up.(out := s.up.out.(spawned := s.up.out.sent, opening := s.up.out.sent, pending := [])))
  {
    ClientPollsIs(s);
    NoticedIs(s);
    assert [] + s.up.out.pending == s.up.out.pending;
  }

  lemma HandshakeThenPoll(s: Session)
    requires Inv(s) && s.phase.Connecting? && s.slot.Empty?
    ensures s.up.out.pending == s.up.out.sent
    ensures Enabled(s, HandshakeSucceeds)
    ensures Enabled(Apply(s, HandshakeSucceeds), ClientPolls)
    ensures Apply(Apply(s, HandshakeSucceeds), ClientPolls) == NowConnected(s)
  {
    HandshakeMakesReady(s);
    StepKeepsInv(s, HandshakeSucceeds);
    ReadyIsPolled(Apply(s, HandshakeSucceeds));
  }

  /**
   From every state in which a client still connects, the handshake can succeed, and then the next
   poll says `Connected` and nothing before it; the whole buffer is with the send tasks, in order, and
   the client's accept loop listens. Nothing else has changed.
   */
  lemma ConnectingCanSucceed(s: Session)
    requires L.Reachable(s) && s.phase.Connecting? && s.slot.Empty?
    ensures s.up.out.pending == s.up.out.sent
    ensures Valid(s, [HandshakeSucceeds, ClientPolls])
    ensures After(s, [HandshakeSucceeds, ClientPolls]) == NowConnected(s)
  {
    L.ReachableInv(s);
    HandshakeThenPoll(s);
    L.RunSessionStep(Apply(s, HandshakeSucceeds), ClientPolls);
    assert [HandshakeSucceeds, ClientPolls][1..] == [ClientPolls];
  }

  /** The handshake steps of a run. */
  function Handshakes(steps: seq<Step>): seq<Step> {
    if steps == [] then []
    else (if steps[0].HandshakeSucceeds? || steps[0].HandshakeFails? then [steps[0]] else []) + Handshakes(steps[1..])
  }

  /** The client shows signs of a connection: in the slot, in its phase, or told. */
  ghost predicate LooksConnected(s: Session) {
    (s.slot.Ready? && s.slot.value.GotConnection?) || Last(s.phase).Connected? || ConnectedEvent in s.polled
  }

  /** The client shows signs of a timeout. */
  ghost predicate LooksTimedOut(s: Session) {
    || (s.slot.Ready? && s.slot.value.GotTimeout?)
    || (Last(s.phase).Disconnected? && Last(s.phase).who.ThePeerDidntEvenConnect?)
    || FailedToConnect in s.polled
  }

  /**
   What the client shows is what the handshakes so far were, of which there is at most one; and as
   long as it still connects, that is what it finds in its slot.
   */
  ghost predicate Shows(s: Session, shakes: seq<Step>) {
    && (s.attempting <==> shakes == [])
    && |shakes| <= 1
    && (LooksConnected(s) ==> shakes == [HandshakeSucceeds])
    && (LooksTimedOut(s) ==> shakes == [HandshakeFails(TimedOut)])
    && (s.slot.Broken? ==> shakes != [] && shakes[0].HandshakeFails? && !shakes[0].error.TimedOut?)
    && (s.phase.Connecting? && shakes != [] ==>
          s.slot == match shakes[0]
                    case HandshakeSucceeds => Ready(GotConnection)
                    case HandshakeFails(error) => if error.TimedOut? then Ready(GotTimeout) else Broken
                    case _ => Empty)
  }

  lemma HandshakeShows(s: Session, step: Step)
    requires Shape(s) && Enabled(s, step) && (step.HandshakeSucceeds? || step.HandshakeFails?) && Shows(s, [])
    ensures Shows(Apply(s, step), [step])
  {
    var t := Apply(s, step);
    assert t.polled == s.polled && t.phase == s.phase;
    assert |[HandshakeSucceeds]| == 1 && |[HandshakeFails(TimedOut)]| == 1;
    assert !LooksConnected(s) && !LooksTimedOut(s) && !s.slot.Broken?;
    assert s.phase.Connecting? ==> s.slot.Empty?;
  }

  lemma PollShows(s: Session, shakes: seq<Step>)
    requires Shape(s) && Enabled(s, ClientPolls) && Shows(s, shakes)
    ensures Shows(Apply(s, ClientPolls), shakes)
  {
  }

  lemma OtherShows(s: Session, step: Step, shakes: seq<Step>)
    requires Shape(s) && Enabled(s, step) && Shows(s, shakes)
    requires !step.HandshakeSucceeds? && !step.HandshakeFails? && !step.ClientPolls?
    ensures Shows(Apply(s, step), shakes)
  {
  }

  lemma StepShows(s: Session, step: Step, shakes: seq<Step>)
    requires Shape(s) && Enabled(s, step) && Shows(s, shakes)
    ensures Shows(Apply(s, step), shakes + if step.HandshakeSucceeds? || step.HandshakeFails? then [step] else [])
  {
    assert shakes + [] == shakes;
    if step.HandshakeSucceeds? || step.HandshakeFails? {
      assert shakes == [] && [] + [step] == [step];
      HandshakeShows(s, step);
    } else if step.ClientPolls? {
      PollShows(s, shakes);
    } else {
      OtherShows(s, step, shakes);
    }
  }

  lemma Associates(a: seq<Step>, b: seq<Step>, c: seq<Step>)
    ensures a + (b + c) == a + b + c
  {
  }

  lemma {:induction false} RunShows(s: Session, steps: seq<Step>, shakes: seq<Step>)
    requires Shape(s) && Valid(s, steps) && Shows(s, shakes)
    ensures Shows(After(s, steps), shakes + Handshakes(steps))
    decreases |steps|
  {
    if steps == [] {
      assert shakes + [] == shakes;
    } else {
      var now := if steps[0].HandshakeSucceeds? || steps[0].HandshakeFails? then [steps[0]] else [];
      StepShows(s, steps[0], shakes);
      StepKeepsShape(s, steps[0]);
      RunShows(Apply(s, steps[0]), steps[1..], shakes + now);
      Associates(shakes, now, Handshakes(steps[1..]));
    }
  }

  /**
   Connecting ends once at most, and what the client shows is how it ended: it was told `Connected` or
   `FailedToConnect` only if the handshake succeeded, or timed out, in this run; and as long as it
   still connects, how it ended is what is in its slot.
   */
  lemma ConnectingEndsOnce(up: C.Receiver, down: C.Receiver, steps: seq<Step>)
    requires Valid(NewSession(up, down), steps)
    ensures Shows(After(NewSession(up, down), steps), Handshakes(steps))
  {
    NewSessionInv(up, down);
    RunShows(NewSession(up, down), steps, []);
    assert [] + Handshakes(steps) == Handshakes(steps);
  }

  /** Some run from here gives the user this event. */
  ghost predicate MayGive(s: Session, event: ClientEvent) {
    exists steps :: Valid(s, steps) && event in After(s, steps).polled
  }

  lemma PollMayGive(s: Session, event: ClientEvent)
    requires Enabled(s, ClientPolls) && event in Apply(s, ClientPolls).polled
    ensures MayGive(s, event)
  {
    L.RunSessionStep(s, ClientPolls);
    assert event in After(s, [ClientPolls]).polled;
  }

  /** What was shown once is shown for good. */
  lemma ShownStays(s: Session, shake: Step, steps: seq<Step>)
    requires Shape(s) && Valid(s, steps) && Shows(s, [shake])
    ensures Shows(After(s, steps), [shake])
  {
    RunShows(s, steps, [shake]);
    assert [shake] + Handshakes(steps) == [shake];
  }

  lemma GivenOnlyFor(s: Session, shake: Step, steps: seq<Step>)
    requires Shape(s) && Valid(s, steps) && Shows(s, [shake])
    ensures ConnectedEvent in After(s, steps).polled ==> shake == HandshakeSucceeds
    ensures FailedToConnect in After(s, steps).polled ==> shake == HandshakeFails(TimedOut)
  {
    ShownStays(s, shake, steps);
    assert [shake][0] == shake;
  }

  lemma HandshakeShowsFirst(s: Session, step: Step)
    requires Inv(s) && s.phase.Connecting? && s.slot.Empty? && (step.HandshakeSucceeds? || step.HandshakeFails?)
    ensures Enabled(s, step) && Inv(Apply(s, step)) && Shows(Apply(s, step), [step])
    ensures Apply(s, step).phase.Connecting?
  {
    if step.HandshakeSucceeds? {
      HandshakeMakesReady(s);
    } else {
      assert C.After(s.up, []) == s.up && C.After(s.down, []) == s.down;
    }
    HandshakeShows(s, step);
    StepKeepsInv(s, step);
  }

  lemma TimeoutIsPolled(s: Session)
    requires Inv(s) && s.phase.Connecting? && s.slot == Ready(GotTimeout)
    ensures Enabled(s, ClientPolls) && FailedToConnect in Apply(s, ClientPolls).polled
  {
    ClientPollsIs(s);
    NoticedIs(s);
  }

  /**
   How the handshake ends decides what the user can be given, then and ever after: `Connected` exactly
   if it succeeds, `FailedToConnect` exactly if it times out, and neither after any other error.
   */
  lemma HandshakeDecides(s: Session, step: Step)
    requires L.Reachable(s) && s.phase.Connecting? && s.slot.Empty?
    requires step.HandshakeSucceeds? || step.HandshakeFails?
    ensures Enabled(s, step)
    ensures MayGive(Apply(s, step), ConnectedEvent) <==> step == HandshakeSucceeds
    ensures MayGive(Apply(s, step), FailedToConnect) <==> step == HandshakeFails(TimedOut)
  {
    L.ReachableInv(s);
    HandshakeShowsFirst(s, step);
    var t := Apply(s, step);
    if step == HandshakeSucceeds {
      ReadyIsPolled(t);
      PollMayGive(t, ConnectedEvent);
    } else if step == HandshakeFails(TimedOut) {
      TimeoutIsPolled(t);
      PollMayGive(t, FailedToConnect);
    }
    forall steps | Valid(t, steps)
      ensures ConnectedEvent in After(t, steps).polled ==> step == HandshakeSucceeds
      ensures FailedToConnect in After(t, steps).polled ==> step == HandshakeFails(TimedOut)
    {
      GivenOnlyFor(t, step, steps);
    }
  }

  // ---------------------------------------------------------------------------------------------
  // Being told of a disconnect
  // ---------------------------------------------------------------------------------------------

  ghost predicate ToldWithoutLoss(s: Session, steps: seq<Step>) {
    && Valid(s, steps)
    && !After(s, steps).up.ends.lost
    && I.Disconnected(I.NoDetails) in After(s, steps).up.inbox.enqueued
  }

  /** Some run from here tells the server's user of a disconnection although the connection lives. */
  ghost predicate CanBeTold(s: Session) {
    exists steps :: ToldWithoutLoss(s, steps)
  }

  lemma ClosedCanBeTold(s: Session)
    requires s.up.ends.closed && !s.up.ends.lost && s.up.inbox.loop.Accepting? && s.up.inbox.receiverAlive
    ensures CanBeTold(s)
  {
    var hears := C.In(I.AcceptFails(ApplicationClosed));
    RunOne(s.up, hears);
    assert C.After(s.down, []) == s.down;
    L.RunSessionStep(s, UpRuns(hears));
    assert ToldWithoutLoss(s, [UpRuns(hears)]);
  }

  /**
   While the server listens, it can hear of a client's `disconnect`, without the connection dying,
   exactly if the client had noticed its connection.
   */
  lemma DisconnectCanBeToldIff(s: Session)
    requires L.Reachable(s) && (s.phase.Connecting? || s.phase.Connected?)
    requires !s.up.ends.lost && s.up.inbox.loop.Accepting? && s.up.inbox.receiverAlive
    ensures Enabled(s, ClientDisconnects)
    ensures CanBeTold(Apply(s, ClientDisconnects)) <==> s.phase.Connected?
  {
    L.ReachableInv(s);
    ClientDisconnectsIs(s);
    if s.phase.Connected? {
      ClosedCanBeTold(Apply(s, ClientDisconnects));
    } else {
      forall steps ensures !ToldWithoutLoss(Apply(s, ClientDisconnects), steps) {
        if Valid(Apply(s, ClientDisconnects), steps) {
          L.UncollectedDisconnectIsNotTold(s, steps);
        }
      }
    }
  }

  // ---------------------------------------------------------------------------------------------
  // The other calls of the server
  // ---------------------------------------------------------------------------------------------

  /** A server that takes the connection listens to it from then on. */
  lemma ServerAcceptsListens(s: Session)
    requires Inv(s) && !s.serverHas
    ensures Enabled(s, ServerAccepts)
    ensures Apply(s, ServerAccepts)
         == s.(serverHas := true, up := s.up.(inbox := s.up.inbox.(loop := I.Accepting)))
  {
    RunOne(s.up, C.In(I.Listen));
    assert C.After(s.down, []) == s.down;
  }

  /** Its disconnect closes, whatever came before; its end closes nothing and loses what is queued. */
  lemma ServerEndsItsSide(s: Session)
    requires Inv(s) && s.serverHas && s.up.inbox.receiverAlive
    ensures Enabled(s, ServerDisconnects) && Enabled(s, ServerDrops)
    ensures Apply(s, ServerDisconnects)
         == s.(down := s.down.(ends := s.down.ends.(quit := true, closed := true)),
               up := s.up.(ends := s.up.ends.(peerClosed := true)))
    ensures var (b, t) := (s.up.inbox, Apply(s, ServerDrops));
            && t == s.(up := t.up) && t.up.ends == s.up.ends && t.up.out == s.up.out
            && t.up.inbox == b.(receiverAlive := false, queue := [], abandoned := b.abandoned + b.queue)
  {
    ServerDisconnectsIs(s);
    RunOne(s.up, C.In(I.DropReceiver));
    assert C.After(s.down, []) == s.down;
  }

  // ---------------------------------------------------------------------------------------------
  // What has become of the connection
  // ---------------------------------------------------------------------------------------------

  lemma OutStepEndsNothing(c: C.Channel, s: O.OutStep)
    requires C.EnabledOut(c, s)
    ensures var d := C.ApplyOut(c, s);
            d.ends.lost == c.ends.lost && d.ends.closed == c.ends.closed && d.inbox == c.inbox
  {
  }

  lemma InStepEndsNothing(c: C.Channel, s: I.InStep)
    requires C.EnabledIn(c, s)
    ensures var d := C.ApplyIn(c, s);
            && d.ends == c.ends
            && (d.inbox.receiverAlive <==> c.inbox.receiverAlive && !s.DropReceiver?)
  {
  }

  lemma ChannelStepEnds(c: C.Channel, step: C.Step)
    requires C.Enabled(c, step)
    ensures var d := C.Apply(c, step);
            && (d.ends.lost <==> c.ends.lost || step == C.ConnectionDies)
            && (d.ends.closed <==> c.ends.closed || step == C.Close)
            && (d.inbox.receiverAlive <==> c.inbox.receiverAlive && step != C.In(I.DropReceiver))
  {
    match step
    case Out(s) => OutStepEndsNothing(c, s);
    case In(s) => InStepEndsNothing(c, s);
    case _ =>
  }

  lemma {:induction false} ChannelRunEnds(c: C.Channel, steps: seq<C.Step>)
    requires C.Valid(c, steps)
    ensures var d := C.After(c, steps);
            && (d.ends.lost <==> c.ends.lost || C.ConnectionDies in steps)
            && (d.ends.closed <==> c.ends.closed || C.Close in steps)
            && (d.inbox.receiverAlive <==> c.inbox.receiverAlive && C.In(I.DropReceiver) !in steps)
    decreases |steps|
  {
    if steps != [] {
      ChannelStepEnds(c, steps[0]);
      ChannelRunEnds(C.Apply(c, steps[0]), steps[1..]);
      assert forall x :: x in steps <==> x == steps[0] || x in steps[1..];
    }
  }

  lemma UpStepEnds(s: Session, step: Step)
    requires Enabled(s, step)
    ensures var t := Apply(s, step);
            && (t.up.ends.lost <==> s.up.ends.lost || step.ConnectionDies?)
            && (t.up.ends.closed <==> s.up.ends.closed || (step.ClientDisconnects? && s.phase.Connected?))
            && (t.up.inbox.receiverAlive <==> s.up.inbox.receiverAlive && !step.ServerDrops?)
  {
    ChannelRunEnds(s.up, UpSteps(s, step));
  }

  /** The client disconnects or goes away with a connection, or with the wish for one. */
  predicate HangsUpIn(s: Session, step: Step) {
    (step.ClientDisconnects? || step.ClientDrops?) && (s.phase.Connecting? || s.phase.Connected?)
  }

  lemma DownStepEnds(s: Session, step: Step)
    requires Enabled(s, step)
    ensures var t := Apply(s, step);
            && (t.down.ends.closed <==> s.down.ends.closed || step.ServerDisconnects?)
            && (t.down.inbox.receiverAlive <==> s.down.inbox.receiverAlive && !HangsUpIn(s, step))
  {
    ChannelRunEnds(s.down, DownSteps(s, step));
  }

  lemma StepEnds(s: Session, step: Step)
    requires Enabled(s, step)
    ensures var t := Apply(s, step);
            && (t.up.ends.lost <==> s.up.ends.lost || step.ConnectionDies?)
            && (t.down.ends.closed <==> s.down.ends.closed || step.ServerDisconnects?)
            && (t.up.ends.closed <==> s.up.ends.closed || (step.ClientDisconnects? && s.phase.Connected?))
            && (t.up.inbox.receiverAlive <==> s.up.inbox.receiverAlive && !step.ServerDrops?)
            && (t.down.inbox.receiverAlive <==> s.down.inbox.receiverAlive && !HangsUpIn(s, step))
            && (t.serverHas <==> s.serverHas || step.ServerAccepts?)
  {
    UpStepEnds(s, step);
    DownStepEnds(s, step);
  }

  lemma FirstOrLater(steps: seq<Step>)
    requires steps != []
    ensures forall x :: x in steps <==> x == steps[0] || x in steps[1..]
  {
  }

  /** The client disconnects, in some step of the run, while it is connected. */
  ghost predicate Collects(s: Session, steps: seq<Step>)
    requires Valid(s, steps)
    decreases |steps|
  {
    steps != []
    && ((steps[0].ClientDisconnects? && s.phase.Connected?) || Collects(Apply(s, steps[0]), steps[1..]))
  }

  ghost predicate HangsUp(s: Session, steps: seq<Step>)
    requires Valid(s, steps)
    decreases |steps|
  {
    steps != [] && (HangsUpIn(s, steps[0]) || HangsUp(Apply(s, steps[0]), steps[1..]))
  }

  /**
   The connection is lost exactly if it died in this run, closed by the server exactly if the server
   disconnected, closed by the client exactly if that disconnected while it was connected; and the
   server's end is there from when the server took it until it dropped it. The client's end of the
   events is there until it first disconnects or is dropped.
   */
  lemma {:induction false} EndsAreOfTheRun(s: Session, steps: seq<Step>)
    requires Valid(s, steps)
    ensures var t := After(s, steps);
            && (t.up.ends.lost <==> s.up.ends.lost || ConnectionDies in steps)
            && (t.down.ends.closed <==> s.down.ends.closed || ServerDisconnects in steps)
            && (t.up.ends.closed <==> s.up.ends.closed || Collects(s, steps))
            && (t.up.inbox.receiverAlive <==> s.up.inbox.receiverAlive && ServerDrops !in steps)
            && (t.down.inbox.receiverAlive <==> s.down.inbox.receiverAlive && !HangsUp(s, steps))
            && (t.serverHas <==> s.serverHas || ServerAccepts in steps)
    decreases |steps|
  {
    if steps != [] {
      StepEnds(s, steps[0]);
      EndsAreOfTheRun(Apply(s, steps[0]), steps[1..]);
      FirstOrLater(steps);
    }
  }
}
