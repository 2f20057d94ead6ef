/** What every run of a client and a server guarantees to the client's user. */
module Lifecycle {
  import opened Options
  import opened Cloneless
  import opened Sending
  import opened Sessions
  import O = Outboxes
  import I = Inboxes
  import C = Channels
  import D = Delivery
  import R = Rendezvous

  ghost predicate Reachable(s: Session) {
    exists up, down, steps :: Valid(NewSession(up, down), steps) && After(NewSession(up, down), steps) == s
  }

  lemma ReachableInv(s: Session)
    requires Reachable(s)
    ensures Inv(s)
  {
    var up, down, steps :| Valid(NewSession(up, down), steps) && After(NewSession(up, down), steps) == s;
    NewSessionInv(up, down);
    RunKeepsInv(NewSession(up, down), steps);
  }

  /** Each direction of a reachable session is a reachable channel, so all of `Delivery` holds of it. */
  lemma {:induction false} DirectionsRun(s: Session, steps: seq<Step>) returns (up: seq<C.Step>, down: seq<C.Step>)
    requires Valid(s, steps)
    ensures C.Valid(s.up, up) && C.After(s.up, up) == After(s, steps).up
    ensures C.Valid(s.down, down) && C.After(s.down, down) == After(s, steps).down
    decreases |steps|
  {
    if steps == [] {
      up, down := [], [];
    } else {
      var moreUp, moreDown := DirectionsRun(Apply(s, steps[0]), steps[1..]);
      C.RunThenRun(s.up, UpSteps(s, steps[0]), moreUp);
      C.RunThenRun(s.down, DownSteps(s, steps[0]), moreDown);
      up, down := UpSteps(s, steps[0]) + moreUp, DownSteps(s, steps[0]) + moreDown;
    }
  }

  lemma DirectionsAreReachable(s: Session)
    requires Reachable(s)
    ensures D.Reachable(s.up) && D.Reachable(s.down)
  {
    var up, down, steps :| Valid(NewSession(up, down), steps) && After(NewSession(up, down), steps) == s;
    var upSteps, downSteps := DirectionsRun(NewSession(up, down), steps);
    assert C.After(C.EmptyChannel(up), upSteps) == s.up && C.After(C.EmptyChannel(down), downSteps) == s.down;
  }

  /** Whatever happened, no call of the client's user is impossible while the client exists. */
  lemma CallsAreAlwaysPossible(s: Session, body: Wire)
    requires Reachable(s) && !s.phase.Dropped?
    ensures Enabled(s, ClientSends(body)) && Enabled(s, ClientPolls)
    ensures Enabled(s, ClientDisconnects) && Enabled(s, ClientDrops)
  {
    ReachableInv(s);
    ClientSendsKeepsShape(s, body);
    ClientPollsKeepsShape(s);
    ClientDisconnectsKeepsShape(s);
    ClientDropsKeepsShape(s);
  }

  // ---------------------------------------------------------------------------------------------
  // Buffering
  // ---------------------------------------------------------------------------------------------

  /**
   The tasks spawned so far are those of the first sends, in the order of the calls. Until the
   client is disconnected or dropped they and the buffer are all the sends; the buffer is used only
   before the connection is there.
   */
  lemma BufferingIsTransparent(s: Session)
    requires Reachable(s)
    ensures s.up.out.spawned <= s.up.out.sent
    ensures !s.phase.Disconnected? && !s.phase.Dropped? ==> s.up.out.spawned + s.up.out.pending == s.up.out.sent
    ensures s.up.out.pending != [] ==> s.phase.Connecting?
    ensures s.phase.Connecting? ==> s.up.out.spawned == []
    ensures s.phase.Connected? ==> s.up.out.spawned == s.up.out.sent
  {
    ReachableInv(s);
    assert O.InOrder(s.up.out);
    assert s.up.out.spawned + [] == s.up.out.spawned;
  }

  /** That the server closed is never stored: the client stays `Connected` and is told by events. */
  lemma ThePeerIsNeverStored(s: Session)
    requires Reachable(s)
    ensures Last(s.phase) != Disconnected(ThePeer)
  {
    ReachableInv(s);
  }

  lemma ChannelStepSettles(c: C.Channel, step: C.Step, id: nat)
    requires O.Inv(c.out) && C.Enabled(c, step) && id < |c.out.results|
    ensures var d := C.Apply(c, step);
            O.Inv(d.out) && id < |d.out.results| && Settles(c.out.results[id], d.out.results[id])
  {
    if step.Out? {
      O.StepKeepsInv(c.out, step.out);
      O.StepSettles(c.out, step.out);
    } else {
      assert C.Apply(c, step).out == c.out;
    }
  }

  lemma {:induction false} ChannelSettles(c: C.Channel, steps: seq<C.Step>, id: nat)
    requires O.Inv(c.out) && C.Valid(c, steps) && id < |c.out.results|
    ensures var d := C.After(c, steps);
            O.Inv(d.out) && id < |d.out.results| && Settles(c.out.results[id], d.out.results[id])
    decreases |steps|
  {
    if steps != [] {
      var d := C.Apply(c, steps[0]);
      ChannelStepSettles(c, steps[0], id);
      ChannelSettles(d, steps[1..], id);
      assert C.After(c, steps) == C.After(d, steps[1..]);
    }
  }

  /** Over any run of the session, a client's handle is settled once and answered once. */
  lemma {:induction false} SessionSettles(s: Session, steps: seq<Step>, id: nat)
    requires O.Inv(s.up.out) && Valid(s, steps) && id < |s.up.out.results|
    ensures var t := After(s, steps);
            id < |t.up.out.results| && Settles(s.up.out.results[id], t.up.out.results[id])
    decreases |steps|
  {
    if steps != [] {
      ChannelSettles(s.up, UpSteps(s, steps[0]), id);
      SessionSettles(Apply(s, steps[0]), steps[1..], id);
    }
  }

  /** Why a call, or the end of the client, gives up the buffer, if it does. */
  function PartingOf(s: Session, step: Step): Option<O.Parting> {
    match step
    case ClientDisconnects => Some(O.Quits)
    case ClientDrops => Some(O.IsDropped)
    case ClientPolls => if s.slot == Ready(GotTimeout) then Some(O.TimesOut) else None
    case ClientSends(_) => if s.slot == Ready(GotTimeout) then Some(O.TimesOut) else None
    case _ => None
  }

  /** What the channel of a buffered call is left with when the buffer is given up. */
  lemma BufferGivenUp(s: Session, step: Step, id: nat)
    requires Inv(s) && s.phase.Connecting? && id < |s.up.out.results|
    requires PartingOf(s, step).Some?
    ensures Enabled(s, step)
    ensures O.Inv(Apply(s, step).up.out) && id < |Apply(s, step).up.out.results|
    ensures Apply(s, step).up.out.results[id] == O.LeftWhen(PartingOf(s, step).value)
  {
    BufferLeftWith(s, PartingOf(s, step).value, id);
    match step
    case ClientDisconnects => ClientDisconnectsIs(s);
    case ClientDrops => ClientDropsIs(s);
    case ClientPolls =>
      ClientPollsIs(s);
      NoticedIs(s);
    case ClientSends(body) => SendGivesUpTheBuffer(s, body, id);
  }

  lemma SendGivesUpTheBuffer(s: Session, body: Wire, id: nat)
    requires Inv(s) && s.phase.Connecting? && s.slot == Ready(GotTimeout) && id < |s.up.out.results|
    ensures Enabled(s, ClientSends(body))
    ensures var o := Apply(s, ClientSends(body)).up.out;
            O.Inv(o) && id < |o.results| && o.results[id] == SenderGone
  {
    ClientSendsIs(s, body);
    NoticedIs(s);
    BufferLeftWith(s, O.TimesOut, id);
    O.StepKeepsInv(NoticedSession(s).up.out, O.Refuse(body, PeerClosedOrDied));
  }

  lemma BufferLeftWith(s: Session, parting: O.Parting, id: nat)
    requires Inv(s) && s.phase.Connecting? && id < |s.up.out.results|
    ensures O.Enabled(s.up.out, O.Abandon(parting))
    ensures O.Inv(O.Apply(s.up.out, O.Abandon(parting)))
    ensures O.Apply(s.up.out, O.Abandon(parting)).results[id] == O.LeftWhen(parting)
  {
    O.AbandonSettlesAll(s.up.out, parting, id);
    O.StepKeepsInv(s.up.out, O.Abandon(parting));
  }

  /**
   Calls made before the connection and never sent: after a disconnect each of them can only ever be
   answered `WeClosed`; after a timeout that the user's next poll or send noticed, or when the client
   is dropped, only ever `Error`.
   */
  lemma BufferedCallsEndAlike(s: Session, step: Step, steps: seq<Step>, id: nat)
    requires Reachable(s) && s.phase.Connecting? && id < |s.up.out.results|
    requires PartingOf(s, step).Some?
    requires Enabled(s, step) && Valid(Apply(s, step), steps)
    ensures var t := After(Apply(s, step), steps);
            var result := if step.ClientDisconnects? then WeClosed else SendingResult.Error;
            && id < |t.up.out.results|
            && !t.up.out.results[id].Waiting?
            && (t.up.out.results[id].Taken? ==> t.up.out.results[id] == Taken(result))
            && (!t.up.out.results[id].Taken? ==> AnswerOf(t.up.out.results[id]) == Result(result))
  {
    ReachableInv(s);
    BufferGivenUp(s, step, id);
    SessionSettles(Apply(s, step), steps, id);
  }

  /** What a disconnected client makes of a send. */
  lemma RefusalIs(s: Session, body: Wire)
    requires Inv(s) && s.phase.Disconnected?
    ensures Enabled(s, ClientSends(body))
    ensures var t := Apply(s, ClientSends(body));
            && O.Inv(t.up.out)
            && t.up.out.results == s.up.out.results + [Holding(if s.phase.who.Us? then WeClosed else PeerClosedOrDied)]
            && t.up.out.spawned == s.up.out.spawned && t.up.out.pending == s.up.out.pending
  {
    ClientSendsIs(s, body);
    NoticedIs(s);
    O.StepKeepsInv(s.up.out, SendStep(s.phase, body).out);
  }

  /**
   Calls made after disconnecting, or after a timeout was noticed, start nothing and are answered
   for what ended the connection, in every continuation.
   */
  lemma RefusedCallsSay(s: Session, body: Wire, steps: seq<Step>)
    requires Reachable(s) && s.phase.Disconnected?
    requires Enabled(s, ClientSends(body)) && Valid(Apply(s, ClientSends(body)), steps)
    ensures Apply(s, ClientSends(body)).up.out.spawned == s.up.out.spawned
    ensures var (t, id) := (After(Apply(s, ClientSends(body)), steps), |s.up.out.results|);
            var result := if s.phase.who.Us? then WeClosed else PeerClosedOrDied;
            && id < |t.up.out.results|
            && (t.up.out.results[id] == Holding(result) || t.up.out.results[id] == Taken(result))
  {
    ReachableInv(s);
    RefusalIs(s, body);
    SessionSettles(Apply(s, ClientSends(body)), steps, |s.up.out.results|);
  }

  // ---------------------------------------------------------------------------------------------
  // Events
  // ---------------------------------------------------------------------------------------------

  /** Nothing; or `FailedToConnect` alone; or `Connected`, then messages and disconnections. */
  ghost predicate WellFormedEvents(events: seq<ClientEvent>) {
    || events == []
    || events == [FailedToConnect]
    || (events[0] == ConnectedEvent
        && forall k :: 0 < k < |events| ==> events[k].MessageEvent? || events[k].DisconnectedEvent?)
  }

  lemma EventsAreWellFormed(polled: seq<ClientEvent>, drained: seq<I.StreamEvent>)
    requires polled == [] || polled == [FailedToConnect] || polled == [ConnectedEvent] + AllFromServer(drained)
    ensures WellFormedEvents(polled)
    ensures |polled| > 1 ==> polled[1..] == AllFromServer(drained)
  {
  }

  lemma EventGrammar(s: Session)
    requires Reachable(s)
    ensures WellFormedEvents(s.polled)
    ensures |s.polled| > 1 ==> s.polled[1..] == AllFromServer(s.down.inbox.drained)
  {
    ReachableInv(s);
    assert PhaseIn(s.phase, s.polled, s.down.inbox.drained, s.down.inbox.receiverAlive);
    EventsAreWellFormed(s.polled, s.down.inbox.drained);
  }

  /** No step but a client's disconnect closes the client's end. */
  lemma ClosedOnlyByDisconnect(c: C.Channel, steps: seq<C.Step>)
    requires C.Valid(c, steps) && |steps| <= 1 && C.Close !in steps
    ensures C.After(c, steps).ends.closed == c.ends.closed
  {
    if |steps| == 1 {
      assert steps == [steps[0]];
      RunOne(c, steps[0]);
    }
  }

  lemma StepAfterOurDisconnect(s: Session, step: Step)
    requires Shape(s) && Last(s.phase) == Disconnected(Us) && Enabled(s, step)
    ensures var t := Apply(s, step);
            Last(t.phase) == Disconnected(Us) && t.polled == s.polled && t.up.ends.closed == s.up.ends.closed
  {
    ClosedOnlyByDisconnect(s.up, UpSteps(s, step));
  }

  /** After a `disconnect` that the client itself made, nothing is ever polled again. */
  lemma {:induction false} RunAfterOurDisconnect(s: Session, steps: seq<Step>)
    requires Inv(s) && Last(s.phase) == Disconnected(Us) && Valid(s, steps)
    ensures var t := After(s, steps);
            Last(t.phase) == Disconnected(Us) && t.polled == s.polled && t.up.ends.closed == s.up.ends.closed
    decreases |steps|
  {
    if steps != [] {
      StepAfterOurDisconnect(s, steps[0]);
      StepKeepsInv(s, steps[0]);
      RunAfterOurDisconnect(Apply(s, steps[0]), steps[1..]);
    }
  }

  /** What `disconnect` makes of the session. */
  lemma DisconnectMakes(s: Session)
    requires Inv(s) && !s.phase.Dropped?
    ensures Enabled(s, ClientDisconnects)
    ensures var t := Apply(s, ClientDisconnects);
            && Inv(t)
            && (s.phase.Disconnected? ==> t == s)
            && (!s.phase.Disconnected? ==> t.phase == Disconnected(Us))
            && (!s.phase.Disconnected? ==> (t.up.ends.closed <==> s.phase.Connected?))
  {
    ClientDisconnectsIs(s);
    StepKeepsInv(s, ClientDisconnects);
  }

  /** Some run from here gives the user an event. */
  ghost predicate MaySpeak(s: Session) {
    exists steps :: Valid(s, steps) && After(s, steps).polled != s.polled
  }

  lemma UntoldTimeoutMaySpeak(s: Session)
    requires Shape(s) && s.phase == Disconnected(ThePeerDidntEvenConnect(false))
    ensures MaySpeak(s)
  {
    ClientPollsKeepsShape(s);
    RunSessionStep(s, ClientPolls);
    assert Apply(s, ClientPolls).polled != s.polled;
  }

  lemma ToldOrQuitIsSilent(s: Session)
    requires Inv(s) && (s.phase == Disconnected(Us) || s.phase == Disconnected(ThePeerDidntEvenConnect(true)))
    ensures !MaySpeak(s)
  {
    forall steps | Valid(s, steps) ensures After(s, steps).polled == s.polled {
      if s.phase == Disconnected(Us) {
        RunAfterOurDisconnect(s, steps);
      } else {
        RunAfterToldTimeout(s, steps);
      }
    }
  }

  lemma DisconnectedPhases(s: Session)
    requires Inv(s) && s.phase.Disconnected?
    ensures Shape(s)
    ensures s.phase == Disconnected(Us) || s.phase.who.ThePeerDidntEvenConnect?
  {
  }

  /** A disconnected client has something to say only while a timeout is untold. */
  lemma MaySpeakIff(s: Session)
    requires Inv(s) && s.phase.Disconnected?
    ensures MaySpeak(s) <==> s.phase == Disconnected(ThePeerDidntEvenConnect(false))
  {
    DisconnectedPhases(s);
    if s.phase == Disconnected(ThePeerDidntEvenConnect(false)) {
      UntoldTimeoutMaySpeak(s);
    } else {
      ToldOrQuitIsSilent(s);
    }
  }

  /** A disconnect silences the client unless it had already noticed, and not told, that it timed out. */
  lemma DisconnectSilencesIff(s: Session)
    requires Reachable(s) && !s.phase.Dropped?
    ensures Enabled(s, ClientDisconnects)
    ensures MaySpeak(Apply(s, ClientDisconnects)) <==> s.phase == Disconnected(ThePeerDidntEvenConnect(false))
  {
    ReachableInv(s);
    DisconnectMakes(s);
    MaySpeakIff(Apply(s, ClientDisconnects));
  }

  lemma RunSessionStep(s: Session, step: Step)
    requires Enabled(s, step)
    ensures Valid(s, [step]) && After(s, [step]) == Apply(s, step)
  {
    assert [step][1..] == [];
  }

  lemma StepAfterToldTimeout(s: Session, step: Step)
    requires Last(s.phase) == Disconnected(ThePeerDidntEvenConnect(true)) && Enabled(s, step)
    ensures Last(Apply(s, step).phase) == Last(s.phase) && Apply(s, step).polled == s.polled
  {
  }

  lemma {:induction false} RunAfterToldTimeout(s: Session, steps: seq<Step>)
    requires Last(s.phase) == Disconnected(ThePeerDidntEvenConnect(true)) && Valid(s, steps)
    ensures After(s, steps).polled == s.polled
    decreases |steps|
  {
    if steps != [] {
      StepAfterToldTimeout(s, steps[0]);
      RunAfterToldTimeout(Apply(s, steps[0]), steps[1..]);
    }
  }

  // ---------------------------------------------------------------------------------------------
  // Failing to connect
  // ---------------------------------------------------------------------------------------------

  /** The task that connects panicked: the client waits for it, or was disconnected or dropped meanwhile. */
  ghost predicate Hopeless(s: Session) {
    || (s.phase.Connecting? && s.slot.Broken?)
    || s.phase == Dropped(Connecting)
    || (Last(s.phase) == Disconnected(Us) && s.polled == [])
  }

  lemma StepWhileHopeless(s: Session, step: Step)
    requires Shape(s) && Hopeless(s) && Enabled(s, step)
    ensures Hopeless(Apply(s, step)) && Apply(s, step).polled == []
  {
  }

  lemma {:induction false} RunWhileHopeless(s: Session, steps: seq<Step>)
    requires Inv(s) && Hopeless(s) && Valid(s, steps)
    ensures After(s, steps).polled == [] && After(s, steps).phase.Connected? == false
    decreases |steps|
  {
    if steps != [] {
      StepWhileHopeless(s, steps[0]);
      StepKeepsInv(s, steps[0]);
      RunWhileHopeless(Apply(s, steps[0]), steps[1..]);
    }
  }

  /** Some run from here tells the user that connecting failed. */
  ghost predicate MayTellFailure(s: Session) {
    exists steps :: Valid(s, steps) && FailedToConnect in After(s, steps).polled
  }

  lemma ReadyTimeoutIsTold(s: Session)
    requires Shape(s) && s.phase.Connecting? && s.slot == Ready(GotTimeout)
    ensures MayTellFailure(s)
  {
    ClientPollsKeepsShape(s);
    RunSessionStep(s, ClientPolls);
    assert Apply(s, ClientPolls).polled == [FailedToConnect];
  }

  lemma BrokenSlotIsNotTold(s: Session)
    requires Inv(s) && s.phase.Connecting? && s.slot.Broken?
    ensures !MayTellFailure(s)
  {
    forall steps | Valid(s, steps) ensures FailedToConnect !in After(s, steps).polled {
      RunWhileHopeless(s, steps);
    }
  }

  /**
   When connecting fails, the client can be told so exactly if the failure was a timeout. Any other
   error panics the connecting task, and the client stays as if it were still connecting.
   */
  lemma FailureIsToldIffTimedOut(s: Session, error: ConnectionError)
    requires Reachable(s) && s.phase.Connecting? && s.slot.Empty?
    ensures Enabled(s, HandshakeFails(error))
    ensures MayTellFailure(Apply(s, HandshakeFails(error))) <==> error.TimedOut?
  {
    ReachableInv(s);
    assert C.After(s.up, []) == s.up && C.After(s.down, []) == s.down;
    StepKeepsInv(s, HandshakeFails(error));
    if error.TimedOut? {
      ReadyTimeoutIsTold(Apply(s, HandshakeFails(error)));
    } else {
      BrokenSlotIsNotTold(Apply(s, HandshakeFails(error)));
    }
  }

  /** Nothing the client's user can do or be given before `disconnect`, or the end of the client. */
  predicate StaysOn(step: Step) {
    !step.ClientDisconnects? && !step.ClientDrops?
  }

  lemma StepWhileBroken(s: Session, step: Step)
    requires s.phase.Connecting? && s.slot.Broken? && Enabled(s, step) && StaysOn(step)
    ensures Apply(s, step).phase.Connecting? && Apply(s, step).slot.Broken?
  {
  }

  lemma {:induction false} RunWhileBroken(s: Session, steps: seq<Step>)
    requires s.phase.Connecting? && s.slot.Broken? && Valid(s, steps)
    requires forall k :: 0 <= k < |steps| ==> StaysOn(steps[k])
    ensures After(s, steps).phase.Connecting?
    decreases |steps|
  {
    if steps != [] {
      StepWhileBroken(s, steps[0]);
      RunWhileBroken(Apply(s, steps[0]), steps[1..]);
    }
  }

  lemma ConnectingMeansWaiting(s: Session, id: nat)
    requires Inv(s) && s.phase.Connecting? && id < |s.up.out.results|
    ensures s.up.out.results[id].Waiting?
  {
    O.AbandonSettlesAll(s.up.out, O.Quits, id);
  }

  /**
   And the handles know no better: once the connecting task panicked, every call made before and
   after is still being sent, in every run until the client disconnects or is dropped.
   */
  lemma BrokenClientKeepsWaiting(s: Session, steps: seq<Step>, id: nat)
    requires Reachable(s) && s.phase.Connecting? && s.slot.Broken? && Valid(s, steps)
    requires forall k :: 0 <= k < |steps| ==> StaysOn(steps[k])
    requires id < |After(s, steps).up.out.results|
    ensures After(s, steps).up.out.results[id].Waiting?
  {
    ReachableInv(s);
    RunWhileBroken(s, steps);
    RunKeepsInv(s, steps);
    ConnectingMeansWaiting(After(s, steps), id);
  }

  // ---------------------------------------------------------------------------------------------
  // Disconnecting
  // ---------------------------------------------------------------------------------------------

  lemma ReachablePhaseSays(s: Session)
    requires Reachable(s)
    ensures PhaseOut(s.phase, s.slot, s.barriers, s.up.out, s.up.ends)
  {
    ReachableInv(s);
  }

  /** In its whole life a client makes at most one barrier, and only when it closes a connection. */
  lemma AtMostOneBarrier(s: Session)
    requires Reachable(s)
    ensures s.barriers <= 1
    ensures s.barriers == 1 <==> s.up.ends.closed
  {
    ReachablePhaseSays(s);
    PhaseSays(s.phase, s.slot, s.barriers, s.up.out, s.up.ends);
  }

  /**
   So a client's own shutdown is that of a server with no more than one connection: one disconnect and
   one wait for every barrier it ever made come to their end on any number of workers, by local steps.
   */
  lemma ClientShutdownCompletes(s: Session, workers: nat, steps: seq<R.Step>)
    requires Reachable(s) && workers >= 1
    requires var r := R.Start(workers, s.barriers, R.DisconnectAll(0, s.barriers));
             R.Valid(r, steps) && R.AllLocal(steps)
    ensures var r := R.Start(workers, s.barriers, R.DisconnectAll(0, s.barriers));
            && (s.barriers == 1 ==> r.program == [R.Disconnect(0), R.Wait(0)])
            && |steps| <= R.Work(r) && !R.Stuck(R.After(r, steps))
  {
    AtMostOneBarrier(s);
    R.DisconnectAllThenWaitAllCompletes(workers, s.barriers, steps);
  }

  /**
   `disconnect` closes the connection exactly if an earlier call of the user had collected it. A
   connection that is ready but was never noticed is dropped without being closed, then and later.
   */
  lemma DisconnectClosesIffCollected(s: Session, steps: seq<Step>)
    requires Reachable(s) && !s.phase.Disconnected?
    requires Enabled(s, ClientDisconnects) && Valid(Apply(s, ClientDisconnects), steps)
    ensures After(Apply(s, ClientDisconnects), steps).up.ends.closed <==> s.phase.Connected?
  {
    ReachableInv(s);
    DisconnectMakes(s);
    RunAfterOurDisconnect(Apply(s, ClientDisconnects), steps);
  }

  /** So on that path the server's user is told of a disconnection only if the connection died. */
  lemma UncollectedDisconnectIsNotTold(s: Session, steps: seq<Step>)
    requires Reachable(s) && s.phase.Connecting?
    requires Enabled(s, ClientDisconnects) && Valid(Apply(s, ClientDisconnects), steps)
    ensures var t := After(Apply(s, ClientDisconnects), steps);
            (exists e :: e in t.up.inbox.enqueued && e.Disconnected?) ==> t.up.ends.lost
  {
    ReachableInv(s);
    StepKeepsInv(s, ClientDisconnects);
    RunKeepsInv(Apply(s, ClientDisconnects), steps);
    DisconnectClosesIffCollected(s, steps);
    var t := After(Apply(s, ClientDisconnects), steps);
    if e :| e in t.up.inbox.enqueued && e.Disconnected? {
      assert C.EventExcused(e, t.up);
    }
  }

  lemma StepAfterDrop(s: Session, step: Step)
    requires s.phase.Dropped? && Enabled(s, step)
    ensures var t := Apply(s, step);
            t.phase == s.phase && t.polled == s.polled && t.up.ends.closed == s.up.ends.closed
  {
    ClosedOnlyByDisconnect(s.up, UpSteps(s, step));
  }

  lemma {:induction false} RunAfterDrop(s: Session, steps: seq<Step>)
    requires s.phase.Dropped? && Valid(s, steps)
    ensures var t := After(s, steps);
            t.phase == s.phase && t.polled == s.polled && t.up.ends.closed == s.up.ends.closed
    decreases |steps|
  {
    if steps != [] {
      StepAfterDrop(s, steps[0]);
      RunAfterDrop(Apply(s, steps[0]), steps[1..]);
    }
  }

  lemma DropMakes(s: Session)
    requires Inv(s) && !s.phase.Dropped?
    ensures Enabled(s, ClientDrops)
    ensures var t := Apply(s, ClientDrops);
            && Inv(t) && t.phase == Dropped(s.phase)
            && t.polled == s.polled && t.up.ends.closed == s.up.ends.closed
  {
    ClientDropsIs(s);
    StepKeepsInv(s, ClientDrops);
  }

  /**
   Dropping the client closes nothing: its connection stays open, then and later, unless it had been
   closed, and the server's user is told of a disconnection only for that or if the connection dies.
   */
  lemma DropClosesNothing(s: Session, steps: seq<Step>)
    requires Reachable(s) && Enabled(s, ClientDrops) && Valid(Apply(s, ClientDrops), steps)
    ensures var t := After(Apply(s, ClientDrops), steps);
            && t.up.ends.closed == s.up.ends.closed
            && t.polled == s.polled
            && ((exists e :: e in t.up.inbox.enqueued && e.Disconnected?) ==> s.up.ends.closed || t.up.ends.lost)
  {
    ReachableInv(s);
    DropMakes(s);
    RunAfterDrop(Apply(s, ClientDrops), steps);
    RunKeepsInv(Apply(s, ClientDrops), steps);
    var t := After(Apply(s, ClientDrops), steps);
    if e :| e in t.up.inbox.enqueued && e.Disconnected? {
      assert C.EventExcused(e, t.up);
    }
  }

  /** How many steps of the client's send tasks a run has. */
  function SendTaskSteps(steps: seq<Step>): nat {
    if steps == [] then 0
    else (if steps[0].UpRuns? && steps[0].task.Out? then 1 else 0) + SendTaskSteps(steps[1..])
  }

  lemma OnlyTasksWorkOff(s: Session, step: Step)
    requires Last(s.phase).Disconnected? && Enabled(s, step)
    ensures Last(Apply(s, step).phase).Disconnected?
    ensures O.Remaining(Apply(s, step).up.out) + SendTaskSteps([step]) <= O.Remaining(s.up.out)
  {
    assert [step][1..] == [];
    if |UpSteps(s, step)| == 1 {
      assert UpSteps(s, step) == [UpSteps(s, step)[0]];
      RunOne(s.up, UpSteps(s, step)[0]);
    }
    if step.UpRuns? && step.task.Out? {
      O.TaskStepProgresses(s.up.out, step.task.out);
    }
  }

  lemma {:induction false} DisconnectedTasksAreFinite(s: Session, steps: seq<Step>)
    requires Last(s.phase).Disconnected? && Valid(s, steps)
    ensures Last(After(s, steps).phase).Disconnected?
    ensures O.Remaining(After(s, steps).up.out) + SendTaskSteps(steps) <= O.Remaining(s.up.out)
    decreases |steps|
  {
    if steps != [] {
      OnlyTasksWorkOff(s, steps[0]);
      DisconnectedTasksAreFinite(Apply(s, steps[0]), steps[1..]);
      assert SendTaskSteps([steps[0]][1..]) == 0;
    }
  }

  lemma StuckTasksAreDone(s: Session)
    requires Inv(s) && Last(s.phase).Disconnected? && D.TasksStuck(s.up)
    ensures forall i :: 0 <= i < |s.up.out.results| ==> !s.up.out.results[i].Waiting?
  {
    PhaseSays(s.phase, s.slot, s.barriers, s.up.out, s.up.ends);
    if s.up.ends.closed {
      D.StuckMeansDone(s.up);
    }
    O.NoTaskNoWaiting(s.up.out);
  }

  lemma DisconnectedComesToRest(s: Session, steps: seq<Step>)
    requires Inv(s) && Last(s.phase).Disconnected? && Valid(s, steps)
    ensures SendTaskSteps(steps) <= O.Remaining(s.up.out)
    ensures var t := After(s, steps);
            D.TasksStuck(t.up) ==> forall i :: 0 <= i < |t.up.out.results| ==> !t.up.out.results[i].Waiting?
  {
    DisconnectedTasksAreFinite(s, steps);
    RunKeepsInv(s, steps);
    if D.TasksStuck(After(s, steps).up) {
      StuckTasksAreDone(After(s, steps));
    }
  }

  lemma DisconnectEnds(s: Session)
    requires Reachable(s) && Enabled(s, ClientDisconnects)
    ensures Inv(Apply(s, ClientDisconnects)) && Last(Apply(s, ClientDisconnects).phase).Disconnected?
  {
    ReachableInv(s);
    DisconnectMakes(s);
  }

  /**
   After `disconnect`, in whatever phase, and whatever else goes on, the send tasks make finitely
   many steps; and when none can make one, every handle the client ever returned has its answer.
   */
  lemma DisconnectedClientComesToRest(s: Session, steps: seq<Step>)
    requires Reachable(s) && Enabled(s, ClientDisconnects) && Valid(Apply(s, ClientDisconnects), steps)
    ensures var (t, u) := (Apply(s, ClientDisconnects), After(Apply(s, ClientDisconnects), steps));
            && SendTaskSteps(steps) <= O.Remaining(t.up.out)
            && (D.TasksStuck(u.up) ==> forall i :: 0 <= i < |u.up.out.results| ==> !u.up.out.results[i].Waiting?)
  {
    DisconnectEnds(s);
    DisconnectedComesToRest(Apply(s, ClientDisconnects), steps);
  }

  // ---------------------------------------------------------------------------------------------
  // Blame
  // ---------------------------------------------------------------------------------------------

  lemma ReachableEndsMatch(s: Session)
    requires Reachable(s)
    ensures EndsMatch(s)
  {
    ReachableInv(s);
  }

  /**
   A client's handle says `WeClosed` only after the client's own disconnect, and blames the other
   end only for its part.
   */
  lemma ClientHandlesBlameTheRightEnd(s: Session, id: nat)
    requires Reachable(s)
    ensures D.ResolvesTo(s.up, id, WeClosed) ==> Last(s.phase) == Disconnected(Us)
    ensures D.ResolvesTo(s.up, id, PeerClosedOrDied) ==>
              || s.down.ends.closed || s.up.ends.lost
              || (Last(s.phase).Disconnected? && Last(s.phase).who.ThePeerDidntEvenConnect?)
  {
    ReachablePhaseSays(s);
    PhaseSays(s.phase, s.slot, s.barriers, s.up.out, s.up.ends);
    ReachableEndsMatch(s);
    DirectionsAreReachable(s);
    D.BlameIsSound(s.up, id);
  }

  /** A server's handle says `WeClosed` only after the server's disconnect. */
  lemma ServerHandlesBlameTheRightEnd(s: Session, id: nat)
    requires Reachable(s)
    ensures D.ResolvesTo(s.down, id, WeClosed) ==> s.down.ends.closed
    ensures D.ResolvesTo(s.down, id, PeerClosedOrDied) ==> s.up.ends.closed || s.down.ends.lost
  {
    ReachableEndsMatch(s);
    DirectionsAreReachable(s);
    D.BlameIsSound(s.down, id);
  }
}
