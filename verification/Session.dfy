/**
 A client, a server's side of the same connection, and the two directions between them, as one
 state machine: calls of the two users, steps of the tasks, and what the network does.
 */
module Sessions {
  import opened Options
  import opened Cloneless
  import opened Sending
  import O = Outboxes
  import I = Inboxes
  import C = Channels

  datatype WhoClosed =
    | Us
    | ThePeer
    | ThePeerDidntEvenConnect(failedToConnectEventAlreadyPolled: bool)

  /** What the client is, or was when the object was dropped. */
  datatype Phase =
    | Connecting
    | Connected(connectedEventAlreadyPolled: bool)
    | Disconnected(who: WhoClosed)
    | Dropped(was: Phase)

  /** What the client was last, dropped or not. */
  function Last(phase: Phase): Phase {
    if phase.Dropped? then phase.was else phase
  }

  datatype ConnectedOrTimeout = GotConnection | GotTimeout

  /**
   The one-shot channel from the task that connects: nothing yet, a value to collect, the sender
   gone without one, the value collected, or the client's end dropped.
   */
  datatype Slot = Empty | Ready(value: ConnectedOrTimeout) | Broken | Collected | Discarded

  datatype ClientEvent =
    | ConnectedEvent
    | MessageEvent(p: Parcel)
    | DisconnectedEvent(details: I.Details)
    | FailedToConnect

  datatype Session = Session(
    phase: Phase,
    slot: Slot,
    polled: seq<ClientEvent>,
    barriers: nat,
    attempting: bool,
    serverHas: bool,
    up: C.Channel,
    down: C.Channel)

  /** A client that starts to connect. `up` and `down` are what the server and the client can read. */
  function NewSession(up: C.Receiver, down: C.Receiver): Session {
    Session(Connecting, Empty, [], 0, true, false, C.EmptyChannel(up), C.EmptyChannel(down))
  }

  datatype Step =
    // calls of the client's user
    | ClientSends(body: Wire)
    | ClientPolls
    | ClientDisconnects
    | ClientDrops
    | ClientAsks(id: nat)
    // calls of the server's user
    | ServerSends(body: Wire)
    | ServerPolls
    | ServerDisconnects
    | ServerDrops
    | ServerAsks(id: nat)
    // the connection
    | HandshakeSucceeds
    | HandshakeFails(error: ConnectionError)
    | ServerAccepts
    | ConnectionDies
    // tasks of either side
    | UpRuns(task: C.Step)
    | DownRuns(task: C.Step)

  function FromServer(e: I.StreamEvent): ClientEvent {
    match e
    case Message(p) => MessageEvent(p)
    case Disconnected(details) => DisconnectedEvent(details)
  }

  function AllFromServer(events: seq<I.StreamEvent>): (r: seq<ClientEvent>)
    ensures |r| == |events|
    ensures forall k :: 0 <= k < |events| ==> r[k] == FromServer(events[k])
    ensures forall k, p :: 0 <= k < |events| ==> (r[k] == MessageEvent(p) <==> events[k] == I.Message(p))
    ensures forall k, d :: 0 <= k < |events| ==> (r[k] == DisconnectedEvent(d) <==> events[k] == I.Disconnected(d))
  {
    if events == [] then []
    else AllFromServer(events[..|events| - 1]) + [FromServer(events[|events| - 1])]
  }

  predicate IsTask(step: C.Step) {
    match step
    case Out(s) => O.IsTaskStep(s)
    case In(s) => s.AcceptOk? || s.AcceptFails? || s.ReadOk? || s.ReadFails? || s.ReadPanics?
    case StreamVanishes(_) => true
    case _ => false
  }

  // ---------------------------------------------------------------------------------------------
  // What each step does
  // ---------------------------------------------------------------------------------------------

  /** `connect_if_possible`: the phase, and the slot, after the user's call noticed the slot. */
  function Noticed(phase: Phase, slot: Slot): (Phase, Slot) {
    if phase.Connecting? && slot.Ready? then
      (if slot.value.GotConnection? then Connected(false) else Disconnected(ThePeerDidntEvenConnect(false)),
       Collected)
    else (phase, slot)
  }

  /** What noticing does to the buffered messages: all are spawned, or all are dropped. */
  function NoticeSteps(phase: Phase, slot: Slot): seq<C.Step> {
    if phase.Connecting? && slot.Ready? then
      if slot.value.GotConnection? then [C.Out(O.Flush)] else [C.Out(O.Abandon(O.TimesOut))]
    else []
  }

  function SendStep(phase: Phase, body: Wire): C.Step
    requires !phase.Dropped?
  {
    match phase
    case Connecting => C.Out(O.Buffer(body))
    case Connected(_) => C.Out(O.Spawn(body))
    case Disconnected(who) => C.Out(O.Refuse(body, if who.Us? then WeClosed else PeerClosedOrDied))
  }

  /** The steps of the client-to-server direction in a step of the session. */
  function UpSteps(s: Session, step: Step): seq<C.Step> {
    match step
    case ClientSends(body) =>
      if s.phase.Dropped? then []
      else NoticeSteps(s.phase, s.slot) + [SendStep(Noticed(s.phase, s.slot).0, body)]
    case ClientPolls => NoticeSteps(s.phase, s.slot)
    case ClientDisconnects =>
      (match s.phase
       case Connecting => [C.Out(O.Abandon(O.Quits))]
       case Connected(_) => [C.Close, C.Out(O.Retire)]
       case _ => [])
    case ClientDrops =>
      (match s.phase
       case Connecting => [C.Out(O.Abandon(O.IsDropped))]
       case Connected(_) => [C.Out(O.Retire)]
       case _ => [])
    case ClientAsks(id) => [C.Out(O.Ask(id))]
    case ServerPolls => [C.In(I.Poll)]
    case ServerDisconnects => [C.PeerCloses]
    case ServerDrops => [C.In(I.DropReceiver)]
    case ServerAccepts => [C.In(I.Listen)]
    case ConnectionDies => [C.ConnectionDies]
    case UpRuns(task) => [task]
    case _ => []
  }

  /** The steps of the server-to-client direction in a step of the session. */
  function DownSteps(s: Session, step: Step): seq<C.Step> {
    match step
    case ClientPolls =>
      if Noticed(s.phase, s.slot).0 == Connected(true) then [C.In(I.Poll)] else []
    case ClientDisconnects =>
      (match s.phase
       case Connecting => [C.In(I.DropReceiver)]
       case Connected(_) => [C.PeerCloses, C.In(I.DropReceiver)]
       case _ => [])
    case ClientDrops => if s.phase.Connecting? || s.phase.Connected? then [C.In(I.DropReceiver)] else []
    case ServerSends(body) => [C.Out(O.Spawn(body))]
    case ServerDisconnects => [C.Close]
    case ServerAsks(id) => [C.Out(O.Ask(id))]
    case HandshakeSucceeds => [C.In(I.Listen)]
    case ConnectionDies => [C.ConnectionDies]
    case DownRuns(task) => [task]
    case _ => []
  }

  /** What the client's poll returns. */
  function PollAnswer(s: Session): Option<ClientEvent> {
    match Noticed(s.phase, s.slot).0
    case Connecting => None
    case Connected(false) => Some(ConnectedEvent)
    case Connected(true) =>
      if s.down.inbox.queue == [] then None else Some(FromServer(s.down.inbox.queue[0]))
    case Disconnected(ThePeerDidntEvenConnect(false)) => Some(FailedToConnect)
    case Disconnected(_) => None
    case Dropped(_) => None
  }

  /** The session with both directions put aside. */
  function ApplyRest(s: Session, step: Step): Session {
    match step
    case ClientSends(_) =>
      var (phase, slot) := Noticed(s.phase, s.slot);
      s.(phase := phase, slot := slot)
    case ClientPolls =>
      var (phase, slot) := Noticed(s.phase, s.slot);
      s.(phase := match phase
                  case Connected(_) => Connected(true)
                  case Disconnected(ThePeerDidntEvenConnect(_)) => Disconnected(ThePeerDidntEvenConnect(true))
                  case other => other,
         slot := slot,
         polled := if PollAnswer(s).Some? then s.polled + [PollAnswer(s).value] else s.polled)
    case ClientDisconnects =>
      (match s.phase
       case Connecting => s.(phase := Disconnected(Us), slot := Discarded)
       case Connected(_) => s.(phase := Disconnected(Us), barriers := s.barriers + 1)
       case _ => s)
    case ClientDrops => s.(phase := Dropped(s.phase), slot := if s.phase.Connecting? then Discarded else s.slot)
    case HandshakeSucceeds =>
      s.(attempting := false, slot := if s.slot.Empty? then Ready(GotConnection) else s.slot)
    case HandshakeFails(error) =>
      s.(attempting := false,
         slot := if !s.slot.Empty? then s.slot else if error.TimedOut? then Ready(GotTimeout) else Broken)
    case ServerAccepts => s.(serverHas := true)
    case _ => s
  }

  ghost predicate Enabled(s: Session, step: Step) {
    && C.Valid(s.up, UpSteps(s, step))
    && C.Valid(s.down, DownSteps(s, step))
    && match step
       case ClientSends(_) => !s.phase.Dropped?
       case ClientPolls => !s.phase.Dropped?
       case ClientDisconnects => !s.phase.Dropped?
       case ClientDrops => !s.phase.Dropped?
       case ServerSends(_) => s.serverHas && s.up.inbox.receiverAlive
       case ServerPolls => s.serverHas && s.up.inbox.receiverAlive
       case ServerDisconnects => s.serverHas && s.up.inbox.receiverAlive
       case ServerDrops => s.serverHas && s.up.inbox.receiverAlive
       case ServerAsks(_) => s.serverHas
       case HandshakeSucceeds => s.attempting
       case HandshakeFails(_) => s.attempting
       case ServerAccepts => !s.serverHas
       case UpRuns(task) => IsTask(task)
       case DownRuns(task) => IsTask(task)
       case _ => true
  }

  ghost function Apply(s: Session, step: Step): Session
    requires Enabled(s, step)
  {
    ApplyRest(s, step).(up := C.After(s.up, UpSteps(s, step)), down := C.After(s.down, DownSteps(s, step)))
  }

  ghost predicate Valid(s: Session, steps: seq<Step>)
    decreases |steps|
  {
    steps == [] || (Enabled(s, steps[0]) && Valid(Apply(s, steps[0]), steps[1..]))
  }

  ghost function After(s: Session, steps: seq<Step>): Session
    requires Valid(s, steps)
    decreases |steps|
  {
    if steps == [] then s else After(Apply(s, steps[0]), steps[1..])
  }

  // ---------------------------------------------------------------------------------------------
  // Invariant
  // ---------------------------------------------------------------------------------------------

  ghost predicate NoTasks(o: O.Outbox) {
    o.opening == [] && o.writing == [] && o.stopping == []
  }

  /** What the two directions know of the same ends. */
  ghost predicate EndsMatch(s: Session) {
    && s.down.ends.peerClosed == s.up.ends.closed
    && s.up.ends.peerClosed == s.down.ends.closed
    && s.up.ends.lost == s.down.ends.lost
    && !s.down.ends.unreachable && !s.down.ends.dropped
    && s.down.ends.quit == s.down.ends.closed
    && !s.down.out.retired && s.down.out.pending == []
    && (s.attempting ==> s.down.inbox.loop.NotStarted?)
    && (!s.serverHas ==> s.up.inbox.loop.NotStarted?)
    && (s.slot == Empty ==> s.attempting)
  }

  ghost predicate NeverSent(o: O.Outbox) {
    o.spawned == [] && NoTasks(o)
  }

  ghost predicate NotQuit(ends: C.Ends, barriers: nat) {
    !ends.quit && !ends.closed && barriers == 0
  }

  /** What the client's own disconnect, and a noticed timeout, leave of its direction. */
  ghost predicate AfterQuit(slot: Slot, barriers: nat, o: O.Outbox, ends: C.Ends) {
    && (slot.Collected? || slot.Discarded?)
    && o.retired && ends.quit && !ends.unreachable && !ends.dropped
    && barriers == (if ends.closed then 1 else 0)
    && (!ends.closed ==> NeverSent(o))
  }

  ghost predicate AfterTimeout(slot: Slot, barriers: nat, o: O.Outbox, ends: C.Ends) {
    slot.Collected? && o.retired && NeverSent(o) && NotQuit(ends, barriers) && ends.unreachable && !ends.dropped
  }

  /** What each phase of the client means for its own direction. */
  ghost predicate PhaseOut(phase: Phase, slot: Slot, barriers: nat, o: O.Outbox, ends: C.Ends) {
    match phase
    case Connecting =>
      && (slot.Empty? || slot.Ready? || slot.Broken?)
      && !o.retired && NeverSent(o) && NotQuit(ends, barriers) && !ends.unreachable && !ends.dropped
    case Connected(_) =>
      && slot.Collected?
      && !o.retired && o.pending == [] && NotQuit(ends, barriers) && !ends.unreachable && !ends.dropped
    case Disconnected(Us) => AfterQuit(slot, barriers, o, ends)
    case Disconnected(ThePeerDidntEvenConnect(_)) => AfterTimeout(slot, barriers, o, ends)
    case Dropped(Connecting) =>
      slot.Discarded? && o.retired && NeverSent(o) && NotQuit(ends, barriers) && !ends.unreachable && ends.dropped
    case Dropped(Connected(_)) =>
      slot.Collected? && o.retired && NotQuit(ends, barriers) && !ends.unreachable && !ends.dropped
    case Dropped(Disconnected(Us)) => AfterQuit(slot, barriers, o, ends)
    case Dropped(Disconnected(ThePeerDidntEvenConnect(_))) => AfterTimeout(slot, barriers, o, ends)
    case _ => false
  }

  ghost predicate PolledAll(polled: seq<ClientEvent>, drained: seq<I.StreamEvent>) {
    polled == [ConnectedEvent] + AllFromServer(drained)
  }

  /** What each phase means for what the user has polled. */
  ghost predicate PhaseIn(phase: Phase, polled: seq<ClientEvent>, drained: seq<I.StreamEvent>, alive: bool) {
    match phase
    case Connecting => polled == [] && drained == [] && alive
    case Connected(told) => (if told then PolledAll(polled, drained) else polled == [] && drained == []) && alive
    case Disconnected(Us) => !alive && (PolledAll(polled, drained) || (polled == [] && drained == []))
    case Disconnected(ThePeerDidntEvenConnect(told)) =>
      polled == (if told then [FailedToConnect] else []) && drained == []
    case Dropped(Connecting) => polled == [] && drained == [] && !alive
    case Dropped(Connected(told)) =>
      (if told then PolledAll(polled, drained) else polled == [] && drained == []) && !alive
    case Dropped(Disconnected(Us)) => !alive && (PolledAll(polled, drained) || (polled == [] && drained == []))
    case Dropped(Disconnected(ThePeerDidntEvenConnect(told))) =>
      polled == (if told then [FailedToConnect] else []) && drained == []
    case _ => false
  }

  /** What the phase says of barriers and ends. */
  lemma PhaseSays(phase: Phase, slot: Slot, barriers: nat, o: O.Outbox, ends: C.Ends)
    requires PhaseOut(phase, slot, barriers, o, ends)
    ensures barriers <= 1 && (barriers == 1 <==> ends.closed)
    ensures ends.quit ==> Last(phase) == Disconnected(Us)
    ensures ends.unreachable ==> Last(phase).Disconnected? && Last(phase).who.ThePeerDidntEvenConnect?
    ensures Last(phase).Disconnected? && !ends.closed ==> NeverSent(o)
    ensures Last(phase).Disconnected? ==> o.retired
  {
  }

  ghost predicate Shape(s: Session) {
    && EndsMatch(s)
    && PhaseOut(s.phase, s.slot, s.barriers, s.up.out, s.up.ends)
    && PhaseIn(s.phase, s.polled, s.down.inbox.drained, s.down.inbox.receiverAlive)
  }

  ghost predicate Inv(s: Session) {
    C.Inv(s.up) && C.Inv(s.down) && Shape(s)
  }

  lemma RunOne(c: C.Channel, x: C.Step)
    requires C.Enabled(c, x)
    ensures C.Valid(c, [x]) && C.After(c, [x]) == C.Apply(c, x)
  {
    C.StepThenRun(c, x, []);
    assert [x] + [] == [x];
  }

  lemma RunTwo(c: C.Channel, x: C.Step, y: C.Step)
    requires C.Enabled(c, x) && C.Enabled(C.Apply(c, x), y)
    ensures C.Valid(c, [x, y]) && C.After(c, [x, y]) == C.Apply(C.Apply(c, x), y)
  {
    RunOne(C.Apply(c, x), y);
    C.StepThenRun(c, x, [y]);
    assert [x] + [y] == [x, y];
  }

  lemma TaskRuns(c: C.Channel, task: C.Step)
    requires C.Valid(c, [task]) && IsTask(task)
    ensures var d := C.After(c, [task]);
            && d == C.Apply(c, task)
            && d.ends == c.ends
            && d.out.sent == c.out.sent && d.out.spawned == c.out.spawned && d.out.pending == c.out.pending
            && d.out.retired == c.out.retired
            && d.inbox.drained == c.inbox.drained && d.inbox.receiverAlive == c.inbox.receiverAlive
            && (c.inbox.loop.NotStarted? ==> d.inbox.loop.NotStarted?)
            && (NoTasks(c.out) ==> NoTasks(d.out))
  {
    assert C.After(C.Apply(c, task), [task][1..]) == C.Apply(c, task);
  }

  /** What the shape of a session depends on, besides `EndsMatch`, did not change for the client. */
  ghost predicate SameForClient(s: Session, t: Session) {
    && t.phase == s.phase && t.slot == s.slot && t.polled == s.polled && t.barriers == s.barriers
    && t.up.out.retired == s.up.out.retired
    && t.up.out.spawned == s.up.out.spawned && t.up.out.pending == s.up.out.pending
    && (NoTasks(s.up.out) ==> NoTasks(t.up.out))
    && t.up.ends.(peerClosed := false, lost := false) == s.up.ends.(peerClosed := false, lost := false)
    && t.down.inbox.drained == s.down.inbox.drained
    && t.down.inbox.receiverAlive == s.down.inbox.receiverAlive
  }

  lemma SameForClientKeepsShape(s: Session, t: Session)
    requires Shape(s) && SameForClient(s, t) && EndsMatch(t)
    ensures Shape(t)
  {
  }

  lemma UpTaskKeepsShape(s: Session, task: C.Step)
    requires Shape(s) && Enabled(s, UpRuns(task))
    ensures Shape(Apply(s, UpRuns(task)))
  {
    TaskRuns(s.up, task);
    assert C.After(s.down, []) == s.down;
    SameForClientKeepsShape(s, Apply(s, UpRuns(task)));
  }

  lemma DownTaskKeepsShape(s: Session, task: C.Step)
    requires Shape(s) && Enabled(s, DownRuns(task))
    ensures Shape(Apply(s, DownRuns(task)))
  {
    TaskRuns(s.down, task);
    assert C.After(s.up, []) == s.up;
    SameForClientKeepsShape(s, Apply(s, DownRuns(task)));
  }

  // Noticing, as a step of its own

  ghost function NoticedSession(s: Session): Session
    requires C.Valid(s.up, NoticeSteps(s.phase, s.slot))
  {
    var (phase, slot) := Noticed(s.phase, s.slot);
    s.(phase := phase, slot := slot, up := C.After(s.up, NoticeSteps(s.phase, s.slot)))
  }

  lemma NoticeKeepsShape(s: Session)
    requires Shape(s)
    ensures C.Valid(s.up, NoticeSteps(s.phase, s.slot)) && Shape(NoticedSession(s))
  {
    if s.phase.Connecting? && s.slot.Ready? {
      RunOne(s.up, NoticeSteps(s.phase, s.slot)[0]);
    } else {
      assert C.After(s.up, []) == s.up;
    }
  }

  /** Noticing, spelled out. */
  lemma NoticedIs(s: Session)
    requires Shape(s)
    ensures C.Valid(s.up, NoticeSteps(s.phase, s.slot))
    ensures NoticedSession(s) ==
            if s.phase.Connecting? && s.slot == Ready(GotConnection) then
              s.(phase := Connected(false), slot := Collected, up := C.Apply(s.up, C.Out(O.Flush)))
            else if s.phase.Connecting? && s.slot == Ready(GotTimeout) then
              s.(phase := Disconnected(ThePeerDidntEvenConnect(false)), slot := Collected,
                 up := C.Apply(s.up, C.Out(O.Abandon(O.TimesOut))))
            else s
  {
    if s.phase.Connecting? && s.slot.Ready? {
      RunOne(s.up, NoticeSteps(s.phase, s.slot)[0]);
    } else {
      assert C.After(s.up, []) == s.up;
    }
  }

  lemma SendKeepsShape(s: Session, body: Wire)
    requires Shape(s) && !s.phase.Dropped? && (s.phase.Connecting? ==> !s.slot.Ready?)
    ensures C.Enabled(s.up, SendStep(s.phase, body))
    ensures Shape(s.(up := C.Apply(s.up, SendStep(s.phase, body))))
  {
  }

  lemma SendStepRecords(phase: Phase, c: C.Channel, body: Wire)
    requires !phase.Dropped? && C.Enabled(c, SendStep(phase, body))
    ensures C.Apply(c, SendStep(phase, body)).out.sent == c.out.sent + [Parcel(|c.out.sent|, body)]
  {
  }

  lemma NoticingSendsNothing(s: Session)
    requires C.Valid(s.up, NoticeSteps(s.phase, s.slot))
    ensures NoticedSession(s).up.out.sent == s.up.out.sent
  {
    if s.phase.Connecting? && s.slot.Ready? {
      RunOne(s.up, NoticeSteps(s.phase, s.slot)[0]);
    } else {
      assert C.After(s.up, []) == s.up;
    }
  }

  /** A send is noticing, then one step of the client's own direction. */
  lemma ClientSendsIs(s: Session, body: Wire)
    requires Shape(s) && !s.phase.Dropped?
    ensures C.Valid(s.up, NoticeSteps(s.phase, s.slot)) && Shape(NoticedSession(s))
    ensures var s1 := NoticedSession(s);
            && !s1.phase.Dropped?
            && C.Enabled(s1.up, SendStep(s1.phase, body))
            && Enabled(s, ClientSends(body))
            && Apply(s, ClientSends(body)) == s1.(up := C.Apply(s1.up, SendStep(s1.phase, body)))
    ensures C.Apply(NoticedSession(s).up, SendStep(NoticedSession(s).phase, body)).out.sent
         == s.up.out.sent + [Parcel(|s.up.out.sent|, body)]
  {
    NoticeKeepsShape(s);
    var s1 := NoticedSession(s);
    var x := SendStep(s1.phase, body);
    SendKeepsShape(s1, body);
    NoticingSendsNothing(s);
    SendStepRecords(s1.phase, s1.up, body);
    RunOne(s1.up, x);
    C.RunThenRun(s.up, NoticeSteps(s.phase, s.slot), [x]);
    assert C.After(s.down, []) == s.down;
  }

  lemma ClientSendsKeepsShape(s: Session, body: Wire)
    requires Shape(s) && !s.phase.Dropped?
    ensures Enabled(s, ClientSends(body)) && Shape(Apply(s, ClientSends(body)))
  {
    ClientSendsIs(s, body);
    SendKeepsShape(NoticedSession(s), body);
  }

  lemma FromServerPushed(events: seq<I.StreamEvent>, e: I.StreamEvent)
    ensures AllFromServer(events + [e]) == AllFromServer(events) + [FromServer(e)]
  {
    assert (events + [e])[..|events|] == events;
  }

  /** A poll of a client that has nothing to notice, with the run of the direction spelled out. */
  function HandedOver(s: Session): Session
    requires s.phase.Connecting? ==> !s.slot.Ready?
    requires s.phase == Connected(true) ==> s.down.inbox.receiverAlive
  {
    ApplyRest(s, ClientPolls).(
      down := if s.phase == Connected(true) then C.Apply(s.down, C.In(I.Poll)) else s.down)
  }

  /** A poll is noticing, then handing over one event. */
  lemma ClientPollsIs(s: Session)
    requires Shape(s) && !s.phase.Dropped?
    ensures C.Valid(s.up, NoticeSteps(s.phase, s.slot)) && Shape(NoticedSession(s))
    ensures Enabled(s, ClientPolls) && Apply(s, ClientPolls) == HandedOver(NoticedSession(s))
    ensures s.phase == Connected(true) && s.down.inbox.queue != [] ==>
              PollAnswer(s) == Some(match s.down.inbox.queue[0]
                                    case Message(p) => MessageEvent(p)
                                    case Disconnected(details) => DisconnectedEvent(details))
  {
    NoticeKeepsShape(s);
    if s.phase == Connected(true) {
      RunOne(s.down, C.In(I.Poll));
    } else {
      assert C.After(s.down, []) == s.down;
    }
  }

  lemma QueuedEventKeepsShape(s: Session)
    requires Shape(s) && s.phase == Connected(true) && s.down.inbox.queue != []
    ensures Shape(HandedOver(s))
  {
    var d, e := s.down.inbox.drained, s.down.inbox.queue[0];
    FromServerPushed(d, e);
    assert PolledAll(HandedOver(s).polled, d + [e]);
  }

  lemma HandingOverKeepsShape(s: Session)
    requires Shape(s) && (s.phase.Connecting? ==> !s.slot.Ready?)
    ensures Shape(HandedOver(s))
  {
    if s.phase == Connected(true) && s.down.inbox.queue != [] {
      QueuedEventKeepsShape(s);
    }
  }

  lemma ClientPollsKeepsShape(s: Session)
    requires Shape(s) && !s.phase.Dropped?
    ensures Enabled(s, ClientPolls) && Shape(Apply(s, ClientPolls))
  {
    ClientPollsIs(s);
    HandingOverKeepsShape(NoticedSession(s));
  }

  /** A `disconnect`, with the runs of both directions spelled out. */
  function HungUp(s: Session): Session
    requires s.phase.Connecting? ==> !s.up.out.retired
    requires s.phase.Connected? ==> s.up.out.pending == []
  {
    ApplyRest(s, ClientDisconnects).(
      up := match s.phase
            case Connecting => C.Apply(s.up, C.Out(O.Abandon(O.Quits)))
            case Connected(_) => C.Apply(C.Apply(s.up, C.Close), C.Out(O.Retire))
            case _ => s.up,
      down := match s.phase
              case Connecting => C.Apply(s.down, C.In(I.DropReceiver))
              case Connected(_) => C.Apply(C.Apply(s.down, C.PeerCloses), C.In(I.DropReceiver))
              case _ => s.down)
  }

  lemma ClientDisconnectsIs(s: Session)
    requires Shape(s) && !s.phase.Dropped?
    ensures Enabled(s, ClientDisconnects) && Apply(s, ClientDisconnects) == HungUp(s)
  {
    match s.phase
    case Connecting =>
      RunOne(s.up, C.Out(O.Abandon(O.Quits)));
      RunOne(s.down, C.In(I.DropReceiver));
    case Connected(_) =>
      RunTwo(s.up, C.Close, C.Out(O.Retire));
      RunTwo(s.down, C.PeerCloses, C.In(I.DropReceiver));
    case Disconnected(_) => assert C.After(s.up, []) == s.up && C.After(s.down, []) == s.down;
  }

  lemma ClientDisconnectsKeepsShape(s: Session)
    requires Shape(s) && !s.phase.Dropped?
    ensures Enabled(s, ClientDisconnects) && Shape(Apply(s, ClientDisconnects))
  {
    ClientDisconnectsIs(s);
  }

  /** The client object goes away, with the runs of both directions spelled out. */
  function LetGo(s: Session): Session
    requires s.phase.Connecting? ==> !s.up.out.retired
    requires s.phase.Connected? ==> s.up.out.pending == []
  {
    ApplyRest(s, ClientDrops).(
      up := match s.phase
            case Connecting => C.Apply(s.up, C.Out(O.Abandon(O.IsDropped)))
            case Connected(_) => C.Apply(s.up, C.Out(O.Retire))
            case _ => s.up,
      down := if s.phase.Connecting? || s.phase.Connected? then C.Apply(s.down, C.In(I.DropReceiver)) else s.down)
  }

  lemma ClientDropsIs(s: Session)
    requires Shape(s) && !s.phase.Dropped?
    ensures Enabled(s, ClientDrops) && Apply(s, ClientDrops) == LetGo(s)
  {
    match s.phase
    case Connecting =>
      RunOne(s.up, C.Out(O.Abandon(O.IsDropped)));
      RunOne(s.down, C.In(I.DropReceiver));
    case Connected(_) =>
      RunOne(s.up, C.Out(O.Retire));
      RunOne(s.down, C.In(I.DropReceiver));
    case Disconnected(_) => assert C.After(s.up, []) == s.up && C.After(s.down, []) == s.down;
  }

  lemma ClientDropsKeepsShape(s: Session)
    requires Shape(s) && !s.phase.Dropped?
    ensures Enabled(s, ClientDrops) && Shape(Apply(s, ClientDrops))
  {
    ClientDropsIs(s);
  }

  lemma UpCallKeepsShape(s: Session, step: Step)
    requires Shape(s) && Enabled(s, step) && (step.ServerPolls? || step.ServerDrops? || step.ClientAsks?)
    ensures Shape(Apply(s, step))
  {
    RunOne(s.up, UpSteps(s, step)[0]);
    assert C.After(s.down, []) == s.down;
    SameForClientKeepsShape(s, Apply(s, step));
  }

  lemma DownCallKeepsShape(s: Session, step: Step)
    requires Shape(s) && Enabled(s, step) && (step.ServerSends? || step.ServerAsks?)
    ensures Shape(Apply(s, step))
  {
    RunOne(s.down, DownSteps(s, step)[0]);
    assert C.After(s.up, []) == s.up;
    SameForClientKeepsShape(s, Apply(s, step));
  }

  lemma ServerDisconnectsKeepsShape(s: Session)
    requires Shape(s) && Enabled(s, ServerDisconnects)
    ensures Shape(Apply(s, ServerDisconnects))
  {
    RunOne(s.up, C.PeerCloses);
    RunOne(s.down, C.Close);
    SameForClientKeepsShape(s, Apply(s, ServerDisconnects));
  }

  /** The calls of the server, with the runs of both directions spelled out. */
  lemma ServerSendsIs(s: Session, body: Wire)
    requires Shape(s) && s.serverHas && s.up.inbox.receiverAlive
    ensures Enabled(s, ServerSends(body)) && Shape(Apply(s, ServerSends(body)))
    ensures Apply(s, ServerSends(body)) == s.(down := C.Apply(s.down, C.Out(O.Spawn(body))))
  {
    RunOne(s.down, C.Out(O.Spawn(body)));
    assert C.After(s.up, []) == s.up;
    DownCallKeepsShape(s, ServerSends(body));
  }

  lemma ServerPollsIs(s: Session)
    requires Shape(s) && s.serverHas && s.up.inbox.receiverAlive
    ensures Enabled(s, ServerPolls) && Shape(Apply(s, ServerPolls))
    ensures Apply(s, ServerPolls) == s.(up := C.Apply(s.up, C.In(I.Poll)))
  {
    RunOne(s.up, C.In(I.Poll));
    assert C.After(s.down, []) == s.down;
    UpCallKeepsShape(s, ServerPolls);
  }

  lemma ServerDisconnectsIs(s: Session)
    requires Shape(s) && s.serverHas && s.up.inbox.receiverAlive
    ensures Enabled(s, ServerDisconnects) && Shape(Apply(s, ServerDisconnects))
    ensures Apply(s, ServerDisconnects) == s.(up := C.Apply(s.up, C.PeerCloses), down := C.Apply(s.down, C.Close))
  {
    RunOne(s.up, C.PeerCloses);
    RunOne(s.down, C.Close);
    ServerDisconnectsKeepsShape(s);
  }

  lemma SlotKeepsShape(s: Session, t: Session)
    requires Shape(s) && EndsMatch(t)
    requires t.slot.Ready? || t.slot.Broken?
    requires s.slot.Empty? && SameForClient(s.(slot := t.slot), t)
    ensures Shape(t)
  {
  }

  lemma HandshakeSucceedsKeepsShape(s: Session)
    requires Shape(s) && Enabled(s, HandshakeSucceeds)
    ensures Shape(Apply(s, HandshakeSucceeds))
  {
    RunOne(s.down, C.In(I.Listen));
    assert C.After(s.up, []) == s.up;
    SlotOrNotKeepsShape(s, Apply(s, HandshakeSucceeds));
  }

  lemma HandshakeFailsKeepsShape(s: Session, error: ConnectionError)
    requires Shape(s) && Enabled(s, HandshakeFails(error))
    ensures Shape(Apply(s, HandshakeFails(error)))
  {
    assert C.After(s.up, []) == s.up && C.After(s.down, []) == s.down;
    SlotOrNotKeepsShape(s, Apply(s, HandshakeFails(error)));
  }

  lemma SlotOrNotKeepsShape(s: Session, t: Session)
    requires Shape(s) && EndsMatch(t)
    requires if s.slot.Empty? then t.slot.Ready? || t.slot.Broken? else t.slot == s.slot
    requires SameForClient(s.(slot := t.slot), t)
    ensures Shape(t)
  {
    if s.slot.Empty? {
      SlotKeepsShape(s, t);
    } else {
      SameForClientKeepsShape(s, t);
    }
  }

  lemma NetworkKeepsShape(s: Session, step: Step)
    requires Shape(s) && Enabled(s, step) && (step.ServerAccepts? || step.ConnectionDies?)
    ensures Shape(Apply(s, step))
  {
    RunOne(s.up, UpSteps(s, step)[0]);
    if step.ConnectionDies? {
      RunOne(s.down, C.ConnectionDies);
    }
    SameForClientKeepsShape(s, Apply(s, step));
  }

  lemma StepKeepsShape(s: Session, step: Step)
    requires Shape(s) && Enabled(s, step)
    ensures Shape(Apply(s, step))
  {
    match step
    case ClientSends(body) => ClientSendsKeepsShape(s, body);
    case ClientPolls => ClientPollsKeepsShape(s);
    case ClientDisconnects => ClientDisconnectsKeepsShape(s);
    case ClientDrops => ClientDropsKeepsShape(s);
    case UpRuns(task) => UpTaskKeepsShape(s, task);
    case DownRuns(task) => DownTaskKeepsShape(s, task);
    case HandshakeSucceeds => HandshakeSucceedsKeepsShape(s);
    case HandshakeFails(error) => HandshakeFailsKeepsShape(s, error);
    case ServerAccepts => NetworkKeepsShape(s, step);
    case ConnectionDies => NetworkKeepsShape(s, step);
    case ServerSends(_) => DownCallKeepsShape(s, step);
    case ServerAsks(_) => DownCallKeepsShape(s, step);
    case ServerDisconnects => ServerDisconnectsKeepsShape(s);
    case _ => UpCallKeepsShape(s, step);
  }

  lemma StepKeepsInv(s: Session, step: Step)
    requires Inv(s) && Enabled(s, step)
    ensures Inv(Apply(s, step))
  {
    C.RunKeepsInv(s.up, UpSteps(s, step));
    C.RunKeepsInv(s.down, DownSteps(s, step));
    StepKeepsShape(s, step);
  }

  lemma {:induction false} RunKeepsInv(s: Session, steps: seq<Step>)
    requires Inv(s) && Valid(s, steps)
    ensures Inv(After(s, steps))
    decreases |steps|
  {
    if steps != [] {
      StepKeepsInv(s, steps[0]);
      RunKeepsInv(Apply(s, steps[0]), steps[1..]);
    }
  }

  lemma NewSessionInv(up: C.Receiver, down: C.Receiver)
    ensures Inv(NewSession(up, down))
  {
    C.EmptyChannelInv(up);
    C.EmptyChannelInv(down);
  }
}
