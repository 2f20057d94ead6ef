/** Why handles say `Error`, told by what happened to the client, the server and their connection. */
module Answers {
  import opened Cloneless
  import opened Sending
  import opened Sessions
  import O = Outboxes
  import C = Channels
  import V = Verdicts

  /** The reason, if any, that a step of the session gives a call of the client. */
  function ClientReason(s: Session, step: Step, p: Parcel): seq<V.Reason> {
    match step
    case UpRuns(task) => V.ReasonIn(s.up, task, p)
    case ClientSends(_) => TimeoutReason(s, p)
    case ClientPolls => TimeoutReason(s, p)
    case ClientDrops => if s.phase.Connecting? && p in s.up.out.pending then [V.BufferDropped] else []
    case _ => []
  }

  /** A call that finds the timeout in the slot gives up what is buffered. */
  function TimeoutReason(s: Session, p: Parcel): seq<V.Reason> {
    if s.phase.Connecting? && s.slot == Ready(GotTimeout) && p in s.up.out.pending then [V.BufferTimedOut] else []
  }

  /** The reason, if any, that a step of the session gives a call of the server. */
  function ServerReason(s: Session, step: Step, p: Parcel): seq<V.Reason> {
    if step.DownRuns? then V.ReasonIn(s.down, step.task, p) else []
  }

  ghost function ClientReasons(s: Session, steps: seq<Step>, p: Parcel): seq<V.Reason>
    requires Valid(s, steps)
    decreases |steps|
  {
    if steps == [] then [] else ClientReason(s, steps[0], p) + ClientReasons(Apply(s, steps[0]), steps[1..], p)
  }

  ghost function ServerReasons(s: Session, steps: seq<Step>, p: Parcel): seq<V.Reason>
    requires Valid(s, steps)
    decreases |steps|
  {
    if steps == [] then [] else ServerReason(s, steps[0], p) + ServerReasons(Apply(s, steps[0]), steps[1..], p)
  }

  lemma ReasonsOne(c: C.Channel, x: C.Step, p: Parcel)
    requires C.Valid(c, [x])
    ensures V.Reasons(c, [x], p) == V.ReasonIn(c, x, p)
  {
    assert [x][1..] == [];
    assert V.Reasons(C.Apply(c, x), [x][1..], p) == [];
  }

  lemma ReasonsTwo(c: C.Channel, x: C.Step, y: C.Step, p: Parcel)
    requires C.Valid(c, [x, y])
    ensures V.Reasons(c, [x, y], p) == V.ReasonIn(c, x, p) + V.ReasonIn(C.Apply(c, x), y, p)
  {
    assert [x, y][1..] == [y];
    ReasonsOne(C.Apply(c, x), y, p);
  }

  lemma SendStepHasNoReason(c: C.Channel, phase: Phase, body: Wire, p: Parcel)
    requires !phase.Dropped?
    ensures V.ReasonIn(c, SendStep(phase, body), p) == []
  {
  }

  lemma NoticeHasItsReason(s: Session, p: Parcel)
    requires s.phase.Connecting? && s.slot.Ready?
    ensures NoticeSteps(s.phase, s.slot) == [NoticeSteps(s.phase, s.slot)[0]]
    ensures V.ReasonIn(s.up, NoticeSteps(s.phase, s.slot)[0], p) == TimeoutReason(s, p)
  {
  }

  lemma SendHasItsReason(s: Session, body: Wire, p: Parcel)
    requires Enabled(s, ClientSends(body))
    ensures V.Reasons(s.up, UpSteps(s, ClientSends(body)), p) == TimeoutReason(s, p)
  {
    var phase := Noticed(s.phase, s.slot).0;
    var send := SendStep(phase, body);
    if s.phase.Connecting? && s.slot.Ready? {
      var notice := NoticeSteps(s.phase, s.slot)[0];
      NoticeHasItsReason(s, p);
      assert UpSteps(s, ClientSends(body)) == [notice, send];
      ReasonsTwo(s.up, notice, send, p);
      SendStepHasNoReason(C.Apply(s.up, notice), phase, body, p);
    } else {
      assert UpSteps(s, ClientSends(body)) == [send];
      ReasonsOne(s.up, send, p);
      SendStepHasNoReason(s.up, phase, body, p);
    }
  }

  lemma DisconnectHasNoReason(s: Session, p: Parcel)
    requires Enabled(s, ClientDisconnects)
    ensures V.Reasons(s.up, UpSteps(s, ClientDisconnects), p) == []
  {
    if s.phase.Connecting? {
      ReasonsOne(s.up, C.Out(O.Abandon(O.Quits)), p);
    } else if s.phase.Connected? {
      ReasonsTwo(s.up, C.Close, C.Out(O.Retire), p);
    }
  }

  /** The client's direction gives a call exactly the reasons that the session gives it. */
  lemma StepHasItsReason(s: Session, step: Step, p: Parcel)
    requires Enabled(s, step)
    ensures V.Reasons(s.up, UpSteps(s, step), p) == ClientReason(s, step, p)
  {
    if step.ClientSends? {
      SendHasItsReason(s, step.body, p);
    } else if step.ClientDisconnects? {
      DisconnectHasNoReason(s, p);
    } else if UpSteps(s, step) != [] {
      assert UpSteps(s, step) == [UpSteps(s, step)[0]];
      ReasonsOne(s.up, UpSteps(s, step)[0], p);
    }
  }

  lemma ServerStepHasItsReason(s: Session, step: Step, p: Parcel)
    requires Enabled(s, step)
    ensures V.Reasons(s.down, DownSteps(s, step), p) == ServerReason(s, step, p)
  {
    if step.ClientDisconnects? && s.phase.Connected? {
      ReasonsTwo(s.down, C.PeerCloses, DownSteps(s, step)[1], p);
    } else if DownSteps(s, step) != [] {
      assert DownSteps(s, step) == [DownSteps(s, step)[0]];
      ReasonsOne(s.down, DownSteps(s, step)[0], p);
    }
  }

  lemma {:induction false} ClientRunExplains(s: Session, steps: seq<Step>, p: Parcel, before: seq<V.Reason>)
    requires Valid(s, steps) && O.Inv(s.up.out) && V.Explains(before, s.up.out, p)
    ensures V.Explains(before + ClientReasons(s, steps, p), After(s, steps).up.out, p)
    decreases |steps|
  {
    if steps == [] {
      assert before + [] == before;
    } else {
      var now, t := ClientReason(s, steps[0], p), Apply(s, steps[0]);
      StepHasItsReason(s, steps[0], p);
      V.RunExplains(s.up, UpSteps(s, steps[0]), p, before);
      V.RunKeepsOutbox(s.up, UpSteps(s, steps[0]));
      ClientRunExplains(t, steps[1..], p, before + now);
      assert before + (now + ClientReasons(t, steps[1..], p)) == before + now + ClientReasons(t, steps[1..], p);
    }
  }

  lemma {:induction false} ServerRunExplains(s: Session, steps: seq<Step>, p: Parcel, before: seq<V.Reason>)
    requires Valid(s, steps) && O.Inv(s.down.out) && V.Explains(before, s.down.out, p)
    ensures V.Explains(before + ServerReasons(s, steps, p), After(s, steps).down.out, p)
    decreases |steps|
  {
    if steps == [] {
      assert before + [] == before;
    } else {
      var now, t := ServerReason(s, steps[0], p), Apply(s, steps[0]);
      ServerStepHasItsReason(s, steps[0], p);
      V.RunExplains(s.down, DownSteps(s, steps[0]), p, before);
      V.RunKeepsOutbox(s.down, DownSteps(s, steps[0]));
      ServerRunExplains(t, steps[1..], p, before + now);
      assert before + (now + ServerReasons(t, steps[1..], p)) == before + now + ServerReasons(t, steps[1..], p);
    }
  }

  /**
   In every run of a session a call of the client ends in `Error` exactly if its task panicked, it
   was buffered when a poll or a send found that connecting had timed out, it was buffered when the
   client was dropped, its stream was stopped, or the connection broke in one of three ways. No more
   than one of these ever happens to a call.
   */
  lemma ClientErrorHasItsReason(up: C.Receiver, down: C.Receiver, steps: seq<Step>, p: Parcel)
    requires Valid(NewSession(up, down), steps)
    ensures V.Explains(ClientReasons(NewSession(up, down), steps, p), After(NewSession(up, down), steps).up.out, p)
  {
    V.NothingToExplain(up, p);
    ClientRunExplains(NewSession(up, down), steps, p, []);
    assert [] + ClientReasons(NewSession(up, down), steps, p) == ClientReasons(NewSession(up, down), steps, p);
  }

  /** Nothing that only a buffered call can meet. */
  ghost predicate OfTasks(reasons: seq<V.Reason>) {
    forall k :: 0 <= k < |reasons| ==> !reasons[k].BufferTimedOut? && !reasons[k].BufferDropped?
  }

  lemma ServerStepIsOfTasks(s: Session, step: Step, p: Parcel)
    requires Enabled(s, step)
    ensures OfTasks(ServerReason(s, step, p))
  {
  }

  lemma {:induction false} ServerBuffersNothing(s: Session, steps: seq<Step>, p: Parcel)
    requires Valid(s, steps)
    ensures OfTasks(ServerReasons(s, steps, p))
    decreases |steps|
  {
    if steps != [] {
      ServerBuffersNothing(Apply(s, steps[0]), steps[1..], p);
      ServerStepIsOfTasks(s, steps[0], p);
    }
  }

  lemma ServerErrorExplained(s: Session, steps: seq<Step>, p: Parcel)
    requires Valid(s, steps) && O.Inv(s.down.out) && V.Explains([], s.down.out, p)
    ensures V.Explains(ServerReasons(s, steps, p), After(s, steps).down.out, p)
    ensures OfTasks(ServerReasons(s, steps, p))
  {
    ServerRunExplains(s, steps, p, []);
    ServerBuffersNothing(s, steps, p);
    assert [] + ServerReasons(s, steps, p) == ServerReasons(s, steps, p);
  }

  /** A call of the server, which buffers nothing, ends in `Error` exactly for what its own task met. */
  lemma ServerErrorHasItsReason(up: C.Receiver, down: C.Receiver, steps: seq<Step>, p: Parcel)
    requires Valid(NewSession(up, down), steps)
    ensures V.Explains(ServerReasons(NewSession(up, down), steps, p), After(NewSession(up, down), steps).down.out, p)
    ensures OfTasks(ServerReasons(NewSession(up, down), steps, p))
  {
    V.NothingToExplain(down, p);
    ServerErrorExplained(NewSession(up, down), steps, p);
  }
}
