/** From the message a user sends to the message the other user polls. */
module EndToEnd {
  import opened Options
  import opened Cloneless
  import opened Sending
  import O = Outboxes
  import I = Inboxes
  import C = Channels
  import D = Delivery
  import V = Verdicts
  import S = Sessions
  import L = Lifecycle
  import Calls

  /** The bodies on the wire are the serialized messages of type `ty`, call by call. */
  ghost predicate Serialized<T>(o: O.Outbox, ty: Ty, messages: seq<Val<T>>) {
    && |messages| == |o.sent|
    && (forall i :: 0 <= i < |messages| ==> HasType(ty, messages[i]))
    && (forall i :: 0 <= i < |messages| ==> o.sent[i].body == Encode(Transparent, ty, messages[i]))
  }

  /**
   Over any run, what the receiving user polls decodes, without rest, to a message some send call
   sent, with every view in it replaced by the owned content; no two polls give the same call.
   */
  lemma PolledIsSentErased<T>(c: C.Channel, ty: Ty, messages: seq<Val<T>>, k: nat)
    requires D.Reachable(c) && Unambiguous(ty) && Serialized(c.out, ty, messages)
    requires k < |c.inbox.drained| && c.inbox.drained[k].Message?
    ensures var p := c.inbox.drained[k].p;
            && p.id < |messages|
            && Decode<T>(Transparent, ty, p.body) == Some((Erase(ty, messages[p.id]), []))
            && HasType(ty, Erase(ty, messages[p.id])) && FullyOwned(ty, Erase(ty, messages[p.id]))
            && C.Polled(c, p) == 1
  {
    var p := c.inbox.drained[k].p;
    D.PolledWasSentWhole(c, k);
    var m := messages[p.id];
    UnambiguousIsNeverBlurred(ty, m);
    RoundTripIffNotBlurred(ty, m, []);
    assert Encode(Transparent, ty, m) + [] == Encode(Transparent, ty, m);
    EraseIsInvisible(Transparent, ty, m);
  }

  /** A receiver of messages of type `ty`, none longer than `limit`. */
  ghost function ReceiverOf<T>(ty: Ty, limit: nat): C.Receiver {
    C.Receiver((iset w: Wire | Decode<T>(Transparent, ty, w).Some?), limit)
  }

  lemma SerializedIsReadable<T>(ty: Ty, limit: nat, message: Val<T>)
    requires HasType(ty, message) && |Encode(Transparent, ty, message)| <= limit
    ensures C.Readable(ReceiverOf<T>(ty, limit), Encode(Transparent, ty, message))
  {
    DecodeEncode(ty, message, []);
    assert Encode(Transparent, ty, message) + [] == Encode(Transparent, ty, message);
  }

  /**
   A serialized message that is not too long is readable to a receiver of its type: in a run without
   faults of the channel, once nothing is on its way, it has been polled, once, exactly if its own
   send task did not panic.
   */
  lemma WellTypedMessagesArrive<T>(ty: Ty, limit: nat, messages: seq<Val<T>>, steps: seq<C.Step>, id: nat)
    requires C.Valid(C.EmptyChannel(ReceiverOf<T>(ty, limit)), steps)
    requires var c := C.After(C.EmptyChannel(ReceiverOf<T>(ty, limit)), steps);
             && C.Faults(c) == {} && D.NothingOnItsWay(c)
             && Serialized(c.out, ty, messages)
             && id < |messages| && |c.out.sent[id].body| <= limit
    ensures var start := C.EmptyChannel(ReceiverOf<T>(ty, limit));
            var p := C.After(start, steps).out.sent[id];
            C.Polled(C.After(start, steps), p) == 1 <==> V.SendPanicked !in V.Reasons(start, steps, p)
  {
    var receiver := ReceiverOf<T>(ty, limit);
    var c := C.After(C.EmptyChannel(receiver), steps);
    D.ReachableInv(c);
    SerializedIsReadable(ty, limit, messages[id]);
    D.RunKeepsReceiver(C.EmptyChannel(receiver), steps);
    V.ReadableArrivesIffNoSendPanic(receiver, steps, c.out.sent[id]);
  }

  // ---------------------------------------------------------------------------------------------
  // From the calls of one user to the polls of the other
  // ---------------------------------------------------------------------------------------------

  /** The calls were given these messages of type `ty`, serialized. */
  ghost predicate AreOf<T>(bodies: seq<Wire>, ty: Ty, messages: seq<Val<T>>) {
    && |messages| == |bodies|
    && (forall i :: 0 <= i < |messages| ==> HasType(ty, messages[i]))
    && (forall i :: 0 <= i < |messages| ==> bodies[i] == Encode(Transparent, ty, messages[i]))
  }

  /** The body of `p` is that of call `p.id`, and it decodes to the message of that call, once owned. */
  ghost predicate IsOfCall<T>(p: Parcel, ty: Ty, messages: seq<Val<T>>) {
    && p.id < |messages| && HasType(ty, messages[p.id])
    && p.body == Encode(Transparent, ty, messages[p.id])
    && Decode<T>(Transparent, ty, p.body) == Some((Erase(ty, messages[p.id]), []))
  }

  lemma CallsAreSerialized<T>(o: O.Outbox, bodies: seq<Wire>, ty: Ty, messages: seq<Val<T>>)
    requires AreOf(bodies, ty, messages) && Calls.Recorded([], bodies, o.sent)
    ensures Serialized(o, ty, messages)
  {
    assert [] + Calls.Parcels(0, bodies) == Calls.Parcels(0, bodies);
  }

  lemma PolledIsOfCall<T>(c: C.Channel, ty: Ty, messages: seq<Val<T>>, k: nat)
    requires D.Reachable(c) && Unambiguous(ty) && Serialized(c.out, ty, messages)
    requires k < |c.inbox.drained| && c.inbox.drained[k].Message?
    ensures IsOfCall(c.inbox.drained[k].p, ty, messages) && C.Polled(c, c.inbox.drained[k].p) == 1
  {
    PolledIsSentErased(c, ty, messages, k);
    D.PolledWasSentWhole(c, k);
  }

  lemma RunIsReachable(up: C.Receiver, down: C.Receiver, steps: seq<S.Step>)
    requires S.Valid(S.NewSession(up, down), steps)
    ensures var s := S.After(S.NewSession(up, down), steps);
            && L.Reachable(s) && D.Reachable(s.up) && D.Reachable(s.down)
            && Calls.Recorded([], Calls.ClientBodies(steps), s.up.out.sent)
            && Calls.Recorded([], Calls.ServerBodies(steps), s.down.out.sent)
  {
    S.NewSessionInv(up, down);
    Calls.SentIsWhatWasCalled(S.NewSession(up, down), steps);
    L.DirectionsAreReachable(S.After(S.NewSession(up, down), steps));
  }

  /**
   What the server's user polls, in any run of a session whose client sends messages of an unambiguous
   type: each event with a message is that of one send call of the client, decodes to what that call
   was given, once owned, and comes once.
   */
  lemma ServerPollsWhatTheClientSent<T>(up: C.Receiver, down: C.Receiver, steps: seq<S.Step>,
      ty: Ty, messages: seq<Val<T>>, k: nat)
    requires S.Valid(S.NewSession(up, down), steps)
    requires Unambiguous(ty) && AreOf(Calls.ClientBodies(steps), ty, messages)
    requires var drained := S.After(S.NewSession(up, down), steps).up.inbox.drained;
             k < |drained| && drained[k].Message?
    ensures var s := S.After(S.NewSession(up, down), steps);
            IsOfCall(s.up.inbox.drained[k].p, ty, messages) && C.Polled(s.up, s.up.inbox.drained[k].p) == 1
  {
    var s := S.After(S.NewSession(up, down), steps);
    RunIsReachable(up, down, steps);
    CallsAreSerialized(s.up.out, Calls.ClientBodies(steps), ty, messages);
    PolledIsOfCall(s.up, ty, messages, k);
  }

  /** The same for what the client's user polls, as the events it is given. */
  lemma ClientPollsWhatTheServerSent<T>(up: C.Receiver, down: C.Receiver, steps: seq<S.Step>,
      ty: Ty, messages: seq<Val<T>>, k: nat)
    requires S.Valid(S.NewSession(up, down), steps)
    requires Unambiguous(ty) && AreOf(Calls.ServerBodies(steps), ty, messages)
    requires var polled := S.After(S.NewSession(up, down), steps).polled; k < |polled| && polled[k].MessageEvent?
    ensures var s := S.After(S.NewSession(up, down), steps);
            IsOfCall(s.polled[k].p, ty, messages) && Calls.TimesGiven(s.polled, s.polled[k].p) == 1
  {
    var s := S.After(S.NewSession(up, down), steps);
    RunIsReachable(up, down, steps);
    CallsAreSerialized(s.down.out, Calls.ServerBodies(steps), ty, messages);
    MessageWasDrained(s, k);
    PolledIsOfCall(s.down, ty, messages, k - 1);
  }

  lemma MessageWasDrained(s: S.Session, k: nat)
    requires L.Reachable(s) && k < |s.polled| && s.polled[k].MessageEvent?
    ensures 0 < k <= |s.down.inbox.drained| && s.down.inbox.drained[k - 1] == I.Message(s.polled[k].p)
    ensures Calls.TimesGiven(s.polled, s.polled[k].p) == C.Polled(s.down, s.polled[k].p)
  {
    L.EventGrammar(s);
    Calls.PolledIsWhatWasQueued(s, s.polled[k].p);
    assert k > 0;
    assert s.polled[1..][k - 1] == s.polled[k];
  }
}
