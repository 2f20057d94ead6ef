/**
 The client as its users hold it: an object that advances when it is called. `State` is the session
 it is one end of, and each call is the step of that session of the same name.
 */
module Clients {
  import opened Options
  import opened Cloneless
  import opened Sending
  import opened Sessions
  import opened Directions
  import Fates
  import O = Outboxes
  import I = Inboxes
  import C = Channels
  import H = Disconnection

  class ClientNetworking {
    var phase: Phase
    /** The other end is owned by the task that connects. */
    var slot: Slot
    var pending: seq<Parcel>
    const up: Direction
    const down: Direction
    ghost var polled: seq<ClientEvent>
    ghost var barriers: nat
    // what is known elsewhere in the session
    ghost var attempting: bool
    ghost var serverHas: bool

    /** The client-to-server direction, the client's own buffer included. */
    ghost function Up(): C.Channel
      reads this, up
    {
      up.Ch().(out := up.out.(pending := pending))
    }

    ghost function State(): Session
      reads this, up, down
    {
      Session(phase, slot, polled, barriers, attempting, serverHas, Up(), down.Ch())
    }

    ghost predicate Wired()
      reads this, up, down
    {
      up != down && up.out.pending == []
    }

    /**
     The object has not been dropped, and its fields agree; every call keeps that, and `Inv` of the
     session too.
     */
    ghost predicate Valid()
      reads this, up, down
    {
      Wired() && Shape(State()) && !phase.Dropped?
    }

    /** `receiverThere` and `receiverHere` are what the server and the client can read. */
    constructor (receiverThere: C.Receiver, receiverHere: C.Receiver)
      ensures Valid() && State() == NewSession(receiverThere, receiverHere)
      ensures fresh(up) && fresh(down)
    {
      phase, slot, pending := Connecting, Empty, [];
      up := new Direction(receiverThere);
      down := new Direction(receiverHere);
      polled, barriers, attempting, serverHas := [], 0, true, false;
      new;
      NewSessionInv(receiverThere, receiverHere);
    }

    /** Looks at the slot once, and sends what was buffered if the connection is there. */
    method Connected() returns (found: Option<ConnectedOrTimeout>)
      requires Wired() && phase.Connecting? && !up.out.retired
      modifies this`slot, this`pending, up
      ensures Wired()
      ensures found == if old(slot).Ready? then Some(old(slot).value) else None
      ensures slot == if old(slot).Ready? then Collected else old(slot)
      ensures Up() == if found == Some(GotConnection) then C.Apply(old(Up()), C.Out(O.Flush)) else old(Up())
    {
      if !slot.Ready? {
        return None;
      }
      found := Some(slot.value);
      slot := Collected;
      if found.value.GotConnection? {
        var messages := pending;
        pending := [];
        var i := 0;
        while i < |messages|
          modifies up
          invariant i <= |messages|
          invariant up.Ch() == old(up.Ch()).(out := old(up.out).(
                                 spawned := old(up.out.spawned) + messages[..i],
                                 opening := old(up.out.opening) + messages[..i]))
        {
          up.SpawnSend(messages[i]);
          i := i + 1;
        }
        assert messages[..i] == messages;
      }
    }

    /** The senders of all buffered messages send `WeClosed` or go unused; what was buffered is lost. */
    method DropPending(parting: O.Parting)
      requires Wired() && !up.out.retired
      modifies this`pending, up
      ensures Wired()
      ensures Up() == C.Apply(old(Up()), C.Out(O.Abandon(parting)))
    {
      var messages := pending;
      var left := if parting.Quits? then Holding(WeClosed) else SenderGone;
      pending := [];
      var i := 0;
      while i < |messages|
        modifies up
        invariant i <= |messages|
        invariant up.Ch() == old(up.Ch()).(out := old(up.out).(
                               results := O.SettleAll(old(up.out.results), messages[..i], O.LeftWhen(parting))))
      {
        up.Settle(messages[i].id, left);
        i := i + 1;
        assert messages[..i][..i - 1] == messages[..i - 1];
      }
      assert messages[..i] == messages;
      up.Abandon(messages, parting);
    }

    method ConnectIfPossible()
      requires Valid()
      modifies this`phase, this`slot, this`pending, up
      ensures Wired() && up.out.sent == old(up.out.sent)
      ensures phase.Connecting? ==> pending == old(pending)
      ensures C.Valid(old(Up()), NoticeSteps(old(phase), old(slot)))
      ensures State() == NoticedSession(old(State()))
    {
      NoticedIs(State());
      if phase.Connecting? {
        var found := Connected();
        if found.Some? {
          match found.value
          case GotConnection => phase := Phase.Connected(false);
          case GotTimeout =>
            DropPending(O.TimesOut);
            phase := Phase.Disconnected(ThePeerDidntEvenConnect(false));
        }
      }
    }

    /** The part of a send that comes after noticing the connection. */
    method SendNow(body: Wire) returns (p: Parcel)
      requires Wired() && !phase.Dropped? && C.Enabled(Up(), SendStep(phase, body))
      modifies this`pending, up
      ensures Wired() && p == Parcel(|old(up.out.sent)|, body)
      ensures up.out.sent == old(up.out.sent) + [p]
      ensures phase.Connecting? ==> pending == old(pending) + [p]
      ensures Up() == C.Apply(old(Up()), SendStep(phase, body))
    {
      match phase
      case Connecting =>
        p := up.NewCall(body, Waiting);
        pending := pending + [p];
      case Connected(_) =>
        p := up.NewCall(body, Waiting);
        up.SpawnSend(p);
      case Disconnected(who) =>
        if who.Us? {
          p := up.NewCall(body, Holding(WeClosed));
          up.losses := C.Lose(up.losses, [p], Fates.UserQuit);
        } else {
          p := up.NewCall(body, Holding(PeerClosedOrDied));
          up.losses := C.Lose(up.losses, [p], Fates.NeverConnected);
        }
    }

    method SendMessageToServer(body: Wire) returns (handle: SendingStateHandle)
      requires Valid()
      modifies this`phase, this`slot, this`pending, up
      ensures Valid()
      ensures fresh(handle) && handle.direction == up && handle.id == |old(up.out.sent)|
      ensures up.out.sent == old(up.out.sent) + [Parcel(|old(up.out.sent)|, body)]
      ensures phase.Connecting? ==> pending == old(pending) + [Parcel(|old(up.out.sent)|, body)]
      ensures Enabled(old(State()), ClientSends(body))
      ensures State() == Apply(old(State()), ClientSends(body))
    {
      ghost var s := State();
      ClientSendsIs(s, body);
      ConnectIfPossible();
      var p := SendNow(body);
      handle := new SendingStateHandle(up, p.id);
      ClientSendsKeepsShape(s, body);
    }

    /** The part of a poll that comes after noticing the connection. */
    method PollNow() returns (event: Option<ClientEvent>)
      requires Wired() && !phase.Dropped? && (phase.Connecting? ==> !slot.Ready?)
      requires phase == Phase.Connected(true) ==> down.inbox.receiverAlive
      modifies this`phase, this`polled, down
      ensures Wired()
      ensures State() == HandedOver(old(State()))
      ensures event == PollAnswer(old(State()))
    {
      event := None;
      match phase {
        case Connecting =>
        case Connected(already) =>
          if !already {
            phase := Phase.Connected(true);
            event := Some(ConnectedEvent);
          } else {
            var e := down.TryRecv();
            if e.Some? {
              event := Some(FromServer(e.value));
            }
          }
        case Disconnected(who) =>
          if who == ThePeerDidntEvenConnect(false) {
            phase := Phase.Disconnected(ThePeerDidntEvenConnect(true));
            event := Some(FailedToConnect);
          }
      }
      if event.Some? {
        polled := polled + [event.value];
      }
    }

    method PollEventFromServer() returns (event: Option<ClientEvent>)
      requires Valid()
      modifies this`phase, this`slot, this`pending, this`polled, up, down
      ensures Valid()
      ensures event == PollAnswer(old(State()))
      ensures old(phase) == Phase.Connected(true) ==>
                event == match I.PollAnswer(old(down.inbox))
                         case None => None
                         case Some(Message(p)) => Some(MessageEvent(p))
                         case Some(Disconnected(details)) => Some(DisconnectedEvent(details))
      ensures Enabled(old(State()), ClientPolls)
      ensures State() == Apply(old(State()), ClientPolls)
    {
      ghost var s := State();
      ClientPollsIs(s);
      ConnectIfPossible();
      event := PollNow();
      ClientPollsKeepsShape(s);
    }

    /** `disconnect` before the connection was noticed: whatever is in the slot is dropped unseen. */
    method StopConnecting()
      requires Wired() && phase.Connecting? && !up.out.retired
      modifies this`phase, this`slot, this`pending, up, down
      ensures Wired()
      ensures State() == HungUp(old(State()))
    {
      DropPending(O.Quits);
      phase, slot := Phase.Disconnected(Us), Discarded;
      down.DropReceiver();
    }

    /** `disconnect` of a connection: close it, and have a task wait at a new barrier. */
    method CloseConnection() returns (barrier: H.Barrier)
      requires Wired() && phase.Connected? && pending == []
      modifies this`phase, this`barriers, up, down
      ensures Wired()
      ensures fresh(barrier) && barrier.arrivals == 0
      ensures State() == HungUp(old(State()))
    {
      up.Close(true);
      down.PeerCloses();
      barrier := new H.Barrier();
      barriers := barriers + 1;
      phase := Phase.Disconnected(Us);
      down.DropReceiver();
    }

    method Disconnect() returns (handle: H.DisconnectionHandle)
      requires Valid()
      modifies this`phase, this`slot, this`pending, this`barriers, up, down
      ensures Valid()
      ensures fresh(handle) && !handle.waitedFor
      ensures handle.barrier != null <==> old(phase).Connected?
      ensures handle.barrier != null <==> barriers == old(barriers) + 1
      ensures handle.barrier != null <==> up.ends.closed && !old(up.ends.closed)
      ensures handle.barrier == null <==> barriers == old(barriers)
      ensures handle.barrier != null ==> fresh(handle.barrier) && handle.barrier.arrivals == 0
      ensures Enabled(old(State()), ClientDisconnects)
      ensures State() == Apply(old(State()), ClientDisconnects)
    {
      ClientDisconnectsIs(State());
      ClientDisconnectsKeepsShape(State());
      if phase.Connecting? {
        StopConnecting();
        handle := new H.DisconnectionHandle.WithoutBarrier();
      } else if phase.Connected? {
        var barrier := CloseConnection();
        handle := new H.DisconnectionHandle.WithBarrier(barrier);
      } else {
        handle := new H.DisconnectionHandle.WithoutBarrier();
      }
    }

    /** The object goes away while connecting: the buffer's senders go unused, the slot is dropped. */
    method DropWhileConnecting()
      requires Wired() && phase.Connecting? && !up.out.retired
      modifies this`phase, this`slot, this`pending, up, down
      ensures Wired()
      ensures State() == LetGo(old(State()))
    {
      DropPending(O.IsDropped);
      phase, slot := Dropped(phase), Discarded;
      down.DropReceiver();
    }

    /** The object goes away with its connection, which is not closed by that. */
    method DropWhileConnected()
      requires Wired() && phase.Connected? && pending == []
      modifies this`phase, up, down
      ensures Wired()
      ensures State() == LetGo(old(State()))
    {
      up.Retire();
      down.DropReceiver();
      phase := Dropped(phase);
    }

    /** What happens when the object goes away, with or without `disconnect`. */
    method Drop()
      requires Valid()
      modifies this`phase, this`slot, this`pending, up, down
      ensures Wired()
      ensures Enabled(old(State()), ClientDrops)
      ensures State() == Apply(old(State()), ClientDrops)
    {
      ClientDropsIs(State());
      if phase.Connecting? {
        DropWhileConnecting();
      } else if phase.Connected? {
        DropWhileConnected();
      } else {
        phase := Dropped(phase);
      }
    }
  }
}
