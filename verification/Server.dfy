/** A server's side of one connection, as the object its users hold. */
module Servers {
  import opened Options
  import opened Cloneless
  import opened Sending
  import opened Sessions
  import opened Directions
  import O = Outboxes
  import I = Inboxes
  import C = Channels
  import H = Disconnection

  class ClientOnServerNetworking {
    /** Sends go down, events come from up. */
    const up: Direction
    const down: Direction

    constructor (up: Direction, down: Direction)
      ensures this.up == up && this.down == down
    {
      this.up, this.down := up, down;
    }

    /** This object is the server's end of `s`, of which only the client's buffer is not seen here. */
    ghost predicate IsEndOf(s: Session)
      reads this, up, down
    {
      && up != down
      && s.down == down.Ch()
      && s.up == up.Ch().(out := up.out.(pending := s.up.out.pending))
      && s.serverHas && s.up.inbox.receiverAlive
      && Shape(s)
    }

    method SendMessageToClient(body: Wire, ghost s: Session) returns (handle: SendingStateHandle)
      requires IsEndOf(s)
      modifies down
      ensures Enabled(s, ServerSends(body)) && IsEndOf(Apply(s, ServerSends(body)))
      ensures down.out.sent == old(down.out.sent) + [Parcel(|old(down.out.sent)|, body)]
      ensures down.out.opening == old(down.out.opening) + [Parcel(|old(down.out.sent)|, body)]
      ensures fresh(handle) && handle.direction == down && handle.id == |old(down.out.sent)|
    {
      ServerSendsIs(s, body);
      var p := down.NewCall(body, Waiting);
      down.SpawnSend(p);
      handle := new SendingStateHandle(down, p.id);
    }

    method PollEventFromClient(ghost s: Session) returns (event: Option<I.StreamEvent>)
      requires IsEndOf(s)
      modifies up
      ensures Enabled(s, ServerPolls) && IsEndOf(Apply(s, ServerPolls))
      ensures old(up.inbox.queue) ==
                (match event case None => [] case Some(e) => [e]) + up.inbox.queue
      ensures event.None? ==> old(up.inbox.queue) == []
      ensures event == I.PollAnswer(old(up.inbox))
    {
      ServerPollsIs(s);
      event := up.TryRecv();
    }

    /** Unlike the client's, it always closes, and always makes a barrier: also the second time. */
    method Disconnect(ghost s: Session) returns (handle: H.DisconnectionHandle)
      requires IsEndOf(s)
      modifies up, down
      ensures Enabled(s, ServerDisconnects) && IsEndOf(Apply(s, ServerDisconnects))
      ensures down.ends.closed && up.ends.peerClosed
      ensures fresh(handle) && !handle.waitedFor
      ensures handle.barrier != null && fresh(handle.barrier) && handle.barrier.arrivals == 0
    {
      ServerDisconnectsIs(s);
      down.Close(false);
      up.PeerCloses();
      var barrier := new H.Barrier();
      handle := new H.DisconnectionHandle.WithBarrier(barrier);
    }
  }
}
