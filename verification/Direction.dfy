/**
 One direction of a connection as the objects that live in the program: the spawned tasks, the
 one-shot result channels, the network in between and the event queue. `Ch` is the channel they
 make up; every method is one step or run of it.
 */
module Directions {
  import opened Options
  import opened Cloneless
  import opened Sending
  import Bags
  import Fates
  import O = Outboxes
  import I = Inboxes
  import C = Channels

  /** What an accept loop does with the streams that arrive, and with the error that ends it. */
  function AcceptSteps(arrivals: seq<Parcel>, error: ConnectionError): seq<C.Step> {
    if arrivals == [] then [C.In(I.AcceptFails(error))]
    else [C.In(I.AcceptOk(arrivals[0]))] + AcceptSteps(arrivals[1..], error)
  }

  /** How the read of one stream ends: with the whole message, an error, or a panic. */
  datatype ReadEnd = Whole | Failed(error: ConnectionError) | Unreadable

  function ReadStep(p: Parcel, end: ReadEnd): I.InStep {
    match end
    case Whole => I.ReadOk(p)
    case Failed(error) => I.ReadFails(p, error)
    case Unreadable => I.ReadPanics(p)
  }

  class Direction {
    var out: O.Outbox
    var ends: C.Ends
    var streams: seq<Parcel>
    var finished: seq<Parcel>
    var inbox: I.Inbox
    ghost var losses: C.Losses
    /** What the receiving side can read. */
    const receiver: C.Receiver

    ghost function Ch(): C.Channel
      reads this
    {
      C.Channel(out, ends, streams, finished, inbox, losses, receiver)
    }

    constructor (receiver: C.Receiver)
      ensures Ch() == C.EmptyChannel(receiver)
    {
      out, ends := O.EMPTY_OUTBOX, C.ENDS_OPEN;
      streams, finished, inbox := [], [], I.EMPTY_INBOX;
      losses := C.NO_LOSSES;
      this.receiver := receiver;
    }

    /** A send call's own part: its number and its result channel. */
    method NewCall(body: Wire, cell: Oneshot) returns (p: Parcel)
      modifies this
      ensures p == O.NextParcel(old(out), body)
      ensures Ch() == old(Ch()).(out := old(out).(sent := old(out.sent) + [p], results := old(out.results) + [cell]))
    {
      p := Parcel(|out.sent|, body);
      out := out.(sent := out.sent + [p], results := out.results + [cell]);
    }

    /** Spawns the send task of a call. */
    method SpawnSend(p: Parcel)
      modifies this
      ensures Ch()
           == old(Ch()).(out := old(out).(spawned := old(out.spawned) + [p], opening := old(out.opening) + [p]))
    {
      out := out.(spawned := out.spawned + [p], opening := out.opening + [p]);
    }

    /** Puts a result in the channel of a call, or drops its sender. */
    method Settle(id: nat, cell: Oneshot)
      modifies this
      ensures Ch()
           == old(Ch()).(out := old(out).(results :=
                if id < |old(out.results)| then old(out.results)[id := cell] else old(out.results)))
    {
      if id < |out.results| {
        out := out.(results := out.results[id := cell]);
      }
    }

    /** The records of a buffer given up: no call goes through here any more. */
    method Abandon(lost: seq<Parcel>, parting: O.Parting)
      modifies this
      ensures Ch() == old(Ch()).(
                out := old(out).(retired := true),
                ends := C.Parted(old(ends), parting),
                losses := C.Lose(old(losses), lost, C.PartingCause(parting)))
    {
      out := out.(retired := true);
      match parting {
        case Quits => ends := ends.(quit := true);
        case TimesOut => ends := ends.(unreachable := true);
        case IsDropped => ends := ends.(dropped := true);
      }
      losses := C.Lose(losses, lost, C.PartingCause(parting));
    }

    /** No send goes through here any more. */
    method Retire()
      modifies this
      ensures Ch() == old(Ch()).(out := old(out).(retired := true))
    {
      out := out.(retired := true);
    }

    /** This side closes the connection; `quits` says that it sends no more either. */
    method Close(quits: bool)
      modifies this
      ensures Ch() == old(Ch()).(ends := old(ends).(quit := true, closed := true),
                                 out := old(out).(retired := old(out.retired) || quits))
    {
      ends := ends.(quit := true, closed := true);
      out := out.(retired := out.retired || quits);
    }

    method PeerCloses()
      modifies this
      ensures Ch() == C.Apply(old(Ch()), C.PeerCloses)
    {
      ends := ends.(peerClosed := true);
    }

    /** A handle got its answer; a result leaves its channel. */
    method Answered(id: nat, state: SendingState)
      requires id < |out.results|
      modifies this
      ensures Ch()
           == old(Ch()).(out := old(out).(
                results := if state.Result? then old(out.results)[id := Taken(state.result)] else old(out.results),
                answers := old(out.answers) + [O.Answer(id, state)]))
    {
      if state.Result? {
        out := out.(results := out.results[id := Taken(state.result)]);
      }
      out := out.(answers := out.answers + [O.Answer(id, state)]);
    }

    /** Takes the next event from the queue, if there is one. */
    method TryRecv() returns (event: Option<I.StreamEvent>)
      requires inbox.receiverAlive
      modifies this
      ensures event == I.PollAnswer(old(inbox))
      ensures Ch() == C.Apply(old(Ch()), C.In(I.Poll))
    {
      if inbox.queue == [] {
        return None;
      }
      event := Some(inbox.queue[0]);
      inbox := inbox.(queue := inbox.queue[1..], drained := inbox.drained + [inbox.queue[0]]);
    }

    /** What is queued when the receiver goes away is gone too. */
    method DropReceiver()
      modifies this
      ensures Ch() == C.Apply(old(Ch()), C.In(I.DropReceiver))
    {
      losses := C.Lose(losses, I.Messages(inbox.queue), Fates.ReceiverDropped);
      inbox := inbox.(receiverAlive := false, queue := [], abandoned := inbox.abandoned + inbox.queue);
    }

    /** A task sends an event to the queue; without a receiver that has no effect. */
    method Enqueue(event: I.StreamEvent)
      modifies this`inbox
      ensures inbox == I.Enqueue(old(inbox), event)
    {
      if inbox.receiverAlive {
        inbox := inbox.(queue := inbox.queue + [event], enqueued := inbox.enqueued + [event]);
      }
    }

    /** The accept loop, run to its end on the given arrivals: one reader task per stream. */
    method AcceptLoop(arrivals: seq<Parcel>, error: ConnectionError) returns (panics: bool)
      requires C.Valid(Ch(), AcceptSteps(arrivals, error))
      modifies this
      ensures C.Valid(old(Ch()), AcceptSteps(arrivals, error))
      ensures Ch() == C.After(old(Ch()), AcceptSteps(arrivals, error))
      ensures inbox.loop == I.Ended(error)
      ensures panics <==> I.ErrorToEvent(error).Panic?
    {
      var i := 0;
      while i < |arrivals|
        invariant i <= |arrivals|
        invariant C.Valid(Ch(), AcceptSteps(arrivals[i..], error))
        invariant C.After(Ch(), AcceptSteps(arrivals[i..], error)) == C.After(old(Ch()), AcceptSteps(arrivals, error))
      {
        AcceptStepsFirst(arrivals[i..], error);
        SpawnReader(arrivals[i]);
        i := i + 1;
      }
      AcceptStepsFirst(arrivals[i..], error);
      panics := AcceptFailed(error);
    }

    /** An accepted stream gets a reader task. */
    method SpawnReader(p: Parcel)
      requires C.Enabled(Ch(), C.In(I.AcceptOk(p)))
      modifies this
      ensures Ch() == C.Apply(old(Ch()), C.In(I.AcceptOk(p)))
      ensures inbox.readers == old(inbox.readers) + [p] && inbox.enqueued == old(inbox.enqueued)
    {
      streams := Bags.Without(streams, p);
      inbox := inbox.(readers := inbox.readers + [p], tally := inbox.tally.(accepted := inbox.tally.accepted + 1));
    }

    /** The end of the accept loop. */
    method AcceptFailed(error: ConnectionError) returns (panics: bool)
      requires C.Enabled(Ch(), C.In(I.AcceptFails(error)))
      modifies this
      ensures Ch() == C.Apply(old(Ch()), C.In(I.AcceptFails(error)))
      ensures inbox.loop == I.Ended(error)
      ensures old(inbox.receiverAlive) ==> inbox.enqueued == old(inbox.enqueued) + I.ToldOf(error)
      ensures panics <==> I.ErrorToEvent(error).Panic?
    {
      inbox := inbox.(loop := I.Ended(error));
      match I.ErrorToEvent(error)
      case Emit(details) =>
        Enqueue(I.Disconnected(details));
        panics := false;
      case Silent => panics := false;
      case Panic => panics := true;
    }

    /** The reader task of one stream. */
    method ReadTask(p: Parcel, end: ReadEnd) returns (panics: bool)
      requires C.Enabled(Ch(), C.In(ReadStep(p, end)))
      modifies this
      ensures Ch() == C.Apply(old(Ch()), C.In(ReadStep(p, end)))
      ensures old(inbox.receiverAlive) ==>
                inbox.enqueued == old(inbox.enqueued) + match end
                                                        case Whole => [I.Message(p)]
                                                        case Failed(error) => I.ToldOf(error)
                                                        case Unreadable => []
      ensures panics <==> end.Unreadable? || (end.Failed? && I.ErrorToEvent(end.error).Panic?)
    {
      var tally := inbox.tally;
      inbox := inbox.(readers := Bags.Without(inbox.readers, p));
      panics := false;
      match end
      case Whole =>
        inbox := inbox.(tally := tally.(messages := tally.messages + 1));
        if !inbox.receiverAlive {
          losses := C.Lose(losses, [p], Fates.ReceiverDropped);
        }
        Enqueue(I.Message(p));
      case Failed(error) =>
        losses := C.Lose(losses, [p], Fates.ConnectionOver);
        match I.ErrorToEvent(error) {
          case Emit(details) =>
            inbox := inbox.(tally := tally.(disconnects := tally.disconnects + 1));
            Enqueue(I.Disconnected(details));
          case Silent => inbox := inbox.(tally := tally.(quiet := tally.quiet + 1));
          case Panic =>
            inbox := inbox.(tally := tally.(quiet := tally.quiet + 1));
            panics := true;
        }
      case Unreadable =>
        losses := C.Lose(losses, [p], Fates.TaskPanicked);
        inbox := inbox.(tally := tally.(quiet := tally.quiet + 1));
        panics := true;
    }
  }

  lemma AcceptStepsFirst(arrivals: seq<Parcel>, error: ConnectionError)
    ensures var steps := AcceptSteps(arrivals, error);
            && steps[0] == C.In(if arrivals == [] then I.AcceptFails(error) else I.AcceptOk(arrivals[0]))
            && steps[1..] == if arrivals == [] then [] else AcceptSteps(arrivals[1..], error)
  {
  }

  /** The user's handle on one send call. It is used up by an answer that is a result. */
  class SendingStateHandle {
    const direction: Direction
    const id: nat

    constructor (direction: Direction, id: nat)
      ensures this.direction == direction && this.id == id
    {
      this.direction, this.id := direction, id;
    }

    method GetState() returns (state: SendingState)
      requires id < |direction.out.results| && !direction.out.results[id].Taken?
      modifies direction
      ensures state == AnswerOf(old(direction.out.results)[id])
      ensures old(direction.out.results)[id].Waiting? ==>
                state == StillBeingSent && direction.out.results == old(direction.out.results)
      ensures forall r :: old(direction.out.results)[id] == Holding(r) ==>
                            state == Result(r) && direction.out.results == old(direction.out.results)[id := Taken(r)]
      ensures old(direction.out.results)[id].SenderGone? ==>
                && state == Result(SendingResult.Error)
                && direction.out.results == old(direction.out.results)[id := Taken(SendingResult.Error)]
      ensures direction.Ch() == C.Apply(old(direction.Ch()), C.Out(O.Ask(id)))
    {
      var cell := direction.out.results[id];
      match cell {
        case Waiting => state := StillBeingSent;
        case Holding(r) => state := Result(r);
        case SenderGone => state := Result(SendingResult.Error);
      }
      direction.Answered(id, state);
      assert direction.out.results == old(direction.out.results)[id := AfterAsking(cell)];
    }
  }
}
