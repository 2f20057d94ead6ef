/** Runs that show what a handle's answer does not mean. */
module Counterexamples {
  import opened Cloneless
  import opened Sending
  import opened Bags
  import opened Fates
  import opened Channels
  import opened Delivery
  import O = Outboxes
  import I = Inboxes

  /** One message in the air: written to its end, its task awaiting the end, its reader running. */
  function InTheAir(receiver: Receiver, body: Wire): Channel {
    var p := Parcel(0, body);
    EmptyChannel(receiver).(
      out := O.EMPTY_OUTBOX.(sent := [p], spawned := [p], stopping := [p], results := [Waiting]),
      finished := [p],
      inbox := I.EMPTY_INBOX.(loop := I.Accepting, readers := [p], tally := I.Tally(1, 0, 0, 0)))
  }

  /** The same before the other side listens. */
  function Written(receiver: Receiver, body: Wire): Channel {
    InTheAir(receiver, body).(streams := [Parcel(0, body)], inbox := I.EMPTY_INBOX)
  }

  lemma TakenOut(p: Parcel)
    ensures Has([p], p) && Without([p], p) == []
  {
    CountOne(p, p);
    assert [p][..0] == [];
  }

  lemma WrittenIsReachable(receiver: Receiver, body: Wire) returns (steps: seq<Step>)
    ensures Valid(EmptyChannel(receiver), steps) && After(EmptyChannel(receiver), steps) == Written(receiver, body)
  {
    var p := Parcel(0, body);
    TakenOut(p);
    var c1 := Apply(EmptyChannel(receiver), Out(O.Spawn(body)));
    assert c1.out.opening == [p];
    var c2 := Apply(c1, Out(O.Moves(p, O.Opening)));
    assert c2.out.writing == [p] && c2.streams == [p];
    assert Apply(c2, Out(O.Moves(p, O.Writing))) == Written(receiver, body);
    StepThenRun(c2, Out(O.Moves(p, O.Writing)), []);
    StepThenRun(c1, Out(O.Moves(p, O.Opening)), [Out(O.Moves(p, O.Writing))] + []);
    steps := [Out(O.Moves(p, O.Opening))] + ([Out(O.Moves(p, O.Writing))] + []);
    StepThenRun(EmptyChannel(receiver), Out(O.Spawn(body)), steps);
    steps := [Out(O.Spawn(body))] + steps;
  }

  /** And once it listens. */
  function Listening(receiver: Receiver, body: Wire): Channel {
    Written(receiver, body).(inbox := I.EMPTY_INBOX.(loop := I.Accepting))
  }

  lemma ListenStep(receiver: Receiver, body: Wire)
    ensures Enabled(Written(receiver, body), In(I.Listen))
    ensures Apply(Written(receiver, body), In(I.Listen)) == Listening(receiver, body)
  {
  }

  lemma AcceptStep(receiver: Receiver, body: Wire)
    ensures Enabled(Listening(receiver, body), In(I.AcceptOk(Parcel(0, body))))
    ensures Apply(Listening(receiver, body), In(I.AcceptOk(Parcel(0, body)))) == InTheAir(receiver, body)
  {
    TakenOut(Parcel(0, body));
  }

  lemma WrittenIsAccepted(receiver: Receiver, body: Wire) returns (steps: seq<Step>)
    ensures Valid(Written(receiver, body), steps) && After(Written(receiver, body), steps) == InTheAir(receiver, body)
  {
    ListenStep(receiver, body);
    AcceptStep(receiver, body);
    StepThenRun(Listening(receiver, body), In(I.AcceptOk(Parcel(0, body))), []);
    steps := [In(I.AcceptOk(Parcel(0, body)))] + [];
    StepThenRun(Written(receiver, body), In(I.Listen), steps);
    steps := [In(I.Listen)] + steps;
  }

  lemma InTheAirIsReachable(receiver: Receiver, body: Wire) returns (steps: seq<Step>)
    ensures Valid(EmptyChannel(receiver), steps) && After(EmptyChannel(receiver), steps) == InTheAir(receiver, body)
    ensures Reachable(InTheAir(receiver, body))
  {
    var written := WrittenIsReachable(receiver, body);
    var accepted := WrittenIsAccepted(receiver, body);
    RunThenRun(EmptyChannel(receiver), written, accepted);
    steps := written + accepted;
  }

  lemma SentWhileUnread(receiver: Receiver, body: Wire) returns (steps: seq<Step>)
    requires Inv(InTheAir(receiver, body)) && !Readable(receiver, body)
    ensures Valid(InTheAir(receiver, body), steps)
    ensures var d := After(InTheAir(receiver, body), steps);
            ResolvesTo(d, 0, Sent) && FateOf(d, Parcel(0, body)) == Dropped(TaskPanicked) && Faults(d) == {}
  {
    TakenOut(Parcel(0, body));
    steps := SentIsNotReceived(InTheAir(receiver, body), Parcel(0, body));
    assert Faults(InTheAir(receiver, body)) == {};
  }

  /** A message that the receiver cannot read is dropped, without a fault, while its handle says `Sent`. */
  lemma SentYetDropped(receiver: Receiver, body: Wire) returns (c: Channel)
    requires !Readable(receiver, body)
    ensures Reachable(c) && ResolvesTo(c, 0, Sent)
    ensures FateOf(c, Parcel(0, body)) == Dropped(TaskPanicked) && Faults(c) == {}
  {
    var steps := InTheAirIsReachable(receiver, body);
    ReachableInv(InTheAir(receiver, body));
    var more := SentWhileUnread(receiver, body);
    RunThenRun(EmptyChannel(receiver), steps, more);
    c := After(EmptyChannel(receiver), steps + more);
  }

  lemma ClosedInTheAir(receiver: Receiver, body: Wire) returns (steps: seq<Step>)
    requires Inv(InTheAir(receiver, body)) && Readable(receiver, body)
    ensures Valid(InTheAir(receiver, body), steps)
    ensures var d := After(InTheAir(receiver, body), steps);
            ResolvesTo(d, 0, WeClosed) && FateOf(d, Parcel(0, body)) == Delivered
  {
    var p, c := Parcel(0, body), InTheAir(receiver, body);
    TakenOut(p);
    StepKeepsInv(c, Close);
    var end := Out(O.Ends(p, O.Stopping, ClosedWhile(O.Stopping)));
    WeClosedMayStillArrive(Apply(c, Close), p);
    steps := ArrivingArrives(Apply(Apply(c, Close), end), p);
    StepThenRun(Apply(c, Close), end, steps);
    steps := [end] + steps;
    StepThenRun(c, Close, steps);
    steps := [Close] + steps;
  }

  /** A message whose handle says `WeClosed` can be delivered. */
  lemma WeClosedYetDelivered(receiver: Receiver, body: Wire) returns (c: Channel)
    requires Readable(receiver, body)
    ensures Reachable(c) && ResolvesTo(c, 0, WeClosed)
    ensures FateOf(c, Parcel(0, body)) == Delivered
  {
    var steps := InTheAirIsReachable(receiver, body);
    ReachableInv(InTheAir(receiver, body));
    var more := ClosedInTheAir(receiver, body);
    RunThenRun(EmptyChannel(receiver), steps, more);
    c := After(EmptyChannel(receiver), steps + more);
  }
}
