/** That messages can get through, from wherever a session stands, as the very messages that were sent. */
module Passages {
  import opened Options
  import opened Cloneless
  import opened Sending
  import opened Bags
  import opened Channels
  import O = Outboxes
  import I = Inboxes
  import S = Sessions
  import L = Lifecycle
  import Calls

  // ---------------------------------------------------------------------------------------------
  // One direction
  // ---------------------------------------------------------------------------------------------

  /** What a send task, the accept loop and a reader do for one message when nothing goes wrong. */
  function PassageOf(p: Parcel): seq<Step> {
    [Out(O.Moves(p, O.Opening)), Out(O.Moves(p, O.Writing)),
     In(I.AcceptOk(p)), In(I.ReadOk(p)),
     Out(O.Ends(p, O.Stopping, O.Returned(None)))]
  }

  /** The message of an open task has been queued, its handle has `Sent`, and nothing else is different. */
  function Passed(c: Channel, p: Parcel): Channel
    requires Has(c.out.opening, p) && p.id < |c.out.results|
  {
    c.(out := c.out.(opening := Without(c.out.opening, p), results := c.out.results[p.id := Holding(Sent)]),
       finished := c.finished + [p],
       inbox := c.inbox.(queue := c.inbox.queue + [I.Message(p)],
                         enqueued := c.inbox.enqueued + [I.Message(p)],
                         tally := c.inbox.tally.(accepted := c.inbox.tally.accepted + 1,
                                                 messages := c.inbox.tally.messages + 1)))
  }

  /** Both ends are there for a message to pass. */
  predicate Open(c: Channel) {
    !c.ends.closed && c.inbox.loop.Accepting? && c.inbox.receiverAlive
  }

  lemma PushedComesOut(s: seq<Parcel>, p: Parcel)
    ensures Has(s + [p], p) && Without(s + [p], p) == s
  {
    CountPush(s, p, p);
    assert (s + [p])[..|s|] == s;
  }

  lemma WriteOut(c: Channel, p: Parcel) returns (d: Channel)
    requires Open(c) && Has(c.out.opening, p)
    ensures d == c.(out := c.out.(opening := Without(c.out.opening, p), stopping := c.out.stopping + [p]),
                    streams := c.streams + [p], finished := c.finished + [p])
    ensures forall rest :: Valid(d, rest) ==>
              && Valid(c, [Out(O.Moves(p, O.Opening)), Out(O.Moves(p, O.Writing))] + rest)
              && After(c, [Out(O.Moves(p, O.Opening)), Out(O.Moves(p, O.Writing))] + rest) == After(d, rest)
  {
    var c1 := Apply(c, Out(O.Moves(p, O.Opening)));
    PushedComesOut(c.out.writing, p);
    d := Apply(c1, Out(O.Moves(p, O.Writing)));
    forall rest | Valid(d, rest)
      ensures && Valid(c, [Out(O.Moves(p, O.Opening)), Out(O.Moves(p, O.Writing))] + rest)
              && After(c, [Out(O.Moves(p, O.Opening)), Out(O.Moves(p, O.Writing))] + rest) == After(d, rest)
    {
      StepThenRun(c1, Out(O.Moves(p, O.Writing)), rest);
      StepThenRun(c, Out(O.Moves(p, O.Opening)), [Out(O.Moves(p, O.Writing))] + rest);
      assert [Out(O.Moves(p, O.Opening)), Out(O.Moves(p, O.Writing))] + rest
          == [Out(O.Moves(p, O.Opening))] + ([Out(O.Moves(p, O.Writing))] + rest);
    }
  }

  lemma ReadIn(c: Channel, streams: seq<Parcel>, p: Parcel) returns (d: Channel)
    requires Open(c) && c.streams == streams + [p] && p in c.finished && Readable(c.receiver, p.body)
    ensures d == c.(streams := streams,
                    inbox := c.inbox.(queue := c.inbox.queue + [I.Message(p)],
                                      enqueued := c.inbox.enqueued + [I.Message(p)],
                                      tally := c.inbox.tally.(accepted := c.inbox.tally.accepted + 1,
                                                              messages := c.inbox.tally.messages + 1)))
    ensures forall rest :: Valid(d, rest) ==>
              && Valid(c, [In(I.AcceptOk(p)), In(I.ReadOk(p))] + rest)
              && After(c, [In(I.AcceptOk(p)), In(I.ReadOk(p))] + rest) == After(d, rest)
  {
    PushedComesOut(streams, p);
    PushedComesOut(c.inbox.readers, p);
    var c1 := Apply(c, In(I.AcceptOk(p)));
    d := Apply(c1, In(I.ReadOk(p)));
    forall rest | Valid(d, rest)
      ensures && Valid(c, [In(I.AcceptOk(p)), In(I.ReadOk(p))] + rest)
              && After(c, [In(I.AcceptOk(p)), In(I.ReadOk(p))] + rest) == After(d, rest)
    {
      StepThenRun(c1, In(I.ReadOk(p)), rest);
      StepThenRun(c, In(I.AcceptOk(p)), [In(I.ReadOk(p))] + rest);
      assert [In(I.AcceptOk(p)), In(I.ReadOk(p))] + rest == [In(I.AcceptOk(p))] + ([In(I.ReadOk(p))] + rest);
    }
  }

  /** A task that is about to open its stream can bring its message through, whatever else goes on. */
  lemma PassagePasses(c: Channel, p: Parcel)
    requires Open(c) && Has(c.out.opening, p) && p.id < |c.out.results| && Readable(c.receiver, p.body)
    ensures Valid(c, PassageOf(p)) && After(c, PassageOf(p)) == Passed(c, p)
  {
    var end := Out(O.Ends(p, O.Stopping, O.Returned(None)));
    var c1 := WriteOut(c, p);
    var c2 := ReadIn(c1, c.streams, p);
    PushedComesOut(c.out.stopping, p);
    assert Enabled(c2, end) && Apply(c2, end) == Passed(c, p);
    StepThenRun(c2, end, []);
    assert [end] + [] == [end];
    assert PassageOf(p) == [Out(O.Moves(p, O.Opening)), Out(O.Moves(p, O.Writing))]
                           + ([In(I.AcceptOk(p)), In(I.ReadOk(p))] + [end]);
  }

  lemma {:induction false} WithoutFirst(s: seq<Parcel>)
    requires s != [] && Count(s, s[0]) == 1
    ensures Has(s, s[0]) && Without(s, s[0]) == s[1..]
    decreases |s|
  {
    var n := |s| - 1;
    if n > 0 {
      assert s[..n][0] == s[0];
      CountPositive(s[..n], s[0]);
      WithoutFirst(s[..n]);
      assert s[..n][1..] + [s[n]] == s[1..];
    }
  }

  function MessagesOf(ps: seq<Parcel>): seq<I.StreamEvent> {
    seq(|ps|, i requires 0 <= i < |ps| => I.Message(ps[i]))
  }

  ghost predicate IsOneOf(id: nat, ps: seq<Parcel>) {
    exists k :: 0 <= k < |ps| && ps[k].id == id
  }

  /** From `c` to `d` the messages of `ps` have got through, in order, and their handles have `Sent`. */
  ghost predicate GotThrough(c: Channel, ps: seq<Parcel>, d: Channel) {
    && d.inbox.queue == c.inbox.queue + MessagesOf(ps)
    && |d.out.results| == |c.out.results|
    && (forall k :: 0 <= k < |ps| ==> ps[k].id < |d.out.results| && d.out.results[ps[k].id] == Holding(Sent))
    && (forall i :: 0 <= i < |c.out.results| && !IsOneOf(i, ps) ==> d.out.results[i] == c.out.results[i])
    && d.out == c.out.(opening := d.out.opening, results := d.out.results)
    && d.ends == c.ends && d.losses == c.losses && d.streams == c.streams && d.receiver == c.receiver
    && d.inbox.readers == c.inbox.readers && d.inbox.drained == c.inbox.drained
    && Open(d)
  }

  /** The first task is alone in owning its message. */
  lemma FirstIsAwaited(o: O.Outbox)
    requires O.Numbered(o) && O.OneSenderEach(o) && o.opening != []
    ensures Has(o.opening, o.opening[0]) && o.opening[0].id < |o.results|
    ensures Without(o.opening, o.opening[0]) == o.opening[1..]
    ensures forall k :: 0 < k < |o.opening| ==> o.opening[k].id != o.opening[0].id
  {
    var p := o.opening[0];
    forall k | 0 <= k < |o.opening| ensures O.Awaited(o, o.opening[k]) {
      CountPositive(o.opening, o.opening[k]);
      O.TaskParcelIsAwaited(o, o.opening[k], O.Opening);
    }
    CountPositive(o.opening, p);
    O.TaskParcelIsAwaited(o, p, O.Opening);
    WithoutFirst(o.opening);
    CountPop(o.opening, p);
    CountPositive(o.opening[1..], p);
    forall k | 0 < k < |o.opening| ensures o.opening[k].id != p.id {
      assert o.opening[1..][k - 1] == o.opening[k];
    }
  }

  lemma PassedThenRest(c: Channel, d: Channel)
    requires c.out.opening != [] && Has(c.out.opening, c.out.opening[0]) && c.out.opening[0].id < |c.out.results|
    requires Without(c.out.opening, c.out.opening[0]) == c.out.opening[1..]
    requires forall k :: 0 < k < |c.out.opening| ==> c.out.opening[k].id != c.out.opening[0].id
    requires GotThrough(Passed(c, c.out.opening[0]), c.out.opening[1..], d)
    ensures GotThrough(c, c.out.opening, d)
  {
    var ps := c.out.opening;
    assert MessagesOf(ps) == [I.Message(ps[0])] + MessagesOf(ps[1..]);
    assert c.inbox.queue + ([I.Message(ps[0])] + MessagesOf(ps[1..]))
        == c.inbox.queue + [I.Message(ps[0])] + MessagesOf(ps[1..]);
    forall k | 0 <= k < |ps| ensures ps[k].id < |d.out.results| && d.out.results[ps[k].id] == Holding(Sent) {
      if k > 0 {
        assert ps[1..][k - 1] == ps[k];
      } else {
        assert !IsOneOf(ps[0].id, ps[1..]);
      }
    }
    forall i | 0 <= i < |c.out.results| && !IsOneOf(i, ps) ensures d.out.results[i] == c.out.results[i] {
      assert ps[0].id != i;
      forall k | 0 <= k < |ps[1..]| ensures ps[1..][k].id != i {
        assert ps[1..][k] == ps[k + 1];
      }
    }
  }

  predicate IsAsk(step: Step) {
    step.Out? && step.out.Ask?
  }

  predicate TasksAndAsks(steps: seq<Step>) {
    forall k :: 0 <= k < |steps| ==> S.IsTask(steps[k]) || IsAsk(steps[k])
  }

  /** The receiver can read all that is about to be sent. */
  ghost predicate OpeningIsReadable(c: Channel) {
    forall k :: 0 <= k < |c.out.opening| ==> Readable(c.receiver, c.out.opening[k].body)
  }

  lemma FirstPasses(c: Channel)
    requires O.Numbered(c.out) && O.OneSenderEach(c.out)
    requires Open(c) && c.out.opening != [] && OpeningIsReadable(c)
    ensures var p := c.out.opening[0];
            && Has(c.out.opening, p) && p.id < |c.out.results|
            && Valid(c, PassageOf(p)) && After(c, PassageOf(p)) == Passed(c, p)
            && Open(Passed(c, p)) && Passed(c, p).out.opening == c.out.opening[1..]
  {
    FirstIsAwaited(c.out);
    PassagePasses(c, c.out.opening[0]);
  }

  lemma RestIsReadable(c: Channel, d: Channel)
    requires OpeningIsReadable(c) && c.out.opening != []
    requires d.receiver == c.receiver && d.out.opening == c.out.opening[1..]
    ensures OpeningIsReadable(d)
  {
  }

  lemma PassageThenTasks(p: Parcel, rest: seq<Step>)
    requires TasksAndAsks(rest)
    ensures TasksAndAsks(PassageOf(p) + rest)
  {
  }

  /** All that is about to be sent can get through, one message after the other. */
  lemma {:induction false} AllPass(c: Channel) returns (steps: seq<Step>)
    requires Inv(c) && Open(c) && OpeningIsReadable(c)
    ensures Valid(c, steps) && TasksAndAsks(steps)
    ensures GotThrough(c, c.out.opening, After(c, steps)) && After(c, steps).out.opening == []
    decreases |c.out.opening|
  {
    if c.out.opening == [] {
      steps := [];
      assert c.inbox.queue + [] == c.inbox.queue;
    } else {
      var p := c.out.opening[0];
      FirstPasses(c);
      RunKeepsInv(c, PassageOf(p));
      RestIsReadable(c, Passed(c, p));
      var rest := AllPass(Passed(c, p));
      PassageThenTasks(p, rest);
      RunThenRun(c, PassageOf(p), rest);
      FirstIsAwaited(c.out);
      PassedThenRest(c, After(Passed(c, p), rest));
      steps := PassageOf(p) + rest;
    }
  }

  // ---------------------------------------------------------------------------------------------
  // A session
  // ---------------------------------------------------------------------------------------------

  lemma FirstThenRun(s: S.Session, step: S.Step, b: seq<S.Step>)
    requires S.Enabled(s, step) && S.Valid(S.Apply(s, step), b)
    ensures S.Valid(s, [step] + b) && S.After(s, [step] + b) == S.After(S.Apply(s, step), b)
  {
    assert ([step] + b)[1..] == b;
  }

  /** What a step of the client-to-server direction is in the session: a handle asked, or a task. */
  function ClientDoes(steps: seq<Step>): seq<S.Step> {
    if steps == [] then []
    else [if IsAsk(steps[0]) then S.ClientAsks(steps[0].out.id) else S.UpRuns(steps[0])] + ClientDoes(steps[1..])
  }

  /** The same for the other direction. */
  function ServerDoes(steps: seq<Step>): seq<S.Step> {
    if steps == [] then []
    else [if IsAsk(steps[0]) then S.ServerAsks(steps[0].out.id) else S.DownRuns(steps[0])] + ServerDoes(steps[1..])
  }

  lemma ClientDoesOne(s: S.Session, step: Step)
    requires Enabled(s.up, step) && (S.IsTask(step) || IsAsk(step))
    ensures var x := if IsAsk(step) then S.ClientAsks(step.out.id) else S.UpRuns(step);
            S.Enabled(s, x) && S.Apply(s, x) == s.(up := Apply(s.up, step))
  {
    S.RunOne(s.up, step);
    assert After(s.down, []) == s.down;
  }

  lemma ServerDoesOne(s: S.Session, step: Step)
    requires s.serverHas && Enabled(s.down, step) && (S.IsTask(step) || IsAsk(step))
    ensures var x := if IsAsk(step) then S.ServerAsks(step.out.id) else S.DownRuns(step);
            S.Enabled(s, x) && S.Apply(s, x) == s.(down := Apply(s.down, step))
  {
    S.RunOne(s.down, step);
    assert After(s.up, []) == s.up;
  }

  lemma {:induction false} ClientDoesAll(s: S.Session, steps: seq<Step>)
    requires Valid(s.up, steps) && TasksAndAsks(steps)
    ensures S.Valid(s, ClientDoes(steps)) && S.After(s, ClientDoes(steps)) == s.(up := After(s.up, steps))
    decreases |steps|
  {
    if steps != [] {
      ClientDoesOne(s, steps[0]);
      ClientDoesAll(s.(up := Apply(s.up, steps[0])), steps[1..]);
      assert ClientDoes(steps)[1..] == ClientDoes(steps[1..]);
    }
  }

  lemma {:induction false} ServerDoesAll(s: S.Session, steps: seq<Step>)
    requires s.serverHas && Valid(s.down, steps) && TasksAndAsks(steps)
    ensures S.Valid(s, ServerDoes(steps)) && S.After(s, ServerDoes(steps)) == s.(down := After(s.down, steps))
    decreases |steps|
  {
    if steps != [] {
      ServerDoesOne(s, steps[0]);
      ServerDoesAll(s.(down := Apply(s.down, steps[0])), steps[1..]);
      assert ServerDoes(steps)[1..] == ServerDoes(steps[1..]);
    }
  }

  /** Every call so far has been sent, and the server's user has yet to take all of it. */
  ghost predicate AllArrived(s: S.Session, t: S.Session) {
    && t.polled == [S.ConnectedEvent]
    && t.up.inbox.queue == s.up.inbox.queue + MessagesOf(s.up.out.sent)
    && |t.up.out.results| == |s.up.out.sent|
    && forall id :: 0 <= id < |t.up.out.results| ==> t.up.out.results[id] == Holding(Sent)
  }

  lemma NowConnectedCanGoOn(s: S.Session)
    requires S.Inv(s) && s.phase.Connecting? && s.slot.Empty?
    ensures S.Inv(Calls.NowConnected(s)) && O.Numbered(s.up.out) && !s.up.ends.closed
  {
    Calls.HandshakeThenPoll(s);
    S.StepKeepsInv(s, S.HandshakeSucceeds);
    S.StepKeepsInv(S.Apply(s, S.HandshakeSucceeds), S.ClientPolls);
  }

  lemma ListeningCanArrive(s: S.Session) returns (steps: seq<S.Step>)
    requires S.Inv(s) && s.phase.Connecting? && s.slot.Empty?
    requires s.up.inbox.loop.Accepting? && s.up.inbox.receiverAlive
    requires forall k :: 0 <= k < |s.up.out.sent| ==> Readable(s.up.receiver, s.up.out.sent[k].body)
    ensures S.Valid(s, steps) && AllArrived(s, S.After(s, steps))
  {
    var u := Calls.NowConnected(s);
    Calls.HandshakeThenPoll(s);
    NowConnectedCanGoOn(s);
    var tasks := AllPass(u.up);
    ClientDoesAll(u, tasks);
    steps := ClientDoes(tasks);
    FirstThenRun(S.Apply(s, S.HandshakeSucceeds), S.ClientPolls, steps);
    steps := [S.ClientPolls] + steps;
    FirstThenRun(s, S.HandshakeSucceeds, steps);
    steps := [S.HandshakeSucceeds] + steps;
    EverybodyIsTold(s, After(u.up, tasks));
  }

  lemma EverybodyIsTold(s: S.Session, d: Channel)
    requires O.Numbered(s.up.out) && GotThrough(Calls.NowConnected(s).up, s.up.out.sent, d)
    ensures |d.out.results| == |s.up.out.sent|
    ensures forall id :: 0 <= id < |s.up.out.sent| ==> d.out.results[id] == Holding(Sent)
  {
    forall id | 0 <= id < |s.up.out.sent| ensures d.out.results[id] == Holding(Sent) {
      assert s.up.out.sent[id].id == id;
    }
  }

  /**
   Whatever a client has buffered while it connects can all arrive: from every state in which it still
   connects, and the server listens or has yet to take the connection, some run tells the client
   `Connected`, queues exactly the messages of all its calls for the server's user, in the order of the
   calls, and leaves `Sent` for every handle. So it can whenever the server can read them.
   */
  lemma BufferCanArrive(s: S.Session) returns (steps: seq<S.Step>)
    requires L.Reachable(s) && s.phase.Connecting? && s.slot.Empty?
    requires (s.up.inbox.loop.Accepting? || !s.serverHas) && s.up.inbox.receiverAlive
    requires forall k :: 0 <= k < |s.up.out.sent| ==> Readable(s.up.receiver, s.up.out.sent[k].body)
    ensures S.Valid(s, steps) && AllArrived(s, S.After(s, steps))
  {
    L.ReachableInv(s);
    if s.up.inbox.loop.Accepting? {
      steps := ListeningCanArrive(s);
    } else {
      Calls.ServerAcceptsListens(s);
      S.StepKeepsInv(s, S.ServerAccepts);
      steps := ListeningCanArrive(S.Apply(s, S.ServerAccepts));
      FirstThenRun(s, S.ServerAccepts, steps);
      steps := [S.ServerAccepts] + steps;
    }
  }

  /** A direction after one message went all the way and its handle was asked. */
  ghost predicate Carried(c: Channel, p: Parcel, d: Channel) {
    && d.out.sent == c.out.sent + [p]
    && d.out.answers == c.out.answers + [O.Answer(p.id, Result(Sent))]
    && d.out.results == c.out.results + [Taken(Sent)]
    && d.out.opening == c.out.opening
    && d.inbox.queue == c.inbox.queue + [I.Message(p)]
    && d.ends == c.ends && d.losses == c.losses
  }

  /** The way of one message, and then the question how it went. */
  function CarriageOf(p: Parcel): seq<Step> {
    PassageOf(p) + [Out(O.Ask(p.id))]
  }

  lemma SpawnedIsCarried(c: Channel, body: Wire)
    requires O.Numbered(c.out) && Open(c) && !c.out.retired && c.out.pending == [] && Readable(c.receiver, body)
    ensures Enabled(c, Out(O.Spawn(body)))
    ensures var (p, d) := (Parcel(|c.out.sent|, body), Apply(c, Out(O.Spawn(body))));
            Valid(d, CarriageOf(p)) && TasksAndAsks(CarriageOf(p)) && Carried(c, p, After(d, CarriageOf(p)))
  {
    var p, d := Parcel(|c.out.sent|, body), Apply(c, Out(O.Spawn(body)));
    var ask := Out(O.Ask(p.id));
    PushedComesOut(c.out.opening, p);
    PassagePasses(d, p);
    S.RunOne(Passed(d, p), ask);
    RunThenRun(d, PassageOf(p), [ask]);
    assert d.out.results[p.id := Holding(Sent)][p.id := Taken(Sent)] == c.out.results + [Taken(Sent)];
  }

  lemma ReachableBasics(s: S.Session)
    requires L.Reachable(s)
    ensures S.Shape(s) && O.Numbered(s.up.out) && O.Numbered(s.down.out)
  {
    L.ReachableInv(s);
  }

  /** A message that a connected client sends can arrive at the server's user, and its handle say `Sent`. */
  lemma ClientMessageCanArrive(s: S.Session, body: Wire) returns (steps: seq<S.Step>)
    requires L.Reachable(s) && s.phase.Connected? && Open(s.up) && Readable(s.up.receiver, body)
    ensures steps == [S.ClientSends(body)] + ClientDoes(CarriageOf(Parcel(|s.up.out.sent|, body)))
    ensures S.Valid(s, steps) && S.After(s, steps) == s.(up := S.After(s, steps).up)
    ensures Carried(s.up, Parcel(|s.up.out.sent|, body), S.After(s, steps).up)
  {
    ReachableBasics(s);
    ConnectedSendSpawns(s, body);
    SpawnedIsCarried(s.up, body);
    steps := ClientDoes(CarriageOf(Parcel(|s.up.out.sent|, body)));
    ClientDoesAll(S.Apply(s, S.ClientSends(body)), CarriageOf(Parcel(|s.up.out.sent|, body)));
    FirstThenRun(s, S.ClientSends(body), steps);
    steps := [S.ClientSends(body)] + steps;
  }

  /** A message that the server sends can get to the client's queue, and its handle say `Sent`. */
  lemma ServerMessageCanArrive(s: S.Session, body: Wire) returns (steps: seq<S.Step>)
    requires L.Reachable(s) && s.serverHas && s.up.inbox.receiverAlive
    requires Open(s.down) && Readable(s.down.receiver, body)
    ensures steps == [S.ServerSends(body)] + ServerDoes(CarriageOf(Parcel(|s.down.out.sent|, body)))
    ensures S.Valid(s, steps) && S.After(s, steps) == s.(down := S.After(s, steps).down)
    ensures Carried(s.down, Parcel(|s.down.out.sent|, body), S.After(s, steps).down)
  {
    ReachableBasics(s);
    S.ServerSendsIs(s, body);
    SpawnedIsCarried(s.down, body);
    steps := ServerDoes(CarriageOf(Parcel(|s.down.out.sent|, body)));
    ServerDoesAll(S.Apply(s, S.ServerSends(body)), CarriageOf(Parcel(|s.down.out.sent|, body)));
    FirstThenRun(s, S.ServerSends(body), steps);
    steps := [S.ServerSends(body)] + steps;
  }

  lemma ConnectedSendSpawns(s: S.Session, body: Wire)
    requires S.Shape(s) && s.phase.Connected?
    ensures S.Enabled(s, S.ClientSends(body)) && !s.up.out.retired && s.up.out.pending == []
    ensures Enabled(s.up, Out(O.Spawn(body)))
    ensures S.Apply(s, S.ClientSends(body)) == s.(up := Apply(s.up, Out(O.Spawn(body))))
  {
    S.ClientSendsIs(s, body);
    S.NoticedIs(s);
  }
}
