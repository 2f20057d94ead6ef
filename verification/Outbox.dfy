/**
 The sending side of one direction of a connection: the buffer of messages sent before the
 connection is there, the pool of send tasks, and one result channel per send call.

 A task is in the bag named after the operation it awaits. `sent`, `spawned` and `answers` are
 histories. All steps may interleave in any order.
 */
module Outboxes {
  import opened Options
  import opened Cloneless
  import opened Sending
  import Bags

  datatype Answer = Answer(id: nat, state: SendingState)

  datatype Outbox = Outbox(
    sent: seq<Parcel>,
    spawned: seq<Parcel>,
    pending: seq<Parcel>,
    opening: seq<Parcel>,
    writing: seq<Parcel>,
    stopping: seq<Parcel>,
    results: seq<Oneshot>,
    answers: seq<Answer>,
    retired: bool)

  const EMPTY_OUTBOX := Outbox([], [], [], [], [], [], [], [], false)

  /** The operation a send task awaits. */
  datatype Stage = Opening | Writing | Stopping

  /** How a send task ends: its `send_message` returns (`None` is success) or it panics. */
  datatype TaskEnd = Returned(error: Option<SendingError>) | Panicked

  /**
   Why messages still buffered are given up: the user called `disconnect`, a timeout was noticed, or
   the object that holds the buffer was dropped.
   */
  datatype Parting = Quits | TimesOut | IsDropped

  /** What that leaves in the channels of the buffered calls: only `disconnect` sends a result. */
  function LeftWhen(why: Parting): Oneshot {
    if why.Quits? then Holding(WeClosed) else SenderGone
  }

  datatype OutStep =
    // what the user's calls do
    | Buffer(body: Wire)
    | Spawn(body: Wire)
    | Refuse(body: Wire, why: SendingResult)
    | Flush
    | Abandon(parting: Parting)
    | Retire
    | Ask(id: nat)
    // what the send tasks do
    | Moves(p: Parcel, stage: Stage)
    | Ends(p: Parcel, stage: Stage, end: TaskEnd)

  predicate IsTaskStep(step: OutStep) {
    step.Moves? || step.Ends?
  }

  function Bag(o: Outbox, stage: Stage): seq<Parcel> {
    match stage
    case Opening => o.opening
    case Writing => o.writing
    case Stopping => o.stopping
  }

  /** Which ends are possible while awaiting what: serializing and finishing may panic. */
  predicate EndsAt(end: TaskEnd, stage: Stage) {
    match stage
    case Opening => end.Panicked? || (end.error.Some? && end.error.value.OpenUni?)
    case Writing => end.Panicked? || (end.error.Some? && end.error.value.WriteAll?)
    case Stopping => end.Returned? && (end.error.Some? ==> end.error.value.Stopped?)
  }

  /** What an ended task leaves in the channel of its call. */
  function LeftBy(end: TaskEnd): Oneshot {
    match end
    case Returned(error) => Holding(FromResult(error))
    case Panicked => SenderGone
  }

  /** The result channels after the senders of all of `ps` did the same thing, first to last. */
  function SettleAll(results: seq<Oneshot>, ps: seq<Parcel>, cell: Oneshot): (r: seq<Oneshot>)
    ensures |r| == |results|
  {
    if ps == [] then results
    else
      var before := SettleAll(results, ps[..|ps| - 1], cell);
      var p := ps[|ps| - 1];
      if p.id < |results| then before[p.id := cell] else before
  }

  function NextParcel(o: Outbox, body: Wire): Parcel {
    Parcel(|o.sent|, body)
  }

  predicate Enabled(o: Outbox, step: OutStep) {
    match step
    case Buffer(_) => !o.retired
    case Spawn(_) => !o.retired && o.pending == []
    case Refuse(_, _) => o.retired
    case Flush => !o.retired
    case Abandon(_) => !o.retired
    case Retire => o.pending == []
    case Ask(id) => id < |o.results| && !o.results[id].Taken?
    case Moves(p, stage) => Bags.Has(Bag(o, stage), p) && !stage.Stopping?
    case Ends(p, stage, end) => Bags.Has(Bag(o, stage), p) && EndsAt(end, stage) && p.id < |o.results|
  }

  function Moved(o: Outbox, p: Parcel, stage: Stage): Outbox
    requires Bags.Has(Bag(o, stage), p) && !stage.Stopping?
  {
    if stage.Opening? then
      o.(opening := Bags.Without(o.opening, p), writing := o.writing + [p])
    else
      o.(writing := Bags.Without(o.writing, p), stopping := o.stopping + [p])
  }

  function Removed(o: Outbox, p: Parcel, stage: Stage): Outbox
    requires Bags.Has(Bag(o, stage), p)
  {
    match stage
    case Opening => o.(opening := Bags.Without(o.opening, p))
    case Writing => o.(writing := Bags.Without(o.writing, p))
    case Stopping => o.(stopping := Bags.Without(o.stopping, p))
  }

  function Apply(o: Outbox, step: OutStep): Outbox
    requires Enabled(o, step)
  {
    match step
    case Buffer(body) =>
      var p := NextParcel(o, body);
      o.(sent := o.sent + [p], pending := o.pending + [p], results := o.results + [Waiting])
    case Spawn(body) =>
      var p := NextParcel(o, body);
      o.(sent := o.sent + [p], spawned := o.spawned + [p], opening := o.opening + [p],
         results := o.results + [Waiting])
    case Refuse(body, why) =>
      o.(sent := o.sent + [NextParcel(o, body)], results := o.results + [Holding(why)])
    case Flush =>
      o.(spawned := o.spawned + o.pending, opening := o.opening + o.pending, pending := [])
    case Abandon(parting) =>
      o.(pending := [], results := SettleAll(o.results, o.pending, LeftWhen(parting)), retired := true)
    case Retire => o.(retired := true)
    case Ask(id) =>
      o.(results := o.results[id := AfterAsking(o.results[id])],
         answers := o.answers + [Answer(id, AnswerOf(o.results[id]))])
    case Moves(p, stage) => Moved(o, p, stage)
    case Ends(p, stage, end) => Removed(o, p, stage).(results := o.results[p.id := LeftBy(end)])
  }

  ghost predicate Valid(o: Outbox, steps: seq<OutStep>)
    decreases |steps|
  {
    steps == [] || (Enabled(o, steps[0]) && Valid(Apply(o, steps[0]), steps[1..]))
  }

  ghost function After(o: Outbox, steps: seq<OutStep>): Outbox
    requires Valid(o, steps)
    decreases |steps|
  {
    if steps == [] then o else After(Apply(o, steps[0]), steps[1..])
  }

  // ---------------------------------------------------------------------------------------------
  // Invariant
  // ---------------------------------------------------------------------------------------------

  /** How many senders of the result channel of `p` there are. */
  ghost function Senders(o: Outbox, p: Parcel): nat {
    Bags.Count(o.pending, p) + Bags.Count(o.opening, p) + Bags.Count(o.writing, p) + Bags.Count(o.stopping, p)
  }

  ghost predicate IsSent(o: Outbox, p: Parcel) {
    p.id < |o.sent| && o.sent[p.id] == p
  }

  ghost predicate Awaited(o: Outbox, p: Parcel) {
    p.id < |o.results| && IsSent(o, p) && o.results[p.id].Waiting?
  }

  /** Calls are numbered in order and each has one result channel. */
  ghost predicate Numbered(o: Outbox) {
    |o.results| == |o.sent| && forall i :: 0 <= i < |o.sent| ==> o.sent[i].id == i
  }

  /** A result channel waits exactly as long as its one sender is buffered or owned by a task. */
  ghost predicate OneSenderEach(o: Outbox) {
    forall p: Parcel :: Senders(o, p) == if Awaited(o, p) then 1 else 0
  }

  /** Spawned tasks, then the buffer, are the first calls, in order; all of them until retired. */
  ghost predicate InOrder(o: Outbox) {
    && o.spawned + o.pending <= o.sent
    && (!o.retired ==> o.spawned + o.pending == o.sent)
    && (o.retired ==> o.pending == [])
  }

  /** At most one `Result` per handle, nothing after it, and it is what the channel held. */
  ghost predicate AnswersAgree(o: Outbox) {
    && (forall k :: 0 <= k < |o.answers| ==> o.answers[k].id < |o.results|)
    && (forall j, k :: 0 <= j < k < |o.answers| && o.answers[j].id == o.answers[k].id ==>
          o.answers[j].state.StillBeingSent?)
    && (forall k :: 0 <= k < |o.answers| && o.answers[k].state.Result? ==>
          o.results[o.answers[k].id] == Taken(o.answers[k].state.result))
    && (forall i :: 0 <= i < |o.results| && o.results[i].Taken? ==>
          Answer(i, Result(o.results[i].result)) in o.answers)
  }

  ghost predicate Inv(o: Outbox) {
    Numbered(o) && OneSenderEach(o) && InOrder(o) && AnswersAgree(o)
  }

  lemma {:induction false} SettleAllAt(results: seq<Oneshot>, ps: seq<Parcel>, cell: Oneshot, i: nat)
    requires i < |results|
    ensures SettleAll(results, ps, cell)[i]
         == if exists k :: 0 <= k < |ps| && ps[k].id == i then cell else results[i]
  {
    if ps != [] {
      var rest, n := ps[..|ps| - 1], |ps| - 1;
      SettleAllAt(results, rest, cell, i);
      if exists k :: 0 <= k < |rest| && rest[k].id == i {
        var k :| 0 <= k < |rest| && rest[k].id == i;
        assert ps[k].id == i;
      } else if ps[n].id != i {
        forall k | 0 <= k < |ps| ensures ps[k].id != i {
          assert k < n ==> ps[k] == rest[k];
        }
      }
    }
  }

  /** A buffered parcel is known by its number. */
  lemma PendingIsSent(o: Outbox, k: nat)
    requires Numbered(o) && OneSenderEach(o) && k < |o.pending|
    ensures Awaited(o, o.pending[k])
  {
    Bags.CountPositive(o.pending, o.pending[k]);
    assert Senders(o, o.pending[k]) > 0;
  }

  lemma DrainPendingKeepsOneSenderEach(o: Outbox, cell: Oneshot, o': Outbox)
    requires Numbered(o) && OneSenderEach(o) && !cell.Waiting?
    requires o'.pending == [] && o'.results == SettleAll(o.results, o.pending, cell)
    requires o'.sent == o.sent && o'.opening == o.opening && o'.writing == o.writing && o'.stopping == o.stopping
    ensures OneSenderEach(o')
  {
    forall p: Parcel ensures Senders(o', p) == if Awaited(o', p) then 1 else 0 {
      assert Senders(o, p) == if Awaited(o, p) then 1 else 0;
      if IsSent(o, p) {
        SettleAllAt(o.results, o.pending, cell, p.id);
        Bags.CountPositive(o.pending, p);
        if p in o.pending {
        } else if k: nat :| k < |o.pending| && o.pending[k].id == p.id {
          PendingIsSent(o, k);
        }
      }
    }
  }

  lemma {:induction false} SettleAllKeepsTaken(o: Outbox, cell: Oneshot)
    requires Numbered(o) && OneSenderEach(o) && !cell.Taken?
    ensures forall i :: 0 <= i < |o.results| ==>
              var r := SettleAll(o.results, o.pending, cell);
              Settles(o.results[i], r[i]) && (r[i].Taken? <==> o.results[i].Taken?)
  {
    forall i | 0 <= i < |o.results|
      ensures var r := SettleAll(o.results, o.pending, cell);
              Settles(o.results[i], r[i]) && (r[i].Taken? <==> o.results[i].Taken?)
    {
      SettleAllAt(o.results, o.pending, cell, i);
      if k: nat :| k < |o.pending| && o.pending[k].id == i {
        PendingIsSent(o, k);
      }
    }
  }

  /** The parcel a task step is about is owned by exactly one task, and its channel is waiting. */
  lemma TaskParcelIsAwaited(o: Outbox, p: Parcel, stage: Stage)
    requires Numbered(o) && OneSenderEach(o) && Bags.Has(Bag(o, stage), p)
    ensures Awaited(o, p) && Senders(o, p) == 1
  {
    assert Senders(o, p) == if Awaited(o, p) then 1 else 0;
  }

  /** A call that adds `p` with a waiting channel adds exactly one sender, that of `p`. */
  lemma NewCallAddsOneSender(o: Outbox, p: Parcel, o': Outbox, q: Parcel)
    requires Numbered(o) && p.id == |o.sent|
    requires Senders(o, q) == if Awaited(o, q) then 1 else 0
    requires o'.sent == o.sent + [p] && o'.results == o.results + [Waiting]
    requires Senders(o', q) == Senders(o, q) + if p == q then 1 else 0
    ensures Senders(o', q) == if Awaited(o', q) then 1 else 0
  {
    if q.id < |o.sent| {
      assert o'.sent[q.id] == o.sent[q.id] && o'.results[q.id] == o.results[q.id];
    } else if q.id == |o.sent| {
      assert o'.sent[q.id] == p;
    }
  }

  lemma UserStepMovesSenders(o: Outbox, step: OutStep, q: Parcel)
    requires Numbered(o) && Enabled(o, step) && !IsTaskStep(step) && !step.Abandon?
    requires Senders(o, q) == if Awaited(o, q) then 1 else 0
    ensures Senders(Apply(o, step), q) == if Awaited(Apply(o, step), q) then 1 else 0
  {
    var o' := Apply(o, step);
    match step
    case Buffer(body) =>
      var p := NextParcel(o, body);
      Bags.CountPush(o.pending, p, q);
      NewCallAddsOneSender(o, p, o', q);
    case Spawn(body) =>
      Bags.CountPush(o.opening, NextParcel(o, body), q);
      NewCallAddsOneSender(o, NextParcel(o, body), o', q);
    case Refuse(body, why) =>
      assert q.id < |o.sent| ==> o'.sent[q.id] == o.sent[q.id];
    case Flush => Bags.CountConcat(o.opening, o.pending, q);
    case Retire =>
    case Ask(_) =>
  }

  lemma RemovedLosesOneSender(o: Outbox, p: Parcel, stage: Stage, q: Parcel)
    requires Bags.Has(Bag(o, stage), p)
    ensures Senders(Removed(o, p, stage), q) == Senders(o, q) - if p == q then 1 else 0
  {
    Bags.CountWithout(Bag(o, stage), p, q);
  }

  lemma MovedKeepsSenders(o: Outbox, p: Parcel, stage: Stage, q: Parcel)
    requires Bags.Has(Bag(o, stage), p) && !stage.Stopping?
    ensures Senders(Moved(o, p, stage), q) == Senders(o, q)
  {
    Bags.CountWithout(Bag(o, stage), p, q);
    Bags.CountPush(if stage.Opening? then o.writing else o.stopping, p, q);
  }

  lemma TaskStepMovesSenders(o: Outbox, step: OutStep, q: Parcel)
    requires Numbered(o) && Enabled(o, step) && IsTaskStep(step)
    requires Awaited(o, step.p) && Senders(o, step.p) == 1
    requires Senders(o, q) == if Awaited(o, q) then 1 else 0
    ensures Senders(Apply(o, step), q) == if Awaited(Apply(o, step), q) then 1 else 0
  {
    match step
    case Moves(p, stage) =>
      MovedKeepsSenders(o, p, stage, q);
      assert Awaited(Apply(o, step), q) == Awaited(o, q);
    case Ends(p, stage, end) =>
      RemovedLosesOneSender(o, p, stage, q);
      assert Senders(Apply(o, step), q) == Senders(Removed(o, p, stage), q);
      assert Awaited(Apply(o, step), q) == (p != q && Awaited(o, q));
  }

  lemma StepKeepsOneSenderEach(o: Outbox, step: OutStep)
    requires Inv(o) && Enabled(o, step)
    ensures OneSenderEach(Apply(o, step))
  {
    var o' := Apply(o, step);
    if step.Abandon? {
      DrainPendingKeepsOneSenderEach(o, LeftWhen(step.parting), o');
    } else {
      forall p: Parcel ensures Senders(o', p) == if Awaited(o', p) then 1 else 0 {
        if IsTaskStep(step) {
          TaskParcelIsAwaited(o, step.p, step.stage);
          TaskStepMovesSenders(o, step, p);
        } else {
          UserStepMovesSenders(o, step, p);
        }
      }
    }
  }

  /** Only asking empties a channel. */
  lemma StepKeepsTaken(o: Outbox, step: OutStep)
    requires Inv(o) && Enabled(o, step) && !step.Ask?
    ensures var o' := Apply(o, step);
            && o'.answers == o.answers
            && |o.results| <= |o'.results|
            && (forall i :: 0 <= i < |o.results| && o.results[i].Taken? ==> o'.results[i] == o.results[i])
            && (forall i :: 0 <= i < |o'.results| && o'.results[i].Taken? ==>
                  i < |o.results| && o.results[i].Taken?)
  {
    if IsTaskStep(step) {
      TaskParcelIsAwaited(o, step.p, step.stage);
    } else if step.Abandon? {
      SettleAllKeepsTaken(o, LeftWhen(step.parting));
    }
  }

  lemma AskKeepsAnswersAgree(o: Outbox, id: nat)
    requires Inv(o) && Enabled(o, Ask(id))
    ensures AnswersAgree(Apply(o, Ask(id)))
  {
    var o' := Apply(o, Ask(id));
    var n := |o.answers|;
    assert o'.answers[n] == Answer(id, AnswerOf(o.results[id]));
    forall i | 0 <= i < |o'.results| && o'.results[i].Taken?
      ensures Answer(i, Result(o'.results[i].result)) in o'.answers
    {
      if i == id {
        assert o'.answers[n] == Answer(i, Result(o'.results[i].result));
      } else {
        assert Answer(i, Result(o.results[i].result)) in o.answers;
      }
    }
  }

  lemma StepKeepsAnswersAgree(o: Outbox, step: OutStep)
    requires Inv(o) && Enabled(o, step)
    ensures AnswersAgree(Apply(o, step))
  {
    if step.Ask? {
      AskKeepsAnswersAgree(o, step.id);
    } else {
      StepKeepsTaken(o, step);
      var o' := Apply(o, step);
      forall i | 0 <= i < |o'.results| && o'.results[i].Taken?
        ensures Answer(i, Result(o'.results[i].result)) in o'.answers
      {
        assert o'.results[i] == o.results[i];
      }
    }
  }

  lemma StepKeepsInOrder(o: Outbox, step: OutStep)
    requires Inv(o) && Enabled(o, step)
    ensures InOrder(Apply(o, step))
  {
    var o' := Apply(o, step);
    match step
    case Buffer(body) =>
      assert o'.spawned + o'.pending == o.spawned + o.pending + [NextParcel(o, body)];
    case Spawn(body) =>
      assert o'.spawned + o'.pending == o.spawned + o.pending + [NextParcel(o, body)];
    case Flush => assert o'.spawned + o'.pending == o.spawned + o.pending;
    case _ => assert o'.spawned + [] == o'.spawned;
  }

  lemma StepKeepsInv(o: Outbox, step: OutStep)
    requires Inv(o) && Enabled(o, step)
    ensures Inv(Apply(o, step))
  {
    StepKeepsOneSenderEach(o, step);
    StepKeepsInOrder(o, step);
    StepKeepsAnswersAgree(o, step);
  }

  lemma {:induction false} RunKeepsInv(o: Outbox, steps: seq<OutStep>)
    requires Inv(o) && Valid(o, steps)
    ensures Inv(After(o, steps))
    decreases |steps|
  {
    if steps != [] {
      StepKeepsInv(o, steps[0]);
      RunKeepsInv(Apply(o, steps[0]), steps[1..]);
    }
  }

  // ---------------------------------------------------------------------------------------------
  // Exactly-once resolution
  // ---------------------------------------------------------------------------------------------

  lemma StepSettles(o: Outbox, step: OutStep)
    requires Inv(o) && Enabled(o, step)
    ensures var o' := Apply(o, step);
            |o.results| <= |o'.results|
            && forall i :: 0 <= i < |o.results| ==> Settles(o.results[i], o'.results[i])
  {
    if IsTaskStep(step) {
      TaskParcelIsAwaited(o, step.p, step.stage);
    } else if step.Abandon? {
      SettleAllKeepsTaken(o, LeftWhen(step.parting));
    }
  }

  /** Over any run, a channel takes at most one value and is emptied at most once. */
  lemma {:induction false} RunSettles(o: Outbox, steps: seq<OutStep>)
    requires Inv(o) && Valid(o, steps)
    ensures var o' := After(o, steps);
            |o.results| <= |o'.results|
            && forall i :: 0 <= i < |o.results| ==> Settles(o.results[i], o'.results[i])
    decreases |steps|
  {
    if steps != [] {
      StepKeepsInv(o, steps[0]);
      StepSettles(o, steps[0]);
      RunSettles(Apply(o, steps[0]), steps[1..]);
    }
  }

  /** As long as nothing was spawned, giving up the buffer settles every handle there is. */
  lemma AbandonSettlesAll(o: Outbox, parting: Parting, id: nat)
    requires Inv(o) && Enabled(o, Abandon(parting)) && o.spawned == [] && id < |o.results|
    ensures o.results[id].Waiting? && Apply(o, Abandon(parting)).results[id] == LeftWhen(parting)
  {
    assert [] + o.pending == o.pending;
    PendingIsSent(o, id);
    SettleAllAt(o.results, o.pending, LeftWhen(parting), id);
  }

  /** The answers one handle gave, in order. */
  ghost function AnswersOf(answers: seq<Answer>, id: nat): seq<SendingState> {
    if answers == [] then []
    else
      var before := AnswersOf(answers[..|answers| - 1], id);
      var last := answers[|answers| - 1];
      if last.id == id then before + [last.state] else before
  }

  /** `StillBeingSent` any number of times, then possibly one result, then nothing. */
  ghost predicate AsksWell(states: seq<SendingState>) {
    forall k :: 0 <= k < |states| - 1 ==> states[k].StillBeingSent?
  }

  lemma {:induction false} AnswersOfMembers(answers: seq<Answer>, id: nat)
    ensures forall k :: 0 <= k < |AnswersOf(answers, id)| ==>
              Answer(id, AnswersOf(answers, id)[k]) in answers
    ensures forall a :: a in answers && a.id == id ==> a.state in AnswersOf(answers, id)
  {
    if answers != [] {
      var rest, last := answers[..|answers| - 1], answers[|answers| - 1];
      AnswersOfMembers(rest, id);
      assert answers == rest + [last];
    }
  }

  lemma {:induction false} AnswersOfAskWell(answers: seq<Answer>, id: nat)
    requires forall j, k :: 0 <= j < k < |answers| && answers[j].id == answers[k].id ==>
               answers[j].state.StillBeingSent?
    ensures AsksWell(AnswersOf(answers, id))
  {
    if answers != [] {
      var n := |answers| - 1;
      var rest := answers[..n];
      forall j, k | 0 <= j < k < |rest| && rest[j].id == rest[k].id
        ensures rest[j].state.StillBeingSent?
      {
        assert answers[j].id == answers[k].id;
      }
      AnswersOfAskWell(rest, id);
      AnswersOfMembers(rest, id);
      if answers[n].id == id {
        var before := AnswersOf(rest, id);
        forall k | 0 <= k < |before| ensures before[k].StillBeingSent? {
          var j :| 0 <= j < |rest| && rest[j] == Answer(id, before[k]);
          assert answers[j].id == answers[n].id;
        }
      }
    }
  }

  /**
   In every run, a handle answers `StillBeingSent` some number of times, then at most one result.
   It has given a result exactly when its channel was emptied, and then that is the last answer.
   */
  lemma EveryHandleResolvesOnce(steps: seq<OutStep>, id: nat)
    requires Valid(EMPTY_OUTBOX, steps)
    requires id < |After(EMPTY_OUTBOX, steps).results|
    ensures var o := After(EMPTY_OUTBOX, steps);
            var states := AnswersOf(o.answers, id);
            && AsksWell(states)
            && (o.results[id].Taken? <==> states != [] && states[|states| - 1].Result?)
            && (o.results[id].Taken? ==> states[|states| - 1] == Result(o.results[id].result))
  {
    RunKeepsInv(EMPTY_OUTBOX, steps);
    ResolvedOnce(After(EMPTY_OUTBOX, steps), id);
  }

  lemma ResolvedOnce(o: Outbox, id: nat)
    requires AnswersAgree(o) && id < |o.results|
    ensures var states := AnswersOf(o.answers, id);
            && AsksWell(states)
            && (o.results[id].Taken? <==> states != [] && states[|states| - 1].Result?)
            && (o.results[id].Taken? ==> states[|states| - 1] == Result(o.results[id].result))
  {
    AnswersOfAskWell(o.answers, id);
    AnswersOfMembers(o.answers, id);
    var states := AnswersOf(o.answers, id);
    if o.results[id].Taken? {
      var r := Result(o.results[id].result);
      assert Answer(id, r) in o.answers;
      assert Answer(id, r).state in states;
      var k :| 0 <= k < |states| && states[k] == r;
      assert k == |states| - 1;
    } else if states != [] {
      assert Answer(id, states[|states| - 1]) in o.answers;
    }
  }

  // ---------------------------------------------------------------------------------------------
  // Quiescence
  // ---------------------------------------------------------------------------------------------

  /** How many operations the send tasks still await. */
  ghost function Remaining(o: Outbox): nat {
    3 * |o.opening| + 2 * |o.writing| + |o.stopping|
  }

  lemma TaskStepProgresses(o: Outbox, step: OutStep)
    requires Enabled(o, step) && IsTaskStep(step)
    ensures Remaining(Apply(o, step)) < Remaining(o)
  {
    Bags.WithoutLength(Bag(o, step.stage), step.p);
  }

  /** However the tasks are scheduled, they make no more steps than there are operations left. */
  lemma {:induction false} TaskRunsAreFinite(o: Outbox, steps: seq<OutStep>)
    requires Valid(o, steps) && forall k :: 0 <= k < |steps| ==> IsTaskStep(steps[k])
    ensures |steps| + Remaining(After(o, steps)) <= Remaining(o)
    decreases |steps|
  {
    if steps != [] {
      TaskStepProgresses(o, steps[0]);
      TaskRunsAreFinite(Apply(o, steps[0]), steps[1..]);
    }
  }

  /** Once no message is buffered and no task is left, every handle has its answer. */
  lemma NoTaskNoWaiting(o: Outbox)
    requires Inv(o)
    requires o.pending == [] && Remaining(o) == 0
    ensures forall i :: 0 <= i < |o.results| ==> !o.results[i].Waiting?
  {
    forall i | 0 <= i < |o.results| ensures !o.results[i].Waiting? {
      assert Senders(o, o.sent[i]) == if Awaited(o, o.sent[i]) then 1 else 0;
    }
  }

  // ---------------------------------------------------------------------------------------------
  // The send function as one piece of code
  // ---------------------------------------------------------------------------------------------

  /** What `send_message` returns when its three awaits end this way; `None` is success. */
  function SendOutcome(open: Option<ConnectionError>, write: Option<WriteError>, stop: Option<StoppedError>)
    : Option<SendingError>
  {
    if open.Some? then Some(OpenUni(open.value))
    else if write.Some? then Some(WriteAll(write.value))
    else if stop.Some? then Some(Stopped(stop.value))
    else None
  }

  /** `send_message`, given how each await ends. `began` and `finished` say what it did to a stream. */
  method SendMessage(open: Option<ConnectionError>, write: Option<WriteError>, stop: Option<StoppedError>)
    returns (error: Option<SendingError>, began: bool, finished: bool)
    ensures error == SendOutcome(open, write, stop)
    ensures began <==> open.None?
    ensures finished <==> open.None? && write.None?
    ensures FromResult(error).Sent? <==> finished && stop.None?
    // which error, and what the call's handle will say of it
    ensures open.Some? ==> error == Some(OpenUni(open.value)) && FromResult(error) == FromConnectionError(open.value)
    ensures open.None? && write.Some? ==>
              && error == Some(WriteAll(write.value))
              && FromResult(error) == if write.value.WriteConnectionLost? then FromConnectionError(write.value.error)
                                      else SendingResult.Error
    ensures open.None? && write.None? && stop.Some? ==>
              && error == Some(Stopped(stop.value))
              && FromResult(error) == if stop.value.StoppedConnectionLost? then FromConnectionError(stop.value.error)
                                      else SendingResult.Error
  {
    began, finished := false, false;
    if open.Some? {
      return Some(OpenUni(open.value)), began, finished;
    }
    began := true;
    if write.Some? {
      return Some(WriteAll(write.value)), began, finished;
    }
    finished := true;
    if stop.Some? {
      return Some(Stopped(stop.value)), began, finished;
    }
    error := None;
  }

  /** The same awaits as steps of a task among others. */
  function TaskTrace(p: Parcel, open: Option<ConnectionError>, write: Option<WriteError>, stop: Option<StoppedError>)
    : seq<OutStep>
  {
    var end := Returned(SendOutcome(open, write, stop));
    if open.Some? then [Ends(p, Opening, end)]
    else if write.Some? then [Moves(p, Opening), Ends(p, Writing, end)]
    else [Moves(p, Opening), Moves(p, Writing), Ends(p, Stopping, end)]
  }

  /** The task of `p` is done and left `left`; nothing else changed. */
  ghost predicate TaskDone(o: Outbox, p: Parcel, left: Oneshot, o': Outbox) {
    && Bags.Has(o.opening, p) && p.id < |o.results|
    && o' == o.(opening := Bags.Without(o.opening, p), results := o.results[p.id := left])
  }

  /** Run alone, the staged task leaves in its channel what the straight-line code returns. */
  lemma TaskTraceIsSendMessage(o: Outbox, p: Parcel,
      open: Option<ConnectionError>, write: Option<WriteError>, stop: Option<StoppedError>)
    requires Inv(o) && Bags.Has(o.opening, p)
    ensures var steps := TaskTrace(p, open, write, stop);
            && Valid(o, steps)
            && TaskDone(o, p, Holding(FromResult(SendOutcome(open, write, stop))), After(o, steps))
  {
    TaskParcelIsAwaited(o, p, Opening);
    var end := Returned(SendOutcome(open, write, stop));
    if open.Some? {
      RunOne(o, Ends(p, Opening, end));
    } else if write.Some? {
      TraceEndingInWriting(o, p, end);
    } else {
      TraceEndingInStopping(o, p, end);
    }
  }

  lemma TraceEndingInWriting(o: Outbox, p: Parcel, end: TaskEnd)
    requires Bags.Has(o.opening, p) && p.id < |o.results| && EndsAt(end, Writing)
    ensures var steps := [Moves(p, Opening), Ends(p, Writing, end)];
            Valid(o, steps) && TaskDone(o, p, LeftBy(end), After(o, steps))
  {
    Bags.CountPush(o.writing, p, p);
    assert Bags.Without(o.writing + [p], p) == o.writing;
    RunTwo(o, Moves(p, Opening), Ends(p, Writing, end));
  }

  lemma TraceEndingInStopping(o: Outbox, p: Parcel, end: TaskEnd)
    requires Bags.Has(o.opening, p) && p.id < |o.results| && EndsAt(end, Stopping)
    ensures var steps := [Moves(p, Opening), Moves(p, Writing), Ends(p, Stopping, end)];
            Valid(o, steps) && TaskDone(o, p, LeftBy(end), After(o, steps))
  {
    Bags.CountPush(o.writing, p, p);
    Bags.CountPush(o.stopping, p, p);
    assert Bags.Without(o.writing + [p], p) == o.writing;
    assert Bags.Without(o.stopping + [p], p) == o.stopping;
    RunThree(o, Moves(p, Opening), Moves(p, Writing), Ends(p, Stopping, end));
  }

  lemma RunOne(o: Outbox, step: OutStep)
    requires Enabled(o, step)
    ensures Valid(o, [step]) && After(o, [step]) == Apply(o, step)
  {
    assert [step][1..] == [];
  }

  lemma RunTwo(o: Outbox, first: OutStep, second: OutStep)
    requires Enabled(o, first) && Enabled(Apply(o, first), second)
    ensures Valid(o, [first, second]) && After(o, [first, second]) == Apply(Apply(o, first), second)
  {
    assert [first, second][1..] == [second];
    RunOne(Apply(o, first), second);
  }

  lemma RunThree(o: Outbox, first: OutStep, second: OutStep, third: OutStep)
    requires Enabled(o, first) && Enabled(Apply(o, first), second)
    requires Enabled(Apply(Apply(o, first), second), third)
    ensures Valid(o, [first, second, third])
    ensures After(o, [first, second, third]) == Apply(Apply(Apply(o, first), second), third)
  {
    assert [first, second, third][1..] == [second, third];
    RunTwo(Apply(o, first), second, third);
  }
}
