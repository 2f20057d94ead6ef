/**
 Waiting for disconnections: each `disconnect` of a connected end spawns a task that waits until
 the endpoint is idle and then meets the user at a barrier of two. The wait at the barrier blocks
 the thread, so a task that arrived first keeps a worker of the runtime until its user comes.

 All connections of a server share one endpoint. The user is one thread that runs `program`.
 */
module Rendezvous {

  /** A connection of the endpoint: open on this side, closed by this side and draining, or gone. */
  datatype Link = Alive | Draining | Gone

  /** The task of a disconnection handle. */
  datatype Task = AwaitingIdle | AtBarrier | Finished

  datatype Op = Disconnect(link: nat) | Wait(handle: nat)

  /** `born` is a history: how many connections there were when the task was spawned. */
  datatype State = State(
    workers: nat,
    links: seq<Link>,
    tasks: seq<Task>,
    born: seq<nat>,
    program: seq<Op>)

  datatype Step =
    // the user
    | UserDisconnects
    | Meet
    // tasks of the runtime
    | Arrives(handle: nat)
    | Drains(link: nat)
    // the network
    | PeerEnds(link: nat)
    | NewLink

  function CountTasks(tasks: seq<Task>, t: Task): nat {
    if tasks == [] then 0
    else CountTasks(tasks[..|tasks| - 1], t) + if tasks[|tasks| - 1] == t then 1 else 0
  }

  /** How many workers are blocked. */
  function Occupied(s: State): nat {
    CountTasks(s.tasks, AtBarrier)
  }

  predicate FreeWorker(s: State) {
    Occupied(s) < s.workers
  }

  predicate Idle(s: State) {
    forall c :: 0 <= c < |s.links| ==> s.links[c] == Gone
  }

  predicate Enabled(s: State, step: Step) {
    match step
    case UserDisconnects => s.program != [] && s.program[0].Disconnect? && s.program[0].link < |s.links|
    case Meet =>
      && s.program != [] && s.program[0].Wait?
      && s.program[0].handle < |s.tasks| && s.tasks[s.program[0].handle] == AtBarrier
    case Arrives(h) => h < |s.tasks| && s.tasks[h] == AwaitingIdle && Idle(s) && FreeWorker(s)
    case Drains(c) => c < |s.links| && s.links[c] == Draining && FreeWorker(s)
    case PeerEnds(c) => c < |s.links| && s.links[c] == Alive && FreeWorker(s)
    case NewLink => FreeWorker(s)
  }

  function Apply(s: State, step: Step): State
    requires Enabled(s, step)
  {
    match step
    case UserDisconnects =>
      var c := s.program[0].link;
      s.(links := if s.links[c] == Alive then s.links[c := Draining] else s.links,
         tasks := s.tasks + [AwaitingIdle],
         born := s.born + [|s.links|],
         program := s.program[1..])
    case Meet => s.(tasks := s.tasks[s.program[0].handle := Finished], program := s.program[1..])
    case Arrives(h) => s.(tasks := s.tasks[h := AtBarrier])
    case Drains(c) => s.(links := s.links[c := Gone])
    case PeerEnds(c) => s.(links := s.links[c := Gone])
    case NewLink => s.(links := s.links + [Alive])
  }

  /** Steps this side makes by itself. */
  predicate IsLocal(step: Step) {
    !step.PeerEnds? && !step.NewLink?
  }

  ghost predicate Valid(s: State, steps: seq<Step>)
    decreases |steps|
  {
    steps == [] || (Enabled(s, steps[0]) && Valid(Apply(s, steps[0]), steps[1..]))
  }

  ghost function After(s: State, steps: seq<Step>): State
    requires Valid(s, steps)
    decreases |steps|
  {
    if steps == [] then s else After(Apply(s, steps[0]), steps[1..])
  }

  ghost predicate AllLocal(steps: seq<Step>) {
    forall k :: 0 <= k < |steps| ==> IsLocal(steps[k])
  }

  /** The program goes on, but neither the user nor the runtime can. */
  ghost predicate Stuck(s: State) {
    s.program != [] && forall step: Step :: IsLocal(step) ==> !Enabled(s, step)
  }

  // ---------------------------------------------------------------------------------------------
  // Counting
  // ---------------------------------------------------------------------------------------------

  lemma {:induction false} CountUpdate(tasks: seq<Task>, h: nat, t: Task, x: Task)
    requires h < |tasks|
    ensures CountTasks(tasks[h := t], x)
         == CountTasks(tasks, x) - (if tasks[h] == x then 1 else 0) + (if t == x then 1 else 0)
  {
    var n := |tasks| - 1;
    if h < n {
      CountUpdate(tasks[..n], h, t, x);
      assert tasks[h := t][..n] == tasks[..n][h := t];
    } else {
      assert tasks[h := t][..n] == tasks[..n];
    }
  }

  lemma CountPush(tasks: seq<Task>, t: Task, x: Task)
    ensures CountTasks(tasks + [t], x) == CountTasks(tasks, x) + if t == x then 1 else 0
  {
    assert (tasks + [t])[..|tasks|] == tasks;
  }

  lemma {:induction false} CountPositive(tasks: seq<Task>, h: nat)
    requires h < |tasks|
    ensures CountTasks(tasks, tasks[h]) > 0
  {
    if h < |tasks| - 1 {
      CountPositive(tasks[..|tasks| - 1], h);
    }
  }

  lemma {:induction false} CountZero(tasks: seq<Task>, x: Task)
    requires forall h :: 0 <= h < |tasks| ==> tasks[h] != x
    ensures CountTasks(tasks, x) == 0
  {
    if tasks != [] {
      CountZero(tasks[..|tasks| - 1], x);
    }
  }

  /** Tasks that are not finished. */
  function Outstanding(tasks: seq<Task>): nat {
    CountTasks(tasks, AwaitingIdle) + CountTasks(tasks, AtBarrier)
  }

  /**
   The largest number of barriers outstanding at a wait of the program, if `out` of them are now:
   a disconnect makes one more, and a wait that returns leaves one less.
   */
  function Peak(out: nat, program: seq<Op>): nat
    decreases |program|
  {
    if program == [] then 0
    else if program[0].Disconnect? then Peak(out + 1, program[1..])
    else
      var later := Peak(if out > 0 then out - 1 else 0, program[1..]);
      if out > later then out else later
  }

  /** The peak of what is still to come. */
  function PeakOf(s: State): nat {
    Peak(Outstanding(s.tasks), s.program)
  }

  // ---------------------------------------------------------------------------------------------
  // Programs that make sense
  // ---------------------------------------------------------------------------------------------

  /** From `made` handles on, the program waits for each handle at most once and only once it exists. */
  ghost predicate Sensible(program: seq<Op>, made: nat, finished: set<nat>, links: nat)
    decreases |program|
  {
    program == []
    || (match program[0]
        case Disconnect(c) => c < links && Sensible(program[1..], made + 1, finished, links)
        case Wait(h) => h < made && h !in finished && Sensible(program[1..], made, finished + {h}, links))
  }

  ghost function FinishedHandles(tasks: seq<Task>): set<nat> {
    set h | 0 <= h < |tasks| && tasks[h] == Finished
  }

  ghost predicate Inv(s: State) {
    && |s.born| == |s.tasks|
    && Sensible(s.program, |s.tasks|, FinishedHandles(s.tasks), |s.links|)
    && Occupied(s) <= s.workers
    && (forall h :: 0 <= h < |s.born| ==> s.born[h] <= |s.links|)
    && forall h, c :: 0 <= h < |s.tasks| && s.tasks[h] != AwaitingIdle && 0 <= c < s.born[h] ==> s.links[c] == Gone
  }

  lemma {:induction false} SensibleMoreLinks(program: seq<Op>, made: nat, finished: set<nat>, links: nat)
    requires Sensible(program, made, finished, links)
    ensures Sensible(program, made, finished, links + 1)
    decreases |program|
  {
    if program != [] {
      match program[0]
      case Disconnect(_) => SensibleMoreLinks(program[1..], made + 1, finished, links);
      case Wait(h) => SensibleMoreLinks(program[1..], made, finished + {h}, links);
    }
  }

  lemma StepKeepsSensible(s: State, step: Step)
    requires Inv(s) && Enabled(s, step)
    ensures var t := Apply(s, step); Sensible(t.program, |t.tasks|, FinishedHandles(t.tasks), |t.links|)
  {
    var t := Apply(s, step);
    match step
    case UserDisconnects => assert FinishedHandles(t.tasks) == FinishedHandles(s.tasks);
    case Meet => assert FinishedHandles(t.tasks) == FinishedHandles(s.tasks) + {s.program[0].handle};
    case Arrives(_) => assert FinishedHandles(t.tasks) == FinishedHandles(s.tasks);
    case NewLink => SensibleMoreLinks(s.program, |s.tasks|, FinishedHandles(s.tasks), |s.links|);
    case _ =>
  }

  lemma StepCounts(s: State, step: Step)
    requires Enabled(s, step)
    ensures var t := Apply(s, step);
            && CountTasks(t.tasks, AtBarrier)
            == CountTasks(s.tasks, AtBarrier) + (if step.Arrives? then 1 else if step.Meet? then -1 else 0)
            && CountTasks(t.tasks, AwaitingIdle)
            == CountTasks(s.tasks, AwaitingIdle)
            + (if step.UserDisconnects? then 1 else if step.Arrives? then -1 else 0)
  {
    match step
    case UserDisconnects =>
      CountPush(s.tasks, AwaitingIdle, AtBarrier);
      CountPush(s.tasks, AwaitingIdle, AwaitingIdle);
    case Meet =>
      CountUpdate(s.tasks, s.program[0].handle, Finished, AtBarrier);
      CountUpdate(s.tasks, s.program[0].handle, Finished, AwaitingIdle);
    case Arrives(h) =>
      CountUpdate(s.tasks, h, AtBarrier, AtBarrier);
      CountUpdate(s.tasks, h, AtBarrier, AwaitingIdle);
    case _ =>
  }

  lemma StepKeepsInv(s: State, step: Step)
    requires Inv(s) && Enabled(s, step)
    ensures Inv(Apply(s, step))
  {
    StepKeepsSensible(s, step);
    StepCounts(s, step);
  }

  lemma {:induction false} RunKeepsInv(s: State, steps: seq<Step>)
    requires Inv(s) && Valid(s, steps)
    ensures Inv(After(s, steps))
    decreases |steps|
  {
    if steps != [] {
      StepKeepsInv(s, steps[0]);
      RunKeepsInv(Apply(s, steps[0]), steps[1..]);
    }
  }

  // ---------------------------------------------------------------------------------------------
  // What a run leaves, told by its steps
  // ---------------------------------------------------------------------------------------------

  /** How many operations of the program a run has done. */
  function Done(steps: seq<Step>): nat {
    if steps == [] then 0 else (if steps[0].UserDisconnects? || steps[0].Meet? then 1 else 0) + Done(steps[1..])
  }

  /** The user does its program in order, each operation by one step. */
  lemma {:induction false} ProgramIsDoneInOrder(s: State, steps: seq<Step>)
    requires Valid(s, steps)
    ensures Done(steps) <= |s.program| && After(s, steps).program == s.program[Done(steps)..]
    decreases |steps|
  {
    if steps != [] {
      ProgramIsDoneInOrder(Apply(s, steps[0]), steps[1..]);
    }
  }

  /** The steps that end a connection: it drained after this side closed it, or its peer ended it. */
  predicate EndsLink(step: Step, c: nat) {
    step == Drains(c) || step == PeerEnds(c)
  }

  ghost predicate LinkEndsIn(steps: seq<Step>, c: nat) {
    exists k :: 0 <= k < |steps| && EndsLink(steps[k], c)
  }

  lemma FirstOrLater(steps: seq<Step>, c: nat)
    requires steps != []
    ensures LinkEndsIn(steps, c) <==> EndsLink(steps[0], c) || LinkEndsIn(steps[1..], c)
  {
    if LinkEndsIn(steps[1..], c) {
      var k :| 0 <= k < |steps[1..]| && EndsLink(steps[1..][k], c);
      assert steps[k + 1] == steps[1..][k];
    }
    if k :| 0 < k < |steps| && EndsLink(steps[k], c) {
      assert steps[1..][k - 1] == steps[k];
    }
  }

  /**
   A connection is gone exactly if it was, or the run drained it after a disconnect, or its peer ended
   it; none is forgotten, and closing it is not yet its end.
   */
  lemma {:induction false} LinkIsGoneIff(s: State, steps: seq<Step>, c: nat)
    requires Valid(s, steps)
    ensures |s.links| <= |After(s, steps).links|
    ensures c < |After(s, steps).links| ==>
              (After(s, steps).links[c] == Gone <==> (c < |s.links| && s.links[c] == Gone) || LinkEndsIn(steps, c))
    decreases |steps|
  {
    if steps != [] {
      LinkIsGoneIff(Apply(s, steps[0]), steps[1..], c);
      FirstOrLater(steps, c);
    }
  }

  /** The disconnects at the front of a program, as far as a run has done them, made these tasks. */
  function Disconnects(program: seq<Op>): nat {
    if program == [] then 0 else (if program[0].Disconnect? then 1 else 0) + Disconnects(program[1..])
  }

  /**
   Every disconnect that was done made one task, which remembers all the connections there were: never
   fewer than at any moment before.
   */
  lemma {:induction false} TasksAreDisconnects(s: State, steps: seq<Step>)
    requires Valid(s, steps) && |s.born| == |s.tasks|
    ensures var t := After(s, steps);
            && |t.tasks| + Disconnects(t.program) == |s.tasks| + Disconnects(s.program)
            && |t.born| == |t.tasks| && s.born <= t.born
            && |s.links| <= |t.links|
            && forall h :: |s.tasks| <= h < |t.tasks| ==> |s.links| <= t.born[h] <= |t.links|
    decreases |steps|
  {
    if steps != [] {
      TasksAreDisconnects(Apply(s, steps[0]), steps[1..]);
    }
  }

  // ---------------------------------------------------------------------------------------------
  // A wait returns only after every connection it is responsible for has ended
  // ---------------------------------------------------------------------------------------------

  /** No barrier was made yet, and the program makes sense. */
  ghost predicate Untouched(s: State) {
    s.tasks == [] && s.born == [] && Sensible(s.program, 0, {}, |s.links|)
  }

  lemma UntouchedInv(s: State)
    requires Untouched(s)
    ensures Inv(s)
  {
    assert FinishedHandles(s.tasks) == {};
  }

  /**
   In every run, when a wait returns, every connection that the endpoint had when that handle was
   made has ended, its own and those of all other clients.
   */
  lemma WaitReturnsAfterAllEnded(s: State, steps: seq<Step>)
    requires Untouched(s) && Valid(s, steps) && Enabled(After(s, steps), Meet)
    ensures var t := After(s, steps);
            var h := t.program[0].handle;
            h < |t.born| && t.born[h] <= |t.links| && forall c :: 0 <= c < t.born[h] ==> t.links[c] == Gone
  {
    UntouchedInv(s);
    RunKeepsInv(s, steps);
  }

  // ---------------------------------------------------------------------------------------------
  // What being stuck is
  // ---------------------------------------------------------------------------------------------

  /** All workers are blocked, and none of them for the handle the user waits on. */
  ghost predicate WorkersTaken(s: State) {
    && s.program != [] && s.program[0].Wait? && s.program[0].handle < |s.tasks|
    && s.tasks[s.program[0].handle] == AwaitingIdle
    && Occupied(s) == s.workers
  }

  /** The user waits for connections that nobody on this side has closed. */
  ghost predicate PeersOpen(s: State) {
    && s.program != [] && s.program[0].Wait? && s.program[0].handle < |s.tasks|
    && s.tasks[s.program[0].handle] == AwaitingIdle
    && !Idle(s)
    && forall c :: 0 <= c < |s.links| ==> s.links[c] != Draining
  }

  /** The stuck states are exactly these. */
  lemma StuckIff(s: State)
    requires Inv(s)
    ensures Stuck(s) <==> WorkersTaken(s) || PeersOpen(s)
  {
    if s.program != [] {
      match s.program[0]
      case Disconnect(_) => assert Enabled(s, UserDisconnects);
      case Wait(h) =>
        assert h < |s.tasks|;
        if s.tasks[h] == AtBarrier {
          assert Enabled(s, Meet);
        } else {
          StuckWaitIff(s, h);
        }
    }
  }

  lemma StuckWaitIff(s: State, h: nat)
    requires Inv(s) && s.program != [] && s.program[0] == Wait(h) && h < |s.tasks| && s.tasks[h] == AwaitingIdle
    ensures Stuck(s) <==> WorkersTaken(s) || PeersOpen(s)
  {
    if WorkersTaken(s) || PeersOpen(s) {
      forall step: Step | IsLocal(step) ensures !Enabled(s, step) {
      }
    } else if Idle(s) {
      assert Enabled(s, Arrives(h));
    } else {
      var c :| 0 <= c < |s.links| && s.links[c] == Draining;
      assert Enabled(s, Drains(c));
    }
  }

  // ---------------------------------------------------------------------------------------------
  // The threshold, safe side
  // ---------------------------------------------------------------------------------------------

  lemma StepKeepsPeak(s: State, step: Step)
    requires Enabled(s, step)
    ensures PeakOf(Apply(s, step)) <= PeakOf(s)
  {
    StepCounts(s, step);
  }

  lemma {:induction false} CountsTogether(tasks: seq<Task>)
    ensures Outstanding(tasks) <= |tasks|
  {
    if tasks != [] {
      CountsTogether(tasks[..|tasks| - 1]);
    }
  }

  /** While the peak is within the workers, never are all workers taken by other barriers. */
  lemma EnoughWorkers(s: State)
    requires PeakOf(s) <= s.workers
    ensures !WorkersTaken(s)
  {
    if s.program != [] && s.program[0].Wait? && s.program[0].handle < |s.tasks| {
      CountPositive(s.tasks, s.program[0].handle);
    }
  }

  function LinkWork(links: seq<Link>): nat {
    if links == [] then 0
    else
      LinkWork(links[..|links| - 1])
      + match links[|links| - 1]
        case Alive => 2
        case Draining => 1
        case Gone => 0
  }

  /** Bounds how many local steps there can be. */
  function Work(s: State): nat {
    2 * CountTasks(s.tasks, AwaitingIdle) + CountTasks(s.tasks, AtBarrier) + 3 * |s.program| + LinkWork(s.links)
  }

  lemma {:induction false} LinkWorkUpdate(links: seq<Link>, c: nat, l: Link)
    requires c < |links|
    ensures LinkWork(links[c := l]) == LinkWork(links) - LinkWork([links[c]]) + LinkWork([l])
  {
    var n := |links| - 1;
    assert [links[c]][..0] == [] && [l][..0] == [];
    if c < n {
      LinkWorkUpdate(links[..n], c, l);
      assert links[c := l][..n] == links[..n][c := l];
    } else {
      assert links[c := l][..n] == links[..n];
    }
  }

  lemma LocalStepWorks(s: State, step: Step)
    requires Enabled(s, step) && IsLocal(step)
    ensures Work(Apply(s, step)) < Work(s)
  {
    StepCounts(s, step);
    assert [Alive][..0] == [] && [Draining][..0] == [] && [Gone][..0] == [];
    match step
    case UserDisconnects => LinkWorkUpdate(s.links, s.program[0].link, Draining);
    case Drains(c) => LinkWorkUpdate(s.links, c, Gone);
    case _ =>
  }

  /** Nothing keeps the endpoint from becoming idle: once the program waits, every link is closed here. */
  ghost predicate ClosesAll(links: seq<Link>, program: seq<Op>)
    decreases |program|
  {
    if program == [] then true
    else
      match program[0]
      case Wait(_) => forall c :: 0 <= c < |links| ==> links[c] != Alive
      case Disconnect(c) =>
        c < |links| && ClosesAll(if links[c] == Alive then links[c := Draining] else links, program[1..])
  }

  lemma {:induction false} ClosesAllFewerAlive(links: seq<Link>, more: seq<Link>, program: seq<Op>)
    requires |links| == |more| && ClosesAll(more, program)
    requires forall c :: 0 <= c < |links| && links[c] == Alive ==> more[c] == Alive
    ensures ClosesAll(links, program)
    decreases |program|
  {
    if program != [] && program[0].Disconnect? {
      var c := program[0].link;
      ClosesAllFewerAlive(if links[c] == Alive then links[c := Draining] else links,
                          if more[c] == Alive then more[c := Draining] else more,
                          program[1..]);
    }
  }

  lemma {:induction false} NoneAliveClosesAll(links: seq<Link>, program: seq<Op>, made: nat, finished: set<nat>)
    requires forall c :: 0 <= c < |links| ==> links[c] != Alive
    requires Sensible(program, made, finished, |links|)
    ensures ClosesAll(links, program)
    decreases |program|
  {
    if program != [] && program[0].Disconnect? {
      NoneAliveClosesAll(links, program[1..], made + 1, finished);
    }
  }

  lemma LocalStepKeepsClosesAll(s: State, step: Step)
    requires Inv(s) && Enabled(s, step) && IsLocal(step) && ClosesAll(s.links, s.program)
    ensures ClosesAll(Apply(s, step).links, Apply(s, step).program)
  {
    match step
    case UserDisconnects =>
    case Meet =>
      var h := s.program[0].handle;
      NoneAliveClosesAll(s.links, s.program[1..], |s.tasks|, FinishedHandles(s.tasks) + {h});
    case Arrives(_) =>
    case Drains(c) => ClosesAllFewerAlive(s.links[c := Gone], s.links, s.program);
  }

  /**
   A program that closes every connection before its first wait, on a runtime with at least as many
   workers as ever barriers are outstanding at a wait, is never stuck and ends: every local run is
   finite, whatever the order of tasks, and one that cannot be continued has finished the program.
   */
  lemma {:induction false} EnoughWorkersComplete(s: State, steps: seq<Step>)
    requires Inv(s) && PeakOf(s) <= s.workers && ClosesAll(s.links, s.program)
    requires Valid(s, steps) && AllLocal(steps)
    ensures |steps| + Work(After(s, steps)) <= Work(s)
    ensures !Stuck(After(s, steps))
    decreases |steps|
  {
    if steps == [] {
      StuckIff(s);
      EnoughWorkers(s);
      ClosingAllLeavesNoPeerOpen(s);
    } else {
      LocalStepWorks(s, steps[0]);
      StepKeepsInv(s, steps[0]);
      StepKeepsPeak(s, steps[0]);
      LocalStepKeepsClosesAll(s, steps[0]);
      EnoughWorkersComplete(Apply(s, steps[0]), steps[1..]);
    }
  }

  lemma ClosingAllLeavesNoPeerOpen(s: State)
    requires ClosesAll(s.links, s.program)
    ensures !PeersOpen(s)
  {
  }

  // ---------------------------------------------------------------------------------------------
  // The threshold, unsafe side
  // ---------------------------------------------------------------------------------------------

  ghost predicate GetsStuck(s: State, steps: seq<Step>) {
    Valid(s, steps) && AllLocal(steps) && Stuck(After(s, steps))
  }

  ghost predicate CanGetStuck(s: State) {
    exists steps :: GetsStuck(s, steps)
  }

  lemma StuckAfterStep(s: State, step: Step)
    requires Enabled(s, step) && IsLocal(step) && CanGetStuck(Apply(s, step))
    ensures CanGetStuck(s)
  {
    var steps :| GetsStuck(Apply(s, step), steps);
    assert ([step] + steps)[1..] == steps;
    assert GetsStuck(s, [step] + steps);
  }

  lemma {:induction false} CountFront(tasks: seq<Task>, x: Task)
    requires tasks != []
    ensures CountTasks(tasks, x) == CountTasks(tasks[1..], x) + if tasks[0] == x then 1 else 0
  {
    var n := |tasks| - 1;
    if n > 0 {
      CountFront(tasks[..n], x);
      assert tasks[..n][1..] == tasks[1..][..n - 1];
    } else {
      assert tasks[1..] == [] && tasks[..0] == [];
    }
  }

  /** From `next` on no task has arrived, and there are enough to take all workers without `h`. */
  ghost predicate CanFill(s: State, next: nat, h: nat) {
    && next <= |s.tasks|
    && (forall i :: next <= i < |s.tasks| ==> s.tasks[i] != AtBarrier)
    && Occupied(s) + CountTasks(s.tasks[next..], AwaitingIdle) - (if next <= h then 1 else 0) >= s.workers
  }

  lemma FillOne(s: State, next: nat, h: nat)
    requires CanFill(s, next, h) && next < |s.tasks| && next != h && s.tasks[next] == AwaitingIdle
    requires Enabled(s, Arrives(next))
    ensures CanFill(Apply(s, Arrives(next)), next + 1, h)
  {
    var t := Apply(s, Arrives(next));
    StepCounts(s, Arrives(next));
    CountFront(s.tasks[next..], AwaitingIdle);
    assert s.tasks[next..][1..] == t.tasks[next + 1..];
  }

  lemma FillNone(s: State, next: nat, h: nat)
    requires CanFill(s, next, h) && next < |s.tasks| && (next == h || s.tasks[next] == Finished)
    ensures CanFill(s, next + 1, h)
  {
    CountFront(s.tasks[next..], AwaitingIdle);
    assert s.tasks[next..][1..] == s.tasks[next + 1..];
  }

  /** Tasks arrive in order, except that of the handle the user waits on, until no worker is free. */
  lemma {:induction false} FillWorkers(s: State, next: nat)
    requires Inv(s) && Idle(s) && s.program != [] && s.program[0].Wait?
    requires var h := s.program[0].handle; h < |s.tasks| && s.tasks[h] == AwaitingIdle && CanFill(s, next, h)
    ensures CanGetStuck(s)
    decreases |s.tasks| - next
  {
    var h := s.program[0].handle;
    assert s.tasks[|s.tasks|..] == [];
    if Occupied(s) == s.workers {
      StuckIff(s);
      assert GetsStuck(s, []);
    } else if s.tasks[next] == Finished || next == h {
      FillNone(s, next, h);
      FillWorkers(s, next + 1);
    } else {
      FillOne(s, next, h);
      StepKeepsInv(s, Arrives(next));
      FillWorkers(Apply(s, Arrives(next)), next + 1);
      StuckAfterStep(s, Arrives(next));
    }
  }

  /** No task has arrived yet, and no connection is open on this side. */
  ghost predicate Settled(s: State) {
    Inv(s) && s.workers >= 1 && Occupied(s) == 0 && forall c :: 0 <= c < |s.links| ==> s.links[c] != Alive
  }

  /** If something bad can happen once all links have drained, it can happen now. */
  lemma {:induction false} StuckAfterDraining(s: State, from: nat)
    requires Settled(s) && from <= |s.links| && forall c :: 0 <= c < from ==> s.links[c] == Gone
    requires CanGetStuck(s.(links := seq(|s.links|, i => Gone)))
    ensures CanGetStuck(s)
    decreases |s.links| - from
  {
    if from == |s.links| {
      assert s.links == seq(|s.links|, i => Gone);
    } else if s.links[from] == Gone {
      StuckAfterDraining(s, from + 1);
    } else {
      StepKeepsInv(s, Drains(from));
      StuckAfterDraining(Apply(s, Drains(from)), from + 1);
      StuckAfterStep(s, Drains(from));
    }
  }

  lemma DrainedInv(s: State)
    requires Inv(s)
    ensures Inv(s.(links := seq(|s.links|, i => Gone)))
  {
  }

  lemma OccupiedMeans(tasks: seq<Task>, h: nat)
    requires h < |tasks| && CountTasks(tasks, AtBarrier) == 0
    ensures tasks[h] != AtBarrier
  {
    CountPositive(tasks, h);
  }

  /** The user waits with more barriers outstanding than there are workers. */
  lemma WaitCanGetStuck(s: State)
    requires Settled(s) && s.program != [] && s.program[0].Wait? && Outstanding(s.tasks) > s.workers
    ensures CanGetStuck(s)
  {
    var t := s.(links := seq(|s.links|, i => Gone));
    DrainedInv(s);
    forall i | 0 <= i < |t.tasks| ensures t.tasks[i] != AtBarrier {
      OccupiedMeans(t.tasks, i);
    }
    assert t.tasks[0..] == t.tasks;
    assert t.program[0].handle !in FinishedHandles(t.tasks);
    FillWorkers(t, 0);
    StuckAfterDraining(s, 0);
  }

  /** One wait that goes well: the task of the handle arrives first and meets the user. */
  lemma StuckAfterWait(s: State)
    requires Settled(s) && Idle(s) && s.program != [] && s.program[0].Wait?
    requires var h := s.program[0].handle;
             h < |s.tasks| && CanGetStuck(s.(tasks := s.tasks[h := Finished], program := s.program[1..]))
    ensures CanGetStuck(s)
  {
    var h := s.program[0].handle;
    OccupiedMeans(s.tasks, h);
    assert h !in FinishedHandles(s.tasks);
    var t := Apply(s, Arrives(h));
    assert Apply(t, Meet) == s.(tasks := s.tasks[h := Finished], program := s.program[1..]);
    StuckAfterStep(t, Meet);
    StuckAfterStep(s, Arrives(h));
  }

  lemma WaitKeepsSettled(s: State)
    requires Settled(s) && Idle(s) && s.program != [] && s.program[0].Wait?
    ensures s.program[0].handle < |s.tasks|
    ensures var t := s.(tasks := s.tasks[s.program[0].handle := Finished], program := s.program[1..]);
            Settled(t) && Outstanding(t.tasks) == Outstanding(s.tasks) - 1
  {
    var h := s.program[0].handle;
    OccupiedMeans(s.tasks, h);
    assert h !in FinishedHandles(s.tasks);
    var t := Apply(s, Arrives(h));
    StepKeepsInv(s, Arrives(h));
    StepKeepsInv(t, Meet);
    StepCounts(s, Arrives(h));
    StepCounts(t, Meet);
    assert Apply(t, Meet) == s.(tasks := s.tasks[h := Finished], program := s.program[1..]);
  }

  /** All links have drained and the wait that is next has gone well. */
  function Waited(s: State): State
    requires s.program != [] && s.program[0].Wait? && s.program[0].handle < |s.tasks|
  {
    s.(links := seq(|s.links|, i => Gone), tasks := s.tasks[s.program[0].handle := Finished], program := s.program[1..])
  }

  lemma DrainedIsSettled(s: State)
    requires Settled(s)
    ensures Settled(s.(links := seq(|s.links|, i => Gone))) && Idle(s.(links := seq(|s.links|, i => Gone)))
  {
    DrainedInv(s);
  }

  lemma WaitedCanGetStuck(s: State)
    requires Settled(s) && s.program != [] && s.program[0].Wait? && s.program[0].handle < |s.tasks|
    requires CanGetStuck(Waited(s))
    ensures CanGetStuck(s)
  {
    DrainedIsSettled(s);
    StuckAfterWait(s.(links := seq(|s.links|, i => Gone)));
    StuckAfterDraining(s, 0);
  }

  lemma WaitedKeepsThePeak(s: State)
    requires Settled(s) && s.program != [] && s.program[0].Wait?
    requires PeakOf(s) > s.workers >= Outstanding(s.tasks)
    ensures s.program[0].handle < |s.tasks|
    ensures Settled(Waited(s)) && PeakOf(Waited(s)) > s.workers
  {
    DrainedIsSettled(s);
    WaitKeepsSettled(s.(links := seq(|s.links|, i => Gone)));
  }

  lemma DisconnectKeepsThePeak(s: State)
    requires Settled(s) && s.program != [] && s.program[0].Disconnect?
    ensures Enabled(s, UserDisconnects)
    ensures Settled(Apply(s, UserDisconnects)) && PeakOf(Apply(s, UserDisconnects)) == PeakOf(s)
  {
    StepKeepsInv(s, UserDisconnects);
    StepCounts(s, UserDisconnects);
  }

  /** A program that has closed everything and whose peak exceeds the workers can get stuck. */
  lemma {:induction false} WaitsCanGetStuck(s: State)
    requires Settled(s) && PeakOf(s) > s.workers
    ensures CanGetStuck(s)
    decreases |s.program|
  {
    if s.program[0].Disconnect? {
      DisconnectKeepsThePeak(s);
      WaitsCanGetStuck(Apply(s, UserDisconnects));
      StuckAfterStep(s, UserDisconnects);
    } else if Outstanding(s.tasks) > s.workers {
      WaitCanGetStuck(s);
    } else {
      WaitedKeepsThePeak(s);
      WaitsCanGetStuck(Waited(s));
      WaitedCanGetStuck(s);
    }
  }

  /** And so can one that is still about to close everything. */
  lemma {:induction false} PeakCanGetStuck(s: State)
    requires Inv(s) && s.workers >= 1 && Occupied(s) == 0 && ClosesAll(s.links, s.program) && PeakOf(s) > s.workers
    ensures CanGetStuck(s)
    decreases |s.program|
  {
    match s.program[0]
    case Disconnect(c) =>
      StepKeepsInv(s, UserDisconnects);
      StepCounts(s, UserDisconnects);
      PeakCanGetStuck(Apply(s, UserDisconnects));
      StuckAfterStep(s, UserDisconnects);
    case Wait(_) => WaitsCanGetStuck(s);
  }

  /**
   The exact threshold, for every program that closes every connection before its first wait: it can
   get stuck if and only if at some wait more barriers are outstanding than there are workers.
   */
  lemma PeakIsTheThreshold(s: State)
    requires Inv(s) && s.workers >= 1 && Occupied(s) == 0 && ClosesAll(s.links, s.program)
    ensures CanGetStuck(s) <==> PeakOf(s) > s.workers
  {
    if PeakOf(s) > s.workers {
      PeakCanGetStuck(s);
    } else {
      forall steps ensures !GetsStuck(s, steps) {
        if Valid(s, steps) && AllLocal(steps) {
          EnoughWorkersComplete(s, steps);
        }
      }
    }
  }

  // ---------------------------------------------------------------------------------------------
  // Waiting for what is about to come
  // ---------------------------------------------------------------------------------------------

  /** An idle endpoint with every task about to wait at its barrier, and a user about to wait for them. */
  ghost predicate AllAboutToWait(s: State) {
    && Inv(s)
    && Idle(s)
    && (forall h :: 0 <= h < |s.tasks| ==> s.tasks[h] == AwaitingIdle)
    && s.program != []
    && forall k :: 0 <= k < |s.program| ==> s.program[k].Wait?
  }

  lemma {:induction false} WaitsOnlyWorkOff(out: nat, program: seq<Op>)
    requires forall k :: 0 <= k < |program| ==> program[k].Wait?
    ensures Peak(out, program) == if program == [] then 0 else out
    decreases |program|
  {
    if program != [] {
      assert program[0].Wait?;
      assert forall k :: 0 <= k < |program[1..]| ==> program[1..][k] == program[k + 1];
      WaitsOnlyWorkOff(if out > 0 then out - 1 else 0, program[1..]);
    }
  }

  lemma {:induction false} CountAll(tasks: seq<Task>, x: Task)
    requires forall h :: 0 <= h < |tasks| ==> tasks[h] == x
    ensures CountTasks(tasks, x) == |tasks|
  {
    if tasks != [] {
      CountAll(tasks[..|tasks| - 1], x);
    }
  }

  /**
   For every order of the waits: with an idle endpoint and n barriers, the runtime can end up with all
   its workers blocked by other barriers than the user's if and only if n exceeds the workers.
   */
  lemma StuckReachableIffTooManyBarriers(s: State)
    requires AllAboutToWait(s)
    ensures CanGetStuck(s) <==> |s.tasks| > s.workers
  {
    assert s.program[0].Wait?;
    CountZero(s.tasks, AtBarrier);
    if s.workers == 0 {
      StuckIff(s);
      assert GetsStuck(s, []);
    } else {
      WaitsHaveTheThreshold(s);
    }
  }

  lemma WaitsHaveTheThreshold(s: State)
    requires AllAboutToWait(s) && s.workers >= 1
    ensures CanGetStuck(s) <==> |s.tasks| > s.workers
  {
    assert s.program[0].Wait?;
    CountAll(s.tasks, AwaitingIdle);
    CountZero(s.tasks, AtBarrier);
    WaitsOnlyWorkOff(|s.tasks|, s.program);
    PeakIsTheThreshold(s);
  }

  // ---------------------------------------------------------------------------------------------
  // Shutting down a server
  // ---------------------------------------------------------------------------------------------

  /** A server with `n` connected clients, about to run `program`. */
  function Start(workers: nat, n: nat, program: seq<Op>): State {
    State(workers, seq(n, i => Alive), [], [], program)
  }

  function WaitAll(from: nat, n: nat): seq<Op>
    requires from <= n
    decreases n - from
  {
    if from == n then [] else [Wait(from)] + WaitAll(from + 1, n)
  }

  /** Disconnect the clients from `from` on, then wait for all. */
  function DisconnectAll(from: nat, n: nat): seq<Op>
    requires from <= n
    decreases n - from
  {
    if from == n then WaitAll(0, n) else [Disconnect(from)] + DisconnectAll(from + 1, n)
  }

  /** Disconnect the clients from `from` on, waiting for each before going on to the next. */
  function OneByOne(from: nat, n: nat): seq<Op>
    requires from <= n
    decreases n - from
  {
    if from == n then [] else [Disconnect(from), Wait(from)] + OneByOne(from + 1, n)
  }

  lemma {:induction false} WaitAllIsSensible(from: nat, n: nat, finished: set<nat>)
    requires from <= n && forall h :: h in finished ==> h < from
    ensures Sensible(WaitAll(from, n), n, finished, n)
    ensures forall k :: 0 <= k < |WaitAll(from, n)| ==> WaitAll(from, n)[k].Wait?
    decreases n - from
  {
    if from < n {
      WaitAllIsSensible(from + 1, n, finished + {from});
    }
  }

  lemma {:induction false} DisconnectAllIsSensible(from: nat, n: nat)
    requires from <= n
    ensures Sensible(DisconnectAll(from, n), from, {}, n)
    ensures Peak(from, DisconnectAll(from, n)) == n
    decreases n - from
  {
    if from == n {
      WaitAllIsSensible(0, n, {});
      WaitsOnlyWorkOff(n, WaitAll(0, n));
    } else {
      DisconnectAllIsSensible(from + 1, n);
    }
  }

  lemma {:induction false} DisconnectAllClosesAll(from: nat, n: nat, links: seq<Link>)
    requires from <= n == |links|
    requires forall c :: 0 <= c < n ==> links[c] == if c < from then Draining else Alive
    ensures ClosesAll(links, DisconnectAll(from, n))
    decreases n - from
  {
    if from == n {
      WaitAllIsSensible(0, n, {});
      NoneAliveClosesAll(links, WaitAll(0, n), n, {});
    } else {
      DisconnectAllClosesAll(from + 1, n, links[from := Draining]);
    }
  }

  /**
   Disconnecting all clients and then waiting for all, on at least as many workers as clients,
   always comes to its end by this side's steps alone.
   */
  lemma DisconnectAllThenWaitAllCompletes(workers: nat, n: nat, steps: seq<Step>)
    requires n <= workers
    requires var s := Start(workers, n, DisconnectAll(0, n)); Valid(s, steps) && AllLocal(steps)
    ensures var s := Start(workers, n, DisconnectAll(0, n));
            |steps| <= Work(s) && !Stuck(After(s, steps))
  {
    var s := Start(workers, n, DisconnectAll(0, n));
    DisconnectAllIsSensible(0, n);
    UntouchedInv(s);
    DisconnectAllClosesAll(0, n, s.links);
    EnoughWorkersComplete(s, steps);
  }

  /**
   So disconnecting all clients first and then waiting for all is safe exactly for as many clients
   as workers; by default there is one worker.
   */
  lemma DisconnectAllThenWaitAllIff(workers: nat, n: nat)
    requires workers >= 1
    ensures CanGetStuck(Start(workers, n, DisconnectAll(0, n))) <==> n > workers
  {
    var s := Start(workers, n, DisconnectAll(0, n));
    DisconnectAllIsSensible(0, n);
    UntouchedInv(s);
    DisconnectAllClosesAll(0, n, s.links);
    PeakIsTheThreshold(s);
  }

  /** The user waits, and client `c` is still open. */
  ghost predicate WaitsWithClientOpen(s: State, c: nat) {
    && s.program != [] && s.program[0].Wait? && s.program[0].handle < |s.tasks|
    && s.tasks[s.program[0].handle] == AwaitingIdle
    && c < |s.links| && s.links[c] == Alive
  }

  lemma {:induction false} OpenClientBlocksTheWait(s: State, c: nat, steps: seq<Step>)
    requires WaitsWithClientOpen(s, c) && Valid(s, steps) && AllLocal(steps)
    ensures After(s, steps).program == s.program && WaitsWithClientOpen(After(s, steps), c)
    decreases |steps|
  {
    if steps != [] {
      OpenClientBlocksTheWait(Apply(s, steps[0]), c, steps[1..]);
    }
  }

  /**
   The loop that disconnects and waits client by client never gets past its first wait by this
   side's steps as soon as there is a second client, however many workers there are.
   */
  lemma OneByOneNeverCompletes(workers: nat, n: nat, steps: seq<Step>)
    requires n >= 2
    requires var s := Start(workers, n, OneByOne(0, n)); Valid(s, steps) && AllLocal(steps)
    ensures |After(Start(workers, n, OneByOne(0, n)), steps).program| >= 2 * n - 1
  {
    var s := Start(workers, n, OneByOne(0, n));
    OneByOneLength(0, n);
    if steps != [] {
      assert steps[0] == UserDisconnects;
      var s1 := Apply(s, steps[0]);
      assert WaitsWithClientOpen(s1, 1);
      OpenClientBlocksTheWait(s1, 1, steps[1..]);
    }
  }

  /** How far the loop is, and what that means for its `n` clients. */
  ghost predicate LoopAt(s: State, n: nat) {
    && |s.links| >= n && |s.program| <= 2 * n
    && (|s.program| == 2 * n ==> s.program == OneByOne(0, n) && s.born == [])
    && (|s.program| == 2 * n - 1 ==> s.program == OneByOne(0, n)[1..] && |s.born| == 1 && s.born[0] >= n)
    && (|s.program| < 2 * n - 1 ==> forall c :: 0 <= c < n ==> s.links[c] == Gone)
  }

  lemma StepKeepsLoopAt(s: State, step: Step, n: nat)
    requires n > 0 && Inv(s) && LoopAt(s, n) && Enabled(s, step)
    ensures LoopAt(Apply(s, step), n)
  {
    OneByOneLength(0, n);
  }

  lemma {:induction false} RunKeepsLoopAt(s: State, steps: seq<Step>, n: nat)
    requires n > 0 && Inv(s) && LoopAt(s, n) && Valid(s, steps)
    ensures LoopAt(After(s, steps), n)
    decreases |steps|
  {
    if steps != [] {
      StepKeepsInv(s, steps[0]);
      StepKeepsLoopAt(s, steps[0], n);
      RunKeepsLoopAt(Apply(s, steps[0]), steps[1..], n);
    }
  }

  lemma {:induction false} OneByOneIsSensible(from: nat, n: nat, finished: set<nat>)
    requires from <= n && forall h :: h in finished ==> h < from
    ensures Sensible(OneByOne(from, n), from, finished, n)
    decreases n - from
  {
    if from < n {
      OneByOneIsSensible(from + 1, n, finished + {from});
      assert OneByOne(from, n)[1..][1..] == OneByOne(from + 1, n);
    }
  }

  /**
   Whatever the clients do, the loop is past its first wait only after every connection there was
   at its start has ended.
   */
  lemma SecondIterationOnlyAfterAllEnded(workers: nat, n: nat, steps: seq<Step>, c: nat)
    requires c < n
    requires var s := Start(workers, n, OneByOne(0, n)); Valid(s, steps) && |After(s, steps).program| <= 2 * n - 2
    ensures var t := After(Start(workers, n, OneByOne(0, n)), steps); c < |t.links| && t.links[c] == Gone
  {
    var s := Start(workers, n, OneByOne(0, n));
    OneByOneIsSensible(0, n, {});
    OneByOneLength(0, n);
    UntouchedInv(s);
    RunKeepsLoopAt(s, steps, n);
  }

  ghost predicate Completes(s: State, steps: seq<Step>) {
    Valid(s, steps) && AllLocal(steps) && After(s, steps).program == []
  }

  /** This side can finish the program by itself. */
  ghost predicate CanComplete(s: State) {
    exists steps :: Completes(s, steps)
  }

  /** The loop works exactly up to one client. */
  lemma OneByOneCompletesIff(workers: nat, n: nat)
    requires workers >= 1
    ensures CanComplete(Start(workers, n, OneByOne(0, n))) <==> n <= 1
  {
    if n == 0 {
      assert Completes(Start(workers, n, []), []);
    } else if n == 1 {
      OneClientCompletes(workers);
    } else {
      forall steps ensures !Completes(Start(workers, n, OneByOne(0, n)), steps) {
        if Completes(Start(workers, n, OneByOne(0, n)), steps) {
          OneByOneNeverCompletes(workers, n, steps);
        }
      }
    }
  }

  /** The states of a runtime with one client that is disconnected and waited for. */
  function OneClosed(workers: nat): State {
    State(workers, [Draining], [AwaitingIdle], [1], [Wait(0)])
  }

  lemma OneClosedCompletes(workers: nat)
    requires workers >= 1
    ensures Completes(OneClosed(workers), [Drains(0), Arrives(0), Meet])
  {
    var s1 := OneClosed(workers);
    var s2 := s1.(links := [Gone]);
    var s3 := s2.(tasks := [AtBarrier]);
    assert [AwaitingIdle][..0] == [] && Occupied(s1) == 0;
    assert Apply(s1, Drains(0)) == s2;
    assert Apply(s2, Arrives(0)) == s3;
    CompletesFirst(s3, Meet, []);
    CompletesFirst(s2, Arrives(0), [Meet]);
    CompletesFirst(s1, Drains(0), [Arrives(0), Meet]);
  }

  lemma OneClientCompletes(workers: nat)
    requires workers >= 1
    ensures CanComplete(Start(workers, 1, OneByOne(0, 1)))
  {
    var s := Start(workers, 1, OneByOne(0, 1));
    assert s.program == [Disconnect(0), Wait(0)];
    assert Apply(s, UserDisconnects) == OneClosed(workers);
    OneClosedCompletes(workers);
    CompletesFirst(s, UserDisconnects, [Drains(0), Arrives(0), Meet]);
  }

  lemma CompletesFirst(s: State, step: Step, rest: seq<Step>)
    requires Enabled(s, step) && IsLocal(step) && Completes(Apply(s, step), rest)
    ensures Completes(s, [step] + rest)
  {
    assert ([step] + rest)[1..] == rest;
  }

  lemma {:induction false} OneByOnePeak(from: nat, n: nat)
    requires from <= n
    ensures Peak(0, OneByOne(from, n)) == if from < n then 1 else 0
    decreases n - from
  {
    if from < n {
      OneByOnePeak(from + 1, n);
      assert OneByOne(from, n)[1..][1..] == OneByOne(from + 1, n);
    }
  }

  /** A server all of whose clients have gone by themselves, about to run the loop. */
  function StartOverGone(workers: nat, n: nat): State {
    State(workers, seq(n, i => Gone), [], [], OneByOne(0, n))
  }

  lemma StartOverGoneIsSafe(workers: nat, n: nat)
    requires workers >= 1
    ensures var s := StartOverGone(workers, n);
            Inv(s) && PeakOf(s) <= workers && ClosesAll(s.links, s.program)
  {
    var s := StartOverGone(workers, n);
    OneByOneIsSensible(0, n, {});
    OneByOnePeak(0, n);
    UntouchedInv(s);
    NoneAliveClosesAll(s.links, s.program, 0, {});
  }

  /**
   Once all clients have gone, the loop comes to its end by itself for any number of them, on the
   one worker there is by default or more: no more than one barrier is ever outstanding.
   */
  lemma OneByOneOverGoneCompletes(workers: nat, n: nat, steps: seq<Step>)
    requires workers >= 1
    requires Valid(StartOverGone(workers, n), steps) && AllLocal(steps)
    ensures |steps| <= Work(StartOverGone(workers, n)) && !Stuck(After(StartOverGone(workers, n), steps))
  {
    StartOverGoneIsSafe(workers, n);
    EnoughWorkersComplete(StartOverGone(workers, n), steps);
  }

  lemma {:induction false} OneByOneLength(from: nat, n: nat)
    requires from <= n
    ensures |OneByOne(from, n)| == 2 * (n - from)
    decreases n - from
  {
    if from < n {
      OneByOneLength(from + 1, n);
    }
  }

  // ---------------------------------------------------------------------------------------------
  // A handle that is never waited for
  // ---------------------------------------------------------------------------------------------

  /** Once its task arrived, a handle that the program does not wait for blocks a worker for good. */
  lemma {:induction false} UnwaitedHandleBlocksAWorker(s: State, h: nat, steps: seq<Step>)
    requires h < |s.tasks| && s.tasks[h] == AtBarrier && Wait(h) !in s.program
    requires Valid(s, steps)
    ensures var t := After(s, steps); h < |t.tasks| && t.tasks[h] == AtBarrier && Occupied(t) >= 1
    decreases |steps|
  {
    if steps == [] {
      CountPositive(s.tasks, h);
    } else {
      UnwaitedHandleBlocksAWorker(Apply(s, steps[0]), h, steps[1..]);
    }
  }
}
