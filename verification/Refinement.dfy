/**
 Each handle of `Rendezvous` goes through the meeting of `Disconnection`: what is one step there is
 the moves of its task, or those of its user, here.
 */
module Refinement {

  import D = Disconnection
  import R = Rendezvous

  /** The meeting behind a handle, in a build without `forbid_handle_drop`. */
  function View(s: R.State, h: nat): D.Meeting
    requires h < |s.tasks|
  {
    match s.tasks[h]
    case AwaitingIdle => D.NewMeeting(false)
    case AtBarrier => D.NewMeeting(false).(idle := true, task := D.AtBarrier, arrivals := 1, waiting := true)
    case Finished => D.Meeting(false, true, D.Gone, true, D.Ended, 2, false, 2, 2)
  }

  /** The moves that one step is for handle `h`, if its user ends it by `end`. */
  function MovesOf(s: R.State, step: R.Step, h: nat, end: D.End): seq<D.Move>
    requires R.Enabled(s, step)
  {
    if step == R.Arrives(h) then [D.EndpointIdles, D.TaskWakes, D.TaskWaits]
    else if step.Meet? && s.program[0].handle == h then D.UserMoves(end, false) + [D.TaskReturns]
    else []
  }

  ghost function MovesOfRun(s: R.State, steps: seq<R.Step>, h: nat, end: D.End): seq<D.Move>
    requires R.Valid(s, steps)
    decreases |steps|
  {
    if steps == [] then [] else MovesOf(s, steps[0], h, end) + MovesOfRun(R.Apply(s, steps[0]), steps[1..], h, end)
  }

  lemma ArrivalRefines(s: R.State, h: nat)
    requires R.Enabled(s, R.Arrives(h))
    ensures var moves := [D.EndpointIdles, D.TaskWakes, D.TaskWaits];
            D.Valid(View(s, h), moves) && D.After(View(s, h), moves) == View(R.Apply(s, R.Arrives(h)), h)
  {
    var m := View(s, h);
    var m1 := D.Apply(m, D.EndpointIdles);
    var m2 := D.Apply(m1, D.TaskWakes);
    D.FirstThenRest(m2, D.TaskWaits, []);
    D.FirstThenRest(m1, D.TaskWakes, [D.TaskWaits]);
    D.FirstThenRest(m, D.EndpointIdles, [D.TaskWakes] + [D.TaskWaits]);
    assert [D.EndpointIdles, D.TaskWakes, D.TaskWaits] == [D.EndpointIdles] + ([D.TaskWakes] + [D.TaskWaits]);
  }

  lemma MeetRefines(s: R.State, end: D.End)
    requires R.Enabled(s, R.Meet)
    ensures var h := s.program[0].handle;
            var moves := D.UserMoves(end, false) + [D.TaskReturns];
            D.Valid(View(s, h), moves) && D.After(View(s, h), moves) == View(R.Apply(s, R.Meet), h)
  {
    var m := View(s, s.program[0].handle);
    D.UserMovesAreItsLife(m, end);
    D.FirstThenRest(D.LifeOver(m, end), D.TaskReturns, []);
    D.FirstThenSecond(m, D.UserMoves(end, false), [D.TaskReturns]);
  }

  lemma StepRefines(s: R.State, step: R.Step, h: nat, end: D.End)
    requires R.Enabled(s, step) && h < |s.tasks|
    ensures h < |R.Apply(s, step).tasks|
    ensures var moves := MovesOf(s, step, h, end);
            D.Valid(View(s, h), moves) && D.After(View(s, h), moves) == View(R.Apply(s, step), h)
  {
    if step == R.Arrives(h) {
      ArrivalRefines(s, h);
    } else if step.Meet? && s.program[0].handle == h {
      MeetRefines(s, end);
    }
  }

  /**
   Every run of the runtime is, for every handle, a run of its meeting, whichever way the user ends
   that handle. A handle that is dropped is therefore, to the runtime, one that is waited for there.
   */
  lemma {:induction false} RunRefines(s: R.State, steps: seq<R.Step>, h: nat, end: D.End)
    requires R.Valid(s, steps) && h < |s.tasks|
    ensures h < |R.After(s, steps).tasks|
    ensures var moves := MovesOfRun(s, steps, h, end);
            D.Valid(View(s, h), moves) && D.After(View(s, h), moves) == View(R.After(s, steps), h)
    decreases |steps|
  {
    if steps != [] {
      var t := R.Apply(s, steps[0]);
      StepRefines(s, steps[0], h, end);
      RunRefines(t, steps[1..], h, end);
      D.FirstThenSecond(View(s, h), MovesOf(s, steps[0], h, end), MovesOfRun(t, steps[1..], h, end));
    }
  }

  /** A user who has come to the barrier of a handle, or drops that handle there. */
  predicate UserIsAt(s: R.State, h: nat) {
    s.program != [] && s.program[0] == R.Wait(h) && h < |s.tasks| && !s.tasks[h].Finished?
  }

  /** The user gets on in the runtime exactly if the barrier lets it through, however it ends the handle. */
  lemma MeetIffTheBarrierLetsThrough(s: R.State, h: nat, end: D.End)
    requires UserIsAt(s, h)
    ensures R.Enabled(s, R.Meet) <==> D.Valid(View(s, h), D.UserMoves(end, false))
  {
    var m := View(s, h);
    if s.tasks[h].AtBarrier? {
      D.UserMovesAreItsLife(m, end);
    } else {
      var moves := D.UserMoves(end, false);
      var m1 := D.Apply(m, moves[0]);
      if end.JustDropped? {
        assert moves[1..] == [D.UserDrops, D.UserReturns];
        assert moves[1..][1..] == [D.UserReturns];
        assert !D.Valid(D.Apply(m1, D.UserDrops), [D.UserReturns]);
        assert !D.Valid(m1, moves[1..]);
      } else {
        assert !D.Enabled(m1, moves[1]);
      }
    }
  }
}
