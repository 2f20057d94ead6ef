/** The handle a disconnection returns, and the barrier behind it. */
module Disconnection {

  /**
   A barrier of two. A thread that waits is released when the number of waits so far, its own
   included, becomes even.
   */
  class Barrier {
    var arrivals: nat

    constructor ()
      ensures arrivals == 0
    {
      arrivals := 0;
    }

    method Wait()
      modifies this
      ensures arrivals == old(arrivals) + 1
    {
      arrivals := arrivals + 1;
    }
  }

  /** How a handle's life ends: by either wait method, or dropped, maybe while the thread panics. */
  datatype End = WaitOnMainThread | WaitOnAnyThread | JustDropped(panicking: bool)

  /** How often the user's side waits at the barrier over the whole life of a handle. */
  function UserWaits(end: End, forbidHandleDrop: bool): nat {
    if end.JustDropped? && forbidHandleDrop then 0 else 1
  }

  class DisconnectionHandle {
    const barrier: Barrier?
    var waitedFor: bool

    constructor WithBarrier(barrier: Barrier)
      ensures this.barrier == barrier && !waitedFor
    {
      this.barrier := barrier;
      waitedFor := false;
    }

    constructor WithoutBarrier()
      ensures barrier == null && !waitedFor
    {
      barrier := null;
      waitedFor := false;
    }

    method ActuallyWaitForProperDisconnection()
      modifies this, barrier
      ensures waitedFor
      ensures barrier != null ==> barrier.arrivals == old(barrier.arrivals) + 1
    {
      if barrier != null {
        barrier.Wait();
      }
      waitedFor := true;
    }

    /** Runs when the handle goes away; `panics` says that it panics itself. */
    method Drop(forbidHandleDrop: bool, panicking: bool) returns (panics: bool)
      modifies this, barrier
      ensures panics <==> !old(waitedFor) && forbidHandleDrop && !panicking
      ensures waitedFor <==> old(waitedFor) || !forbidHandleDrop
      ensures barrier != null ==>
                barrier.arrivals == old(barrier.arrivals) + if old(waitedFor) || forbidHandleDrop then 0 else 1
    {
      panics := false;
      if !waitedFor {
        if forbidHandleDrop {
          if !panicking {
            panics := true;
          }
        } else {
          ActuallyWaitForProperDisconnection();
        }
      }
    }

    /**
     The whole life of a handle, whichever way the user ends it: the wait methods consume the
     handle, so it is dropped at their end.
     */
    method Consume(end: End, forbidHandleDrop: bool) returns (panics: bool)
      requires !waitedFor
      modifies this, barrier
      ensures barrier != null ==> barrier.arrivals == old(barrier.arrivals) + UserWaits(end, forbidHandleDrop)
      ensures panics <==> end.JustDropped? && forbidHandleDrop && !end.panicking
    {
      if !end.JustDropped? {
        ActuallyWaitForProperDisconnection();
      }
      panics := Drop(forbidHandleDrop, end.JustDropped? && end.panicking);
    }
  }

  // ---------------------------------------------------------------------------------------------
  // The barrier between the user and the task
  // ---------------------------------------------------------------------------------------------

  /** Where the user's side is: the handle is held, in a wait method, being dropped, in a wait there, or gone. */
  datatype UserAt = Holds | InWaitMethod | Drops | InDrop | Gone

  /** Where the task is: it awaits the idle endpoint, is about to wait at the barrier, waits, or ended. */
  datatype TaskAt = AwaitsIdle | BeforeBarrier | AtBarrier | Ended

  /**
   One handle with a barrier. The barrier itself lets anyone wait at any time: every second arrival
   releases itself and the one that is `waiting`. `forbid` is the feature of the build.
   */
  datatype Meeting = Meeting(
    forbid: bool,
    idle: bool,
    user: UserAt,
    waitedFor: bool,
    task: TaskAt,
    arrivals: nat,
    waiting: bool,
    released: nat,
    returned: nat)

  function NewMeeting(forbid: bool): Meeting {
    Meeting(forbid, false, Holds, false, AwaitsIdle, 0, false, 0, 0)
  }

  datatype Move =
    | EndpointIdles
    | UserCallsWait
    | UserLetsGo
    | UserDrops
    | UserReturns
    | TaskWakes
    | TaskWaits
    | TaskReturns

  predicate IsOfUser(move: Move) {
    move.UserCallsWait? || move.UserLetsGo? || move.UserDrops? || move.UserReturns?
  }

  /** Somebody comes to the barrier. */
  function Arrive(m: Meeting): Meeting {
    if m.waiting then m.(arrivals := m.arrivals + 1, waiting := false, released := m.released + 2)
    else m.(arrivals := m.arrivals + 1, waiting := true)
  }

  predicate Enabled(m: Meeting, move: Move) {
    match move
    case EndpointIdles => true
    case UserCallsWait => m.user.Holds?
    case UserLetsGo => m.user.Holds?
    case UserDrops => m.user.Drops?
    case UserReturns => (m.user.InWaitMethod? || m.user.InDrop?) && m.returned < m.released
    case TaskWakes => m.task.AwaitsIdle? && m.idle
    case TaskWaits => m.task.BeforeBarrier?
    case TaskReturns => m.task.AtBarrier? && m.returned < m.released
  }

  function Apply(m: Meeting, move: Move): Meeting
    requires Enabled(m, move)
  {
    match move
    case EndpointIdles => m.(idle := true)
    case UserCallsWait => Arrive(m).(user := InWaitMethod)
    case UserLetsGo => m.(user := Drops)
    case UserDrops =>
      if m.waitedFor || m.forbid then m.(user := Gone)
      else Arrive(m).(user := InDrop)
    case UserReturns =>
      m.(user := if m.user.InWaitMethod? then Drops else Gone, waitedFor := true, returned := m.returned + 1)
    case TaskWakes => m.(task := BeforeBarrier)
    case TaskWaits => Arrive(m).(task := AtBarrier)
    case TaskReturns => m.(task := Ended, returned := m.returned + 1)
  }

  ghost predicate Valid(m: Meeting, moves: seq<Move>)
    decreases |moves|
  {
    moves == [] || (Enabled(m, moves[0]) && Valid(Apply(m, moves[0]), moves[1..]))
  }

  ghost function After(m: Meeting, moves: seq<Move>): Meeting
    requires Valid(m, moves)
    decreases |moves|
  {
    if moves == [] then m else After(Apply(m, moves[0]), moves[1..])
  }

  /** The user's side has come to the barrier. */
  predicate UserCame(m: Meeting) {
    m.user.InWaitMethod? || m.user.InDrop? || m.waitedFor
  }

  predicate TaskCame(m: Meeting) {
    m.task.AtBarrier? || m.task.Ended?
  }

  function Both(a: bool, b: bool): nat {
    if a && b then 2 else if a || b then 1 else 0
  }

  ghost predicate Inv(m: Meeting) {
    && m.arrivals == Both(UserCame(m), TaskCame(m))
    && (m.waiting <==> UserCame(m) != TaskCame(m))
    && m.released == (if UserCame(m) && TaskCame(m) then 2 else 0)
    && m.returned == Both(m.waitedFor, m.task.Ended?)
    && (m.waitedFor || m.task.Ended? ==> UserCame(m) && TaskCame(m))
    && (!m.task.AwaitsIdle? ==> m.idle)
    && (m.waitedFor ==> m.user.Drops? || m.user.Gone?)
    && (m.user.Gone? ==> m.waitedFor || m.forbid)
  }

  lemma UserMoveKeepsInv(m: Meeting, move: Move)
    requires Inv(m) && Enabled(m, move) && IsOfUser(move)
    ensures Inv(Apply(m, move)) && Apply(m, move).forbid == m.forbid
  {
  }

  lemma TaskMoveKeepsInv(m: Meeting, move: Move)
    requires Inv(m) && Enabled(m, move) && !IsOfUser(move)
    ensures Inv(Apply(m, move)) && Apply(m, move).forbid == m.forbid
  {
  }

  lemma {:induction false} RunKeepsInv(m: Meeting, moves: seq<Move>)
    requires Inv(m) && Valid(m, moves)
    ensures Inv(After(m, moves)) && After(m, moves).forbid == m.forbid
    decreases |moves|
  {
    if moves != [] {
      if IsOfUser(moves[0]) {
        UserMoveKeepsInv(m, moves[0]);
      } else {
        TaskMoveKeepsInv(m, moves[0]);
      }
      RunKeepsInv(Apply(m, moves[0]), moves[1..]);
    }
  }

  /**
   In every run, with or without `forbid_handle_drop`: there is never a third wait at the barrier;
   either side returns from it only after both came and the endpoint was idle; and once the handle
   is gone, the user's side has come and returned, unless the feature let it drop unwaited.
   */
  lemma UserAndTaskMeet(start: Meeting, moves: seq<Move>)
    requires start == NewMeeting(start.forbid) && Valid(start, moves)
    ensures var m := After(start, moves);
            && m.arrivals <= 2
            && (m.returned > 0 ==> m.idle && m.arrivals == 2)
            && (m.user.Gone? ==> m.waitedFor || start.forbid)
  {
    RunKeepsInv(start, moves);
  }

  /** Neither side is left at the barrier for good once both came: it can return at once. */
  lemma WhoMeetsReturns(start: Meeting, moves: seq<Move>)
    requires start == NewMeeting(start.forbid) && Valid(start, moves)
    ensures var m := After(start, moves);
            m.arrivals == 2 ==>
              && (m.task.AtBarrier? ==> Enabled(m, TaskReturns))
              && (m.user.InWaitMethod? || m.user.InDrop? ==> Enabled(m, UserReturns))
  {
    RunKeepsInv(start, moves);
  }

  /** A handle gone without a wait leaves its task at the barrier forever. */
  lemma {:induction false} ForbiddenDropStrandsTheTask(m: Meeting, moves: seq<Move>)
    requires Inv(m) && m.user.Gone? && !m.waitedFor && Valid(m, moves)
    ensures After(m, moves).returned == 0 && !After(m, moves).task.Ended?
    decreases |moves|
  {
    if moves != [] {
      ForbiddenDropStrandsTheTask(Apply(m, moves[0]), moves[1..]);
    }
  }

  // ---------------------------------------------------------------------------------------------
  // The life of a handle, as moves
  // ---------------------------------------------------------------------------------------------

  /** What the user's side does over the whole life of a handle. */
  function UserMoves(end: End, forbid: bool): seq<Move> {
    if !end.JustDropped? then [UserCallsWait, UserReturns, UserDrops]
    else [UserLetsGo, UserDrops] + if forbid then [] else [UserReturns]
  }

  lemma FirstThenRest(m: Meeting, move: Move, rest: seq<Move>)
    requires Enabled(m, move) && Valid(Apply(m, move), rest)
    ensures Valid(m, [move] + rest) && After(m, [move] + rest) == After(Apply(m, move), rest)
  {
    assert ([move] + rest)[1..] == rest;
  }

  lemma {:induction false} FirstThenSecond(m: Meeting, first: seq<Move>, second: seq<Move>)
    requires Valid(m, first) && Valid(After(m, first), second)
    ensures Valid(m, first + second) && After(m, first + second) == After(After(m, first), second)
    decreases |first|
  {
    if first == [] {
      assert first + second == second;
    } else {
      FirstThenSecond(Apply(m, first[0]), first[1..], second);
      assert (first + second)[1..] == first[1..] + second;
    }
  }

  /** While the task waits at the barrier, the user's side can do all of it at once. */
  predicate TaskWaitsForUser(m: Meeting) {
    m.user.Holds? && !m.waitedFor && m.task.AtBarrier? && m.waiting && m.returned == m.released
  }

  /** The meeting after all that, with as many arrivals of the user as the methods of the handle make. */
  function LifeOver(m: Meeting, end: End): Meeting {
    var waits := UserWaits(end, m.forbid);
    m.(user := Gone, waitedFor := waits == 1, arrivals := m.arrivals + waits,
       waiting := waits == 0, released := m.released + 2 * waits, returned := m.returned + waits)
  }

  /**
   The three ways to end a handle, as moves, come to the barrier as often as its methods do, and
   that is all that tells them apart afterwards: without the feature, a drop is a wait.
   */
  lemma UserMovesAreItsLife(m: Meeting, end: End)
    requires TaskWaitsForUser(m)
    ensures Valid(m, UserMoves(end, m.forbid)) && After(m, UserMoves(end, m.forbid)) == LifeOver(m, end)
  {
    var first := if end.JustDropped? then UserLetsGo else UserCallsWait;
    var m1 := Apply(m, first);
    var second := if end.JustDropped? then UserDrops else UserReturns;
    var m2 := Apply(m1, second);
    if end.JustDropped? && m.forbid {
      FirstThenRest(m1, second, []);
      FirstThenRest(m, first, [second]);
      assert UserMoves(end, m.forbid) == [first] + [second];
    } else {
      var third := if end.JustDropped? then UserReturns else UserDrops;
      FirstThenRest(m2, third, []);
      FirstThenRest(m1, second, [third]);
      FirstThenRest(m, first, [second] + [third]);
      assert UserMoves(end, m.forbid) == [first] + ([second] + [third]);
    }
  }
}
