/** When a cancelled connection comes to its end. */
module CenterShutdown {
  import opened CenterFrames
  import opened CenterInvariant
  import opened CenterMachine
  import opened CenterTheorems

  /** Steps of its own that a stopping connection still has before it, at most. */
  function OwnStepsLeft(conn: Conn): (n: nat)
    ensures n <= 15 && (n == 0 <==> conn.phase.Ended?)
  {
    match conn.phase
    case Spawned => 15
    case Listed => 14
    case PollingConn => if conn.cancelled then 6 else 13
    case Waiting => 12
    case Handling(_) => 11
    case Answering(_, _) => 10
    case Beating(_) => 9
    case Recording(_) => 8
    case PollingServer => 7
    case Leaving => 5
    case LeavingBeat => 4
    case LeavingIp => 3
    case LeavingMachine => 2
    case Notifying(_) => 1
    case Ended => 0
  }

  function OwnSteps(steps: seq<Step>, c: nat): nat {
    if steps == [] then 0 else (if Moves(steps[0], c) then 1 else 0) + OwnSteps(steps[1..], c)
  }

  lemma LoopStepsAreUsedUp(s: Center, c: nat, step: LoopStep)
    requires c < |s.conns| && Stopping(s, c) && LoopEnabled(s, s.conns[c], step)
    ensures OwnStepsLeft(ApplyLoop(s, c, step).conns[c]) < OwnStepsLeft(s.conns[c])
  {
  }

  lemma LeaveStepsAreUsedUp(s: Center, c: nat, step: LeaveStep)
    requires c < |s.conns| && LeaveEnabled(s.conns[c], step)
    ensures OwnStepsLeft(ApplyLeave(s, c, step).conns[c]) < OwnStepsLeft(s.conns[c])
  {
    match step
    case LeaveActive => LeaveFrame(s, c, LeaveActive);
    case LeaveBeat =>
    case LeaveIp =>
    case LeaveMachine =>
    case Notify =>
  }

  lemma CancelledStays(s: Center, step: Step, c: nat)
    requires c < |s.conns| && Enabled(s, step) && s.conns[c].cancelled
    ensures |Apply(s, step).conns| >= |s.conns| && Apply(s, step).conns[c].cancelled
  {
    match step
    case Accept(_, _, _) =>
    case InLoop(d, loop) => LoopFrame(s, d, loop);
    case AfterLoop(d, leave) => LeaveFrame(s, d, leave);
    case ByEvictor(evict) => EvictorOnlyStops(s, evict, c);
    case ByKick(k, kick) => KickOnlyStops(s, k, kick, c);
    case Stall(d, on) => StallFrame(s, d, on);
    case _ => AsideFrame(s, step);
  }

  lemma StoppingUsesSteps(s: Center, step: Step, c: nat)
    requires c < |s.conns| && Stopping(s, c) && Enabled(s, step)
    ensures |Apply(s, step).conns| >= |s.conns| && Stopping(Apply(s, step), c)
    ensures (if Moves(step, c) then 1 else 0) + OwnStepsLeft(Apply(s, step).conns[c]) <= OwnStepsLeft(s.conns[c])
  {
    StoppingStep(s, step, c);
    if !Moves(step, c) {
      OtherUntouched(s, step, c);
      if s.conns[c].cancelled {
        CancelledStays(s, step, c);
      }
    } else if step.InLoop? {
      LoopStepsAreUsedUp(s, c, step.loop);
    } else {
      LeaveStepsAreUsedUp(s, c, step.leave);
    }
  }

  lemma {:induction false} StoppingRunUsesSteps(s: Center, steps: seq<Step>, t: Center, c: nat)
    requires c < |s.conns| && Stopping(s, c) && RunsTo(s, steps, t)
    ensures c < |t.conns| && Stopping(t, c)
    ensures OwnSteps(steps, c) + OwnStepsLeft(t.conns[c]) <= OwnStepsLeft(s.conns[c])
    decreases |steps|
  {
    if steps == [] {
    } else {
      StoppingUsesSteps(s, steps[0], c);
      StoppingRunUsesSteps(Apply(s, steps[0]), steps[1..], t, c);
    }
  }

  /// ## What can hold a connection up

  /** The handler it has called does not return, or its peer does not take the response: no token is looked at then. */
  predicate Withheld(conn: Conn) {
    conn.stalled && (conn.phase.Handling? || conn.phase.Answering?)
  }

  ghost predicate CanMove(s: Center, c: nat) {
    exists step :: Moves(step, c) && Enabled(s, step)
  }

  lemma StoppingMoves(s: Center, c: nat) returns (step: Step)
    requires c < |s.conns| && Stopping(s, c) && !s.conns[c].phase.Ended? && !Withheld(s.conns[c])
    ensures Moves(step, c) && Enabled(s, step)
  {
    match s.conns[c].phase {
      case Spawned => step := InLoop(c, List);
      case Listed => step := InLoop(c, ListIp);
      case PollingServer => step := InLoop(c, PollServer);
      case PollingConn => step := InLoop(c, PollConn);
      case Waiting => step := InLoop(c, Wake);
      case Handling(_) => step := InLoop(c, Handle(true, s.players));
      case Answering(_, _) => step := InLoop(c, Write);
      case Beating(_) => step := InLoop(c, Beat);
      case Recording(_) => step := InLoop(c, Record);
      case Leaving => step := AfterLoop(c, LeaveActive);
      case LeavingBeat => step := AfterLoop(c, LeaveBeat);
      case LeavingIp => step := AfterLoop(c, LeaveIp);
      case LeavingMachine => step := AfterLoop(c, LeaveMachine);
      case Notifying(_) => step := AfterLoop(c, Notify);
    }
  }

  /** Either the connection has ended, or it can move if and only if neither a handler nor a response holds it up. */
  ghost predicate MovesUnlessWithheld(s: Center, c: nat)
    requires c < |s.conns|
  {
    s.conns[c].phase.Ended? || (CanMove(s, c) <==> !Withheld(s.conns[c]))
  }

  /** The exact condition: a stopping connection that has not ended can move if and only if neither a handler nor a
      response holds it up. */
  lemma StoppingCanMoveExactly(s: Center, c: nat)
    requires c < |s.conns| && Stopping(s, c)
    ensures MovesUnlessWithheld(s, c)
  {
    if s.conns[c].phase.Ended? {
    } else if Withheld(s.conns[c]) {
      forall step | Moves(step, c) ensures !Enabled(s, step) {
      }
    } else {
      var step := StoppingMoves(s, c);
    }
  }

  /** When a cancelled connection ends: however a run goes on after the server's token or the connection's own is
      cancelled, the connection makes at most 15 more steps of its own, no other party's step costs it one, and until it
      has ended there is one it can make if and only if neither its handler nor its peer holds it up. */
  lemma CancelledConnectionEnds(s: Center, steps: seq<Step>, t: Center, c: nat)
    requires c < |s.conns| && Stopping(s, c) && RunsTo(s, steps, t)
    ensures OwnSteps(steps, c) <= 15
    ensures c < |t.conns| && (OwnSteps(steps, c) == 15 ==> t.conns[c].phase.Ended?)
    ensures MovesUnlessWithheld(t, c)
  {
    StoppingRunUsesSteps(s, steps, t, c);
    StoppingCanMoveExactly(t, c);
  }

  lemma WithheldStep(s: Center, step: Step, c: nat)
    requires c < |s.conns| && Withheld(s.conns[c]) && Enabled(s, step) && step != Stall(c, false)
    ensures
      var t := Apply(s, step);
      && c < |t.conns| && Withheld(t.conns[c]) && t.conns[c].phase == s.conns[c].phase
      && t.conns[c].recorded == s.conns[c].recorded && t.conns[c].clientId == s.conns[c].clientId
      && t.conns[c].ip == s.conns[c].ip
  {
    assert !Moves(step, c);
    OtherUntouched(s, step, c);
  }

  /** As long as the stall lasts nothing moves the connection on, cancelled or not, and its machine and address entries
      stay in the registry. */
  lemma {:induction false} WithheldStays(s: Center, steps: seq<Step>, t: Center, c: nat)
    requires Inv(s) && c < |s.conns| && Withheld(s.conns[c]) && RunsTo(s, steps, t) && Stall(c, false) !in steps
    ensures c < |t.conns| && Withheld(t.conns[c]) && t.conns[c].phase == s.conns[c].phase
    ensures t.conns[c].recorded == s.conns[c].recorded && t.conns[c].clientId == s.conns[c].clientId
    ensures t.conns[c].ip == s.conns[c].ip && Described(t.maps, t.conns[c], c)
    decreases |steps|
  {
    if steps == [] {
      ServingIsDescribed(s, c);
    } else {
      assert steps[0] in steps && forall step :: step in steps[1..] ==> step in steps;
      StepKeepsInv(s, steps[0]);
      WithheldStep(s, steps[0], c);
      WithheldStays(Apply(s, steps[0]), steps[1..], t, c);
    }
  }
}
