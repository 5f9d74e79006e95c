/** The heartbeat evictor's loop: how often it scans, that it always can go on, and that it stops for good. */
module EvictorLoop {
  import opened Common
  import opened Registry
  import opened CenterMachine
  import opened CenterFrames
  import opened CenterInvariant
  import opened CenterTheorems
  import opened CenterTraces

  /** When the evictor has read the clock for a scan. */
  function ScanTimes(steps: seq<Step>): seq<nat> {
    if steps == [] then [] else
      var n := |steps| - 1;
      ScanTimes(steps[..n]) + if steps[n] == ByEvictor(ReadClock) then [Elapsed(steps[..n])] else []
  }

  lemma OneMoreScanTime(steps: seq<Step>, step: Step)
    ensures ScanTimes(steps + [step]) ==
              ScanTimes(steps) + if step == ByEvictor(ReadClock) then [Elapsed(steps)] else []
  {
    assert (steps + [step])[..|steps|] == steps;
  }

  /** The first scan is made after 5 s, and each later one at least 5 s after the one before. */
  ghost predicate Spaced(times: seq<nat>) {
    && (times != [] ==> times[0] >= 5000)
    && (forall i :: 0 < i < |times| ==> times[i] >= times[i - 1] + 5000)
  }

  /** After these scans, the last of them in the past, the evictor is asleep for 5 s from the last one on, at least. */
  ghost predicate Sleeps(times: seq<nat>, s: Center) {
    && Spaced(times) && (times != [] ==> times[|times| - 1] <= s.now)
    && (s.evictor.phase.Sleeping? ==>
          s.evictor.wake >= 5000 && (times != [] ==> s.evictor.wake >= times[|times| - 1] + 5000))
  }

  ghost predicate AtWork(past: seq<Step>, s: Center) {
    && s.now == Elapsed(past) && Sleeps(ScanTimes(past), s)
    && (s.evictor.phase.Sweeping? ==> s.evictor.phase.todo != [])
    && (s.evictor.phase.Stopped? <==> ByEvictor(StopEvictor) in past)
  }

  lemma EvictorStays(s: Center, step: Step)
    requires Enabled(s, step) && !step.ByEvictor?
    ensures Apply(s, step).evictor == s.evictor
  {
    match step
    case Accept(_, _, _) =>
    case InLoop(c, loop) => LoopFrame(s, c, loop);
    case AfterLoop(c, leave) => LeaveFrame(s, c, leave);
    case ByKick(k, kick) => KickFrame(s, k, kick);
    case Stall(c, on) => StallFrame(s, c, on);
    case _ => AsideFrame(s, step);
  }

  lemma EvictorGoes(s: Center, step: EvictorStep)
    requires EvictorEnabled(s, step)
    ensures
      var t := ApplyEvictor(s, step);
      && t.now == s.now && !s.evictor.phase.Stopped? && (t.evictor.phase.Stopped? <==> step.StopEvictor?)
      && (step.ReadClock? ==> s.evictor.phase.Sleeping? && s.now >= s.evictor.wake && !t.evictor.phase.Sleeping?)
      && (t.evictor.phase.Sleeping? ==> t.evictor.wake == s.now + 5000)
      && (t.evictor.phase.Sweeping? ==> t.evictor.phase.todo != [])
  {
    EvictorFrame(s, step);
  }

  lemma StepSleeps(times: seq<nat>, s: Center, step: Step)
    requires Sleeps(times, s) && Enabled(s, step)
    ensures Sleeps(times + if step == ByEvictor(ReadClock) then [s.now] else [], Apply(s, step))
  {
    ClockFrame(s, step);
    if step.ByEvictor? {
      EvictorGoes(s, step.evict);
    } else {
      EvictorStays(s, step);
    }
    assert times + [] == times;
  }

  lemma StepAtWork(past: seq<Step>, s: Center, step: Step)
    requires AtWork(past, s) && Enabled(s, step)
    ensures AtWork(past + [step], Apply(s, step))
  {
    StepSleeps(ScanTimes(past), s, step);
    OneMoreScanTime(past, step);
    OneMoreStepRead(past, step, 0);
    ClockFrame(s, step);
    if step.ByEvictor? {
      EvictorGoes(s, step.evict);
    } else {
      EvictorStays(s, step);
    }
  }

  lemma {:induction false} LastStep(s: Center, steps: seq<Step>, t: Center) returns (u: Center)
    requires RunsTo(s, steps, t) && steps != []
    ensures RunsTo(s, steps[..|steps| - 1], u) && Enabled(u, steps[|steps| - 1])
    ensures t == Apply(u, steps[|steps| - 1])
    decreases |steps|
  {
    if |steps| == 1 {
      u := s;
    } else {
      u := LastStep(Apply(s, steps[0]), steps[1..], t);
      assert steps[..|steps| - 1][1..] == steps[1..][..|steps| - 2];
    }
  }

  lemma {:induction false} WorkAfter(steps: seq<Step>, s: Center)
    requires RunsTo(START, steps, s)
    ensures AtWork(steps, s)
    decreases |steps|
  {
    if steps == [] {
    } else {
      var n := |steps| - 1;
      var u := LastStep(START, steps, s);
      WorkAfter(steps[..n], u);
      StepAtWork(steps[..n], u, steps[n]);
      assert steps[..n] + [steps[n]] == steps;
    }
  }

  /** In every run the evictor scans every 5 s at most. */
  lemma ScansAreSpaced(steps: seq<Step>, s: Center)
    requires RunsTo(START, steps, s)
    ensures Spaced(ScanTimes(steps))
  {
    WorkAfter(steps, s);
  }

  /** Once it has stopped it does nothing any more, whatever else goes on. */
  lemma {:induction false} StoppedForGood(s: Center, steps: seq<Step>, t: Center)
    requires s.evictor.phase.Stopped? && RunsTo(s, steps, t)
    ensures t.evictor == s.evictor && forall step :: step in steps ==> !step.ByEvictor?
    decreases |steps|
  {
    if steps == [] {
    } else {
      if steps[0].ByEvictor? {
        EvictorGoes(s, steps[0].evict);
        assert false;
      }
      EvictorStays(s, steps[0]);
      StoppedForGood(Apply(s, steps[0]), steps[1..], t);
    }
  }

  lemma {:induction false} Listed(ids: set<string>) returns (order: seq<string>)
    ensures Distinct(order) && forall id :: id in order <==> id in ids
    decreases ids
  {
    if ids == {} {
      order := [];
    } else {
      var id :| id in ids;
      var rest := Listed(ids - {id});
      order := [id] + rest;
    }
  }

  lemma WorkGoesOn(s: Center) returns (step: EvictorStep)
    requires !s.evictor.phase.Sleeping? && !s.evictor.phase.Stopped?
    requires s.evictor.phase.Sweeping? ==> s.evictor.phase.todo != []
    requires s.evictor.phase.Cutting? ==> s.evictor.phase.token < |s.conns|
    ensures EvictorEnabled(s, step)
  {
    match s.evictor.phase {
      case Scanning(at) =>
        var order := Listed(set id | id in s.maps.heartbeat && Expired(s.maps.heartbeat[id], at));
        step := Scan(order);
      case Sweeping(_) => step := SweepBeat;
      case Striking(_, _) => step := SweepActive;
      case Cutting(_, _) => step := SweepCut;
    }
  }

  lemma TokenInHand(steps: seq<Step>, s: Center)
    requires RunsTo(START, steps, s)
    ensures s.evictor.phase.Cutting? ==> s.evictor.phase.token < |s.conns|
  {
    StartIsOk();
    RunKeepsInv(START, steps, s);
  }

  /** In every run the evictor can go on unless it has stopped, or is asleep, its time not come and the server not
      cancelled. */
  lemma EvictorGoesOn(steps: seq<Step>, s: Center)
    requires RunsTo(START, steps, s)
    ensures (exists step :: EvictorEnabled(s, step)) <==>
              && !s.evictor.phase.Stopped?
              && (s.evictor.phase.Sleeping? ==> s.serverCancelled || s.now >= s.evictor.wake)
    ensures s.evictor.phase.Stopped? <==> ByEvictor(StopEvictor) in steps
  {
    WorkAfter(steps, s);
    TokenInHand(steps, s);
    if s.evictor.phase.Sleeping? {
      assert s.now >= s.evictor.wake ==> EvictorEnabled(s, ReadClock);
      assert s.serverCancelled ==> EvictorEnabled(s, StopEvictor);
    } else if !s.evictor.phase.Stopped? {
      var _ := WorkGoesOn(s);
    }
  }
}
