/** The guest's heartbeat loop running against the center's eviction loop. */
module HealthyGuests {
  import opened Common
  import opened Registry
  import opened CenterMachine
  import opened CenterFrames
  import opened CenterInvariant
  import opened CenterTheorems
  import opened CenterTraces
  import opened EvictionSoundness

  /** Milliseconds between a reply and the next ping. */
  const PING_INTERVAL: nat := 5000
  /** What a round may spend besides: reply delay, negotiation in the first round, lock wait, forward delay. */
  const SLACK: nat := 10000

  datatype Stage = Replying | Resting(left: nat) | Sending

  /** A guest: what it waits for, how many pings of its are sent and still to be accepted, and what is left of the slack
      until the next one is. */
  datatype Guest = Guest(stage: Stage, pending: nat, slack: nat)

  /** It has sent its first ping. */
  const NEW_GUEST := Guest(Sending, 1, SLACK)

  datatype Joint = Joint(center: Center, guest: Guest)

  datatype JointStep = CenterMoves(step: Step) | GetReply | WakeUp

  /** The step records an accepted ping of the connection. */
  predicate Beats(step: Step, c: nat) {
    step.InLoop? && step.c == c && step.loop.Beat?
  }

  predicate Spends(g: Guest) {
    g.pending > 0 || g.stage.Replying?
  }

  /** Connection `c` serves this guest. While it lives and has an accepted ping, time passes only as far as the
      guest's sleep and the round's slack allow; and a ping of it is accepted only after it was sent. */
  ghost predicate JointEnabled(j: Joint, c: nat, step: JointStep) {
    match step
    case CenterMoves(move) =>
      && Enabled(j.center, move)
      && (Beats(move, c) ==> j.guest.pending > 0)
      && (move.Tick? && c < |j.center.conns| && Live(j.center.conns[c]) && j.center.conns[c].lastBeat.Some? ==>
            && (j.guest.stage.Resting? ==> move.d <= j.guest.stage.left)
            && (Spends(j.guest) ==> move.d <= j.guest.slack))
    case GetReply => !j.guest.stage.Resting?
    case WakeUp => j.guest.stage == Resting(0)
  }

  /** A ping is accepted. When it is the last one sent, and its reply has not come before, the guest waits for that. */
  function Accepted(g: Guest): Guest
    requires g.pending > 0
  {
    Guest(if g.stage.Sending? && g.pending == 1 then Replying else g.stage, g.pending - 1, SLACK)
  }

  function Minus(a: nat, b: nat): nat {
    if a < b then 0 else a - b
  }

  function Passes(g: Guest, d: nat): Guest {
    Guest(if g.stage.Resting? then Resting(Minus(g.stage.left, d)) else g.stage, g.pending,
          if Spends(g) then Minus(g.slack, d) else g.slack)
  }

  function JointApply(j: Joint, c: nat, step: JointStep): Joint
    requires JointEnabled(j, c, step)
  {
    match step
    case CenterMoves(move) =>
      Joint(Apply(j.center, move),
            if Beats(move, c) then Accepted(j.guest)
            else if move.Tick? then Passes(j.guest, move.d)
            else j.guest)
    case GetReply => j.(guest := j.guest.(stage := Resting(PING_INTERVAL)))
    case WakeUp => j.(guest := j.guest.(stage := Sending, pending := j.guest.pending + 1))
  }

  ghost predicate JointRun(j: Joint, c: nat, steps: seq<JointStep>, k: Joint)
    decreases |steps|
  {
    if steps == [] then j == k
    else JointEnabled(j, c, steps[0]) && JointRun(JointApply(j, c, steps[0]), c, steps[1..], k)
  }

  lemma RestGoesBy(j: Joint, c: nat, step: JointStep)
    requires j.guest.stage.Resting? && JointEnabled(j, c, step)
    ensures
      var k := JointApply(j, c, step);
      && k.center.now >= j.center.now
      && (step.WakeUp? ==> j.guest.stage.left == 0)
      && (!step.WakeUp? ==>
            k.guest.stage.Resting? && k.center.now + k.guest.stage.left >= j.center.now + j.guest.stage.left)
  {
    if step.CenterMoves? {
      ClockFrame(j.center, step.step);
    }
  }

  lemma {:induction false} TimeGoesOn(j: Joint, c: nat, steps: seq<JointStep>, k: Joint)
    requires JointRun(j, c, steps, k)
    ensures k.center.now >= j.center.now
    decreases |steps|
  {
    if steps == [] {
    } else {
      if steps[0].CenterMoves? {
        ClockFrame(j.center, steps[0].step);
      }
      TimeGoesOn(JointApply(j, c, steps[0]), c, steps[1..], k);
    }
  }

  lemma {:induction false} RestLasts(j: Joint, c: nat, steps: seq<JointStep>, k: Joint)
    requires j.guest.stage.Resting? && JointRun(j, c, steps, k) && WakeUp in steps
    ensures k.center.now >= j.center.now + j.guest.stage.left
    decreases |steps|
  {
    if steps == [] {
      assert false;
    } else {
      RestGoesBy(j, c, steps[0]);
      if steps[0].WakeUp? {
        TimeGoesOn(JointApply(j, c, steps[0]), c, steps[1..], k);
      } else {
        assert WakeUp in steps[1..];
        RestLasts(JointApply(j, c, steps[0]), c, steps[1..], k);
      }
    }
  }

  /** The guest sends its next ping 5 s after a reply, and not sooner. */
  lemma GuestRestsFiveSeconds(j: Joint, c: nat, steps: seq<JointStep>, k: Joint)
    requires JointEnabled(j, c, GetReply) && JointRun(JointApply(j, c, GetReply), c, steps, k) && WakeUp in steps
    ensures k.center.now >= j.center.now + 5000
  {
    RestLasts(JointApply(j, c, GetReply), c, steps, k);
  }

  /** Time until the next accepted ping, at the latest. */
  function Owed(g: Guest): nat {
    g.slack + if g.pending > 0 then 0 else
      match g.stage
      case Resting(left) => left
      case Replying => PING_INTERVAL
      case Sending => 0
  }

  ghost predicate Healthy(j: Joint, c: nat) {
    && (j.guest.stage.Sending? ==> j.guest.pending > 0) && (j.guest.stage.Replying? ==> j.guest.pending == 0)
    && j.guest.slack <= SLACK && (j.guest.stage.Resting? ==> j.guest.stage.left <= PING_INTERVAL)
    && (c < |j.center.conns| && Live(j.center.conns[c]) ==>
          && !j.center.conns[c].condemned
          && (j.center.conns[c].lastBeat.Some? ==>
                j.center.now + Owed(j.guest) <= j.center.conns[c].lastBeat.value + HEARTBEAT_TIMEOUT))
  }

  lemma OwnLeavingIsQuiet(s: Center, c: nat, step: LeaveStep)
    requires c < |s.conns| && LeaveEnabled(s.conns[c], step)
    ensures
      var t := ApplyLeave(s, c, step);
      && |t.conns| == |s.conns| && t.now == s.now && t.conns[c].lastBeat == s.conns[c].lastBeat
      && t.conns[c].condemned == s.conns[c].condemned
  {
    LeaveFrame(s, c, step);
  }

  lemma ScanCondemns(s: Center, order: seq<string>, c: nat)
    requires EvictorEnabled(s, Scan(order)) && c < |s.conns|
    ensures
      var t := ApplyEvictor(s, Scan(order));
      |t.conns| == |s.conns| && t.conns[c] == Condemn(s.conns[c], s.evictor.phase.at)
  {
  }

  /** Only a scan that finds the last accepted ping too old condemns a connection. */
  lemma VerdictFrame(s: Center, step: Step, c: nat)
    requires ClockRead(s) && Enabled(s, step) && c < |s.conns|
    ensures |Apply(s, step).conns| > c
    ensures Apply(s, step).conns[c].condemned ==>
              s.conns[c].condemned || (s.conns[c].lastBeat.Some? && Expired(s.conns[c].lastBeat.value, s.now))
  {
    match step
    case Accept(_, _, _) =>
    case InLoop(d, loop) => LoopFrame(s, d, loop);
    case AfterLoop(d, leave) => LeaveFrame(s, d, leave);
    case ByEvictor(evict) =>
      if evict.Scan? {
        ScanCondemns(s, evict.order, c);
      } else {
        EvictorFrame(s, evict);
      }
    case ByKick(k, kick) => KickFrame(s, k, kick);
    case Stall(d, on) => StallFrame(s, d, on);
    case _ => AsideFrame(s, step);
  }

  /** Only a beat of the connection renews its last accepted ping. */
  lemma LastBeatFrame(s: Center, step: Step, c: nat)
    requires Enabled(s, step) && c < |s.conns| && !Beats(step, c)
    ensures |Apply(s, step).conns| > c && Apply(s, step).conns[c].lastBeat == s.conns[c].lastBeat
    ensures Live(Apply(s, step).conns[c]) ==> Live(s.conns[c])
  {
    if !Moves(step, c) {
      OtherUntouched(s, step, c);
    } else if step.InLoop? {
      LoopFrame(s, c, step.loop);
    } else {
      OwnLeavingIsQuiet(s, c, step.leave);
    }
  }

  lemma BeatIsNow(s: Center, c: nat)
    requires Enabled(s, InLoop(c, Beat))
    ensures
      var t := Apply(s, InLoop(c, Beat));
      && |t.conns| == |s.conns| && t.conns[c].lastBeat == Some(s.now) && t.now == s.now
      && t.conns[c].condemned == s.conns[c].condemned
  {
  }

  lemma NewConnections(s: Center, step: Step, c: nat)
    requires Enabled(s, step) && c >= |s.conns|
    ensures c < |Apply(s, step).conns| ==> !Apply(s, step).conns[c].condemned && Apply(s, step).conns[c].lastBeat.None?
  {
    ConnsGrow(s, step);
  }

  lemma CenterStepKeepsHealthy(j: Joint, c: nat, step: Step)
    requires ClockRead(j.center) && Healthy(j, c) && JointEnabled(j, c, CenterMoves(step))
    ensures Healthy(JointApply(j, c, CenterMoves(step)), c)
  {
    if Beats(step, c) {
      BeatIsNow(j.center, c);
    } else if c < |j.center.conns| {
      ClockFrame(j.center, step);
      VerdictFrame(j.center, step, c);
      LastBeatFrame(j.center, step, c);
    } else {
      ClockFrame(j.center, step);
      NewConnections(j.center, step, c);
    }
  }

  lemma JointStepKeepsHealthy(j: Joint, c: nat, step: JointStep)
    requires ClockRead(j.center) && Healthy(j, c) && JointEnabled(j, c, step)
    ensures Healthy(JointApply(j, c, step), c)
  {
    if step.CenterMoves? {
      CenterStepKeepsHealthy(j, c, step.step);
    }
  }

  lemma {:induction false} JointRunKeeps(j: Joint, c: nat, steps: seq<JointStep>, k: Joint)
    requires Inv(j.center) && Judged(j.center) && Healthy(j, c) && JointRun(j, c, steps, k)
    ensures Inv(k.center) && Judged(k.center) && Healthy(k, c)
    decreases |steps|
  {
    if steps == [] {
    } else {
      JointStepKeepsHealthy(j, c, steps[0]);
      if steps[0].CenterMoves? {
        StepKeepsInv(j.center, steps[0].step);
        StepKeepsJudged(j.center, steps[0].step);
      }
      JointRunKeeps(JointApply(j, c, steps[0]), c, steps[1..], k);
    }
  }

  /** A healthy guest is never evicted: if in every round reply delay, negotiation, lock wait and forward delay add up
      to at most 10 s, then no scan in any run lists the guest's connection, and while that lives the evictor has not
      taken its token; unless an earlier connection used the same client id. */
  lemma HealthyGuestIsNotEvicted(steps: seq<JointStep>, j: Joint, c: nat)
    requires JointRun(Joint(START, NEW_GUEST), c, steps, j) && c < |j.center.conns| && Live(j.center.conns[c])
    ensures !TimedOut(j.center.maps.heartbeat, j.center.conns[c].clientId, j.center.now)
    ensures forall order :: EvictorEnabled(j.center, Scan(order)) ==> j.center.conns[c].clientId !in order
    ensures !j.center.conns[c].condemned && (Evictor in j.center.conns[c].takenBy ==> j.center.conns[c].reused)
  {
    StartIsOk();
    JointRunKeeps(Joint(START, NEW_GUEST), c, steps, j);
    var s := j.center;
    OwnEntries(s, c);
    assert ConnJudged(s, c);
  }
}
