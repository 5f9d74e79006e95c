/** When the heartbeat evictor cuts, if it wakes on time and works in no time. */
module EvictionDeadlines {
  import opened Common
  import opened Registry
  import opened CenterMachine
  import opened CenterFrames
  import opened CenterInvariant
  import opened CenterTheorems
  import opened EvictionSoundness

  /** The evictor wakes on time and its work takes no time: the clock stands still while it works or is due. */
  predicate Timely(s: Center, step: Step) {
    step.Tick? ==> s.serverCancelled || (s.evictor.phase.Sleeping? && s.now + step.d <= s.evictor.wake)
  }

  ghost predicate TimelyRun(s: Center, steps: seq<Step>, t: Center)
    decreases |steps|
  {
    if steps == [] then s == t
    else Enabled(s, steps[0]) && Timely(s, steps[0]) && TimelyRun(Apply(s, steps[0]), steps[1..], t)
  }

  const LIMIT: nat := HEARTBEAT_TIMEOUT + HEARTBEAT_INTERVAL

  ghost predicate ClockOk(s: Center) {
    && !s.evictor.phase.Stopped?
    && (s.evictor.phase.Sleeping? ==> s.now <= s.evictor.wake <= s.now + HEARTBEAT_INTERVAL)
    && (s.evictor.phase.Scanning? ==> s.evictor.phase.at == s.now)
    && (forall id :: id in s.maps.heartbeat ==>
          && s.maps.heartbeat[id] + LIMIT >= (if s.evictor.phase.Sleeping? then s.evictor.wake else s.now)
          && (id in Todo(s.evictor.phase) || s.evictor.phase.Sleeping? || s.evictor.phase.Scanning?
              || s.maps.heartbeat[id] + HEARTBEAT_TIMEOUT >= s.now))
  }

  /** A serving connection that has an accepted ping and a token in the map has a heartbeat entry, or is being
      struck. */
  ghost predicate Watched(s: Center, c: nat)
    requires c < |s.conns|
  {
    var conn := s.conns[c];
    2 <= Rank(conn.phase) <= 3 && conn.lastBeat.Some? && conn.takenBy == [] ==>
      conn.clientId in s.maps.heartbeat || (s.evictor.phase.Striking? && s.evictor.phase.id == conn.clientId)
  }

  /** Its last accepted ping, or that of the connection about to be cut, is no more than 20 s old. */
  ghost predicate Recent(s: Center, c: nat)
    requires c < |s.conns|
  {
    var conn := s.conns[c];
    conn.lastBeat.Some? && ((2 <= Rank(conn.phase) <= 3 && conn.takenBy == []) || Hand(s.evictor.phase) == Some(c)) ==>
      conn.lastBeat.value + LIMIT >= s.now
  }

  /** The last accepted ping of a connection is more than 15 s old, or of this very instant. */
  predicate Stale(s: Center, conn: Conn) {
    conn.lastBeat.Some? ==> conn.lastBeat.value + HEARTBEAT_TIMEOUT < s.now || conn.lastBeat.value == s.now
  }

  /** The connection a pending client id was listed for, if it still lives. */
  predicate TargetStale(s: Center, id: string) {
    id in s.latest && s.latest[id] < s.evictor.seen && s.latest[id] < |s.conns| && Live(s.conns[s.latest[id]]) ==>
      Stale(s, s.conns[s.latest[id]])
  }

  ghost predicate TargetsStale(s: Center) {
    && (forall id :: Pending(s.evictor.phase, id) ==> TargetStale(s, id))
    && (s.evictor.phase.Cutting? && s.evictor.phase.token < |s.conns| && s.evictor.phase.token < s.evictor.seen ==>
          s.conns[s.evictor.phase.token].condemned && Stale(s, s.conns[s.evictor.phase.token]))
  }

  ghost predicate ConnsOnTime(s: Center) {
    forall c :: 0 <= c < |s.conns| ==> Watched(s, c) && Recent(s, c)
  }

  ghost predicate OnTime(s: Center) {
    ClockOk(s) && ConnsOnTime(s) && TargetsStale(s)
  }

  /** What the deadlines of a connection depend on, takers aside. */
  predicate SameTiming(a: Conn, b: Conn) {
    && b.clientId == a.clientId && b.phase == a.phase && b.lastBeat == a.lastBeat
    && (a.condemned ==> b.condemned) && |a.takenBy| <= |b.takenBy|
  }

  /** Steps that touch neither clock, evictor nor heartbeats. */
  lemma OnTimeFrame(s: Center, t: Center)
    requires OnTime(s)
    requires t.maps.heartbeat == s.maps.heartbeat && t.evictor == s.evictor && t.now == s.now && t.latest == s.latest
    requires |t.conns| == |s.conns| && forall x :: 0 <= x < |s.conns| ==> SameTiming(s.conns[x], t.conns[x])
    ensures OnTime(t)
  {
    forall c | 0 <= c < |t.conns| ensures Watched(t, c) && Recent(t, c) {
      assert SameTiming(s.conns[c], t.conns[c]) && Watched(s, c) && Recent(s, c);
    }
    forall id | Pending(t.evictor.phase, id) ensures TargetStale(t, id) {
      assert TargetStale(s, id);
    }
  }

  /** Steps of one connection that leave its last beat alone and at most drop its own heartbeat entry. */
  lemma OwnStepOnTime(s: Center, t: Center, c: nat)
    requires IdsOk(s) && OnTime(s) && c < |s.conns| && Live(s.conns[c])
    requires t.evictor == s.evictor && t.now == s.now && t.latest == s.latest
    requires t.maps.heartbeat == s.maps.heartbeat || t.maps.heartbeat == Without(s.maps.heartbeat, s.conns[c].clientId)
    requires |t.conns| == |s.conns|
    requires forall x :: 0 <= x < |s.conns| && x != c ==> SameTiming(s.conns[x], t.conns[x])
    requires t.conns[c].clientId == s.conns[c].clientId && t.conns[c].lastBeat == s.conns[c].lastBeat
    requires (s.conns[c].condemned ==> t.conns[c].condemned) && |s.conns[c].takenBy| <= |t.conns[c].takenBy|
    requires
      || Rank(t.conns[c].phase) >= 4
      || (t.maps.heartbeat == s.maps.heartbeat && (2 <= Rank(s.conns[c].phase) <= 3 || s.conns[c].lastBeat.None?))
    ensures OnTime(t)
  {
    forall x | 0 <= x < |t.conns| ensures Watched(t, x) && Recent(t, x) {
      assert Watched(s, x) && Recent(s, x);
      assert x != c ==> SameTiming(s.conns[x], t.conns[x]);
    }
    forall id | Pending(t.evictor.phase, id) ensures TargetStale(t, id) {
      assert TargetStale(s, id);
    }
  }

  lemma BeatOnTime(s: Center, c: nat)
    requires Inv(s) && OnTime(s) && c < |s.conns| && LoopEnabled(s, s.conns[c], Beat)
    ensures OnTime(ApplyLoop(s, c, Beat))
  {
    var t := ApplyLoop(s, c, Beat);
    LoopFrame(s, c, Beat);
    forall x | 0 <= x < |t.conns| ensures Watched(t, x) && Recent(t, x) {
      assert Watched(s, x) && Recent(s, x);
    }
    forall id | Pending(t.evictor.phase, id) ensures TargetStale(t, id) {
      assert TargetStale(s, id);
    }
  }

  lemma LoopOnTime(s: Center, c: nat, step: LoopStep)
    requires Inv(s) && OnTime(s) && c < |s.conns| && LoopEnabled(s, s.conns[c], step)
    ensures OnTime(ApplyLoop(s, c, step))
  {
    if step.Beat? {
      BeatOnTime(s, c);
    } else {
      LoopFrame(s, c, step);
      assert EntryOk(s, s.conns[c]);
      OwnStepOnTime(s, ApplyLoop(s, c, step), c);
    }
  }

  lemma LeaveTiming(s: Center, c: nat, step: LeaveStep)
    requires c < |s.conns| && LeaveEnabled(s.conns[c], step)
    ensures
      var t := ApplyLeave(s, c, step);
      && |t.conns| == |s.conns| && (forall x :: 0 <= x < |s.conns| && x != c ==> SameTiming(s.conns[x], t.conns[x]))
      && SameTiming(s.conns[c].(phase := t.conns[c].phase), t.conns[c]) && Rank(t.conns[c].phase) >= 4
      && t.evictor == s.evictor && t.now == s.now && t.latest == s.latest
      && (t.maps.heartbeat == s.maps.heartbeat || t.maps.heartbeat == Without(s.maps.heartbeat, s.conns[c].clientId))
  {
    LeaveFrame(s, c, step);
  }

  lemma LeaveOnTime(s: Center, c: nat, step: LeaveStep)
    requires IdsOk(s) && OnTime(s) && c < |s.conns| && LeaveEnabled(s.conns[c], step)
    ensures OnTime(ApplyLeave(s, c, step))
  {
    LeaveTiming(s, c, step);
    OwnStepOnTime(s, ApplyLeave(s, c, step), c);
  }

  lemma KickOnTime(s: Center, k: nat, step: KickStep)
    requires OnTime(s) && k < |s.kicks| && KickEnabled(s, s.kicks[k], step)
    ensures OnTime(ApplyKick(s, k, step))
  {
    KickFrame(s, k, step);
    OnTimeFrame(s, ApplyKick(s, k, step));
  }

  lemma ReadClockOnTime(s: Center)
    requires OnTime(s) && EvictorEnabled(s, ReadClock)
    ensures OnTime(ApplyEvictor(s, ReadClock))
  {
    var t := ApplyEvictor(s, ReadClock);
    forall c | 0 <= c < |t.conns| ensures Watched(t, c) && Recent(t, c) {
      assert Watched(s, c) && Recent(s, c);
    }
  }

  lemma ScanOnTime(s: Center, order: seq<string>)
    requires Inv(s) && OnTime(s) && EvictorEnabled(s, Scan(order))
    ensures OnTime(ApplyEvictor(s, Scan(order)))
  {
    var t := ApplyEvictor(s, Scan(order));
    forall c | 0 <= c < |t.conns| ensures Watched(t, c) && Recent(t, c) {
      assert Watched(s, c) && Recent(s, c);
    }
    forall id | Pending(t.evictor.phase, id) ensures TargetStale(t, id) {
      assert TimedOut(s.maps.heartbeat, id, s.evictor.phase.at);
      assert OwnerRank(s, id, 2, 4);
      assert EntryOk(s, s.conns[s.latest[id]]);
    }
    forall id | id in t.maps.heartbeat ensures id in order || t.maps.heartbeat[id] + HEARTBEAT_TIMEOUT >= t.now {
      assert id in order <==> TimedOut(s.maps.heartbeat, id, s.evictor.phase.at);
    }
  }

  lemma SweepBeatOnTime(s: Center)
    requires Inv(s) && OnTime(s) && EvictorEnabled(s, SweepBeat)
    ensures OnTime(ApplyEvictor(s, SweepBeat))
  {
    var t := ApplyEvictor(s, SweepBeat);
    forall c | 0 <= c < |t.conns| ensures Watched(t, c) && Recent(t, c) {
      assert Watched(s, c) && Recent(s, c);
    }
    forall id | Pending(t.evictor.phase, id) ensures TargetStale(t, id) {
      assert TargetStale(s, id);
    }
  }

  lemma SweepMissesOnTime(s: Center)
    requires Inv(s) && OnTime(s) && EvictorEnabled(s, SweepActive) && s.evictor.phase.id !in s.maps.active
    ensures OnTime(ApplyEvictor(s, SweepActive))
  {
    var t := ApplyEvictor(s, SweepActive);
    forall c | 0 <= c < |t.conns| ensures Watched(t, c) && Recent(t, c) {
      assert Watched(s, c) && Recent(s, c) && TokenOk(s, c);
    }
    forall id | Pending(t.evictor.phase, id) ensures TargetStale(t, id) {
      assert TargetStale(s, id);
    }
  }

  /** The evictor has taken the token of the connection it was striking. */
  lemma TakenOnTime(s: Center, t: Center, c: nat)
    requires OnTime(s) && s.evictor.phase.Striking? && c < |s.conns| && s.latest == t.latest
    requires IdsOk(s) && s.conns[c].clientId == s.evictor.phase.id
    requires s.conns[c].takenBy == [] && 1 <= Rank(s.conns[c].phase) <= 3
    requires Rank(s.conns[c].phase) == 1 ==> s.conns[c].lastBeat.None?
    requires c < s.evictor.seen ==> s.conns[c].condemned && Stale(s, s.conns[c])
    requires t.evictor == s.evictor.(phase := Cutting(c, s.evictor.phase.todo)) && t.now == s.now
    requires t.maps.heartbeat == s.maps.heartbeat
    requires t.conns == s.conns[c := s.conns[c].(takenBy := [Evictor])]
    ensures OnTime(t)
  {
    forall x | 0 <= x < |t.conns| ensures Watched(t, x) && Recent(t, x) {
      assert Watched(s, x) && Recent(s, x);
    }
    forall x | Pending(t.evictor.phase, x) ensures TargetStale(t, x) {
      assert TargetStale(s, x);
    }
  }

  lemma SweepTakesOnTime(s: Center)
    requires Inv(s) && Judged(s) && OnTime(s) && EvictorEnabled(s, SweepActive) && s.evictor.phase.id in s.maps.active
    ensures OnTime(ApplyEvictor(s, SweepActive))
  {
    var t, id := ApplyEvictor(s, SweepActive), s.evictor.phase.id;
    TokenIsTaken(s);
    ActiveIsOwn(s, id);
    var c := s.maps.active[id];
    assert s.conns[c].takenBy + [Evictor] == [Evictor];
    assert EntryOk(s, s.conns[c]) && PendingJudged(s, id) && TargetStale(s, id);
    TakenOnTime(s, t, c);
  }

  lemma SweepCutOnTime(s: Center)
    requires OnTime(s) && EvictorEnabled(s, SweepCut)
    ensures OnTime(ApplyEvictor(s, SweepCut))
  {
    var t := ApplyEvictor(s, SweepCut);
    forall c | 0 <= c < |t.conns| ensures Watched(t, c) && Recent(t, c) {
      assert Watched(s, c) && Recent(s, c);
    }
    forall id | Pending(t.evictor.phase, id) ensures TargetStale(t, id) {
      assert TargetStale(s, id);
    }
  }

  lemma AcceptOnTime(s: Center, step: Step)
    requires Inv(s) && Judged(s) && OnTime(s) && step.Accept? && Enabled(s, step)
    ensures OnTime(Apply(s, step))
  {
    var t := Apply(s, step);
    forall c | 0 <= c < |t.conns| ensures Watched(t, c) && Recent(t, c) {
      assert c < |s.conns| ==> Watched(s, c) && Recent(s, c);
    }
    forall id | Pending(t.evictor.phase, id) ensures TargetStale(t, id) {
      assert TargetStale(s, id) && PendingJudged(s, id);
    }
  }

  lemma TickOnTime(s: Center, step: Step)
    requires Inv(s) && OnTime(s) && !s.serverCancelled && step.Tick? && Timely(s, step)
    ensures OnTime(Apply(s, step))
  {
    var t := Apply(s, step);
    forall c | 0 <= c < |t.conns| ensures Watched(t, c) && Recent(t, c) {
      assert Watched(s, c) && Recent(s, c) && EntryOk(s, s.conns[c]);
    }
  }

  lemma EvictorOnTime(s: Center, step: EvictorStep)
    requires Inv(s) && Judged(s) && OnTime(s) && !s.serverCancelled && EvictorEnabled(s, step)
    ensures OnTime(ApplyEvictor(s, step))
  {
    match step
    case ReadClock => ReadClockOnTime(s);
    case Scan(order) => ScanOnTime(s, order);
    case SweepBeat => SweepBeatOnTime(s);
    case SweepActive =>
      if s.evictor.phase.id in s.maps.active {
        SweepTakesOnTime(s);
      } else {
        SweepMissesOnTime(s);
      }
    case SweepCut => SweepCutOnTime(s);
    case StopEvictor => assert false;
  }

  lemma RestOnTime(s: Center, step: Step)
    requires OnTime(s) && Enabled(s, step) && (Aside(step) || step.Stall?) && !step.Tick?
    ensures OnTime(Apply(s, step))
  {
    if step.Stall? {
      StallFrame(s, step.c, step.on);
    } else {
      AsideFrame(s, step);
    }
    OnTimeFrame(s, Apply(s, step));
  }

  lemma StepOnTime(s: Center, step: Step)
    requires Inv(s) && Judged(s) && OnTime(s) && !s.serverCancelled && Enabled(s, step) && Timely(s, step)
    ensures OnTime(Apply(s, step))
  {
    match step
    case Accept(_, _, _) => AcceptOnTime(s, step);
    case InLoop(c, loop) => LoopOnTime(s, c, loop);
    case AfterLoop(c, leave) => LeaveOnTime(s, c, leave);
    case ByEvictor(evict) => EvictorOnTime(s, evict);
    case ByKick(k, kick) => KickOnTime(s, k, kick);
    case Tick(_) => TickOnTime(s, step);
    case _ => RestOnTime(s, step);
  }

  /** A cancelled server stays cancelled. */
  lemma ServerStays(s: Center, step: Step)
    requires Enabled(s, step) && s.serverCancelled
    ensures Apply(s, step).serverCancelled
  {
    match step
    case InLoop(c, loop) => LoopFrame(s, c, loop);
    case AfterLoop(c, leave) => LeaveFrame(s, c, leave);
    case ByEvictor(evict) => EvictorFrame(s, evict);
    case ByKick(k, kick) => KickFrame(s, k, kick);
    case _ =>
  }

  lemma {:induction false} TimelyRunKeeps(s: Center, steps: seq<Step>, t: Center)
    requires Inv(s) && Judged(s) && (s.serverCancelled || OnTime(s)) && TimelyRun(s, steps, t)
    ensures Inv(t) && Judged(t) && (t.serverCancelled || OnTime(t))
    decreases |steps|
  {
    if steps == [] {
    } else {
      StepKeepsInv(s, steps[0]);
      StepKeepsJudged(s, steps[0]);
      if s.serverCancelled {
        ServerStays(s, steps[0]);
      } else {
        StepOnTime(s, steps[0]);
      }
      TimelyRunKeeps(Apply(s, steps[0]), steps[1..], t);
    }
  }

  /** Eviction is complete: while the server runs, a serving connection whose last accepted ping is more than 20 s old
      has had its token taken, and the token is cancelled unless a kick that took it is still about to do so. */
  lemma SilentConnectionIsCut(steps: seq<Step>, s: Center, c: nat)
    requires TimelyRun(START, steps, s) && !s.serverCancelled && c < |s.conns| && 2 <= Rank(s.conns[c].phase) <= 3
    requires s.conns[c].lastBeat.Some? && s.now > s.conns[c].lastBeat.value + 20000
    ensures |s.conns[c].takenBy| == 1
    ensures s.conns[c].cancelled || (s.conns[c].takenBy[0].Kicker? && Holds(s, s.conns[c].takenBy[0], c))
  {
    StartIsOk();
    TimelyRunKeeps(START, steps, s);
    assert Recent(s, c) && TokenOk(s, c);
  }

  /** Eviction is on time: when the evictor cancels a connection that it found at its last scan, the last accepted ping
      is more than 15 s and at most 20 s old; unless one was accepted at this very instant, after the scan. */
  lemma EvictionIsOnTime(steps: seq<Step>, s: Center)
    requires TimelyRun(START, steps, s) && !s.serverCancelled && EvictorEnabled(s, SweepCut)
    requires s.evictor.phase.token < s.evictor.seen
    ensures
      var last := s.conns[s.evictor.phase.token].lastBeat;
      last.Some? && (last.value == s.now || last.value + 15000 < s.now <= last.value + 20000)
  {
    StartIsOk();
    TimelyRunKeeps(START, steps, s);
    var c := s.evictor.phase.token;
    assert Recent(s, c) && ConnJudged(s, c);
  }
}
