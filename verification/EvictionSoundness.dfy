/** Whom the heartbeat evictor cuts. */
module EvictionSoundness {
  import opened Registry
  import opened CenterMachine
  import opened CenterFrames
  import opened CenterInvariant
  import opened CenterTheorems
  import opened CenterTraces

  /** Client ids whose heartbeat the evictor has yet to remove. */
  function Todo(p: EvictorPhase): seq<string> {
    match p
    case Sweeping(todo) => todo
    case Striking(_, todo) => todo
    case Cutting(_, todo) => todo
    case _ => []
  }

  /** Client ids whose token the evictor has yet to look for. */
  predicate Pending(p: EvictorPhase, id: string) {
    id in Todo(p) || (p.Striking? && p.id == id)
  }

  /** A pending client id was found too old at the last scan: its connection then, if it still lives, is condemned, and
      one accepted since has taken over a used id. */
  ghost predicate PendingJudged(s: Center, id: string) {
    && id in s.latest && s.latest[id] < |s.conns|
    && if s.latest[id] < s.evictor.seen then Live(s.conns[s.latest[id]]) ==> s.conns[s.latest[id]].condemned
       else s.conns[s.latest[id]].reused
  }

  ghost predicate ConnJudged(s: Center, c: nat)
    requires c < |s.conns|
  {
    && (c >= s.evictor.seen ==> !s.conns[c].condemned)
    && (s.conns[c].condemned ==> s.conns[c].lastBeat.Some?)
    && (Evictor in s.conns[c].takenBy ==> s.conns[c].condemned || s.conns[c].reused)
  }

  ghost predicate Judged(s: Center) {
    && s.evictor.seen <= |s.conns|
    && (forall id :: Pending(s.evictor.phase, id) ==> PendingJudged(s, id))
    && (forall c :: 0 <= c < |s.conns| ==> ConnJudged(s, c))
  }

  /** Steps after which the evictor has no more to do than before. */
  lemma JudgedFrame(s: Center, t: Center, actor: Actor)
    requires Judged(s) && !actor.Evictor? && t.latest == s.latest && t.evictor.seen == s.evictor.seen
    requires forall id :: Pending(t.evictor.phase, id) ==> Pending(s.evictor.phase, id)
    requires |t.conns| == |s.conns|
    requires forall x :: 0 <= x < |s.conns| ==>
               && t.conns[x].condemned == s.conns[x].condemned && t.conns[x].reused == s.conns[x].reused
               && (s.conns[x].lastBeat.Some? ==> t.conns[x].lastBeat.Some?) && (Live(t.conns[x]) ==> Live(s.conns[x]))
               && TakersGrow(s.conns[x], t.conns[x], actor)
    ensures Judged(t)
  {
    forall c | 0 <= c < |t.conns| ensures ConnJudged(t, c) {
      assert ConnJudged(s, c) && TakersGrow(s.conns[c], t.conns[c], actor);
    }
    forall id | Pending(t.evictor.phase, id) ensures PendingJudged(t, id) {
      assert PendingJudged(s, id);
    }
  }

  lemma LoopKeepsJudged(s: Center, c: nat, step: LoopStep)
    requires Judged(s) && c < |s.conns| && LoopEnabled(s, s.conns[c], step)
    ensures Judged(ApplyLoop(s, c, step))
  {
    LoopFrame(s, c, step);
    assert s.conns[c].lastBeat.Some? ==> ApplyLoop(s, c, step).conns[c].lastBeat.Some?;
    JudgedFrame(s, ApplyLoop(s, c, step), Task(c));
  }

  lemma LeaveKeepsJudged(s: Center, c: nat, step: LeaveStep)
    requires Judged(s) && c < |s.conns| && LeaveEnabled(s.conns[c], step)
    ensures Judged(ApplyLeave(s, c, step))
  {
    LeaveFrame(s, c, step);
    JudgedFrame(s, ApplyLeave(s, c, step), Task(c));
  }

  lemma KickKeepsJudged(s: Center, k: nat, step: KickStep)
    requires Judged(s) && k < |s.kicks| && KickEnabled(s, s.kicks[k], step)
    ensures Judged(ApplyKick(s, k, step))
  {
    KickFrame(s, k, step);
    JudgedFrame(s, ApplyKick(s, k, step), Kicker(k));
  }

  lemma ScanKeepsJudged(s: Center, order: seq<string>)
    requires Inv(s) && Judged(s) && EvictorEnabled(s, Scan(order))
    ensures Judged(ApplyEvictor(s, Scan(order)))
  {
    var t := ApplyEvictor(s, Scan(order));
    forall c | 0 <= c < |t.conns| ensures ConnJudged(t, c) {
      assert ConnJudged(s, c);
    }
    forall id | Pending(t.evictor.phase, id) ensures PendingJudged(t, id) {
      assert TimedOut(s.maps.heartbeat, id, s.evictor.phase.at);
      assert OwnerRank(s, id, 2, 4);
      assert EntryOk(s, s.conns[s.latest[id]]);
    }
  }

  lemma TokenIsTaken(s: Center)
    requires Inv(s) && EvictorEnabled(s, SweepActive) && s.evictor.phase.id in s.maps.active
    ensures
      var id := s.evictor.phase.id;
      var c := s.maps.active[id];
      && c < |s.conns| && s.latest[id] == c && Live(s.conns[c])
      && ApplyEvictor(s, SweepActive).conns == s.conns[c := s.conns[c].(takenBy := s.conns[c].takenBy + [Evictor])]
  {
    ActiveIsOwn(s, s.evictor.phase.id);
  }

  lemma TakenIsJudged(s: Center, t: Center, c: nat)
    requires Judged(s) && c < |s.conns| && (s.conns[c].condemned || s.conns[c].reused)
    requires t.latest == s.latest && t.evictor.seen == s.evictor.seen
    requires t.conns == s.conns[c := s.conns[c].(takenBy := s.conns[c].takenBy + [Evictor])]
    requires forall id :: Pending(t.evictor.phase, id) ==> Pending(s.evictor.phase, id)
    ensures Judged(t)
  {
    forall x | 0 <= x < |t.conns| ensures ConnJudged(t, x) {
      assert ConnJudged(s, x);
    }
    forall x | Pending(t.evictor.phase, x) ensures PendingJudged(t, x) {
      assert PendingJudged(s, x);
    }
  }

  lemma TakeKeepsJudged(s: Center)
    requires Inv(s) && Judged(s) && EvictorEnabled(s, SweepActive)
    ensures Judged(ApplyEvictor(s, SweepActive))
  {
    var t, id := ApplyEvictor(s, SweepActive), s.evictor.phase.id;
    if id in s.maps.active {
      TokenIsTaken(s);
      assert PendingJudged(s, id);
      TakenIsJudged(s, t, s.maps.active[id]);
    } else {
      JudgedFrame(s, t, Task(0));
    }
  }

  lemma EvictorKeepsJudged(s: Center, step: EvictorStep)
    requires Inv(s) && Judged(s) && EvictorEnabled(s, step)
    ensures Judged(ApplyEvictor(s, step))
  {
    match step
    case Scan(order) => ScanKeepsJudged(s, order);
    case SweepActive => TakeKeepsJudged(s);
    case _ =>
      EvictorFrame(s, step);
      JudgedFrame(s, ApplyEvictor(s, step), Task(0));
  }

  lemma AcceptKeepsJudged(s: Center, step: Step)
    requires Inv(s) && Judged(s) && step.Accept? && Enabled(s, step)
    ensures Judged(Apply(s, step))
  {
    var t := Apply(s, step);
    forall c | 0 <= c < |t.conns| ensures ConnJudged(t, c) {
      assert c < |s.conns| ==> ConnJudged(s, c);
    }
    forall x | Pending(t.evictor.phase, x) ensures PendingJudged(t, x) {
      assert PendingJudged(s, x);
    }
  }

  lemma RestKeepsJudged(s: Center, step: Step)
    requires Judged(s) && Enabled(s, step) && (Aside(step) || step.Stall?)
    ensures Judged(Apply(s, step))
  {
    if step.Stall? {
      StallFrame(s, step.c, step.on);
    } else {
      AsideFrame(s, step);
    }
    JudgedFrame(s, Apply(s, step), Task(0));
  }

  lemma StepKeepsJudged(s: Center, step: Step)
    requires Inv(s) && Judged(s) && Enabled(s, step)
    ensures Judged(Apply(s, step))
  {
    match step
    case Accept(_, _, _) => AcceptKeepsJudged(s, step);
    case InLoop(c, loop) => LoopKeepsJudged(s, c, loop);
    case AfterLoop(c, leave) => LeaveKeepsJudged(s, c, leave);
    case ByEvictor(evict) => EvictorKeepsJudged(s, evict);
    case ByKick(k, kick) => KickKeepsJudged(s, k, kick);
    case _ => RestKeepsJudged(s, step);
  }

  lemma {:induction false} RunKeepsJudged(s: Center, steps: seq<Step>, t: Center)
    requires Inv(s) && Judged(s) && RunsTo(s, steps, t)
    ensures Inv(t) && Judged(t)
    decreases |steps|
  {
    if steps == [] {
    } else {
      StepKeepsInv(s, steps[0]);
      StepKeepsJudged(s, steps[0]);
      RunKeepsJudged(Apply(s, steps[0]), steps[1..], t);
    }
  }

  /** Eviction is sound: a connection whose token the evictor took had, at some scan, its last accepted ping more than
      15 s behind it; unless its client id had been used by an earlier connection. */
  lemma EvictionIsSound(steps: seq<Step>, s: Center, c: nat)
    requires RunsTo(START, steps, s) && c < |s.conns| && Evictor in s.conns[c].takenBy
    ensures s.conns[c].condemned || s.conns[c].reused
  {
    StartIsOk();
    RunKeepsJudged(START, steps, s);
    assert ConnJudged(s, c);
  }

  /** The exact condition: when the evictor is about to take a connection's token, that connection was found too old
      exactly if it had been accepted by the time of the scan the evictor is working off. */
  lemma EvictionIsJustifiedExactly(steps: seq<Step>, s: Center)
    requires RunsTo(START, steps, s) && EvictorEnabled(s, SweepActive) && s.evictor.phase.id in s.maps.active
    ensures
      var c := s.maps.active[s.evictor.phase.id];
      && c < |s.conns| && Evictor in ApplyEvictor(s, SweepActive).conns[c].takenBy
      && (s.conns[c].condemned <==> c < s.evictor.seen)
  {
    StartIsOk();
    RunKeepsJudged(START, steps, s);
    TokenIsTaken(s);
    assert PendingJudged(s, s.evictor.phase.id) && ConnJudged(s, s.maps.active[s.evictor.phase.id]);
  }

  /** A connection that never had an accepted ping is never evicted, however long it stays and however often it pings in
      vain: no scan can list it. */
  lemma NeverPingedIsNeverEvicted(steps: seq<Step>, s: Center, c: nat)
    requires RunsTo(START, steps, s) && c < |s.conns| && !s.conns[c].reused
    requires s.conns[c].lastBeat.None? || forall players :: InLoop(c, Handle(true, players)) !in steps
    ensures Evictor !in s.conns[c].takenBy
    ensures Live(s.conns[c]) && Rank(s.conns[c].phase) <= 4 ==> s.conns[c].clientId !in s.maps.heartbeat
  {
    if forall players :: InLoop(c, Handle(true, players)) !in steps {
      RejectedPingsLeaveNothing(steps, s, c);
    }
    StartIsOk();
    RunKeepsJudged(START, steps, s);
    assert ConnJudged(s, c) && EntryOk(s, s.conns[c]);
  }
}
