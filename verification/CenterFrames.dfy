/** What each family of center steps leaves alone. */
module CenterFrames {
  import opened CenterMachine

  /** A connection that another party's step has met: at most its token's fate and the scan's verdict differ. */
  predicate Untouched(a: Conn, b: Conn) {
    b == a.(cancelled := b.cancelled, takenBy := b.takenBy, condemned := b.condemned)
  }

  lemma LoopFrame(s: Center, c: nat, step: LoopStep)
    requires c < |s.conns| && LoopEnabled(s, s.conns[c], step)
    ensures
      var t := ApplyLoop(s, c, step);
      && t == s.(maps := t.maps, conns := t.conns, players := t.players)
      && (!step.Handle? ==> t.players == s.players)
      && |t.conns| == |s.conns| && t.conns == s.conns[c := t.conns[c]]
      && (!step.Beat? ==> t.conns[c].lastBeat == s.conns[c].lastBeat)
      && t.conns[c] ==
           s.conns[c].(phase := t.conns[c].phase, recorded := t.conns[c].recorded, lastBeat := t.conns[c].lastBeat)
  {
    match step
    case List =>
    case ListIp =>
    case PollServer =>
    case PollConn =>
    case Wake =>
    case Read(_) =>
    case ReadFails =>
    case Handle(_, _) =>
    case Write =>
    case WriteFails =>
    case Beat =>
    case Record =>
  }

  /** At most one actor has been added to the takers of a token. */
  predicate TakersGrow(a: Conn, b: Conn, actor: Actor) {
    b.takenBy == a.takenBy || b.takenBy == a.takenBy + [actor]
  }

  /** A connection before and after an actor has looked for a token. */
  predicate MaybeTaken(a: Conn, b: Conn, actor: Actor) {
    b == a || b == a.(takenBy := a.takenBy + [actor])
  }

  lemma MaybeTakenIsUntouched(a: Conn, b: Conn, actor: Actor)
    requires MaybeTaken(a, b, actor)
    ensures Untouched(a, b) && TakersGrow(a, b, actor) && b.condemned == a.condemned && b.cancelled == a.cancelled
  {
  }

  lemma TakeFrame(s: Center, id: string, actor: Actor)
    ensures
      var t := Take(s, id, actor);
      && t == s.(maps := s.maps.(active := t.maps.active), conns := t.conns) && |t.conns| == |s.conns|
      && (forall x :: 0 <= x < |s.conns| ==> MaybeTaken(s.conns[x], t.conns[x], actor))
  {
  }

  lemma LeaveActiveFrame(s: Center, c: nat)
    requires c < |s.conns| && s.conns[c].phase.Leaving?
    ensures
      var t := ApplyLeave(s, c, LeaveActive);
      && t == s.(maps := s.maps.(active := t.maps.active), conns := t.conns) && |t.conns| == |s.conns|
      && (forall x :: 0 <= x < |s.conns| && x != c ==> MaybeTaken(s.conns[x], t.conns[x], Task(c)))
      && MaybeTaken(s.conns[c].(phase := LeavingBeat), t.conns[c], Task(c))
  {
    TakeFrame(s, s.conns[c].clientId, Task(c));
    assert MaybeTaken(s.conns[c], Take(s, s.conns[c].clientId, Task(c)).conns[c], Task(c));
  }

  lemma LeaveFrame(s: Center, c: nat, step: LeaveStep)
    requires c < |s.conns| && LeaveEnabled(s.conns[c], step)
    ensures
      var t := ApplyLeave(s, c, step);
      && t == s.(maps := t.maps, conns := t.conns, events := t.events, sent := t.sent)
      && (if step.Notify? then t.events == s.events + [s.conns[c].phase.report.UnwrapOr("")] else t.events == s.events)
      && |t.conns| == |s.conns|
      && (forall x :: 0 <= x < |s.conns| && x != c ==> MaybeTaken(s.conns[x], t.conns[x], Task(c)))
      && MaybeTaken(s.conns[c].(phase := t.conns[c].phase), t.conns[c], Task(c))
  {
    match step
    case LeaveActive => LeaveActiveFrame(s, c);
    case LeaveBeat =>
    case LeaveIp =>
    case LeaveMachine =>
    case Notify =>
  }

  lemma EvictorFrame(s: Center, step: EvictorStep)
    requires EvictorEnabled(s, step)
    ensures
      var t := ApplyEvictor(s, step);
      && t == s.(maps := t.maps, conns := t.conns, evictor := t.evictor)
      && |t.conns| == |s.conns| && (forall x :: 0 <= x < |s.conns| ==> Untouched(s.conns[x], t.conns[x]))
      && (!step.Scan? ==> forall x :: 0 <= x < |s.conns| ==> t.conns[x].condemned == s.conns[x].condemned)
      && (forall x :: 0 <= x < |s.conns| ==> TakersGrow(s.conns[x], t.conns[x], Evictor))
  {
    match step
    case ReadClock =>
    case Scan(_) =>
    case SweepBeat =>
    case SweepActive => TakeFrame(s, s.evictor.phase.id, Evictor);
    case SweepCut =>
    case StopEvictor =>
  }

  lemma KickFrame(s: Center, k: nat, step: KickStep)
    requires k < |s.kicks| && KickEnabled(s, s.kicks[k], step)
    ensures
      var t := ApplyKick(s, k, step);
      && t == s.(maps := s.maps.(active := t.maps.active), conns := t.conns, kicks := t.kicks)
      && |t.conns| == |s.conns| && (forall x :: 0 <= x < |s.conns| ==> Untouched(s.conns[x], t.conns[x]))
      && (forall x :: 0 <= x < |s.conns| ==> t.conns[x].condemned == s.conns[x].condemned)
      && (forall x :: 0 <= x < |s.conns| ==> TakersGrow(s.conns[x], t.conns[x], Kicker(k)))
  {
    match step
    case FindClient(_) =>
    case TakeToken => TakeFrame(s, s.kicks[k].phase.clientId, Kicker(k));
    case CutToken =>
  }

  /** Steps that touch neither connections nor registry nor evictor. */
  predicate Aside(step: Step) {
    match step
    case KickCall(_) => true
    case CancelServer => true
    case Receive => true
    case Consume => true
    case AddHost(_) => true
    case Remove(_) => true
    case Tick(_) => true
    case _ => false
  }

  lemma AsideFrame(s: Center, step: Step)
    requires Enabled(s, step) && Aside(step)
    ensures
      var t := Apply(s, step);
      && t.maps == s.maps && t.conns == s.conns && t.latest == s.latest && t.evictor == s.evictor && t.sent == s.sent
      && (!step.KickCall? ==> t.kicks == s.kicks)
      && t.now == s.now + (if step.Tick? then step.d else 0)
      && (!step.Receive? ==> t.events == s.events && t.received == s.received)
      && (!step.Receive? && !step.Consume? ==> t.hand == s.hand)
  {
    match step
    case KickCall(_) =>
    case CancelServer =>
    case Receive =>
    case Consume =>
    case AddHost(_) =>
    case Remove(_) =>
    case Tick(_) =>
  }

  lemma StallFrame(s: Center, c: nat, on: bool)
    requires c < |s.conns|
    ensures Apply(s, Stall(c, on)) == s.(conns := s.conns[c := s.conns[c].(stalled := on)])
  {
  }

  /** The connection a step belongs to, if any. */
  predicate Moves(step: Step, c: nat) {
    (step.InLoop? || step.AfterLoop?) && step.c == c
  }

  lemma ConnsGrow(s: Center, step: Step)
    requires Enabled(s, step)
    ensures |Apply(s, step).conns| == |s.conns| + if step.Accept? then 1 else 0
  {
    match step
    case Accept(_, _, _) =>
    case InLoop(c, loop) => LoopFrame(s, c, loop);
    case AfterLoop(c, leave) => LeaveFrame(s, c, leave);
    case ByEvictor(evict) => EvictorFrame(s, evict);
    case ByKick(k, kick) => KickFrame(s, k, kick);
    case Stall(c, on) => StallFrame(s, c, on);
    case _ => AsideFrame(s, step);
  }

  /** A connection before and after a step of another party: untouched, but for a stall that sets in or ends. */
  predicate Met(a: Conn, b: Conn, stalled: bool) {
    b.stalled == stalled && Untouched(a.(stalled := stalled), b)
  }

  lemma UntouchedIsMet(a: Conn, b: Conn)
    requires b == a || (Untouched(a, b) && b.stalled == a.stalled)
    ensures Met(a, b, a.stalled)
  {
  }

  lemma OtherUntouched(s: Center, step: Step, x: nat)
    requires Enabled(s, step) && x < |s.conns| && !Moves(step, x)
    ensures x < |Apply(s, step).conns|
    ensures Met(s.conns[x], Apply(s, step).conns[x], if step.Stall? && step.c == x then step.on else s.conns[x].stalled)
  {
    var t := Apply(s, step);
    match step
    case Accept(_, _, _) => UntouchedIsMet(s.conns[x], t.conns[x]);
    case InLoop(c, loop) =>
      LoopFrame(s, c, loop);
      UntouchedIsMet(s.conns[x], t.conns[x]);
    case AfterLoop(c, leave) =>
      LeaveFrame(s, c, leave);
      MaybeTakenIsUntouched(s.conns[x], t.conns[x], Task(c));
      UntouchedIsMet(s.conns[x], t.conns[x]);
    case ByEvictor(evict) =>
      EvictorFrame(s, evict);
      UntouchedIsMet(s.conns[x], t.conns[x]);
    case ByKick(k, kick) =>
      KickFrame(s, k, kick);
      UntouchedIsMet(s.conns[x], t.conns[x]);
    case Stall(c, on) =>
      StallFrame(s, c, on);
      UntouchedIsMet(s.conns[x].(stalled := t.conns[x].stalled), t.conns[x]);
    case _ =>
      AsideFrame(s, step);
      UntouchedIsMet(s.conns[x], t.conns[x]);
  }
}
