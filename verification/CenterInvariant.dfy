/** What every step of the running center keeps, under arbitrary interleaving, handlers and timing. */
module CenterInvariant {
  import opened Common
  import opened CenterFrames
  import opened CenterMachine

  /** How far a connection task has come; from 2 on it serves, from 3 on it leaves. */
  function Rank(p: Phase): nat {
    match p
    case Spawned => 0
    case Listed => 1
    case Leaving => 3
    case LeavingBeat => 4
    case LeavingIp => 5
    case LeavingMachine => 6
    case Notifying(_) => 7
    case Ended => 8
    case _ => 2
  }

  /** The connection last accepted under a client id stands between two ranks. */
  ghost predicate OwnerRank(s: Center, id: string, low: nat, high: nat) {
    id in s.latest && s.latest[id] < |s.conns| && low <= Rank(s.conns[s.latest[id]].phase) <= high
  }

  /** Client ids name the latest connection, and a connection that lives is the latest of its id. */
  ghost predicate IdsOk(s: Center) {
    && (forall id :: id in s.latest ==> s.latest[id] < |s.conns| && s.conns[s.latest[id]].clientId == id)
    && (forall c :: 0 <= c < |s.conns| ==>
          s.conns[c].clientId in s.latest && (Live(s.conns[c]) ==> s.latest[s.conns[c].clientId] == c))
  }

  /** An actor has a token in hand, about to cancel it. */
  predicate Holds(s: Center, actor: Actor, t: nat) {
    match actor
    case Evictor => s.evictor.phase.Cutting? && s.evictor.phase.token == t
    case Kicker(k) => k < |s.kicks| && s.kicks[k].phase.Holding? && s.kicks[k].phase.token == t
    case Task(_) => false
  }

  /** A token is in the active map while its connection is listed and nobody has taken it; it is taken at most once;
      only who took it cancels it, and a task that takes its own never does. */
  ghost predicate TokenOk(s: Center, c: nat)
    requires c < |s.conns|
  {
    var conn := s.conns[c];
    var rank := Rank(conn.phase);
    && |conn.takenBy| <= 1
    && (conn.clientId in s.maps.active && s.maps.active[conn.clientId] == c <==> 1 <= rank <= 3 && conn.takenBy == [])
    && (rank == 0 ==> conn.takenBy == []) && (rank >= 4 ==> conn.takenBy != [])
    && (conn.takenBy == [] ==> !conn.cancelled)
    && (conn.takenBy != [] ==>
          match conn.takenBy[0]
          case Task(t) => t == c && rank >= 4 && !conn.cancelled
          case Kicker(k) => k < |s.kicks| && s.kicks[k].got == Some(c) && (conn.cancelled <==> !Holds(s, Kicker(k), c))
          case Evictor => conn.cancelled <==> !Holds(s, Evictor, c))
  }

  ghost predicate KickOk(s: Center, k: nat)
    requires k < |s.kicks|
  {
    var kick := s.kicks[k];
    && (kick.got.Some? ==> kick.got.value < |s.conns| && s.conns[kick.got.value].takenBy == [Kicker(k)])
    && match kick.phase
       case Holding(t) => kick.got == Some(t)
       case Returned(found) => found <==> kick.got.Some?
       case _ => kick.got.None?
  }

  ghost predicate TokensOk(s: Center) {
    && (forall c :: 0 <= c < |s.conns| ==> TokenOk(s, c))
    && (forall id :: id in s.maps.active ==> id in s.latest && s.maps.active[id] == s.latest[id])
    && (forall k :: 0 <= k < |s.kicks| ==> KickOk(s, k))
    && (s.evictor.phase.Cutting? ==>
          s.evictor.phase.token < |s.conns| && s.conns[s.evictor.phase.token].takenBy == [Evictor])
  }

  /** Entries of the other maps belong to connections that are still to remove them, and say what these recorded. */
  ghost predicate EntriesOk(s: Center) {
    && (forall id :: id in s.maps.heartbeat ==> OwnerRank(s, id, 2, 4))
    && (forall id :: id in s.maps.ip ==> OwnerRank(s, id, 2, 5))
    && (forall id :: id in s.maps.machine ==> OwnerRank(s, id, 2, 6))
    && (forall c :: 0 <= c < |s.conns| ==> EntryOk(s, s.conns[c]))
  }

  ghost predicate EntryOk(s: Center, conn: Conn) {
    var rank, id := Rank(conn.phase), conn.clientId;
    && (rank <= 6 ==> Lookup(s.maps.machine, id) == conn.recorded)
    && (2 <= rank <= 5 ==> Lookup(s.maps.ip, id) == Some(conn.ip))
    && (rank <= 1 ==> conn.recorded == None && conn.lastBeat == None)
    && (rank <= 4 && id in s.maps.heartbeat ==> conn.lastBeat == Some(s.maps.heartbeat[id]))
    && (conn.lastBeat.Some? ==> conn.lastBeat.value <= s.now)
    && (conn.phase.Notifying? ==> conn.phase.report == conn.recorded)
  }

  /** The disconnect event of a connection: its last recorded machine id, or the empty text. */
  function Event(conn: Conn): string {
    conn.recorded.UnwrapOr("")
  }

  /** Ended connections have sent one event each, in the order `sent`; the channel holds those not received, and the
      consumer at most the last one received. */
  ghost predicate EventsOk(s: Center) {
    && Distinct(s.sent)
    && (forall i :: 0 <= i < |s.sent| ==> s.sent[i] < |s.conns| && s.conns[s.sent[i]].phase.Ended?)
    && (forall c :: 0 <= c < |s.conns| && s.conns[c].phase.Ended? ==> c in s.sent)
    && s.received + |s.events| == |s.sent|
    && (forall i :: 0 <= i < |s.events| ==> s.events[i] == Event(s.conns[s.sent[s.received + i]]))
    && (s.hand.Some? ==> s.received > 0 && s.hand.value == Event(s.conns[s.sent[s.received - 1]]))
  }

  /** The evictor scans with a clock it has read before. */
  predicate ClockRead(s: Center) {
    s.evictor.phase.Scanning? ==> s.evictor.phase.at <= s.now
  }

  ghost predicate Inv(s: Center) {
    IdsOk(s) && TokensOk(s) && EntriesOk(s) && EventsOk(s) && ClockRead(s)
  }

  /// ## Tokens

  function Stage(p: Phase): nat {
    if Rank(p) == 0 then 0 else if Rank(p) <= 3 then 1 else 2
  }

  function Hand(p: EvictorPhase): Option<nat> {
    if p.Cutting? then Some(p.token) else None
  }

  predicate SameToken(a: Conn, b: Conn) {
    && b.clientId == a.clientId && b.cancelled == a.cancelled && b.takenBy == a.takenBy
    && Stage(b.phase) == Stage(a.phase) && (Live(b) ==> Live(a))
  }

  /** Steps that touch nothing the tokens depend on. */
  lemma TokensFrame(s: Center, t: Center)
    requires IdsOk(s) && TokensOk(s)
    requires t.latest == s.latest && t.maps.active == s.maps.active && t.kicks == s.kicks
    requires Hand(t.evictor.phase) == Hand(s.evictor.phase)
    requires |t.conns| == |s.conns| && forall x :: 0 <= x < |s.conns| ==> SameToken(s.conns[x], t.conns[x])
    ensures IdsOk(t) && TokensOk(t)
  {
    forall x | 0 <= x < |t.conns| ensures TokenOk(t, x) {
      assert TokenOk(s, x);
    }
    forall k | 0 <= k < |t.kicks| ensures KickOk(t, k) {
      assert KickOk(s, k);
    }
  }

  lemma ListedKeepsToken(s: Center, t: Center, c: nat, x: nat)
    requires IdsOk(s) && TokensOk(s) && c < |s.conns| && s.conns[c].phase.Spawned? && x < |s.conns|
    requires t.conns == s.conns[c := s.conns[c].(phase := Listed)] && t.kicks == s.kicks && t.evictor == s.evictor
    requires t.maps.active == s.maps.active[s.conns[c].clientId := c]
    ensures TokenOk(t, x)
  {
    assert TokenOk(s, x);
  }

  lemma ListKeepsTokens(s: Center, c: nat)
    requires IdsOk(s) && TokensOk(s) && c < |s.conns| && s.conns[c].phase.Spawned?
    ensures IdsOk(ApplyLoop(s, c, List)) && TokensOk(ApplyLoop(s, c, List))
  {
    var t := ApplyLoop(s, c, List);
    forall x | 0 <= x < |t.conns| ensures TokenOk(t, x) {
      ListedKeepsToken(s, t, c, x);
    }
    forall k | 0 <= k < |t.kicks| ensures KickOk(t, k) {
      assert KickOk(s, k);
    }
  }

  lemma LoopTouchesNoToken(s: Center, c: nat, step: LoopStep)
    requires c < |s.conns| && LoopEnabled(s, s.conns[c], step) && !step.List?
    ensures
      var t := ApplyLoop(s, c, step);
      t.maps.active == s.maps.active && |t.conns| == |s.conns| && SameToken(s.conns[c], t.conns[c])
  {
    match step
    case ListIp =>
    case PollServer =>
    case PollConn =>
    case Wake =>
    case Read(_) =>
    case ReadFails =>
    case Handle(_, _) =>
    case Write =>
    case WriteFails =>
    case Beat =>
    case Record =>
  }

  lemma LoopKeepsTokens(s: Center, c: nat, step: LoopStep)
    requires IdsOk(s) && TokensOk(s) && c < |s.conns| && LoopEnabled(s, s.conns[c], step)
    ensures IdsOk(ApplyLoop(s, c, step)) && TokensOk(ApplyLoop(s, c, step))
  {
    if step.List? {
      ListKeepsTokens(s, c);
    } else {
      LoopFrame(s, c, step);
      LoopTouchesNoToken(s, c, step);
      TokensFrame(s, ApplyLoop(s, c, step));
    }
  }

  /** A listed client's entry is its own connection's. */
  lemma ActiveIsOwn(s: Center, id: string)
    requires IdsOk(s) && TokensOk(s) && id in s.maps.active
    ensures
      var t := s.maps.active[id];
      && t < |s.conns| && s.conns[t].clientId == id && s.latest[id] == t
      && s.conns[t].takenBy == [] && !s.conns[t].cancelled && 1 <= Rank(s.conns[t].phase) <= 3
  {
    assert TokenOk(s, s.latest[id]);
  }

  lemma LeaveTouchesNoToken(s: Center, c: nat, step: LeaveStep)
    requires c < |s.conns| && LeaveEnabled(s.conns[c], step) && !step.LeaveActive?
    ensures
      var t := ApplyLeave(s, c, step);
      && t.latest == s.latest && t.maps.active == s.maps.active && t.kicks == s.kicks && t.evictor == s.evictor
      && |t.conns| == |s.conns| && t.conns == s.conns[c := t.conns[c]] && SameToken(s.conns[c], t.conns[c])
  {
    match step
    case LeaveBeat =>
    case LeaveIp =>
    case LeaveMachine =>
    case Notify =>
  }

  lemma LeaveKeepsTokens(s: Center, c: nat, step: LeaveStep)
    requires IdsOk(s) && TokensOk(s) && c < |s.conns| && LeaveEnabled(s.conns[c], step)
    ensures IdsOk(ApplyLeave(s, c, step)) && TokensOk(ApplyLeave(s, c, step))
  {
    if step.LeaveActive? {
      LeaveActiveKeepsTokens(s, c);
    } else {
      LeaveTouchesNoToken(s, c, step);
      TokensFrame(s, ApplyLeave(s, c, step));
    }
  }

  /** An actor takes the token of connection c out of the active map. */
  ghost predicate Taking(s: Center, t: Center, c: nat, conn: Conn, actor: Actor) {
    && c < |s.conns| && s.conns[c].clientId in s.maps.active && s.maps.active[s.conns[c].clientId] == c
    && t.maps.active == Without(s.maps.active, s.conns[c].clientId)
    && t.latest == s.latest && t.conns == s.conns[c := conn]
    && conn.clientId == s.conns[c].clientId && conn.takenBy == [actor] && !conn.cancelled && Live(conn)
    && (if actor.Task? then actor.c == c && Stage(conn.phase) == 2 else conn.phase == s.conns[c].phase)
    && Hand(s.evictor.phase) == (if actor.Evictor? then None else Hand(t.evictor.phase))
    && (actor.Evictor? ==> Hand(t.evictor.phase) == Some(c))
    && if actor.Kicker? then actor.k < |s.kicks| && s.kicks[actor.k].got.None?
                             && t.kicks == s.kicks[actor.k := s.kicks[actor.k].(phase := Holding(c), got := Some(c))]
       else t.kicks == s.kicks
  }

  lemma TakingKeepsToken(s: Center, t: Center, c: nat, conn: Conn, actor: Actor, x: nat)
    requires IdsOk(s) && TokensOk(s) && Taking(s, t, c, conn, actor) && x < |t.conns|
    ensures TokenOk(t, x)
  {
    assert TokenOk(s, c) && TokenOk(s, x);
    if x != c {
      assert t.conns[x] == s.conns[x];
      assert s.conns[x].clientId in s.maps.active && s.maps.active[s.conns[x].clientId] == x ==>
               s.conns[x].clientId != s.conns[c].clientId;
    }
  }

  lemma TakingKeepsTokens(s: Center, t: Center, c: nat, conn: Conn, actor: Actor)
    requires IdsOk(s) && TokensOk(s) && Taking(s, t, c, conn, actor)
    ensures IdsOk(t) && TokensOk(t)
  {
    ActiveIsOwn(s, s.conns[c].clientId);
    forall x | 0 <= x < |t.conns| ensures TokenOk(t, x) {
      TakingKeepsToken(s, t, c, conn, actor, x);
    }
    forall k | 0 <= k < |t.kicks| ensures KickOk(t, k) {
      assert KickOk(s, k);
    }
  }

  lemma LeaveActiveKeepsTokens(s: Center, c: nat)
    requires IdsOk(s) && TokensOk(s) && c < |s.conns| && LeaveEnabled(s.conns[c], LeaveActive)
    ensures IdsOk(ApplyLeave(s, c, LeaveActive)) && TokensOk(ApplyLeave(s, c, LeaveActive))
  {
    var t := ApplyLeave(s, c, LeaveActive);
    var conn := s.conns[c];
    assert TokenOk(s, c);
    if conn.clientId in s.maps.active {
      ActiveIsOwn(s, conn.clientId);
      assert conn.takenBy + [Task(c)] == [Task(c)];
      assert t.conns == s.conns[c := conn.(takenBy := [Task(c)], phase := LeavingBeat)];
      TakingKeepsTokens(s, t, c, conn.(takenBy := [Task(c)], phase := LeavingBeat), Task(c));
    } else {
      TakenBeforeLeaving(s, c);
    }
  }

  lemma TakenBeforeLeaving(s: Center, c: nat)
    requires IdsOk(s) && TokensOk(s) && c < |s.conns| && s.conns[c].phase.Leaving? && s.conns[c].takenBy != []
    ensures IdsOk(Go(s, c, LeavingBeat)) && TokensOk(Go(s, c, LeavingBeat))
  {
    var t := Go(s, c, LeavingBeat);
    forall x | 0 <= x < |t.conns| ensures TokenOk(t, x) {
      assert TokenOk(s, x);
    }
    forall k | 0 <= k < |t.kicks| ensures KickOk(t, k) {
      assert KickOk(s, k);
    }
  }

  lemma EvictorKeepsTokens(s: Center, step: EvictorStep)
    requires IdsOk(s) && TokensOk(s) && EvictorEnabled(s, step)
    ensures IdsOk(ApplyEvictor(s, step)) && TokensOk(ApplyEvictor(s, step))
  {
    match step {
      case SweepActive => EvictorTakes(s);
      case SweepCut => EvictorCuts(s);
      case _ => TokensFrame(s, ApplyEvictor(s, step));
    }
  }

  lemma EvictorTakes(s: Center)
    requires IdsOk(s) && TokensOk(s) && EvictorEnabled(s, SweepActive)
    ensures IdsOk(ApplyEvictor(s, SweepActive)) && TokensOk(ApplyEvictor(s, SweepActive))
  {
    var t, id := ApplyEvictor(s, SweepActive), s.evictor.phase.id;
    if id in s.maps.active {
      ActiveIsOwn(s, id);
      var c := s.maps.active[id];
      assert s.conns[c].takenBy + [Evictor] == [Evictor];
      TakingKeepsTokens(s, t, c, s.conns[c].(takenBy := [Evictor]), Evictor);
    } else {
      TokensFrame(s, t);
    }
  }

  lemma EvictorCuts(s: Center)
    requires IdsOk(s) && TokensOk(s) && EvictorEnabled(s, SweepCut)
    ensures IdsOk(ApplyEvictor(s, SweepCut)) && TokensOk(ApplyEvictor(s, SweepCut))
  {
    var t := ApplyEvictor(s, SweepCut);
    forall x | 0 <= x < |t.conns| ensures TokenOk(t, x) {
      assert TokenOk(s, x);
    }
    forall k | 0 <= k < |t.kicks| ensures KickOk(t, k) {
      assert KickOk(s, k);
    }
  }

  lemma KickKeepsTokens(s: Center, k: nat, step: KickStep)
    requires IdsOk(s) && TokensOk(s) && k < |s.kicks| && KickEnabled(s, s.kicks[k], step)
    ensures IdsOk(ApplyKick(s, k, step)) && TokensOk(ApplyKick(s, k, step))
  {
    if step.CutToken? {
      KickCuts(s, k);
    } else if step.TakeToken? && s.kicks[k].phase.clientId in s.maps.active {
      KickTakes(s, k);
    } else {
      KickMovesOn(s, k, ApplyKick(s, k, step).kicks[k].phase);
    }
  }

  /** A kick that has no token moves on without one. */
  lemma KickMovesOn(s: Center, k: nat, phase: KickPhase)
    requires IdsOk(s) && TokensOk(s) && k < |s.kicks| && (s.kicks[k].phase.Seeking? || s.kicks[k].phase.Found?)
    requires phase.Found? || phase == Returned(false)
    ensures IdsOk(KickGoes(s, k, phase)) && TokensOk(KickGoes(s, k, phase))
  {
    var t := KickGoes(s, k, phase);
    assert KickOk(s, k);
    forall x | 0 <= x < |t.conns| ensures TokenOk(t, x) {
      assert TokenOk(s, x);
    }
    forall j | 0 <= j < |t.kicks| ensures KickOk(t, j) {
      assert KickOk(s, j);
    }
  }

  lemma KickTakes(s: Center, k: nat)
    requires IdsOk(s) && TokensOk(s) && k < |s.kicks| && KickEnabled(s, s.kicks[k], TakeToken)
    requires s.kicks[k].phase.clientId in s.maps.active
    ensures IdsOk(ApplyKick(s, k, TakeToken)) && TokensOk(ApplyKick(s, k, TakeToken))
  {
    var t, id := ApplyKick(s, k, TakeToken), s.kicks[k].phase.clientId;
    assert KickOk(s, k);
    ActiveIsOwn(s, id);
    var c := s.maps.active[id];
    assert s.conns[c].takenBy + [Kicker(k)] == [Kicker(k)];
    TakingKeepsTokens(s, t, c, s.conns[c].(takenBy := [Kicker(k)]), Kicker(k));
  }

  lemma KickCuts(s: Center, k: nat)
    requires IdsOk(s) && TokensOk(s) && k < |s.kicks| && KickEnabled(s, s.kicks[k], CutToken)
    ensures IdsOk(ApplyKick(s, k, CutToken)) && TokensOk(ApplyKick(s, k, CutToken))
  {
    var t := ApplyKick(s, k, CutToken);
    assert KickOk(s, k);
    forall x | 0 <= x < |t.conns| ensures TokenOk(t, x) {
      assert TokenOk(s, x);
    }
    forall j | 0 <= j < |t.kicks| ensures KickOk(t, j) {
      assert KickOk(s, j);
    }
  }

  lemma AcceptedKeepsTokens(s: Center, t: Center, conn: Conn)
    requires IdsOk(s) && TokensOk(s) && conn.clientId !in s.maps.active
    requires forall c :: 0 <= c < |s.conns| && Live(s.conns[c]) ==> s.conns[c].clientId != conn.clientId
    requires conn.phase.Spawned? && conn.takenBy == [] && !conn.cancelled
    requires t.conns == s.conns + [conn] && t.latest == s.latest[conn.clientId := |s.conns|]
    requires t.maps == s.maps && t.kicks == s.kicks && t.evictor == s.evictor
    ensures IdsOk(t) && TokensOk(t)
  {
    forall x | 0 <= x < |t.conns| ensures TokenOk(t, x) {
      assert x < |s.conns| ==> TokenOk(s, x);
    }
    forall k | 0 <= k < |t.kicks| ensures KickOk(t, k) {
      assert KickOk(s, k);
    }
  }

  lemma AcceptKeepsTokens(s: Center, step: Step)
    requires IdsOk(s) && TokensOk(s) && step.Accept? && Enabled(s, step)
    ensures IdsOk(Apply(s, step)) && TokensOk(Apply(s, step))
  {
    if step.clientId in s.maps.active {
      ActiveIsOwn(s, step.clientId);
      assert false;
    }
    var t := Apply(s, step);
    AcceptedKeepsTokens(s, t, t.conns[|s.conns|]);
  }

  lemma KickCallKeepsTokens(s: Center, t: Center, machineId: string)
    requires IdsOk(s) && TokensOk(s)
    requires t.latest == s.latest && t.maps == s.maps && t.evictor == s.evictor && t.conns == s.conns
    requires t.kicks == s.kicks + [Kick(machineId, Seeking, None)]
    ensures IdsOk(t) && TokensOk(t)
  {
    forall x | 0 <= x < |t.conns| ensures TokenOk(t, x) {
      assert TokenOk(s, x);
    }
    forall k | 0 <= k < |t.kicks| ensures KickOk(t, k) {
      assert k < |s.kicks| ==> KickOk(s, k);
    }
  }

  lemma RestKeepsTokens(s: Center, step: Step)
    requires IdsOk(s) && TokensOk(s) && Enabled(s, step) && (Aside(step) || step.Stall?)
    ensures IdsOk(Apply(s, step)) && TokensOk(Apply(s, step))
  {
    if step.Stall? {
      StallFrame(s, step.c, step.on);
      TokensFrame(s, Apply(s, step));
    } else {
      AsideFrame(s, step);
      if step.KickCall? {
        KickCallKeepsTokens(s, Apply(s, step), step.machineId);
      } else {
        TokensFrame(s, Apply(s, step));
      }
    }
  }

  lemma StepKeepsTokens(s: Center, step: Step)
    requires IdsOk(s) && TokensOk(s) && Enabled(s, step)
    ensures IdsOk(Apply(s, step)) && TokensOk(Apply(s, step))
  {
    match step
    case Accept(_, _, _) => AcceptKeepsTokens(s, step);
    case InLoop(c, loop) => LoopKeepsTokens(s, c, loop);
    case AfterLoop(c, leave) => LeaveKeepsTokens(s, c, leave);
    case ByEvictor(evict) => EvictorKeepsTokens(s, evict);
    case ByKick(k, kick) => KickKeepsTokens(s, k, kick);
    case _ => RestKeepsTokens(s, step);
  }

  /// ## Entries

  predicate SameEntry(a: Conn, b: Conn) {
    && b.clientId == a.clientId && b.ip == a.ip && b.phase == a.phase
    && b.recorded == a.recorded && b.lastBeat == a.lastBeat
  }

  /** Steps that at most drop heartbeats or let time pass. */
  lemma EntriesFrame(s: Center, t: Center)
    requires EntriesOk(s)
    requires t.latest == s.latest && t.maps.machine == s.maps.machine && t.maps.ip == s.maps.ip && t.now >= s.now
    requires forall id :: id in t.maps.heartbeat ==>
               id in s.maps.heartbeat && t.maps.heartbeat[id] == s.maps.heartbeat[id]
    requires |t.conns| == |s.conns| && forall x :: 0 <= x < |s.conns| ==> SameEntry(s.conns[x], t.conns[x])
    ensures EntriesOk(t)
  {
    forall x | 0 <= x < |t.conns| ensures EntryOk(t, t.conns[x]) {
      assert EntryOk(s, s.conns[x]);
    }
    forall id | id in t.maps.heartbeat ensures OwnerRank(t, id, 2, 4) {
      assert OwnerRank(s, id, 2, 4);
    }
    forall id | id in t.maps.ip ensures OwnerRank(t, id, 2, 5) {
      assert OwnerRank(s, id, 2, 5);
    }
    forall id | id in t.maps.machine ensures OwnerRank(t, id, 2, 6) {
      assert OwnerRank(s, id, 2, 6);
    }
  }

  ghost predicate OthersSame<V>(m: map<string, V>, n: map<string, V>, id: string) {
    forall x :: x != id ==> Lookup(n, x) == Lookup(m, x)
  }

  /** The connections of other client ids keep their entries. */
  lemma OwnerRankStays(s: Center, t: Center, c: nat, id: string, low: nat, high: nat)
    requires IdsOk(s) && c < |s.conns| && t.latest == s.latest
    requires |t.conns| == |s.conns| && t.conns == s.conns[c := t.conns[c]]
    requires id != s.conns[c].clientId && OwnerRank(s, id, low, high)
    ensures OwnerRank(t, id, low, high)
  {
  }

  lemma OtherEntryStays(s: Center, t: Center, id: string, x: nat)
    requires EntriesOk(s) && x < |s.conns| && t.now == s.now && (Live(s.conns[x]) ==> s.conns[x].clientId != id)
    requires OthersSame(s.maps.heartbeat, t.maps.heartbeat, id) && OthersSame(s.maps.ip, t.maps.ip, id)
    requires OthersSame(s.maps.machine, t.maps.machine, id)
    ensures EntryOk(t, s.conns[x])
  {
    var other := s.conns[x].clientId;
    assert EntryOk(s, s.conns[x]);
    if other != id {
      assert Lookup(t.maps.machine, other) == Lookup(s.maps.machine, other);
      assert Lookup(t.maps.ip, other) == Lookup(s.maps.ip, other);
      assert Lookup(t.maps.heartbeat, other) == Lookup(s.maps.heartbeat, other);
    }
  }

  /** Steps of one living connection, on the entries of its own client id. */
  lemma OwnEntriesFrame(s: Center, t: Center, c: nat, conn: Conn)
    requires IdsOk(s) && EntriesOk(s) && c < |s.conns| && Live(s.conns[c])
    requires t.latest == s.latest && t.now == s.now && t.conns == s.conns[c := conn]
    requires conn.clientId == s.conns[c].clientId
    requires OthersSame(s.maps.heartbeat, t.maps.heartbeat, conn.clientId)
    requires OthersSame(s.maps.ip, t.maps.ip, conn.clientId)
    requires OthersSame(s.maps.machine, t.maps.machine, conn.clientId)
    requires conn.clientId in t.maps.heartbeat ==> 2 <= Rank(conn.phase) <= 4
    requires conn.clientId in t.maps.ip ==> 2 <= Rank(conn.phase) <= 5
    requires conn.clientId in t.maps.machine ==> 2 <= Rank(conn.phase) <= 6
    requires EntryOk(t, conn)
    ensures EntriesOk(t)
  {
    forall x | 0 <= x < |t.conns| ensures EntryOk(t, t.conns[x]) {
      if x != c {
        OtherEntryStays(s, t, conn.clientId, x);
      }
    }
    forall id | id in t.maps.heartbeat ensures OwnerRank(t, id, 2, 4) {
      if id != conn.clientId {
        assert Lookup(t.maps.heartbeat, id) == Lookup(s.maps.heartbeat, id);
        OwnerRankStays(s, t, c, id, 2, 4);
      }
    }
    forall id | id in t.maps.ip ensures OwnerRank(t, id, 2, 5) {
      if id != conn.clientId {
        assert Lookup(t.maps.ip, id) == Lookup(s.maps.ip, id);
        OwnerRankStays(s, t, c, id, 2, 5);
      }
    }
    forall id | id in t.maps.machine ensures OwnerRank(t, id, 2, 6) {
      if id != conn.clientId {
        assert Lookup(t.maps.machine, id) == Lookup(s.maps.machine, id);
        OwnerRankStays(s, t, c, id, 2, 6);
      }
    }
  }

  /** What the entries invariant says about a living connection's own client id. */
  lemma OwnEntries(s: Center, c: nat)
    requires IdsOk(s) && EntriesOk(s) && c < |s.conns| && Live(s.conns[c])
    ensures
      var conn, id := s.conns[c], s.conns[c].clientId;
      && EntryOk(s, conn)
      && (id in s.maps.heartbeat ==> 2 <= Rank(conn.phase) <= 4)
      && (id in s.maps.ip ==> 2 <= Rank(conn.phase) <= 5)
      && (id in s.maps.machine ==> 2 <= Rank(conn.phase) <= 6)
  {
    var id := s.conns[c].clientId;
    assert id in s.maps.heartbeat ==> OwnerRank(s, id, 2, 4);
    assert id in s.maps.ip ==> OwnerRank(s, id, 2, 5);
    assert id in s.maps.machine ==> OwnerRank(s, id, 2, 6);
  }

  /** A connection moves on, and what it has in the three maps stays in order. */
  predicate MovesOn(a: Conn, b: Conn) {
    && b.clientId == a.clientId && b.ip == a.ip && b.recorded == a.recorded && b.lastBeat == a.lastBeat
    && !b.phase.Notifying? && (Rank(a.phase) <= 1 ==> Rank(b.phase) <= 1)
    && (|| Rank(b.phase) == Rank(a.phase)
        || (Rank(a.phase) <= 3 && Rank(b.phase) <= 4 && Rank(a.phase) < Rank(b.phase))
        || (Rank(a.phase) >= 7 && Rank(b.phase) >= 7))
  }

  lemma LoopTouchesNoEntry(s: Center, c: nat, step: LoopStep)
    requires c < |s.conns| && LoopEnabled(s, s.conns[c], step) && !step.ListIp? && !step.Beat? && !step.Record?
    ensures
      var t := ApplyLoop(s, c, step);
      t.maps == s.maps.(active := t.maps.active) && |t.conns| == |s.conns| && MovesOn(s.conns[c], t.conns[c])
  {
    match step
    case List =>
    case PollServer =>
    case PollConn =>
    case Wake =>
    case Read(_) =>
    case ReadFails =>
    case Handle(_, _) =>
    case Write =>
    case WriteFails =>
  }

  /** A living connection moves on without touching the three maps. */
  lemma PhaseKeepsEntries(s: Center, t: Center, c: nat)
    requires IdsOk(s) && EntriesOk(s) && c < |s.conns| && Live(s.conns[c]) && t.now == s.now && t.latest == s.latest
    requires t.maps == s.maps.(active := t.maps.active)
    requires |t.conns| == |s.conns| && t.conns == s.conns[c := t.conns[c]] && MovesOn(s.conns[c], t.conns[c])
    ensures EntriesOk(t)
  {
    OwnEntries(s, c);
    OwnEntriesFrame(s, t, c, t.conns[c]);
  }

  lemma ListIpKeepsEntries(s: Center, c: nat)
    requires IdsOk(s) && EntriesOk(s) && c < |s.conns| && s.conns[c].phase.Listed?
    ensures EntriesOk(ApplyLoop(s, c, ListIp))
  {
    OwnEntries(s, c);
    var t := ApplyLoop(s, c, ListIp);
    OwnEntriesFrame(s, t, c, t.conns[c]);
  }

  lemma BeatKeepsEntries(s: Center, c: nat)
    requires IdsOk(s) && EntriesOk(s) && c < |s.conns| && s.conns[c].phase.Beating?
    ensures EntriesOk(ApplyLoop(s, c, Beat))
  {
    OwnEntries(s, c);
    var t := ApplyLoop(s, c, Beat);
    OwnEntriesFrame(s, t, c, t.conns[c]);
  }

  lemma RecordKeepsEntries(s: Center, c: nat)
    requires IdsOk(s) && EntriesOk(s) && c < |s.conns| && s.conns[c].phase.Recording?
    ensures EntriesOk(ApplyLoop(s, c, Record))
  {
    OwnEntries(s, c);
    var t := ApplyLoop(s, c, Record);
    OwnEntriesFrame(s, t, c, t.conns[c]);
  }

  lemma LoopKeepsEntries(s: Center, c: nat, step: LoopStep)
    requires IdsOk(s) && EntriesOk(s) && c < |s.conns| && LoopEnabled(s, s.conns[c], step)
    ensures EntriesOk(ApplyLoop(s, c, step))
  {
    match step
    case ListIp => ListIpKeepsEntries(s, c);
    case Beat => BeatKeepsEntries(s, c);
    case Record => RecordKeepsEntries(s, c);
    case _ =>
      LoopFrame(s, c, step);
      LoopTouchesNoEntry(s, c, step);
      PhaseKeepsEntries(s, ApplyLoop(s, c, step), c);
  }

  lemma LeaveActiveTouchesOne(s: Center, c: nat)
    requires IdsOk(s) && TokensOk(s) && c < |s.conns| && s.conns[c].phase.Leaving?
    ensures
      var t := ApplyLeave(s, c, LeaveActive);
      && |t.conns| == |s.conns|
      && t == s.(maps := s.maps.(active := t.maps.active),
                 conns := s.conns[c := s.conns[c].(phase := LeavingBeat, takenBy := t.conns[c].takenBy)])
  {
    if s.conns[c].clientId in s.maps.active {
      ActiveIsOwn(s, s.conns[c].clientId);
    }
  }

  lemma LeaveActiveKeepsEntries(s: Center, c: nat)
    requires IdsOk(s) && TokensOk(s) && EntriesOk(s) && c < |s.conns| && s.conns[c].phase.Leaving?
    ensures EntriesOk(ApplyLeave(s, c, LeaveActive))
  {
    LeaveActiveTouchesOne(s, c);
    PhaseKeepsEntries(s, ApplyLeave(s, c, LeaveActive), c);
  }

  lemma WithoutOthersSame<V>(m: map<string, V>, id: string)
    ensures OthersSame(m, Without(m, id), id) && id !in Without(m, id)
  {
  }

  lemma LeaveBeatKeepsEntries(s: Center, c: nat)
    requires IdsOk(s) && EntriesOk(s) && c < |s.conns| && s.conns[c].phase.LeavingBeat?
    ensures EntriesOk(ApplyLeave(s, c, LeaveBeat))
  {
    OwnEntries(s, c);
    WithoutOthersSame(s.maps.heartbeat, s.conns[c].clientId);
    OwnEntriesFrame(s, ApplyLeave(s, c, LeaveBeat), c, s.conns[c].(phase := LeavingIp));
  }

  lemma LeaveIpKeepsEntries(s: Center, c: nat)
    requires IdsOk(s) && EntriesOk(s) && c < |s.conns| && s.conns[c].phase.LeavingIp?
    ensures EntriesOk(ApplyLeave(s, c, LeaveIp))
  {
    OwnEntries(s, c);
    WithoutOthersSame(s.maps.ip, s.conns[c].clientId);
    OwnEntriesFrame(s, ApplyLeave(s, c, LeaveIp), c, s.conns[c].(phase := LeavingMachine));
  }

  lemma LeaveMachineKeepsEntries(s: Center, c: nat)
    requires IdsOk(s) && EntriesOk(s) && c < |s.conns| && s.conns[c].phase.LeavingMachine?
    ensures EntriesOk(ApplyLeave(s, c, LeaveMachine))
  {
    OwnEntries(s, c);
    WithoutOthersSame(s.maps.machine, s.conns[c].clientId);
    OwnEntriesFrame(s, ApplyLeave(s, c, LeaveMachine), c, s.conns[c].(phase := Notifying(s.conns[c].recorded)));
  }

  lemma NotifyKeepsEntries(s: Center, c: nat)
    requires IdsOk(s) && EntriesOk(s) && c < |s.conns| && s.conns[c].phase.Notifying?
    ensures EntriesOk(ApplyLeave(s, c, Notify))
  {
    PhaseKeepsEntries(s, ApplyLeave(s, c, Notify), c);
  }

  lemma AcceptKeepsEntries(s: Center, step: Step)
    requires IdsOk(s) && EntriesOk(s) && step.Accept? && Enabled(s, step)
    ensures EntriesOk(Apply(s, step))
  {
    var t, id := Apply(s, step), step.clientId;
    NoEntriesYet(s, id);
    forall x | 0 <= x < |t.conns| ensures EntryOk(t, t.conns[x]) {
      assert x < |s.conns| ==> EntryOk(s, s.conns[x]);
    }
    forall x, low: nat, high: nat | x != id && OwnerRank(s, x, low, high) ensures OwnerRank(t, x, low, high) {
    }
  }

  /** A client id no living connection has is in none of the maps. */
  lemma NoEntriesYet(s: Center, id: string)
    requires EntriesOk(s) && IdsOk(s)
    requires forall c :: 0 <= c < |s.conns| && Live(s.conns[c]) ==> s.conns[c].clientId != id
    ensures id !in s.maps.heartbeat && id !in s.maps.ip && id !in s.maps.machine
  {
    assert !OwnerRank(s, id, 2, 4) && !OwnerRank(s, id, 2, 5) && !OwnerRank(s, id, 2, 6);
  }

  lemma EvictorOnlyDropsHeartbeats(s: Center, step: EvictorStep)
    requires EvictorEnabled(s, step)
    ensures
      var t := ApplyEvictor(s, step);
      && t.latest == s.latest && t.maps.machine == s.maps.machine && t.maps.ip == s.maps.ip && t.now == s.now
      && (forall id :: id in t.maps.heartbeat ==>
            id in s.maps.heartbeat && t.maps.heartbeat[id] == s.maps.heartbeat[id])
      && |t.conns| == |s.conns| && (forall x :: 0 <= x < |s.conns| ==> SameEntry(s.conns[x], t.conns[x]))
  {
    EvictorFrame(s, step);
    match step
    case ReadClock =>
    case Scan(_) =>
    case SweepBeat =>
    case SweepActive =>
    case SweepCut =>
    case StopEvictor =>
  }

  lemma EvictorKeepsEntries(s: Center, step: EvictorStep)
    requires EntriesOk(s) && EvictorEnabled(s, step)
    ensures EntriesOk(ApplyEvictor(s, step))
  {
    EvictorOnlyDropsHeartbeats(s, step);
    EntriesFrame(s, ApplyEvictor(s, step));
  }

  lemma KickTouchesNoEntry(s: Center, k: nat, step: KickStep)
    requires k < |s.kicks| && KickEnabled(s, s.kicks[k], step)
    ensures
      var t := ApplyKick(s, k, step);
      && t.maps == s.maps.(active := t.maps.active) && t.latest == s.latest && t.now == s.now && |t.conns| == |s.conns|
      && (forall x :: 0 <= x < |s.conns| ==> SameEntry(s.conns[x], t.conns[x]))
  {
    KickFrame(s, k, step);
  }

  lemma KickKeepsEntries(s: Center, k: nat, step: KickStep)
    requires EntriesOk(s) && k < |s.kicks| && KickEnabled(s, s.kicks[k], step)
    ensures EntriesOk(ApplyKick(s, k, step))
  {
    KickTouchesNoEntry(s, k, step);
    EntriesFrame(s, ApplyKick(s, k, step));
  }

  lemma LeaveKeepsEntries(s: Center, c: nat, step: LeaveStep)
    requires IdsOk(s) && TokensOk(s) && EntriesOk(s) && c < |s.conns| && LeaveEnabled(s.conns[c], step)
    ensures EntriesOk(ApplyLeave(s, c, step))
  {
    match step
    case LeaveActive => LeaveActiveKeepsEntries(s, c);
    case LeaveBeat => LeaveBeatKeepsEntries(s, c);
    case LeaveIp => LeaveIpKeepsEntries(s, c);
    case LeaveMachine => LeaveMachineKeepsEntries(s, c);
    case Notify => NotifyKeepsEntries(s, c);
  }

  lemma RestKeepsEntries(s: Center, step: Step)
    requires EntriesOk(s) && Enabled(s, step) && (Aside(step) || step.Stall?)
    ensures EntriesOk(Apply(s, step))
  {
    if step.Stall? {
      StallFrame(s, step.c, step.on);
    } else {
      AsideFrame(s, step);
    }
    EntriesFrame(s, Apply(s, step));
  }

  lemma StepKeepsEntries(s: Center, step: Step)
    requires IdsOk(s) && TokensOk(s) && EntriesOk(s) && Enabled(s, step)
    ensures EntriesOk(Apply(s, step))
  {
    match step
    case Accept(_, _, _) => AcceptKeepsEntries(s, step);
    case InLoop(c, loop) => LoopKeepsEntries(s, c, loop);
    case AfterLoop(c, leave) => LeaveKeepsEntries(s, c, leave);
    case ByEvictor(evict) => EvictorKeepsEntries(s, evict);
    case ByKick(k, kick) => KickKeepsEntries(s, k, kick);
    case _ => RestKeepsEntries(s, step);
  }

  /// ## Events

  predicate SameEvent(a: Conn, b: Conn) {
    (b.phase.Ended? <==> a.phase.Ended?) && (a.phase.Ended? ==> b.recorded == a.recorded)
  }

  ghost predicate SendsNothing(s: Center, t: Center) {
    && t.sent == s.sent && t.events == s.events && t.hand == s.hand && t.received == s.received
    && |t.conns| >= |s.conns|
    && (forall x :: 0 <= x < |s.conns| ==> SameEvent(s.conns[x], t.conns[x]))
    && (forall x :: |s.conns| <= x < |t.conns| ==> Live(t.conns[x]))
  }

  lemma EventsFrame(s: Center, t: Center)
    requires EventsOk(s) && SendsNothing(s, t)
    ensures EventsOk(t)
  {
    forall i | 0 <= i < |t.sent| ensures Event(t.conns[t.sent[i]]) == Event(s.conns[s.sent[i]]) {
      assert SameEvent(s.conns[s.sent[i]], t.conns[s.sent[i]]);
    }
  }

  lemma NotifyKeepsEvents(s: Center, c: nat)
    requires EntriesOk(s) && EventsOk(s) && c < |s.conns| && LeaveEnabled(s.conns[c], Notify)
    ensures EventsOk(ApplyLeave(s, c, Notify))
  {
    assert EntryOk(s, s.conns[c]);
    OneMoreEvent(s, ApplyLeave(s, c, Notify), c);
  }

  /** `t` is `s` after connection `c` has sent its event and ended. */
  ghost predicate SentOneMore(s: Center, t: Center, c: nat) {
    && c < |s.conns| && !s.conns[c].phase.Ended?
    && t.hand == s.hand && t.received == s.received && t.conns == s.conns[c := s.conns[c].(phase := Ended)]
    && t.sent == s.sent + [c] && t.events == s.events + [Event(s.conns[c])]
  }

  lemma SendersHaveEnded(s: Center, t: Center, c: nat)
    requires EventsOk(s) && SentOneMore(s, t, c)
    ensures Distinct(t.sent)
    ensures forall i :: 0 <= i < |t.sent| ==> t.sent[i] < |t.conns| && t.conns[t.sent[i]].phase.Ended?
    ensures forall x :: 0 <= x < |t.conns| && t.conns[x].phase.Ended? ==> x in t.sent
  {
    assert forall i :: 0 <= i < |s.sent| ==> s.sent[i] != c;
    forall x | 0 <= x < |t.conns| && t.conns[x].phase.Ended? ensures x in t.sent {
      if x == c {
        assert t.sent[|s.sent|] == c;
      } else {
        var i :| 0 <= i < |s.sent| && s.sent[i] == x;
        assert t.sent[i] == x;
      }
    }
  }

  lemma EventsAreInOrder(s: Center, t: Center, c: nat)
    requires EventsOk(s) && SentOneMore(s, t, c)
    requires forall i :: 0 <= i < |t.sent| ==> t.sent[i] < |t.conns|
    ensures t.received + |t.events| == |t.sent|
    ensures forall i :: 0 <= i < |t.events| ==> t.events[i] == Event(t.conns[t.sent[t.received + i]])
  {
    forall i | 0 <= i < |t.events| ensures t.events[i] == Event(t.conns[t.sent[t.received + i]]) {
      if i < |s.events| {
        assert t.sent[t.received + i] == s.sent[s.received + i];
      } else {
        assert t.sent[t.received + i] == c;
      }
    }
  }

  lemma OneMoreEvent(s: Center, t: Center, c: nat)
    requires EventsOk(s) && SentOneMore(s, t, c)
    ensures EventsOk(t)
  {
    SendersHaveEnded(s, t, c);
    EventsAreInOrder(s, t, c);
    if t.hand.Some? {
      assert t.sent[t.received - 1] == s.sent[s.received - 1];
    }
  }

  lemma ReceivedKeepsEvents(s: Center, t: Center)
    requires EventsOk(s) && s.events != [] && t.conns == s.conns && t.sent == s.sent
    requires t.hand == Some(s.events[0]) && t.events == s.events[1..] && t.received == s.received + 1
    ensures EventsOk(t)
  {
    forall i | 0 <= i < |t.events| ensures t.events[i] == Event(t.conns[t.sent[t.received + i]]) {
      assert s.events[i + 1] == Event(s.conns[s.sent[s.received + (i + 1)]]);
    }
    assert s.events[0] == Event(s.conns[s.sent[s.received + 0]]);
  }

  lemma ConsumedKeepsEvents(s: Center, t: Center)
    requires EventsOk(s) && t.conns == s.conns && t.sent == s.sent
    requires t.hand == None && t.events == s.events && t.received == s.received
    ensures EventsOk(t)
  {
  }

  lemma LoopSendsNothing(s: Center, c: nat, step: LoopStep)
    requires c < |s.conns| && LoopEnabled(s, s.conns[c], step)
    ensures SendsNothing(s, ApplyLoop(s, c, step))
  {
    LoopFrame(s, c, step);
    match step
    case List =>
    case ListIp =>
    case PollServer =>
    case PollConn =>
    case Wake =>
    case Read(_) =>
    case ReadFails =>
    case Handle(_, _) =>
    case Write =>
    case WriteFails =>
    case Beat =>
    case Record =>
  }

  lemma LeaveSendsNothing(s: Center, c: nat, step: LeaveStep)
    requires c < |s.conns| && LeaveEnabled(s.conns[c], step) && !step.Notify?
    ensures SendsNothing(s, ApplyLeave(s, c, step))
  {
    LeaveFrame(s, c, step);
    match step
    case LeaveActive =>
    case LeaveBeat =>
    case LeaveIp =>
    case LeaveMachine =>
  }

  lemma EvictorSendsNothing(s: Center, step: EvictorStep)
    requires EvictorEnabled(s, step)
    ensures SendsNothing(s, ApplyEvictor(s, step))
  {
    EvictorFrame(s, step);
  }

  lemma KickSendsNothing(s: Center, k: nat, step: KickStep)
    requires k < |s.kicks| && KickEnabled(s, s.kicks[k], step)
    ensures SendsNothing(s, ApplyKick(s, k, step))
  {
    KickFrame(s, k, step);
  }

  lemma RestSendsNothing(s: Center, step: Step)
    requires Enabled(s, step) && (Aside(step) || step.Stall?) && !step.Receive? && !step.Consume?
    ensures SendsNothing(s, Apply(s, step))
  {
    if step.Stall? {
      StallFrame(s, step.c, step.on);
    } else {
      AsideFrame(s, step);
    }
  }

  lemma LeaveKeepsEvents(s: Center, c: nat, step: LeaveStep)
    requires EntriesOk(s) && EventsOk(s) && c < |s.conns| && LeaveEnabled(s.conns[c], step)
    ensures EventsOk(ApplyLeave(s, c, step))
  {
    if step.Notify? {
      NotifyKeepsEvents(s, c);
    } else {
      LeaveSendsNothing(s, c, step);
      EventsFrame(s, ApplyLeave(s, c, step));
    }
  }

  lemma AsideKeepsEvents(s: Center, step: Step)
    requires EventsOk(s) && Enabled(s, step) && (Aside(step) || step.Stall?)
    ensures EventsOk(Apply(s, step))
  {
    if step.Receive? {
      AsideFrame(s, step);
      ReceivedKeepsEvents(s, Apply(s, step));
    } else if step.Consume? {
      AsideFrame(s, step);
      ConsumedKeepsEvents(s, Apply(s, step));
    } else {
      RestSendsNothing(s, step);
      EventsFrame(s, Apply(s, step));
    }
  }

  lemma AcceptSendsNothing(s: Center, step: Step)
    requires Enabled(s, step) && step.Accept?
    ensures SendsNothing(s, Apply(s, step))
  {
  }

  lemma StepKeepsEvents(s: Center, step: Step)
    requires EntriesOk(s) && EventsOk(s) && Enabled(s, step)
    ensures EventsOk(Apply(s, step))
  {
    match step
    case Accept(_, _, _) =>
      AcceptSendsNothing(s, step);
      EventsFrame(s, Apply(s, step));
    case InLoop(c, loop) =>
      LoopSendsNothing(s, c, loop);
      EventsFrame(s, ApplyLoop(s, c, loop));
    case AfterLoop(c, leave) => LeaveKeepsEvents(s, c, leave);
    case ByEvictor(evict) =>
      EvictorSendsNothing(s, evict);
      EventsFrame(s, ApplyEvictor(s, evict));
    case ByKick(k, kick) =>
      KickSendsNothing(s, k, kick);
      EventsFrame(s, ApplyKick(s, k, kick));
    case _ => AsideKeepsEvents(s, step);
  }

  /// ## Runs

  lemma StepKeepsClock(s: Center, step: Step)
    requires ClockRead(s) && Enabled(s, step)
    ensures ClockRead(Apply(s, step))
  {
    match step
    case InLoop(c, loop) => LoopFrame(s, c, loop);
    case AfterLoop(c, leave) => LeaveFrame(s, c, leave);
    case ByEvictor(evict) => EvictorFrame(s, evict);
    case ByKick(k, kick) => KickFrame(s, k, kick);
    case _ =>
  }

  lemma StepKeepsInv(s: Center, step: Step)
    requires Inv(s) && Enabled(s, step)
    ensures Inv(Apply(s, step))
  {
    StepKeepsTokens(s, step);
    StepKeepsEntries(s, step);
    StepKeepsEvents(s, step);
    StepKeepsClock(s, step);
  }

  lemma {:induction false} RunKeepsInv(s: Center, steps: seq<Step>, t: Center)
    requires Inv(s) && RunsTo(s, steps, t)
    ensures Inv(t)
    decreases |steps|
  {
    if steps == [] {
    } else {
      StepKeepsInv(s, steps[0]);
      RunKeepsInv(Apply(s, steps[0]), steps[1..], t);
    }
  }
}
