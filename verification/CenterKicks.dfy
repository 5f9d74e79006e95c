/** Whose connection a `disconnect_machine` call cuts. */
module CenterKicks {
  import opened Common
  import opened CenterMachine
  import opened CenterFrames
  import opened CenterInvariant
  import opened CenterTheorems
  import opened CenterTraces

  /// ## Connections, calls and their names

  datatype Arrival = Arrival(clientId: string, ip: string, reports: string)

  /** The connections accepted in a run. */
  function Arrivals(steps: seq<Step>): seq<Arrival> {
    if steps == [] then [] else
      var last := steps[|steps| - 1];
      Arrivals(steps[..|steps| - 1]) + if last.Accept? then [Arrival(last.clientId, last.ip, last.reports)] else []
  }

  /** The machine ids of the calls made in a run. */
  function Calls(steps: seq<Step>): seq<string> {
    if steps == [] then [] else
      var last := steps[|steps| - 1];
      Calls(steps[..|steps| - 1]) + if last.KickCall? then [last.machineId] else []
  }

  /** A connection is what arrived, and its client id is a used one if and only if an earlier connection had it. */
  ghost predicate IsArrival(arrivals: seq<Arrival>, c: nat, conn: Conn)
    requires c < |arrivals|
  {
    && conn.clientId == arrivals[c].clientId && conn.ip == arrivals[c].ip && conn.reports == arrivals[c].reports
    && (conn.reused <==> exists d :: 0 <= d < c && arrivals[d].clientId == arrivals[c].clientId)
  }

  ghost predicate Named(past: seq<Step>, s: Center) {
    && |s.conns| == |Arrivals(past)| && |s.kicks| == |Calls(past)|
    && (forall c :: 0 <= c < |s.conns| ==> IsArrival(Arrivals(past), c, s.conns[c]))
    && (forall k :: 0 <= k < |s.kicks| ==> s.kicks[k].machineId == Calls(past)[k])
    && (s.serverCancelled <==> CancelServer in past)
  }

  lemma OneMoreName(steps: seq<Step>, step: Step)
    ensures
      var all := steps + [step];
      && Arrivals(all) ==
           Arrivals(steps) + (if step.Accept? then [Arrival(step.clientId, step.ip, step.reports)] else [])
      && Calls(all) == Calls(steps) + (if step.KickCall? then [step.machineId] else [])
      && (CancelServer in all <==> CancelServer in steps || step == CancelServer)
  {
    assert (steps + [step])[..|steps|] == steps;
  }

  /** What a step leaves of a connection's name. */
  lemma NamesStay(s: Center, step: Step, c: nat)
    requires Enabled(s, step) && c < |s.conns|
    ensures c < |Apply(s, step).conns|
    ensures
      var a, b := s.conns[c], Apply(s, step).conns[c];
      b.clientId == a.clientId && b.ip == a.ip && b.reports == a.reports && b.reused == a.reused
  {
    ConnsGrow(s, step);
    if Moves(step, c) && step.InLoop? {
      LoopFrame(s, c, step.loop);
    } else if Moves(step, c) {
      LeaveFrame(s, c, step.leave);
    } else {
      OtherUntouched(s, step, c);
    }
  }

  lemma ServerFrame(s: Center, step: Step)
    requires Enabled(s, step)
    ensures Apply(s, step).serverCancelled == (s.serverCancelled || step.CancelServer?)
  {
    match step
    case InLoop(c, loop) => LoopFrame(s, c, loop);
    case AfterLoop(c, leave) => LeaveFrame(s, c, leave);
    case ByEvictor(evict) => EvictorFrame(s, evict);
    case ByKick(k, kick) => KickFrame(s, k, kick);
    case _ =>
  }

  /** What a step of a kick leaves of the kicks. */
  lemma OwnKickFrame(s: Center, k: nat, step: KickStep)
    requires k < |s.kicks| && KickEnabled(s, s.kicks[k], step)
    ensures
      var t := ApplyKick(s, k, step);
      |t.kicks| == |s.kicks| && t.kicks == s.kicks[k := t.kicks[k]] && t.kicks[k].machineId == s.kicks[k].machineId
  {
    match step
    case FindClient(_) =>
    case TakeToken =>
    case CutToken =>
  }

  lemma KicksFrame(s: Center, step: Step)
    requires Enabled(s, step)
    ensures
      var t := Apply(s, step);
      && (step.KickCall? ==> t.kicks == s.kicks + [Kick(step.machineId, Seeking, None)])
      && (!step.KickCall? ==> |t.kicks| == |s.kicks|)
      && (forall k :: 0 <= k < |s.kicks| ==> t.kicks[k].machineId == s.kicks[k].machineId)
      && (forall k :: 0 <= k < |s.kicks| && !(step.ByKick? && step.k == k) ==> t.kicks[k] == s.kicks[k])
  {
    match step
    case InLoop(c, loop) => LoopFrame(s, c, loop);
    case AfterLoop(c, leave) => LeaveFrame(s, c, leave);
    case ByEvictor(evict) => EvictorFrame(s, evict);
    case ByKick(k, kick) => OwnKickFrame(s, k, kick);
    case _ =>
  }

  lemma AcceptedIsNamed(past: seq<Step>, s: Center, step: Step)
    requires IdsOk(s) && Named(past, s) && Enabled(s, step) && step.Accept?
    ensures IsArrival(Arrivals(past + [step]), |s.conns|, Apply(s, step).conns[|s.conns|])
  {
    OneMoreName(past, step);
    var arrivals, n := Arrivals(past + [step]), |s.conns|;
    if step.clientId in s.latest {
      assert arrivals[s.latest[step.clientId]].clientId == step.clientId;
    }
    if d :| 0 <= d < n && arrivals[d].clientId == step.clientId {
      assert s.conns[d].clientId in s.latest;
    }
  }

  lemma StepNamed(past: seq<Step>, s: Center, step: Step)
    requires IdsOk(s) && Named(past, s) && Enabled(s, step)
    ensures Named(past + [step], Apply(s, step))
  {
    OneMoreName(past, step);
    ConnsGrow(s, step);
    KicksFrame(s, step);
    ServerFrame(s, step);
    var t, arrivals := Apply(s, step), Arrivals(past + [step]);
    forall c | 0 <= c < |t.conns| ensures IsArrival(arrivals, c, t.conns[c]) {
      if c < |s.conns| {
        NamesStay(s, step, c);
        assert IsArrival(Arrivals(past), c, s.conns[c]);
        assert forall d :: 0 <= d <= c ==> arrivals[d] == Arrivals(past)[d];
      } else {
        AcceptedIsNamed(past, s, step);
      }
    }
  }

  /// ## Kicks

  /** The connection has at some time recorded the machine. */
  ghost predicate WasOn(past: seq<Step>, c: nat, machineId: string) {
    HasRecorded(OwnTrace(past, c), machineId)
  }

  lemma WasOnStays(past: seq<Step>, step: Step, c: nat, machineId: string)
    requires WasOn(past, c, machineId)
    ensures WasOn(past + [step], c, machineId)
  {
    OneMoreStepRead(past, step, c);
    var i :| RecordsAt(OwnTrace(past, c), i, machineId);
    assert RecordsAt(OwnTrace(past + [step], c), i, machineId);
  }

  /** The connection is one to cut for this machine: it has recorded it, or its client id was used before. */
  ghost predicate ToCut(past: seq<Step>, s: Center, c: nat, machineId: string) {
    c < |s.conns| && (s.conns[c].reused || WasOn(past, c, machineId))
  }

  ghost predicate KickAims(past: seq<Step>, s: Center, k: nat)
    requires k < |s.kicks|
  {
    s.kicks[k].phase.Found? ==>
      && s.kicks[k].phase.clientId in s.latest
      && ToCut(past, s, s.latest[s.kicks[k].phase.clientId], s.kicks[k].machineId)
  }

  ghost predicate AimsFit(past: seq<Step>, s: Center) {
    forall k :: 0 <= k < |s.kicks| ==> KickAims(past, s, k)
  }

  /** Whoever has taken a token had reason to. */
  ghost predicate TakerFits(past: seq<Step>, s: Center, c: nat, k: nat)
    requires c < |s.conns|
  {
    Kicker(k) in s.conns[c].takenBy ==> k < |s.kicks| && ToCut(past, s, c, s.kicks[k].machineId)
  }

  ghost predicate KicksFit(past: seq<Step>, s: Center) {
    AimsFit(past, s) && forall c: nat, k: nat :: c < |s.conns| ==> TakerFits(past, s, c, k)
  }

  lemma ToCutStays(past: seq<Step>, s: Center, step: Step, c: nat, machineId: string)
    requires Enabled(s, step) && ToCut(past, s, c, machineId)
    ensures ToCut(past + [step], Apply(s, step), c, machineId)
  {
    NamesStay(s, step, c);
    if WasOn(past, c, machineId) {
      WasOnStays(past, step, c, machineId);
    }
  }

  lemma OtherActor(a: Conn, b: Conn, actor: Actor, k: nat)
    requires TakersGrow(a, b, actor) && actor != Kicker(k) && Kicker(k) in b.takenBy
    ensures Kicker(k) in a.takenBy
  {
  }

  lemma NoTokenTaken(s: Center, k: nat, step: KickStep, c: nat)
    requires k < |s.kicks| && KickEnabled(s, s.kicks[k], step) && !step.TakeToken? && c < |s.conns|
    ensures |ApplyKick(s, k, step).conns| == |s.conns| && ApplyKick(s, k, step).conns[c].takenBy == s.conns[c].takenBy
  {
  }

  /** Only its own `TakeToken` makes a kick the taker of a token. */
  lemma KickerHasTaken(s: Center, step: Step, c: nat, k: nat)
    requires Enabled(s, step) && c < |s.conns| && c < |Apply(s, step).conns|
    requires Kicker(k) in Apply(s, step).conns[c].takenBy && step != ByKick(k, TakeToken)
    ensures Kicker(k) in s.conns[c].takenBy
  {
    match step
    case InLoop(d, loop) => LoopFrame(s, d, loop);
    case AfterLoop(d, leave) => LeaveFrame(s, d, leave);
    case ByEvictor(evict) =>
      EvictorFrame(s, evict);
      OtherActor(s.conns[c], Apply(s, step).conns[c], Evictor, k);
    case ByKick(j, kick) =>
      if j == k {
        NoTokenTaken(s, j, kick, c);
      } else {
        KickFrame(s, j, kick);
        OtherActor(s.conns[c], Apply(s, step).conns[c], Kicker(j), k);
      }
    case Stall(d, on) => StallFrame(s, d, on);
    case Accept(_, _, _) =>
    case _ => AsideFrame(s, step);
  }

  lemma LatestFrame(s: Center, step: Step)
    requires Enabled(s, step)
    ensures Apply(s, step).latest == if step.Accept? then s.latest[step.clientId := |s.conns|] else s.latest
  {
    match step
    case Accept(_, _, _) =>
    case InLoop(c, loop) => LoopFrame(s, c, loop);
    case AfterLoop(c, leave) => LeaveFrame(s, c, leave);
    case ByEvictor(evict) => EvictorFrame(s, evict);
    case ByKick(k, kick) => KickFrame(s, k, kick);
    case Stall(c, on) => StallFrame(s, c, on);
    case _ => AsideFrame(s, step);
  }

  /** A client id in the machine map is that of a living connection that has recorded the machine there. */
  lemma MachineOwner(s: Center, id: string)
    requires IdsOk(s) && EntriesOk(s) && id in s.maps.machine
    ensures id in s.latest && s.latest[id] < |s.conns|
    ensures
      var conn := s.conns[s.latest[id]];
      conn.clientId == id && 2 <= Rank(conn.phase) <= 6 && conn.recorded == Some(s.maps.machine[id])
  {
    assert OwnerRank(s, id, 2, 6);
    assert EntryOk(s, s.conns[s.latest[id]]);
  }

  lemma FoundIsToCut(past: seq<Step>, s: Center, k: nat, id: string)
    requires Inv(s) && Told(past, s) && k < |s.kicks| && KickEnabled(s, s.kicks[k], FindClient(Some(id)))
    ensures id in s.latest && ToCut(past, s, s.latest[id], s.kicks[k].machineId)
  {
    MachineOwner(s, id);
    var c := s.latest[id];
    assert StandsAt(OwnTrace(past, c), s.conns[c]);
    var i := LastRecordedAt(OwnTrace(past, c));
  }

  lemma AimStays(past: seq<Step>, s: Center, step: Step, k: nat)
    requires Inv(s) && Told(past, s) && KicksFit(past, s) && Enabled(s, step)
    requires k < |s.kicks| && k < |Apply(s, step).kicks|
    ensures KickAims(past + [step], Apply(s, step), k)
  {
    var t := Apply(s, step);
    KicksFrame(s, step);
    LatestFrame(s, step);
    if t.kicks[k].phase.Found? {
      var id, m := t.kicks[k].phase.clientId, s.kicks[k].machineId;
      if s.kicks[k].phase.Found? {
        assert KickAims(past, s, k) && s.kicks[k].phase.clientId == id;
      } else {
        FoundIsToCut(past, s, k, id);
      }
      ToCutStays(past, s, step, s.latest[id], m);
    }
  }

  /** Whom a kick has just become the taker of. */
  lemma TakenIsAimedAt(past: seq<Step>, s: Center, c: nat, k: nat)
    requires IdsOk(s) && TokensOk(s) && KicksFit(past, s) && Enabled(s, ByKick(k, TakeToken)) && c < |s.conns|
    requires Kicker(k) in Apply(s, ByKick(k, TakeToken)).conns[c].takenBy && Kicker(k) !in s.conns[c].takenBy
    ensures ToCut(past, s, c, s.kicks[k].machineId)
  {
    assert KickAims(past, s, k);
    ActiveIsOwn(s, s.kicks[k].phase.clientId);
  }

  lemma TakerHadReason(past: seq<Step>, s: Center, step: Step, c: nat, k: nat)
    requires IdsOk(s) && TokensOk(s) && KicksFit(past, s) && Enabled(s, step)
    requires c < |s.conns| && c < |Apply(s, step).conns| && Kicker(k) in Apply(s, step).conns[c].takenBy
    ensures k < |s.kicks| && ToCut(past, s, c, s.kicks[k].machineId)
  {
    if Kicker(k) in s.conns[c].takenBy {
      assert TakerFits(past, s, c, k);
    } else if step == ByKick(k, TakeToken) {
      TakenIsAimedAt(past, s, c, k);
    } else {
      KickerHasTaken(s, step, c, k);
      assert false;
    }
  }

  lemma TakerStillFits(past: seq<Step>, s: Center, step: Step, c: nat, k: nat)
    requires IdsOk(s) && TokensOk(s) && KicksFit(past, s) && Enabled(s, step) && c < |Apply(s, step).conns|
    ensures TakerFits(past + [step], Apply(s, step), c, k)
  {
    ConnsGrow(s, step);
    KicksFrame(s, step);
    if c < |s.conns| && Kicker(k) in Apply(s, step).conns[c].takenBy {
      TakerHadReason(past, s, step, c, k);
      ToCutStays(past, s, step, c, s.kicks[k].machineId);
    }
  }

  lemma AimStillFits(past: seq<Step>, s: Center, step: Step, k: nat)
    requires Inv(s) && Told(past, s) && KicksFit(past, s) && Enabled(s, step) && k < |Apply(s, step).kicks|
    ensures KickAims(past + [step], Apply(s, step), k)
  {
    if k < |s.kicks| {
      AimStays(past, s, step, k);
    } else {
      KicksFrame(s, step);
    }
  }

  lemma StepKeepsKicks(past: seq<Step>, s: Center, step: Step)
    requires Inv(s) && Told(past, s) && KicksFit(past, s) && Enabled(s, step)
    ensures KicksFit(past + [step], Apply(s, step))
  {
    forall k: nat | k < |Apply(s, step).kicks| ensures KickAims(past + [step], Apply(s, step), k) {
      AimStillFits(past, s, step, k);
    }
    forall c: nat, k: nat | c < |Apply(s, step).conns| ensures TakerFits(past + [step], Apply(s, step), c, k) {
      TakerStillFits(past, s, step, c, k);
    }
  }

  lemma {:induction false} RunKeepsKicks(past: seq<Step>, s: Center, steps: seq<Step>, t: Center)
    requires Inv(s) && Told(past, s) && Named(past, s) && KicksFit(past, s) && RunsTo(s, steps, t)
    ensures Inv(t) && Told(past + steps, t) && Named(past + steps, t) && KicksFit(past + steps, t)
    decreases |steps|
  {
    if steps == [] {
      assert past + steps == past;
    } else {
      var step := steps[0];
      StepKeepsInv(s, step);
      StepTold(past, s, step);
      StepNamed(past, s, step);
      StepKeepsKicks(past, s, step);
      RunKeepsKicks(past + [step], Apply(s, step), steps[1..], t);
      assert past + [step] + steps[1..] == past + steps;
    }
  }

  lemma RunFromStart(steps: seq<Step>, s: Center)
    requires RunsTo(START, steps, s)
    ensures Inv(s) && Told(steps, s) && Named(steps, s) && KicksFit(steps, s)
  {
    StartIsOk();
    RunKeepsKicks([], START, steps, s);
    assert [] + steps == steps;
  }

  lemma RunNames(steps: seq<Step>, s: Center)
    requires RunsTo(START, steps, s)
    ensures Named(steps, s) && IdsOk(s) && EntriesOk(s)
  {
    RunFromStart(steps, s);
  }

  lemma RunKicks(steps: seq<Step>, s: Center)
    requires RunsTo(START, steps, s)
    ensures KicksFit(steps, s) && Named(steps, s) && IdsOk(s) && TokensOk(s)
  {
    RunFromStart(steps, s);
  }

  /** Every run: connections carry the ids and addresses they were accepted with, a client id counts as used before if
      and only if an earlier connection had it, calls ask for the machines they were made for, and the server is
      cancelled once somebody has cancelled it. */
  lemma PartiesAreWhatTheyCameAs(steps: seq<Step>, s: Center)
    requires RunsTo(START, steps, s)
    ensures Named(steps, s)
  {
    RunFromStart(steps, s);
  }

  /** A connection that still has its machine on record. */
  predicate OnMachine(conn: Conn, machineId: string) {
    Rank(conn.phase) <= 6 && conn.recorded == Some(machineId)
  }

  lemma OnRecord(s: Center, id: string, machineId: string)
    requires IdsOk(s) && EntriesOk(s)
    ensures id in s.maps.machine && s.maps.machine[id] == machineId <==>
            exists c :: 0 <= c < |s.conns| && s.conns[c].clientId == id && OnMachine(s.conns[c], machineId)
  {
    if id in s.maps.machine && s.maps.machine[id] == machineId {
      MachineOwner(s, id);
      assert OnMachine(s.conns[s.latest[id]], machineId);
    }
    forall c | 0 <= c < |s.conns| && s.conns[c].clientId == id && OnMachine(s.conns[c], machineId)
      ensures id in s.maps.machine && s.maps.machine[id] == machineId
    {
      OwnEntries(s, c);
    }
  }

  /** Whom a search finds, exactly: any client whose connection has last recorded the machine asked for and not yet left
      it; and nobody if and only if there is none. */
  lemma SearchFindsExactly(steps: seq<Step>, s: Center, k: nat, id: string)
    requires RunsTo(START, steps, s) && k < |s.kicks| && s.kicks[k].phase.Seeking?
    ensures k < |Calls(steps)|
    ensures KickEnabled(s, s.kicks[k], FindClient(Some(id))) <==>
            exists c :: 0 <= c < |s.conns| && s.conns[c].clientId == id && OnMachine(s.conns[c], Calls(steps)[k])
    ensures KickEnabled(s, s.kicks[k], FindClient(None)) <==>
            forall c :: 0 <= c < |s.conns| ==> !OnMachine(s.conns[c], Calls(steps)[k])
  {
    RunNames(steps, s);
    forall x ensures x in s.maps.machine && s.maps.machine[x] == Calls(steps)[k] <==>
      exists c :: 0 <= c < |s.conns| && s.conns[c].clientId == x && OnMachine(s.conns[c], Calls(steps)[k])
    {
      OnRecord(s, x, Calls(steps)[k]);
    }
  }

  lemma TakingFinds(s: Center, id: string)
    requires IdsOk(s) && TokensOk(s) && id in s.latest && s.latest[id] < |s.conns|
    ensures id in s.maps.active <==>
            1 <= Rank(s.conns[s.latest[id]].phase) <= 3 && s.conns[s.latest[id]].takenBy == []
    ensures id in s.maps.active ==> s.maps.active[id] == s.latest[id]
  {
    assert TokenOk(s, s.latest[id]);
    if id in s.maps.active {
      ActiveIsOwn(s, id);
    }
  }

  /** When a call has found a client, it wins a token if and only if the connection last accepted under that client id
      is inserted, not removed yet and its token not taken; then that connection's token is the one it gets, and else
      the call returns false and has changed nothing. */
  lemma TakingWinsExactly(steps: seq<Step>, s: Center, k: nat)
    requires RunsTo(START, steps, s) && k < |s.kicks| && s.kicks[k].phase.Found?
    ensures s.kicks[k].phase.clientId in s.latest && s.latest[s.kicks[k].phase.clientId] < |s.conns|
    ensures
      var t, c := Apply(s, ByKick(k, TakeToken)), s.latest[s.kicks[k].phase.clientId];
      if 1 <= Rank(s.conns[c].phase) <= 3 && s.conns[c].takenBy == [] then
        t.kicks[k].phase == Holding(c) && c < |t.conns| && t.conns[c].takenBy == [Kicker(k)]
      else t == s.(kicks := s.kicks[k := s.kicks[k].(phase := Returned(false))])
  {
    RunKicks(steps, s);
    assert KickAims(steps, s, k);
    TakingFinds(s, s.kicks[k].phase.clientId);
  }

  /** A call cuts its machine: in every run a connection whose token a `disconnect_machine` call has taken had recorded
      the machine asked for, unless its client id had been used by an earlier connection. */
  lemma KickCutsItsMachine(steps: seq<Step>, s: Center, c: nat, k: nat)
    requires RunsTo(START, steps, s) && c < |s.conns| && Kicker(k) in s.conns[c].takenBy
    ensures k < |Calls(steps)| && (WasOn(steps, c, Calls(steps)[k]) || s.conns[c].reused)
  {
    RunKicks(steps, s);
    assert TakerFits(steps, s, c, k);
  }

  /** The connection has recorded one machine at most. */
  ghost predicate OneMachine(steps: seq<Step>, c: nat) {
    forall m, n :: WasOn(steps, c, m) && WasOn(steps, c, n) ==> m == n
  }

  /** A connection that records one machine only is cut by calls for that machine only. */
  lemma KickCutsTheRecordedMachine(steps: seq<Step>, s: Center, c: nat, k: nat)
    requires RunsTo(START, steps, s) && c < |s.conns| && Kicker(k) in s.conns[c].takenBy && OneMachine(steps, c)
    ensures k < |Calls(steps)| && (s.conns[c].recorded == Some(Calls(steps)[k]) || s.conns[c].reused)
  {
    KickCutsItsMachine(steps, s, c, k);
    AcceptedPingsAreRecorded(steps, s, c);
    if WasOn(steps, c, Calls(steps)[k]) {
      RecordedSomething(OwnTrace(steps, c), Calls(steps)[k]);
      var i := LastRecordedAt(OwnTrace(steps, c));
      assert WasOn(steps, c, s.conns[c].recorded.value);
    }
  }

  lemma {:induction false} RecordedSomething(trace: seq<LoopStep>, machineId: string)
    requires PingsAreRecorded(trace) && HasRecorded(trace, machineId)
    ensures LastRecorded(trace).Some?
  {
    var i :| RecordsAt(trace, i, machineId);
    var n := |trace| - 1;
    if i == n {
    } else {
      LastRecordedOfOneMore(trace[..n], trace[n]);
      assert trace == trace[..n] + [trace[n]];
      if trace[n] == Record {
        assert RecordedAt(trace, n);
      } else {
        EarlierRecorded(trace[..n], trace[n], i, machineId);
        RecordedSomething(trace[..n], machineId);
      }
    }
  }

  lemma EarlierRecorded(trace: seq<LoopStep>, step: LoopStep, i: nat, machineId: string)
    requires PingsAreRecorded(trace + [step]) && RecordsAt(trace + [step], i, machineId) && i < |trace|
    ensures PingsAreRecorded(trace) && HasRecorded(trace, machineId)
  {
    SamePast(trace, step, i - 1);
    assert RecordsAt(trace, i, machineId);
    forall j | 0 <= j < |trace| ensures RecordedAt(trace, j) {
      SamePast(trace, step, j);
      assert RecordedAt(trace + [step], j);
    }
  }
}
