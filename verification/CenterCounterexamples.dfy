/** Runs that show why the assumptions of the results on players, eviction and shutdown are needed. */
module CenterCounterexamples {
  import opened CenterMachine
  import opened CenterShutdown
  import opened Common
  import opened Players
  import opened Registry
  import opened StrandedGuests
  import Roster

  lemma {:induction false} OneMoreStep(s: Center, steps: seq<Step>, t: Center, step: Step)
    requires RunsTo(s, steps, t) && Enabled(t, step)
    ensures RunsTo(s, steps + [step], Apply(t, step))
    decreases |steps|
  {
    if steps == [] {
      assert ([step])[1..] == [];
      assert RunsTo(Apply(s, step), [], Apply(t, step));
      assert steps + [step] == [step];
    } else {
      OneMoreStep(Apply(s, steps[0]), steps[1..], t, step);
      assert (steps + [step])[1..] == steps[1..] + [step];
    }
  }

  /** A run from the start goes on by one step. */
  lemma Then(steps: seq<Step>, s: Center, step: Step, t: Center) returns (longer: seq<Step>)
    requires RunsTo(START, steps, s) && Enabled(s, step) && t == Apply(s, step)
    ensures RunsTo(START, longer, t)
  {
    OneMoreStep(START, steps, s, step);
    longer := steps + [step];
  }

  /** A center with one connection under one client id. */
  function Alone(id: string, conn: Conn, maps: Maps): Center {
    START.(conns := [conn], latest := map[id := 0], maps := maps)
  }

  function Fresh(id: string, ip: string, m: string, phase: Phase): Conn {
    Conn(id, ip, m, phase, false, false, [], None, None, false, false)
  }

  function Registered(id: string, ip: string): Maps {
    Maps(map[id := 0], map[], map[], map[id := ip])
  }

  /** A turn of the loop in which no token is cancelled. */
  lemma TurnWaits(start: seq<Step>, s: Center, conn: Conn) returns (steps: seq<Step>)
    requires RunsTo(START, start, s) && s.conns == [conn] && conn.phase.PollingServer?
    requires !s.serverCancelled && !conn.cancelled
    ensures RunsTo(START, steps, s.(conns := [conn.(phase := Waiting)]))
  {
    var mid := s.(conns := [conn.(phase := PollingConn)]);
    steps := Then(start, s, InLoop(0, PollServer), mid);
    steps := Then(steps, mid, InLoop(0, PollConn), s.(conns := [conn.(phase := Waiting)]));
  }

  /** A first connection arrives and waits for its first request. */
  lemma FirstConnectionWaits(id: string, ip: string, m: string) returns (steps: seq<Step>)
    ensures RunsTo(START, steps, Alone(id, Fresh(id, ip, m, Waiting), Registered(id, ip)))
  {
    var s1 := Alone(id, Fresh(id, ip, m, Spawned), EMPTY);
    steps := Then([], START, Accept(id, ip, m), s1);
    var s2 := Alone(id, Fresh(id, ip, m, Listed), Maps(map[id := 0], map[], map[], map[]));
    steps := Then(steps, s1, InLoop(0, List), s2);
    var s3 := Alone(id, Fresh(id, ip, m, PollingServer), Registered(id, ip));
    steps := Then(steps, s2, InLoop(0, ListIp), s3);
    steps := TurnWaits(steps, s3, Fresh(id, ip, m, PollingServer));
  }

  function Newcomer(root: Json): PlayerInfo {
    ParsePlayerInfo(root).(kind := Guest)
  }

  /** The center when the first ping of its only connection has put the guest on the list. */
  function Pinged(id: string, ip: string, m: string, root: Json, phase: Phase): Center {
    Alone(id, Fresh(id, ip, m, phase), Registered(id, ip)).(players := [Newcomer(root)])
  }

  lemma FirstPingIsHandled(id: string, ip: string, m: string, root: Json) returns (steps: seq<Step>)
    ensures RunsTo(START, steps, Pinged(id, ip, m, root, Answering(Ping(root), true)))
  {
    steps := FirstConnectionWaits(id, ip, m);
    var s1 := Alone(id, Fresh(id, ip, m, Waiting), Registered(id, ip));
    var s2 := Alone(id, Fresh(id, ip, m, Handling(Ping(root))), Registered(id, ip));
    steps := Then(steps, s1, InLoop(0, Read(Ping(root))), s2);
    var players := Roster.Pinged(s2.players, ParsePlayerInfo(root));
    assert players == [Newcomer(root)];
    steps := Then(steps, s2, InLoop(0, Handle(true, players)), Pinged(id, ip, m, root, Answering(Ping(root), true)));
  }

  /// ## Leaving

  /** Maps that hold nothing but one client's entries. */
  predicate OnlyOf(m: Maps, id: string) {
    m.active == map[id := 0] && m.heartbeat.Keys <= {id} && m.machine.Keys <= {id} && m.ip.Keys <= {id}
  }

  lemma WithoutTheOnly<V>(m: map<string, V>, id: string)
    requires m.Keys <= {id}
    ensures Without(m, id) == map[]
  {
  }

  /** The only connection takes its own token, */
  lemma AloneTakesItsToken(start: seq<Step>, s: Center, conn: Conn) returns (steps: seq<Step>)
    requires RunsTo(START, start, s) && s.conns == [conn] && conn.phase.Leaving? && conn.takenBy == []
    requires OnlyOf(s.maps, conn.clientId)
    ensures RunsTo(START, steps, s.(conns := [conn.(phase := LeavingBeat, takenBy := [Task(0)])],
                                    maps := s.maps.(active := map[])))
  {
    WithoutTheOnly(s.maps.active, conn.clientId);
    assert conn.takenBy + [Task(0)] == [Task(0)];
    var t := s.(conns := [conn.(phase := LeavingBeat, takenBy := [Task(0)])], maps := s.maps.(active := map[]));
    assert Apply(s, AfterLoop(0, LeaveActive)).conns == t.conns;
    steps := Then(start, s, AfterLoop(0, LeaveActive), t);
  }

  /** then its heartbeat and its address, */
  lemma AloneDropsBeatAndIp(start: seq<Step>, s: Center, conn: Conn) returns (steps: seq<Step>)
    requires RunsTo(START, start, s) && s.conns == [conn] && conn.phase.LeavingBeat?
    requires s.maps.heartbeat.Keys <= {conn.clientId} && s.maps.ip.Keys <= {conn.clientId}
    ensures RunsTo(START, steps, s.(conns := [conn.(phase := LeavingMachine)],
                                    maps := s.maps.(heartbeat := map[], ip := map[])))
  {
    WithoutTheOnly(s.maps.heartbeat, conn.clientId);
    WithoutTheOnly(s.maps.ip, conn.clientId);
    var s1 := s.(conns := [conn.(phase := LeavingIp)], maps := s.maps.(heartbeat := map[]));
    steps := Then(start, s, AfterLoop(0, LeaveBeat), s1);
    var s2 := s.(conns := [conn.(phase := LeavingMachine)], maps := s.maps.(heartbeat := map[], ip := map[]));
    steps := Then(steps, s1, AfterLoop(0, LeaveIp), s2);
  }

  /** then its machine id, and sends its event. */
  lemma AloneSendsItsEvent(start: seq<Step>, s: Center, conn: Conn) returns (steps: seq<Step>)
    requires RunsTo(START, start, s) && s.conns == [conn] && conn.phase.LeavingMachine?
    requires s.maps.machine.Keys <= {conn.clientId} && s.events == [] && s.sent == []
    ensures RunsTo(START, steps, s.(conns := [conn.(phase := Ended)], maps := s.maps.(machine := map[]),
                                    events := [Lookup(s.maps.machine, conn.clientId).UnwrapOr("")], sent := [0]))
  {
    WithoutTheOnly(s.maps.machine, conn.clientId);
    var report := Lookup(s.maps.machine, conn.clientId);
    var mid := s.(conns := [conn.(phase := Notifying(report))], maps := s.maps.(machine := map[]));
    steps := Then(start, s, AfterLoop(0, LeaveMachine), mid);
    var t := mid.(conns := [conn.(phase := Ended)], events := [report.UnwrapOr("")], sent := [0]);
    steps := Then(steps, mid, AfterLoop(0, Notify), t);
  }

  lemma AloneEnds(start: seq<Step>, s: Center, conn: Conn) returns (steps: seq<Step>)
    requires RunsTo(START, start, s) && s.conns == [conn] && conn.phase.Leaving? && conn.takenBy == []
    requires OnlyOf(s.maps, conn.clientId) && s.events == [] && s.sent == []
    ensures RunsTo(START, steps, s.(conns := [conn.(phase := Ended, takenBy := [Task(0)])], maps := EMPTY,
                                    events := [Lookup(s.maps.machine, conn.clientId).UnwrapOr("")], sent := [0]))
  {
    steps := AloneTakesItsToken(start, s, conn);
    var s1 := s.(conns := [conn.(phase := LeavingBeat, takenBy := [Task(0)])], maps := s.maps.(active := map[]));
    steps := AloneDropsBeatAndIp(steps, s1, s1.conns[0]);
    var s2 := s.(conns := [conn.(phase := LeavingMachine, takenBy := [Task(0)])],
                 maps := Maps(map[], map[], s.maps.machine, map[]));
    steps := AloneSendsItsEvent(steps, s2, s2.conns[0]);
  }

  /** An event that names no machine is consumed. */
  lemma NamelessEventIsConsumed(start: seq<Step>, s: Center) returns (steps: seq<Step>, t: Center)
    requires RunsTo(START, start, s) && s.events == [""] && s.hand.None?
    ensures RunsTo(START, steps, t)
    ensures t.conns == s.conns && t.players == s.players && t.maps == s.maps && t.events == [] && t.hand.None?
  {
    var mid := Apply(s, Receive);
    steps := Then(start, s, Receive, mid);
    t := Apply(mid, Consume);
    steps := Then(steps, mid, Consume, t);
  }

  /** A connection that recorded nothing ends, and with it the last thing that could remove its guest. */
  lemma NamelessExit(start: seq<Step>, s: Center, conn: Conn) returns (steps: seq<Step>, t: Center)
    requires RunsTo(START, start, s) && s.conns == [conn] && conn.phase.Leaving? && conn.takenBy == []
    requires OnlyOf(s.maps, conn.clientId) && conn.clientId !in s.maps.machine
    requires s.events == [] && s.sent == [] && s.hand.None?
    ensures RunsTo(START, steps, t) && t.players == s.players && forall m :: !Backed(t, m)
  {
    steps := AloneEnds(start, s, conn);
    var ended := s.(conns := [conn.(phase := Ended, takenBy := [Task(0)])], maps := EMPTY, events := [""], sent := [0]);
    steps, t := NamelessEventIsConsumed(steps, ended);
  }

  /// ## Stranded guests

  /** The harmless loss is needed: when the response to a first ping cannot be written, the guest stays on the list with
      no connection and no event left to remove it, whatever machine it reported. */
  lemma UnwrittenPingResponseStrandsTheGuest(id: string, ip: string, m: string, root: Json)
    returns (steps: seq<Step>, t: Center)
    requires Reports(root, m)
    ensures RunsTo(START, steps, t)
    ensures Newcomer(root) in t.players && Newcomer(root).machineId == m && Newcomer(root).kind == Guest
    ensures !Backed(t, m)
  {
    steps := FirstPingIsHandled(id, ip, m, root);
    var leaving := Pinged(id, ip, m, root, Leaving);
    steps := Then(steps, Pinged(id, ip, m, root, Answering(Ping(root), true)), InLoop(0, WriteFails), leaving);
    steps, t := NamelessExit(steps, leaving, Fresh(id, ip, m, Leaving));
    RosterAndRegistryAgree(root);
    assert t.players[0] == Newcomer(root);
  }

  /** The machine id is needed: a ping without one puts a guest on the list whose connection, though every response was
      written, sends an event that names no machine. */
  lemma NamelessPingStrandsTheGuest(id: string, ip: string, root: Json) returns (steps: seq<Step>, t: Center)
    requires RecordedMachine(root) == None
    ensures RunsTo(START, steps, t)
    ensures IsGuest(t.players, "") && !Backed(t, "")
  {
    steps := FirstPingIsHandled(id, ip, "", root);
    var s1 := Pinged(id, ip, "", root, Beating(root));
    steps := Then(steps, Pinged(id, ip, "", root, Answering(Ping(root), true)), InLoop(0, Write), s1);
    var beaten := Fresh(id, ip, "", PollingServer).(lastBeat := Some(0));
    var s2 := s1.(conns := [beaten], maps := s1.maps.(heartbeat := map[id := 0]));
    steps := Then(steps, s1, InLoop(0, Beat), s2);
    steps := TurnWaits(steps, s2, beaten);
    var s3 := s2.(conns := [beaten.(phase := Leaving)]);
    steps := Then(steps, s2.(conns := [beaten.(phase := Waiting)]), InLoop(0, ReadFails), s3);
    steps, t := NamelessExit(steps, s3, beaten.(phase := Leaving));
    RosterAndRegistryAgree(root);
    assert t.players[0] == Newcomer(root);
  }

  /// ## A connection that falls silent

  /** A first connection that has reported its machine once, at time 0, and now stands at `phase`. */
  function Silent(id: string, ip: string, m: string, phase: Phase): Conn {
    Fresh(id, ip, m, phase).(recorded := Some(m), lastBeat := Some(0))
  }

  function Reported(id: string, ip: string, m: string): Maps {
    Maps(map[id := 0], map[id := 0], map[id := m], map[id := ip])
  }

  lemma FirstPingIsRecorded(id: string, ip: string, m: string, root: Json) returns (steps: seq<Step>)
    requires Reports(root, m)
    ensures RunsTo(START, steps,
                   Alone(id, Silent(id, ip, m, PollingServer), Reported(id, ip, m)).(players := [Newcomer(root)]))
  {
    steps := FirstPingIsHandled(id, ip, m, root);
    var s1 := Pinged(id, ip, m, root, Beating(root));
    steps := Then(steps, Pinged(id, ip, m, root, Answering(Ping(root), true)), InLoop(0, Write), s1);
    var beaten := Fresh(id, ip, m, Recording(m)).(lastBeat := Some(0));
    var s2 := s1.(conns := [beaten], maps := s1.maps.(heartbeat := map[id := 0]));
    steps := Then(steps, s1, InLoop(0, Beat), s2);
    var s3 := Alone(id, Silent(id, ip, m, PollingServer), Reported(id, ip, m)).(players := [Newcomer(root)]);
    steps := Then(steps, s2, InLoop(0, Record), s3);
  }

  const LATE: nat := HEARTBEAT_TIMEOUT + 1

  /** The evictor, having found the only connection's ping too old, is about to look for its token. */
  function Struck(s: Center, conn: Conn): Center {
    s.(conns := [conn.(condemned := true)], now := LATE, maps := s.maps.(heartbeat := map[]),
       evictor := EvictorState(Striking(conn.clientId, []), HEARTBEAT_INTERVAL, 1))
  }

  /** A scan finds the only connection's ping too old. */
  lemma SilenceIsFound(start: seq<Step>, s: Center, conn: Conn) returns (steps: seq<Step>)
    requires RunsTo(START, start, s) && s.conns == [conn] && conn.lastBeat == Some(0) && s.now == 0
    requires s.maps.heartbeat == map[conn.clientId := 0] && s.evictor == START.evictor
    ensures RunsTo(START, steps, s.(conns := [conn.(condemned := true)], now := LATE,
                                    evictor := EvictorState(Sweeping([conn.clientId]), HEARTBEAT_INTERVAL, 1)))
  {
    var id := conn.clientId;
    var s1 := s.(now := LATE);
    steps := Then(start, s, Tick(LATE), s1);
    var s2 := s1.(evictor := EvictorState(Scanning(LATE), HEARTBEAT_INTERVAL, 0));
    steps := Then(steps, s1, ByEvictor(ReadClock), s2);
    var s3 := s1.(conns := [conn.(condemned := true)], evictor := EvictorState(Sweeping([id]), HEARTBEAT_INTERVAL, 1));
    assert CondemnAll([conn], LATE) == [conn.(condemned := true)];
    assert Distinct([id]);
    steps := Then(steps, s2, ByEvictor(Scan([id])), s3);
  }

  lemma SilenceIsStruck(start: seq<Step>, s: Center, conn: Conn) returns (steps: seq<Step>)
    requires RunsTo(START, start, s) && s.conns == [conn] && conn.lastBeat == Some(0) && s.now == 0
    requires s.maps.heartbeat == map[conn.clientId := 0] && s.evictor == START.evictor
    ensures RunsTo(START, steps, Struck(s, conn))
  {
    var id := conn.clientId;
    steps := SilenceIsFound(start, s, conn);
    var found := s.(conns := [conn.(condemned := true)], now := LATE,
                    evictor := EvictorState(Sweeping([id]), HEARTBEAT_INTERVAL, 1));
    WithoutTheOnly(s.maps.heartbeat, id);
    assert [id][1..] == [];
    steps := Then(steps, found, ByEvictor(SweepBeat), Struck(s, conn));
  }

  /// ## A client id used twice

  /** A silent connection, found too old, hangs up before the evictor goes on, and its task ends. */
  lemma SilentEnds(id: string, ip: string, m: string, root: Json) returns (steps: seq<Step>, t: Center)
    requires Reports(root, m)
    ensures RunsTo(START, steps, t) && |t.conns| == 1 && t.conns[0].phase.Ended?
    ensures t.maps == EMPTY && t.latest == map[id := 0] && t.evictor.phase == Striking(id, [])
  {
    steps := FirstPingIsRecorded(id, ip, m, root);
    var s0 := Alone(id, Silent(id, ip, m, PollingServer), Reported(id, ip, m)).(players := [Newcomer(root)]);
    steps := SilenceIsStruck(steps, s0, Silent(id, ip, m, PollingServer));
    var conn := Silent(id, ip, m, PollingServer).(condemned := true);
    var s1 := Struck(s0, Silent(id, ip, m, PollingServer));
    steps := TurnWaits(steps, s1, conn);
    var s2 := s1.(conns := [conn.(phase := Leaving)]);
    steps := Then(steps, s1.(conns := [conn.(phase := Waiting)]), InLoop(0, ReadFails), s2);
    steps := AloneEnds(steps, s2, conn.(phase := Leaving));
    t := s2.(conns := [conn.(phase := Ended, takenBy := [Task(0)])], maps := EMPTY, events := [m], sent := [0]);
  }

  /** The evictor finds a token under the client id it is striking, takes it and cancels it. */
  lemma TokenIsCut(start: seq<Step>, s: Center, c: nat) returns (steps: seq<Step>, t: Center)
    requires RunsTo(START, start, s) && c < |s.conns| && s.evictor.phase.Striking? && s.evictor.phase.todo == []
    requires s.maps.active == map[s.evictor.phase.id := c] && s.conns[c].takenBy == []
    ensures RunsTo(START, steps, t)
    ensures t.conns == s.conns[c := s.conns[c].(takenBy := [Evictor], cancelled := true)]
    ensures t == s.(conns := t.conns, maps := s.maps.(active := map[]), evictor := t.evictor)
  {
    WithoutTheOnly(s.maps.active, s.evictor.phase.id);
    assert s.conns[c].takenBy + [Evictor] == [Evictor];
    var mid := s.(conns := s.conns[c := s.conns[c].(takenBy := [Evictor])], maps := s.maps.(active := map[]),
                  evictor := s.evictor.(phase := Cutting(c, [])));
    steps := Then(start, s, ByEvictor(SweepActive), mid);
    t := Apply(mid, ByEvictor(SweepCut));
    steps := Then(steps, mid, ByEvictor(SweepCut), t);
  }

  /** The fresh client id is needed: when a guest comes back from the same address between the scan that found its old
      connection silent and the evictor's look into the active map, the evictor cuts the new connection, which no scan
      has found too old. */
  lemma ReusedAddressCutsAFreshConnection(id: string, ip: string, m: string, root: Json)
    returns (steps: seq<Step>, t: Center)
    requires Reports(root, m)
    ensures RunsTo(START, steps, t)
    ensures |t.conns| == 2 && t.conns[1].takenBy == [Evictor] && t.conns[1].cancelled && !t.conns[1].condemned
  {
    var s0;
    steps, s0 := SilentEnds(id, ip, m, root);
    var newcomer := Fresh(id, ip, m, Spawned).(reused := true);
    var s1 := s0.(conns := s0.conns + [newcomer], latest := map[id := 1]);
    steps := Then(steps, s0, Accept(id, ip, m), s1);
    var s2 := s1.(conns := s0.conns + [newcomer.(phase := Listed)], maps := EMPTY.(active := map[id := 1]));
    assert s1.conns[1 := newcomer.(phase := Listed)] == s2.conns;
    steps := Then(steps, s1, InLoop(1, List), s2);
    steps, t := TokenIsCut(steps, s2, 1);
  }

  /// ## A kick that comes late

  /** A call has found the only client and goes on to its token. */
  lemma CallFindsTheOnly(start: seq<Step>, s: Center, machineId: string, id: string) returns (steps: seq<Step>)
    requires RunsTo(START, start, s) && s.kicks == [] && id in s.maps.machine && s.maps.machine[id] == machineId
    ensures RunsTo(START, steps, s.(kicks := [Kick(machineId, Found(id), None)]))
  {
    var mid := s.(kicks := [Kick(machineId, Seeking, None)]);
    steps := Then(start, s, KickCall(machineId), mid);
    steps := Then(steps, mid, ByKick(0, FindClient(Some(id))), s.(kicks := [Kick(machineId, Found(id), None)]));
  }

  /** The center when a call has found a client whose connection has ended since. */
  function FoundTooLate(id: string, ip: string, m: string, root: Json): Center {
    Alone(id, Silent(id, ip, m, Ended).(takenBy := [Task(0)]), EMPTY)
      .(players := [Newcomer(root)], kicks := [Kick(m, Found(id), None)], events := [m], sent := [0])
  }

  lemma FoundClientLeaves(id: string, ip: string, m: string, root: Json) returns (steps: seq<Step>)
    requires Reports(root, m)
    ensures RunsTo(START, steps, FoundTooLate(id, ip, m, root))
  {
    steps := FirstPingIsRecorded(id, ip, m, root);
    var conn := Silent(id, ip, m, PollingServer);
    var s0 := Alone(id, conn, Reported(id, ip, m)).(players := [Newcomer(root)]);
    steps := CallFindsTheOnly(steps, s0, m, id);
    var s1 := s0.(kicks := [Kick(m, Found(id), None)]);
    steps := TurnWaits(steps, s1, conn);
    var s2 := s1.(conns := [conn.(phase := Leaving)]);
    steps := Then(steps, s1.(conns := [conn.(phase := Waiting)]), InLoop(0, ReadFails), s2);
    steps := AloneEnds(steps, s2, conn.(phase := Leaving));
  }

  /** The fresh client id is needed: a call for one machine cuts another machine's connection that came from the same
      remote address between the call's search and its removal, before it has recorded anything. */
  lemma LateKickCutsAnotherMachine(id: string, ip: string, m: string, root: Json, other: string)
    returns (steps: seq<Step>, t: Center)
    requires Reports(root, m)
    ensures RunsTo(START, steps, t) && |t.conns| == 2 && |t.kicks| == 1 && t.kicks[0].machineId == m
    ensures t.conns[1].takenBy == [Kicker(0)] && t.conns[1].recorded.None? && t.conns[1].reports == other
    ensures t.conns[1].reused
  {
    steps := FoundClientLeaves(id, ip, m, root);
    var s0 := FoundTooLate(id, ip, m, root);
    var newcomer := Conn(id, ip, other, Spawned, false, false, [], None, None, false, true);
    var s1 := s0.(conns := s0.conns + [newcomer], latest := map[id := 1]);
    assert s0.latest[id := 1] == s1.latest;
    steps := Then(steps, s0, Accept(id, ip, other), s1);
    var s2 := s1.(conns := s0.conns + [newcomer.(phase := Listed)], maps := EMPTY.(active := map[id := 1]));
    assert s1.conns[1 := newcomer.(phase := Listed)] == s2.conns;
    steps := Then(steps, s1, InLoop(1, List), s2);
    t := Apply(s2, ByKick(0, TakeToken));
    assert newcomer.takenBy + [Kicker(0)] == [Kicker(0)];
    steps := Then(steps, s2, ByKick(0, TakeToken), t);
  }

  /// ## A connection that hangs

  /** The center when its only connection, its guest on the list, hangs while it writes a response. */
  function Hanging(id: string, ip: string, m: string, root: Json): Center {
    Alone(id, Silent(id, ip, m, Answering(Other, true)).(stalled := true), Reported(id, ip, m))
      .(players := [Newcomer(root)])
  }

  lemma ResponseHangs(id: string, ip: string, m: string, root: Json) returns (steps: seq<Step>)
    requires Reports(root, m)
    ensures RunsTo(START, steps, Hanging(id, ip, m, root))
  {
    steps := FirstPingIsRecorded(id, ip, m, root);
    var conn := Silent(id, ip, m, PollingServer);
    var s0 := Alone(id, conn, Reported(id, ip, m)).(players := [Newcomer(root)]);
    steps := TurnWaits(steps, s0, conn);
    var s1 := s0.(conns := [conn.(phase := Handling(Other))]);
    steps := Then(steps, s0.(conns := [conn.(phase := Waiting)]), InLoop(0, Read(Other)), s1);
    var s2 := s0.(conns := [conn.(phase := Answering(Other, true))]);
    steps := Then(steps, s1, InLoop(0, Handle(true, s1.players)), s2);
    steps := Then(steps, s2, Stall(0, true), Hanging(id, ip, m, root));
  }

  /** The peer that reads on is needed: a connection the evictor has cancelled hangs in the response its peer does not
      take; it has no step of its own, its machine and address entries are still there, and so is its guest. */
  lemma CancelledConnectionHangs(id: string, ip: string, m: string, root: Json) returns (steps: seq<Step>, t: Center)
    requires Reports(root, m)
    ensures RunsTo(START, steps, t) && |t.conns| == 1
    ensures t.conns[0].cancelled && t.conns[0].phase.Answering? && Withheld(t.conns[0]) && !CanMove(t, 0)
    ensures id in t.maps.machine && id in t.maps.ip && id !in t.maps.active && id !in t.maps.heartbeat
    ensures IsGuest(t.players, m)
  {
    steps := ResponseHangs(id, ip, m, root);
    var s0, conn := Hanging(id, ip, m, root), Silent(id, ip, m, Answering(Other, true)).(stalled := true);
    steps := SilenceIsStruck(steps, s0, conn);
    steps, t := TokenIsCut(steps, Struck(s0, conn), 0);
    StoppingCanMoveExactly(t, 0);
    RosterAndRegistryAgree(root);
    assert t.players[0] == Newcomer(root);
  }
}
