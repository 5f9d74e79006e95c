/** The running center as a concurrent state machine. Connection tasks, the heartbeat evictor, any number of kicks
    and the consumer of disconnect events interleave freely; every lock section, channel operation, clock reading and
    token access is one step. All choices (who moves, what arrives, when a peer or a handler hangs, how maps are
    iterated, how time passes) are in the step. */
module CenterMachine {
  import opened Common
  import opened Players
  import opened Registry
  import Roster

  /** What a connection task is told to do. Anything but a readable ping touches neither registry nor roster. */
  datatype Req = Ping(root: Json) | Other

  /** Where a connection task stands in `handle_client`. */
  datatype Phase =
    | Spawned                       // before its insertion into the active map
    | Listed                        // before its insertion into the address map
    | PollingServer                 // a new turn of the loop: the server token is looked at first,
    | PollingConn                   // then the connection's own,
    | Waiting                       // then the socket
    | Handling(req: Req)
    | Answering(req: Req, ok: bool)
    | Beating(root: Json)           // an accepted ping is answered, its heartbeat not yet recorded
    | Recording(machineId: string)
    | Leaving                       // out of the loop, before each of the four removals
    | LeavingBeat
    | LeavingIp
    | LeavingMachine
    | Notifying(report: Option<string>)
    | Ended

  /** Who can take a token out of the active map. */
  datatype Actor = Evictor | Kicker(k: nat) | Task(c: nat)

  /** A connection, its client id and source address. `reports` is the machine id its guest means to report. While it is
      `stalled` neither the handler it has called nor the response it is writing comes to an end. The fields after that
      are history that no step looks at: who took its token, the last machine id it recorded, the time of its last
      accepted ping, whether a scan found that ping too old, and whether its client id had been used before. */
  datatype Conn = Conn(clientId: string, ip: string, reports: string, phase: Phase, cancelled: bool, stalled: bool,
                       takenBy: seq<Actor>, recorded: Option<string>, lastBeat: Option<nat>, condemned: bool,
                       reused: bool)

  datatype EvictorPhase =
    | Sleeping
    | Scanning(at: nat)                       // it has read the clock
    | Sweeping(todo: seq<string>)             // before removing the first one's heartbeat
    | Striking(id: string, todo: seq<string>) // before taking its token
    | Cutting(token: nat, todo: seq<string>)  // before cancelling it
    | Stopped

  /** The evictor, when its sleep ends, and (history) how many connections there were at its last scan. */
  datatype EvictorState = EvictorState(phase: EvictorPhase, wake: nat, seen: nat)

  /** A call of `disconnect_machine`, with (history) the token it got. */
  datatype KickPhase = Seeking | Found(clientId: string) | Holding(token: nat) | Returned(found: bool)

  datatype Kick = Kick(machineId: string, phase: KickPhase, got: Option<nat>)

  /** The center. Connections and their tokens are known by their position in `conns`; `hand` is the disconnect event
      its consumer is working off; (history) `latest` gives the last connection accepted under a client id, `sent` the
      connections in the order of their disconnect events, `received` how many of these the consumer has received. */
  datatype Center = Center(maps: Maps, conns: seq<Conn>, latest: map<string, nat>, serverCancelled: bool,
                           evictor: EvictorState, kicks: seq<Kick>, players: seq<PlayerInfo>, hosted: bool,
                           events: seq<string>, hand: Option<string>, sent: seq<nat>, received: nat, now: nat)

  const START :=
    Center(EMPTY, [], map[], false, EvictorState(Sleeping, HEARTBEAT_INTERVAL, 0), [], [], false, [], None, [], 0, 0)

  /** A connection task up to the end of its loop. */
  datatype LoopStep =
    | List
    | ListIp
    | PollServer
    | PollConn
    | Wake
    | Read(req: Req)
    | ReadFails
    | Handle(ok: bool, players: seq<PlayerInfo>)
    | Write
    | WriteFails
    | Beat
    | Record

  /** A connection task after its loop. */
  datatype LeaveStep = LeaveActive | LeaveBeat | LeaveIp | LeaveMachine | Notify

  datatype EvictorStep = ReadClock | Scan(order: seq<string>) | SweepBeat | SweepActive | SweepCut | StopEvictor

  datatype KickStep = FindClient(id: Option<string>) | TakeToken | CutToken

  datatype Step =
    | Accept(clientId: string, ip: string, reports: string)
    | InLoop(c: nat, loop: LoopStep)
    | AfterLoop(c: nat, leave: LeaveStep)
    | ByEvictor(evict: EvictorStep)
    | KickCall(machineId: string)
    | ByKick(k: nat, kick: KickStep)
    | Stall(c: nat, on: bool)
    | CancelServer
    | Receive
    | Consume
    | AddHost(host: PlayerInfo)
    | Remove(machineId: string)
    | Tick(d: nat)

  predicate Live(conn: Conn) {
    !conn.phase.Ended?
  }

  predicate LoopEnabled(s: Center, conn: Conn, step: LoopStep) {
    match step
    case List => conn.phase.Spawned?
    case ListIp => conn.phase.Listed?
    case PollServer => conn.phase.PollingServer?
    case PollConn => conn.phase.PollingConn?
    case Wake => conn.phase.Waiting? && (s.serverCancelled || conn.cancelled)
    case Read(_) => conn.phase.Waiting?
    case ReadFails => conn.phase.Waiting?
    // only a ping hook may change the players
    case Handle(_, players) => conn.phase.Handling? && !conn.stalled && (conn.phase.req.Other? ==> players == s.players)
    case Write => conn.phase.Answering? && !conn.stalled
    case WriteFails => conn.phase.Answering? && !conn.stalled
    case Beat => conn.phase.Beating?
    case Record => conn.phase.Recording?
  }

  predicate LeaveEnabled(conn: Conn, step: LeaveStep) {
    match step
    case LeaveActive => conn.phase.Leaving?
    case LeaveBeat => conn.phase.LeavingBeat?
    case LeaveIp => conn.phase.LeavingIp?
    case LeaveMachine => conn.phase.LeavingMachine?
    case Notify => conn.phase.Notifying?
  }

  ghost predicate EvictorEnabled(s: Center, step: EvictorStep) {
    match step
    case ReadClock => s.evictor.phase.Sleeping? && s.now >= s.evictor.wake
    case Scan(order) => s.evictor.phase.Scanning? && ListsTimedOut(s.maps.heartbeat, s.evictor.phase.at, order)
    case SweepBeat => s.evictor.phase.Sweeping? && s.evictor.phase.todo != []
    case SweepActive => s.evictor.phase.Striking?
    case SweepCut => s.evictor.phase.Cutting? && s.evictor.phase.token < |s.conns|
    case StopEvictor => s.evictor.phase.Sleeping? && s.serverCancelled
  }

  ghost predicate KickEnabled(s: Center, kick: Kick, step: KickStep) {
    match step
    case FindClient(id) => kick.phase.Seeking? && FindsMachine(s.maps.machine, kick.machineId, id)
    case TakeToken => kick.phase.Found?
    case CutToken => kick.phase.Holding? && kick.phase.token < |s.conns|
  }

  ghost predicate Enabled(s: Center, step: Step) {
    match step
    // a client id is a remote address: no two connections that overlap share one
    case Accept(id, _, _) => forall c :: 0 <= c < |s.conns| && Live(s.conns[c]) ==> s.conns[c].clientId != id
    case InLoop(c, loop) => c < |s.conns| && LoopEnabled(s, s.conns[c], loop)
    case AfterLoop(c, leave) => c < |s.conns| && LeaveEnabled(s.conns[c], leave)
    case ByEvictor(evict) => EvictorEnabled(s, evict)
    case KickCall(_) => true
    case ByKick(k, kick) => k < |s.kicks| && KickEnabled(s, s.kicks[k], kick)
    case Stall(c, _) => c < |s.conns|
    case CancelServer => true
    case Receive => s.events != [] && s.hand.None?
    case Consume => s.hand.Some?
    case AddHost(_) => !s.hosted
    case Remove(_) => true
    case Tick(_) => true
  }

  /** Some client that recorded the machine id, or none when there is none. */
  ghost predicate FindsMachine(machine: map<string, string>, machineId: string, id: Option<string>) {
    match id
    case Some(x) => Lookup(machine, x) == Some(machineId)
    case None => forall x :: x in machine ==> machine[x] != machineId
  }

  function With(s: Center, c: nat, conn: Conn): Center
    requires c < |s.conns|
  {
    s.(conns := s.conns[c := conn])
  }

  function Go(s: Center, c: nat, phase: Phase): Center
    requires c < |s.conns|
  {
    With(s, c, s.conns[c].(phase := phase))
  }

  /** `active_clients.remove(id)` by an actor. */
  function Take(s: Center, id: string, actor: Actor): Center {
    if id in s.maps.active then
      s.(maps := s.maps.(active := Without(s.maps.active, id)), conns := Taken(s.conns, s.maps.active[id], actor))
    else s
  }

  function Taken(conns: seq<Conn>, t: nat, actor: Actor): (taken: seq<Conn>)
    ensures |taken| == |conns|
  {
    if t < |conns| then conns[t := conns[t].(takenBy := conns[t].takenBy + [actor])] else conns
  }

  function Cancel(s: Center, t: nat): Center
    requires t < |s.conns|
  {
    With(s, t, s.conns[t].(cancelled := true))
  }

  /** The evictor goes on with the rest of its list, or back to sleep. */
  function Onward(s: Center, todo: seq<string>): Center {
    s.(evictor := if todo == [] then s.evictor.(phase := Sleeping, wake := s.now + HEARTBEAT_INTERVAL)
                  else s.evictor.(phase := Sweeping(todo)))
  }

  /** History kept by a scan: whose last accepted ping it finds too old. */
  function Condemn(conn: Conn, at: nat): Conn {
    conn.(condemned := conn.condemned || (conn.lastBeat.Some? && Expired(conn.lastBeat.value, at)))
  }

  function CondemnAll(conns: seq<Conn>, at: nat): (condemned: seq<Conn>)
    ensures |condemned| == |conns|
  {
    seq(|conns|, i requires 0 <= i < |conns| => Condemn(conns[i], at))
  }

  function ApplyLoop(s: Center, c: nat, step: LoopStep): Center
    requires c < |s.conns| && LoopEnabled(s, s.conns[c], step)
  {
    var conn := s.conns[c];
    var id := conn.clientId;
    match step
    case List => Go(s, c, Listed).(maps := s.maps.(active := s.maps.active[id := c]))
    case ListIp => Go(s, c, PollingServer).(maps := s.maps.(ip := s.maps.ip[id := conn.ip]))
    case PollServer => Go(s, c, if s.serverCancelled then Leaving else PollingConn)
    case PollConn => Go(s, c, if conn.cancelled then Leaving else Waiting)
    case Wake => Go(s, c, Leaving)
    case Read(req) => Go(s, c, Handling(req))
    case ReadFails => Go(s, c, Leaving)
    case Handle(ok, players) => Go(s, c, Answering(conn.phase.req, ok)).(players := players)
    case Write =>
      Go(s, c, if conn.phase.req.Ping? && conn.phase.ok then Beating(conn.phase.req.root) else PollingServer)
    case WriteFails => Go(s, c, Leaving)
    case Beat =>
      var recorded := RecordedMachine(conn.phase.root);
      var phase := if recorded.Some? then Recording(recorded.value) else PollingServer;
      With(s, c, conn.(phase := phase, lastBeat := Some(s.now)))
        .(maps := s.maps.(heartbeat := s.maps.heartbeat[id := s.now]))
    case Record =>
      var m := conn.phase.machineId;
      With(s, c, conn.(phase := PollingServer, recorded := Some(m)))
        .(maps := s.maps.(machine := s.maps.machine[id := m]))
  }

  function ApplyLeave(s: Center, c: nat, step: LeaveStep): Center
    requires c < |s.conns| && LeaveEnabled(s.conns[c], step)
  {
    var id := s.conns[c].clientId;
    match step
    case LeaveActive => Go(Take(s, id, Task(c)), c, LeavingBeat)
    case LeaveBeat => Go(s, c, LeavingIp).(maps := s.maps.(heartbeat := Without(s.maps.heartbeat, id)))
    case LeaveIp => Go(s, c, LeavingMachine).(maps := s.maps.(ip := Without(s.maps.ip, id)))
    case LeaveMachine =>
      Go(s, c, Notifying(Lookup(s.maps.machine, id))).(maps := s.maps.(machine := Without(s.maps.machine, id)))
    case Notify =>
      Go(s, c, Ended).(events := s.events + [s.conns[c].phase.report.UnwrapOr("")], sent := s.sent + [c])
  }

  function ApplyEvictor(s: Center, step: EvictorStep): Center
    requires EvictorEnabled(s, step)
  {
    match step
    case ReadClock => s.(evictor := s.evictor.(phase := Scanning(s.now)))
    case Scan(order) =>
      Onward(s.(conns := CondemnAll(s.conns, s.evictor.phase.at), evictor := s.evictor.(seen := |s.conns|)), order)
    case SweepBeat =>
      var todo := s.evictor.phase.todo;
      s.(maps := s.maps.(heartbeat := Without(s.maps.heartbeat, todo[0])),
         evictor := s.evictor.(phase := Striking(todo[0], todo[1..])))
    case SweepActive =>
      var id, todo := s.evictor.phase.id, s.evictor.phase.todo;
      if id in s.maps.active then
        Take(s, id, Evictor).(evictor := s.evictor.(phase := Cutting(s.maps.active[id], todo)))
      else Onward(s, todo)
    case SweepCut => Onward(Cancel(s, s.evictor.phase.token), s.evictor.phase.todo)
    case StopEvictor => s.(evictor := s.evictor.(phase := Stopped))
  }

  function KickGoes(s: Center, k: nat, phase: KickPhase): Center
    requires k < |s.kicks|
  {
    s.(kicks := s.kicks[k := s.kicks[k].(phase := phase)])
  }

  function ApplyKick(s: Center, k: nat, step: KickStep): Center
    requires k < |s.kicks| && KickEnabled(s, s.kicks[k], step)
  {
    match step
    case FindClient(id) => KickGoes(s, k, if id.Some? then Found(id.value) else Returned(false))
    case TakeToken =>
      var id := s.kicks[k].phase.clientId;
      if id in s.maps.active then
        var token := s.maps.active[id];
        Take(s, id, Kicker(k)).(kicks := s.kicks[k := s.kicks[k].(phase := Holding(token), got := Some(token))])
      else KickGoes(s, k, Returned(false))
    case CutToken => KickGoes(Cancel(s, s.kicks[k].phase.token), k, Returned(true))
  }

  /** The empty text stands for no machine. */
  function Departed(event: string): Option<string> {
    if event == "" then None else Some(event)
  }

  function Apply(s: Center, step: Step): Center
    requires Enabled(s, step)
  {
    match step
    case Accept(id, ip, reports) =>
      s.(conns := s.conns + [Conn(id, ip, reports, Spawned, false, false, [], None, None, false, id in s.latest)],
         latest := s.latest[id := |s.conns|])
    case InLoop(c, loop) => ApplyLoop(s, c, loop)
    case AfterLoop(c, leave) => ApplyLeave(s, c, leave)
    case ByEvictor(evict) => ApplyEvictor(s, evict)
    case KickCall(machineId) => s.(kicks := s.kicks + [Kick(machineId, Seeking, None)])
    case ByKick(k, kick) => ApplyKick(s, k, kick)
    case Stall(c, on) => With(s, c, s.conns[c].(stalled := on))
    case CancelServer => s.(serverCancelled := true)
    case Receive => s.(hand := Some(s.events[0]), events := s.events[1..], received := s.received + 1)
    case Consume => s.(players := Roster.Gone(s.players, Departed(s.hand.value)), hand := None)
    case AddHost(host) => s.(players := Roster.HostAdded(s.players, host), hosted := true)
    case Remove(machineId) => s.(players := Roster.Gone(s.players, Some(machineId)))
    case Tick(d) => s.(now := s.now + d)
  }

  ghost predicate RunsTo(s: Center, steps: seq<Step>, t: Center)
    decreases |steps|
  {
    if steps == [] then s == t
    else Enabled(s, steps[0]) && RunsTo(Apply(s, steps[0]), steps[1..], t)
  }
}
