/** The center's connection registry: four maps, each behind its own lock. */
module Registry {
  import opened Common

  /** Milliseconds. */
  const HEARTBEAT_INTERVAL: nat := 5000
  const HEARTBEAT_TIMEOUT: nat := 15000

  /** The four maps. A cancellation token is known by its connection's number. */
  datatype Maps =
    Maps(active: map<string, nat>, heartbeat: map<string, nat>, machine: map<string, string>, ip: map<string, string>)

  const EMPTY := Maps(map[], map[], map[], map[])

  predicate Expired(last: nat, now: nat) {
    now > last + HEARTBEAT_TIMEOUT
  }

  /** Whether a client's recorded heartbeat is too old. */
  predicate TimedOut(heartbeat: map<string, nat>, id: string, now: nat) {
    id in heartbeat && Expired(heartbeat[id], now)
  }

  /** One listing, in whatever order the map yields it, of the clients whose heartbeat is too old. */
  ghost predicate ListsTimedOut(heartbeat: map<string, nat>, now: nat, ids: seq<string>) {
    Distinct(ids) && forall id :: id in ids <==> TimedOut(heartbeat, id, now)
  }

  /** The shared registry. Each of the first methods is one lock section. */
  class ClientRegistry {
    var lastHeartbeat: map<string, nat>
    var activeClients: map<string, nat>
    var clientMachine: map<string, string>
    var clientIp: map<string, string>

    ghost function View(): Maps
      reads this
    {
      Maps(activeClients, lastHeartbeat, clientMachine, clientIp)
    }

    constructor ()
      ensures View() == EMPTY
    {
      lastHeartbeat, activeClients, clientMachine, clientIp := map[], map[], map[], map[];
    }

    method InsertActive(id: string, token: nat)
      modifies this
      ensures View() == old(View()).(active := old(View()).active[id := token])
    {
      activeClients := activeClients[id := token];
    }

    method InsertIp(id: string, ip: string)
      modifies this
      ensures View() == old(View()).(ip := old(View()).ip[id := ip])
    {
      clientIp := clientIp[id := ip];
    }

    method InsertHeartbeat(id: string, now: nat)
      modifies this
      ensures View() == old(View()).(heartbeat := old(View()).heartbeat[id := now])
    {
      lastHeartbeat := lastHeartbeat[id := now];
    }

    method InsertMachine(id: string, machineId: string)
      modifies this
      ensures View() == old(View()).(machine := old(View()).machine[id := machineId])
    {
      clientMachine := clientMachine[id := machineId];
    }

    method TakeActive(id: string) returns (token: Option<nat>)
      modifies this
      ensures token == Lookup(old(View()).active, id)
      ensures View() == old(View()).(active := Without(old(View()).active, id))
    {
      token := Lookup(activeClients, id);
      activeClients := Without(activeClients, id);
    }

    method RemoveHeartbeat(id: string)
      modifies this
      ensures View() == old(View()).(heartbeat := Without(old(View()).heartbeat, id))
    {
      lastHeartbeat := Without(lastHeartbeat, id);
    }

    method RemoveIp(id: string)
      modifies this
      ensures View() == old(View()).(ip := Without(old(View()).ip, id))
    {
      clientIp := Without(clientIp, id);
    }

    method TakeMachine(id: string) returns (machineId: Option<string>)
      modifies this
      ensures machineId == Lookup(old(View()).machine, id)
      ensures View() == old(View()).(machine := Without(old(View()).machine, id))
    {
      machineId := Lookup(clientMachine, id);
      clientMachine := Without(clientMachine, id);
    }

    /** Some client that reported this machine id; which one, when there are several, is up to the map. */
    method FindMachine(machineId: string) returns (id: Option<string>)
      ensures id.Some? <==> SomeReported(View(), machineId)
      ensures id.Some? ==> HasReported(View(), id.value, machineId)
    {
      if x :| x in clientMachine && clientMachine[x] == machineId {
        assert HasReported(View(), x, machineId);
        id := Some(x);
      } else {
        id := None;
      }
    }

    method MachineSourceIp(machineId: string) returns (ip: Option<string>)
      ensures ip.Some? ==> exists id :: HasReported(View(), id, machineId) && Lookup(View().ip, id) == ip
      ensures SomeReported(View(), machineId) ==>
                (forall id :: HasReported(View(), id, machineId) ==> id in View().ip) ==> ip.Some?
    {
      var id := FindMachine(machineId);
      ip := if id.None? then None else Lookup(clientIp, id.value);
    }

    /** Collects the timed-out clients. */
    method CollectTimedOut(now: nat) returns (ids: seq<string>)
      ensures ListsTimedOut(View().heartbeat, now, ids)
    {
      ids := [];
      var left := lastHeartbeat.Keys;
      while left != {}
        invariant left <= lastHeartbeat.Keys && Distinct(ids)
        invariant forall id :: id in ids <==> id !in left && TimedOut(lastHeartbeat, id, now)
        decreases left
      {
        var id :| id in left;
        left := left - {id};
        if Expired(lastHeartbeat[id], now) {
          ids := ids + [id];
        }
      }
    }

    /** A kick without interference: it finds a client of the machine, takes its token out of the active map and cancels
        it. False when no client of the machine is active; true when one reported it and all that did are. */
    method DisconnectMachine(machineId: string) returns (found: bool, cancelled: set<nat>)
      modifies this
      ensures found ==>
                exists id :: HasReported(old(View()), id, machineId) && Kicked(old(View()), View(), id, cancelled)
      ensures !found ==> View() == old(View()) && cancelled == {}
      ensures (forall id :: HasReported(old(View()), id, machineId) ==> id !in old(View()).active) ==> !found
      ensures SomeReported(old(View()), machineId) ==>
                (forall id :: HasReported(old(View()), id, machineId) ==> id in old(View()).active) ==> found
    {
      var id := FindMachine(machineId);
      if id.None? {
        return false, {};
      }
      var token := TakeActive(id.value);
      match token
      case Some(t) =>
        assert Kicked(old(View()), View(), id.value, {t});
        return true, {t};
      case None =>
        assert Without(old(View()).active, id.value) == old(View()).active;
        return false, {};
    }

    /** The two lock sections of the evictor for one client. */
    method Evict(id: string) returns (token: Option<nat>)
      modifies this
      ensures token == Lookup(old(View()).active, id)
      ensures View() == old(View()).(heartbeat := Without(old(View()).heartbeat, id),
                                     active := Without(old(View()).active, id))
    {
      RemoveHeartbeat(id);
      token := TakeActive(id);
    }

    /** One round of the heartbeat loop without interference: exactly the clients whose heartbeat is too old lose their
        heartbeat and their active entry, and exactly the tokens found there are cancelled. */
    method EvictTimedOut(now: nat) returns (cancelled: set<nat>)
      modifies this
      ensures View() == old(View()).(heartbeat := Fresh(old(View()).heartbeat, old(View()).heartbeat, now),
                                     active := Fresh(old(View()).active, old(View()).heartbeat, now))
      ensures cancelled == StaleTokens(old(View()), now)
    {
      ghost var before := View();
      var ids := CollectTimedOut(now);
      cancelled := {};
      for i := 0 to |ids|
        invariant View() == before.(heartbeat := WithoutAll(before.heartbeat, ids[..i]),
                                    active := WithoutAll(before.active, ids[..i]))
        invariant cancelled == ValuesAt(before.active, ids[..i])
      {
        EvictedOneMore(before, ids, i);
        var token := Evict(ids[i]);
        if token.Some? {
          cancelled := cancelled + {token.value};
        }
      }
      assert ids[..|ids|] == ids;
      OneListing(before, now, ids);
    }

    /// ## A connection without interference

    method Attach(id: string, token: nat, ip: string)
      modifies this
      ensures View() == old(View()).(active := old(View()).active[id := token], ip := old(View()).ip[id := ip])
    {
      InsertActive(id, token);
      InsertIp(id, ip);
    }

    method RecordPing(id: string, ping: AcceptedPing)
      modifies this
      ensures View() == Pinged(old(View()), id, ping)
      ensures lastHeartbeat == old(lastHeartbeat)[id := ping.at]
      ensures clientMachine ==
                if ping.machineId.Some? then old(clientMachine)[id := ping.machineId.value] else old(clientMachine)
    {
      InsertHeartbeat(id, ping.at);
      if ping.machineId.Some? {
        InsertMachine(id, ping.machineId.value);
      }
    }

    method Detach(id: string) returns (report: Option<string>)
      modifies this
      ensures report == Lookup(old(View()).machine, id)
      ensures View() == Forgotten(old(View()), id)
    {
      var _ := TakeActive(id);
      RemoveHeartbeat(id);
      RemoveIp(id);
      report := TakeMachine(id);
    }

    /** From its first insertion to its last removal a connection nobody interferes with leaves no trace, and it reports
        the machine of the last accepted ping that named one. */
    method ServeAlone(id: string, token: nat, ip: string, pings: seq<AcceptedPing>) returns (report: Option<string>)
      requires NoTrace(View(), id)
      modifies this
      ensures View() == old(View()) && report == LastReport(pings)
    {
      ghost var before := View();
      Attach(id, token, ip);
      ForgottenAttached(before, id, token, ip);
      for i := 0 to |pings|
        invariant Forgotten(View(), id) == before
        invariant Lookup(View().machine, id) == LastReport(pings[..i])
      {
        assert pings[..i + 1] == pings[..i] + [pings[i]];
        ForgottenPinged(View(), id, pings[i]);
        LastReportOfOneMore(pings[..i], pings[i]);
        RecordPing(id, pings[i]);
      }
      assert pings[..|pings|] == pings;
      report := Detach(id);
    }
  }

  /** The client has recorded this machine id. */
  predicate HasReported(m: Maps, id: string, machineId: string) {
    id in m.machine && m.machine[id] == machineId
  }

  ghost predicate SomeReported(m: Maps, machineId: string) {
    exists id :: HasReported(m, id, machineId)
  }

  /** The client's token, and it alone, has been taken out of the active map and cancelled. */
  ghost predicate Kicked(before: Maps, after: Maps, id: string, cancelled: set<nat>) {
    && id in before.active && cancelled == {before.active[id]}
    && after == before.(active := Without(before.active, id))
  }

  predicate NoTrace(m: Maps, id: string) {
    id !in m.active && id !in m.heartbeat && id !in m.machine && id !in m.ip
  }

  /** An accepted ping: when it was, and the machine id in its body, if any. */
  datatype AcceptedPing = AcceptedPing(at: nat, machineId: Option<string>)

  function Pinged(m: Maps, id: string, ping: AcceptedPing): Maps {
    m.(heartbeat := m.heartbeat[id := ping.at],
       machine := if ping.machineId.Some? then m.machine[id := ping.machineId.value] else m.machine)
  }

  function Forgotten(m: Maps, id: string): Maps {
    Maps(Without(m.active, id), Without(m.heartbeat, id), Without(m.machine, id), Without(m.ip, id))
  }

  function LastReport(pings: seq<AcceptedPing>): Option<string> {
    if pings == [] then None
    else if pings[|pings| - 1].machineId.Some? then pings[|pings| - 1].machineId
    else LastReport(pings[..|pings| - 1])
  }

  lemma LastReportOfOneMore(pings: seq<AcceptedPing>, ping: AcceptedPing)
    ensures LastReport(pings + [ping]) == if ping.machineId.Some? then ping.machineId else LastReport(pings)
  {
    assert (pings + [ping])[..|pings|] == pings;
  }

  lemma ForgottenAttached(m: Maps, id: string, token: nat, ip: string)
    requires NoTrace(m, id)
    ensures Forgotten(m.(active := m.active[id := token], ip := m.ip[id := ip]), id) == m
  {
    assert Without(m.active[id := token], id) == m.active && Without(m.ip[id := ip], id) == m.ip;
    assert Without(m.heartbeat, id) == m.heartbeat && Without(m.machine, id) == m.machine;
  }

  lemma ForgottenPinged(m: Maps, id: string, ping: AcceptedPing)
    ensures Forgotten(Pinged(m, id, ping), id) == Forgotten(m, id)
  {
    assert Without(m.heartbeat[id := ping.at], id) == Without(m.heartbeat, id);
    if ping.machineId.Some? {
      assert Without(m.machine[id := ping.machineId.value], id) == Without(m.machine, id);
    }
  }

  /** The entries of the clients whose heartbeat is not too old. */
  ghost function Fresh<V>(m: map<string, V>, heartbeat: map<string, nat>, now: nat): map<string, V> {
    map id | id in m && !TimedOut(heartbeat, id, now) :: m[id]
  }

  /** The tokens of the clients whose heartbeat is too old. */
  ghost function StaleTokens(m: Maps, now: nat): set<nat> {
    set id | id in m.active && TimedOut(m.heartbeat, id, now) :: m.active[id]
  }

  lemma OneListing(m: Maps, now: nat, ids: seq<string>)
    requires ListsTimedOut(m.heartbeat, now, ids)
    ensures WithoutAll(m.heartbeat, ids) == Fresh(m.heartbeat, m.heartbeat, now)
    ensures WithoutAll(m.active, ids) == Fresh(m.active, m.heartbeat, now)
    ensures ValuesAt(m.active, ids) == StaleTokens(m, now)
  {
  }

  lemma EvictedOneMore(m: Maps, ids: seq<string>, i: nat)
    requires i < |ids| && Distinct(ids)
    ensures WithoutAll(m.heartbeat, ids[..i + 1]) == Without(WithoutAll(m.heartbeat, ids[..i]), ids[i])
    ensures WithoutAll(m.active, ids[..i + 1]) == Without(WithoutAll(m.active, ids[..i]), ids[i])
    ensures Lookup(WithoutAll(m.active, ids[..i]), ids[i]) == Lookup(m.active, ids[i])
    ensures ValuesAt(m.active, ids[..i + 1]) ==
              ValuesAt(m.active, ids[..i]) + if ids[i] in m.active then {m.active[ids[i]]} else {}
  {
    assert ids[..i + 1] == ids[..i] + [ids[i]] && ids[i] !in ids[..i];
    WithoutOneMore(m.heartbeat, ids[..i], ids[i]);
    WithoutOneMore(m.active, ids[..i], ids[i]);
    ValuesAtOneMore(m.active, ids[..i], ids[i]);
  }

  function WithoutAll<V>(m: map<string, V>, ids: seq<string>): map<string, V> {
    map id | id in m && id !in ids :: m[id]
  }

  function ValuesAt(m: map<string, nat>, ids: seq<string>): set<nat> {
    set id | id in m && id in ids :: m[id]
  }

  lemma WithoutOneMore<V>(m: map<string, V>, ids: seq<string>, id: string)
    ensures WithoutAll(m, ids + [id]) == Without(WithoutAll(m, ids), id)
  {
  }

  lemma ValuesAtOneMore(m: map<string, nat>, ids: seq<string>, id: string)
    ensures ValuesAt(m, ids + [id]) == ValuesAt(m, ids) + if id in m then {m[id]} else {}
  {
    forall x | x in m && (x in ids || x == id) ensures m[x] in ValuesAt(m, ids + [id]) {
      assert x in ids + [id];
    }
  }
}
