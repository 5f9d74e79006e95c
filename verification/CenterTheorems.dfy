/** Results on every run of the center: token ownership, disconnect events, work after cancellation. */
module CenterTheorems {
  import opened Common
  import opened Registry
  import opened CenterMachine
  import opened CenterInvariant

  lemma StartIsOk()
    ensures Inv(START)
  {
  }

  /** Removal from the active map decides who owns a token. Under any interleaving at most one of the evictor, the kicks
      and the connection's own cleanup ever takes it, exactly one once the cleanup has passed; only the winner among the
      first two cancels it; and a connection that serves but is not in the map has a cancelled token, or an actor that
      took it and is about to cancel it. */
  lemma TokenOwnership(steps: seq<Step>, s: Center, c: nat)
    requires RunsTo(START, steps, s) && c < |s.conns|
    ensures |s.conns[c].takenBy| <= 1
    ensures Rank(s.conns[c].phase) >= 4 ==> |s.conns[c].takenBy| == 1
    ensures s.conns[c].cancelled ==> |s.conns[c].takenBy| == 1 && !s.conns[c].takenBy[0].Task?
    ensures 1 <= Rank(s.conns[c].phase) <= 3 && s.conns[c].clientId !in s.maps.active ==>
              |s.conns[c].takenBy| == 1 && (s.conns[c].cancelled || Holds(s, s.conns[c].takenBy[0], c))
  {
    StartIsOk();
    RunKeepsInv(START, steps, s);
    assert TokenOk(s, c);
  }

  /** `disconnect_machine` returns true exactly when it won a token, and then that token is cancelled. */
  lemma KickReturnsWhetherItWon(steps: seq<Step>, s: Center, k: nat)
    requires RunsTo(START, steps, s) && k < |s.kicks| && s.kicks[k].phase.Returned?
    ensures s.kicks[k].phase.found <==> exists c :: 0 <= c < |s.conns| && Kicker(k) in s.conns[c].takenBy
    ensures forall c :: 0 <= c < |s.conns| && Kicker(k) in s.conns[c].takenBy ==> s.conns[c].cancelled
    ensures forall c, d ::
              (&& 0 <= c < |s.conns| && Kicker(k) in s.conns[c].takenBy
               && 0 <= d < |s.conns| && Kicker(k) in s.conns[d].takenBy) ==> c == d
  {
    StartIsOk();
    RunKeepsInv(START, steps, s);
    assert KickOk(s, k);
    forall c | 0 <= c < |s.conns| && Kicker(k) in s.conns[c].takenBy
      ensures s.kicks[k].got == Some(c) && s.conns[c].cancelled
    {
      assert TokenOk(s, c);
    }
    if s.kicks[k].got.Some? {
      assert s.conns[s.kicks[k].got.value].takenBy[0] == Kicker(k);
    }
  }

  /** No living connection has this client id. */
  ghost predicate Unused(s: Center, id: string) {
    forall c :: 0 <= c < |s.conns| && Live(s.conns[c]) ==> s.conns[c].clientId != id
  }

  lemma NothingLeft(s: Center, id: string)
    requires Inv(s) && Unused(s, id)
    ensures NoTrace(s.maps, id)
  {
    NoEntriesYet(s, id);
    if id in s.maps.active {
      ActiveIsOwn(s, id);
      assert false;
    }
  }

  /** Every connection sends exactly one disconnect event, when it ends, carrying the last machine id it recorded or the
      empty text; the consumer gets them in order and loses none; and a client id of which no connection lives is in
      none of the four maps. */
  lemma OneDisconnectEventEach(steps: seq<Step>, s: Center)
    requires RunsTo(START, steps, s)
    ensures Distinct(s.sent)
    ensures forall c: nat :: c in s.sent <==> c < |s.conns| && s.conns[c].phase.Ended?
    ensures s.received + |s.events| == |s.sent|
    ensures forall i :: 0 <= i < |s.sent| ==> s.sent[i] < |s.conns|
    ensures forall i :: 0 <= i < |s.events| ==> s.events[i] == Event(s.conns[s.sent[s.received + i]])
    ensures s.hand.Some? ==> s.received > 0 && s.hand.value == Event(s.conns[s.sent[s.received - 1]])
    ensures forall id :: Unused(s, id) ==> NoTrace(s.maps, id)
  {
    StartIsOk();
    RunKeepsInv(START, steps, s);
    forall id | Unused(s, id) ensures NoTrace(s.maps, id) {
      NothingLeft(s, id);
    }
  }

  /** What the registry says about a connection is that connection's: the machine id it last recorded, its source
      address, the time of its last accepted ping, its token. */
  predicate Described(m: Maps, conn: Conn, c: nat) {
    && Lookup(m.machine, conn.clientId) == conn.recorded
    && Lookup(m.ip, conn.clientId) == Some(conn.ip)
    && (conn.clientId in m.heartbeat ==> conn.lastBeat == Some(m.heartbeat[conn.clientId]))
    && (conn.clientId in m.active ==> m.active[conn.clientId] == c)
  }

  lemma ServingIsDescribed(s: Center, c: nat)
    requires IdsOk(s) && TokensOk(s) && EntriesOk(s) && c < |s.conns| && 2 <= Rank(s.conns[c].phase) <= 3
    ensures Described(s.maps, s.conns[c], c)
  {
    assert EntryOk(s, s.conns[c]);
  }

  /** The registry describes every serving connection, whatever else is going on. */
  lemma RegistryDescribesServingConnections(steps: seq<Step>, s: Center, c: nat)
    requires RunsTo(START, steps, s) && c < |s.conns| && 2 <= Rank(s.conns[c].phase) <= 3
    ensures Described(s.maps, s.conns[c], c)
  {
    StartIsOk();
    RunKeepsInv(START, steps, s);
    ServingIsDescribed(s, c);
  }

  /// ## Work after cancellation

  /** The server's token or the connection's own is cancelled. */
  predicate Stopping(s: Center, c: nat) {
    s.serverCancelled || (c < |s.conns| && s.conns[c].cancelled)
  }

  /** Responses a stopping connection can still write: one if it is past both checks of its turn, else none. */
  function WritesLeft(s: Center, c: nat): nat
    requires c < |s.conns|
  {
    match s.conns[c].phase
    case PollingConn => if s.conns[c].cancelled then 0 else 1
    case Waiting => 1
    case Handling(_) => 1
    case Answering(_, _) => 1
    case _ => 0
  }

  function WritesBy(step: Step, c: nat): nat {
    if step.InLoop? && step.c == c && step.loop.Write? then 1 else 0
  }

  function Writes(steps: seq<Step>, c: nat): nat {
    if steps == [] then 0 else WritesBy(steps[0], c) + Writes(steps[1..], c)
  }

  lemma StoppingStep(s: Center, step: Step, c: nat)
    requires c < |s.conns| && Stopping(s, c) && Enabled(s, step)
    ensures |Apply(s, step).conns| >= |s.conns| && Stopping(Apply(s, step), c)
    ensures WritesBy(step, c) + WritesLeft(Apply(s, step), c) <= WritesLeft(s, c)
  {
    match step
    case ByEvictor(evict) => EvictorOnlyStops(s, evict, c);
    case ByKick(k, kick) => KickOnlyStops(s, k, kick, c);
    case InLoop(d, loop) => LoopUsesWrites(s, d, loop, c);
    case AfterLoop(d, leave) => LeavingWritesNothing(s, d, leave, c);
    case _ =>
  }

  lemma LoopUsesWrites(s: Center, d: nat, step: LoopStep, c: nat)
    requires c < |s.conns| && Stopping(s, c) && d < |s.conns| && LoopEnabled(s, s.conns[d], step)
    ensures
      var t := ApplyLoop(s, d, step);
      && |t.conns| == |s.conns| && Stopping(t, c)
      && WritesBy(InLoop(d, step), c) + WritesLeft(t, c) <= WritesLeft(s, c)
  {
    if d != c {
      assert ApplyLoop(s, d, step).conns[c] == s.conns[c];
    }
  }

  lemma LeavingWritesNothing(s: Center, d: nat, step: LeaveStep, c: nat)
    requires c < |s.conns| && Stopping(s, c) && d < |s.conns| && LeaveEnabled(s.conns[d], step)
    ensures
      var t := ApplyLeave(s, d, step);
      && |t.conns| == |s.conns| && Stopping(t, c) && WritesLeft(t, c) <= WritesLeft(s, c)
  {
  }

  lemma EvictorOnlyStops(s: Center, step: EvictorStep, c: nat)
    requires c < |s.conns| && EvictorEnabled(s, step)
    ensures
      var t := ApplyEvictor(s, step);
      && |t.conns| == |s.conns| && t.conns[c].phase == s.conns[c].phase
      && (s.conns[c].cancelled ==> t.conns[c].cancelled)
      && t.serverCancelled == s.serverCancelled
  {
  }

  lemma KickOnlyStops(s: Center, k: nat, step: KickStep, c: nat)
    requires c < |s.conns| && k < |s.kicks| && KickEnabled(s, s.kicks[k], step)
    ensures
      var t := ApplyKick(s, k, step);
      && |t.conns| == |s.conns| && t.conns[c].phase == s.conns[c].phase
      && (s.conns[c].cancelled ==> t.conns[c].cancelled)
      && t.serverCancelled == s.serverCancelled
  {
  }

  lemma {:induction false} StoppingRun(s: Center, steps: seq<Step>, t: Center, c: nat)
    requires c < |s.conns| && Stopping(s, c) && RunsTo(s, steps, t)
    ensures Writes(steps, c) <= WritesLeft(s, c)
    decreases |steps|
  {
    if steps == [] {
    } else {
      StoppingStep(s, steps[0], c);
      StoppingRun(Apply(s, steps[0]), steps[1..], t, c);
    }
  }

  /** Bounded work: however a run goes on once the server's token or the connection's own is cancelled, the connection
      writes at most one more response; none if it is not past the two checks of its turn. */
  lemma BoundedWorkAfterCancellation(s: Center, steps: seq<Step>, t: Center, c: nat)
    requires c < |s.conns| && Stopping(s, c) && RunsTo(s, steps, t)
    ensures Writes(steps, c) <= 1
    ensures s.conns[c].phase.PollingServer? || Rank(s.conns[c].phase) != 2 ==> Writes(steps, c) == 0
  {
    StoppingRun(s, steps, t, c);
  }
}
