/** What a run of the center has done so far, read off its steps, against what the center's state says. */
module CenterTraces {
  import opened Common
  import opened Players
  import opened CenterMachine
  import opened CenterFrames
  import opened CenterInvariant
  import opened CenterTheorems

  /// ## Reading a run

  /** What a connection task has done in its loop. */
  function OwnTrace(steps: seq<Step>, c: nat): seq<LoopStep> {
    if steps == [] then [] else
      var n := |steps| - 1;
      OwnTrace(steps[..n], c) + if steps[n].InLoop? && steps[n].c == c then [steps[n].loop] else []
  }

  /** The time that has passed. */
  function Elapsed(steps: seq<Step>): nat {
    if steps == [] then 0 else
      var n := |steps| - 1;
      Elapsed(steps[..n]) + if steps[n].Tick? then steps[n].d else 0
  }

  /** When a connection last recorded a heartbeat. */
  function LastBeatTime(steps: seq<Step>, c: nat): Option<nat> {
    if steps == [] then None else
      var n := |steps| - 1;
      if steps[n] == InLoop(c, Beat) then Some(Elapsed(steps[..n])) else LastBeatTime(steps[..n], c)
  }

  /** Just before position `i` of its trace a connection has read a ping, had it accepted and written the response. */
  predicate AnsweredPing(trace: seq<LoopStep>, i: nat) {
    && 3 <= i <= |trace|
    && trace[i - 3].Read? && trace[i - 3].req.Ping? && trace[i - 2].Handle? && trace[i - 2].ok && trace[i - 1] == Write
  }

  /** The machine id in the ping answered before position `i`. */
  function AnsweredMachine(trace: seq<LoopStep>, i: nat): Option<string> {
    if AnsweredPing(trace, i) then RecordedMachine(trace[i - 3].req.root) else None
  }

  /** Just before position `i` it has recorded the heartbeat of an accepted ping that names a machine. */
  predicate BeatenPing(trace: seq<LoopStep>, i: nat) {
    4 <= i <= |trace| && trace[i - 1] == Beat && AnsweredMachine(trace, i - 1).Some?
  }

  /** A heartbeat is recorded after an accepted and answered ping and only then, and a machine id after that if the ping
      named one and only then. */
  ghost predicate PingsAreRecorded(trace: seq<LoopStep>) {
    forall i :: 0 <= i < |trace| ==> RecordedAt(trace, i)
  }

  predicate RecordedAt(trace: seq<LoopStep>, i: nat)
    requires i < |trace|
  {
    (trace[i] == Beat <==> AnsweredPing(trace, i)) && (trace[i] == Record <==> BeatenPing(trace, i))
  }

  /** At position `i` the machine id has been recorded that was in the ping read four steps before. */
  predicate RecordsAt(trace: seq<LoopStep>, i: nat, machineId: string) {
    4 <= i < |trace| && trace[i] == Record && AnsweredMachine(trace, i - 1) == Some(machineId)
  }

  ghost predicate HasRecorded(trace: seq<LoopStep>, machineId: string) {
    exists i :: RecordsAt(trace, i, machineId)
  }

  /** The machine id recorded last. */
  function LastRecorded(trace: seq<LoopStep>): Option<string> {
    if trace == [] then None else
      var n := |trace| - 1;
      if trace[n] == Record && n >= 1 then AnsweredMachine(trace, n - 1) else LastRecorded(trace[..n])
  }

  lemma OneMoreStepRead(steps: seq<Step>, step: Step, c: nat)
    ensures
      var all := steps + [step];
      && OwnTrace(all, c) == OwnTrace(steps, c) + (if step.InLoop? && step.c == c then [step.loop] else [])
      && Elapsed(all) == Elapsed(steps) + (if step.Tick? then step.d else 0)
      && LastBeatTime(all, c) == if step == InLoop(c, Beat) then Some(Elapsed(steps)) else LastBeatTime(steps, c)
  {
    assert (steps + [step])[..|steps|] == steps;
  }

  /// ## The traces and the state

  /** The phase is where the trace has led. */
  predicate PhaseFits(trace: seq<LoopStep>, phase: Phase) {
    var n := |trace|;
    && (phase.Beating? <==> AnsweredPing(trace, n)) && (phase.Recording? <==> BeatenPing(trace, n))
    && match phase
       case Handling(req) => n >= 1 && trace[n - 1] == Read(req)
       case Answering(req, ok) => n >= 2 && trace[n - 2] == Read(req) && trace[n - 1].Handle? && trace[n - 1].ok == ok
       case Beating(root) => trace[n - 3] == Read(Ping(root))
       case Recording(machineId) => AnsweredMachine(trace, n - 1) == Some(machineId)
       case _ => true
  }

  /** A connection stands where its trace has led it, and its history is the trace's. */
  ghost predicate StandsAt(trace: seq<LoopStep>, conn: Conn) {
    PingsAreRecorded(trace) && PhaseFits(trace, conn.phase) && conn.recorded == LastRecorded(trace)
  }

  ghost predicate Told(past: seq<Step>, s: Center) {
    && s.now == Elapsed(past)
    && (forall c :: 0 <= c < |s.conns| ==>
          StandsAt(OwnTrace(past, c), s.conns[c]) && s.conns[c].lastBeat == LastBeatTime(past, c))
    && (forall c: nat :: |s.conns| <= c ==> OwnTrace(past, c) == [] && LastBeatTime(past, c) == None)
  }

  lemma SamePast(trace: seq<LoopStep>, step: LoopStep, i: nat)
    requires i <= |trace|
    ensures AnsweredPing(trace + [step], i) == AnsweredPing(trace, i)
    ensures AnsweredMachine(trace + [step], i) == AnsweredMachine(trace, i)
    ensures BeatenPing(trace + [step], i) == BeatenPing(trace, i)
  {
  }

  lemma StillRecordedAt(trace: seq<LoopStep>, step: LoopStep, i: nat)
    requires i < |trace| && RecordedAt(trace, i)
    ensures RecordedAt(trace + [step], i)
  {
    SamePast(trace, step, i);
  }

  lemma LastRecordedOfOneMore(trace: seq<LoopStep>, step: LoopStep)
    ensures LastRecorded(trace + [step]) ==
              if step == Record && trace != [] then AnsweredMachine(trace, |trace| - 1) else LastRecorded(trace)
  {
    assert (trace + [step])[..|trace|] == trace;
    if trace != [] {
      SamePast(trace, step, |trace| - 1);
    }
  }

  lemma TraceGrows(trace: seq<LoopStep>, step: LoopStep)
    requires PingsAreRecorded(trace)
    requires step == Beat <==> AnsweredPing(trace, |trace|)
    requires step == Record <==> BeatenPing(trace, |trace|)
    ensures PingsAreRecorded(trace + [step])
  {
    SamePast(trace, step, |trace|);
    assert RecordedAt(trace + [step], |trace|);
    forall i | 0 <= i < |trace| ensures RecordedAt(trace + [step], i) {
      StillRecordedAt(trace, step, i);
    }
  }

  /** What the end of a longer trace shows. */
  lemma TraceEnds(trace: seq<LoopStep>, step: LoopStep)
    ensures
      var longer, n := trace + [step], |trace|;
      && longer[n] == step && longer[..n] == trace
      && (AnsweredPing(longer, n + 1) <==>
            && n >= 2 && step == Write
            && trace[n - 2].Read? && trace[n - 2].req.Ping? && trace[n - 1].Handle? && trace[n - 1].ok)
      && (BeatenPing(longer, n + 1) <==> n >= 3 && step == Beat && AnsweredMachine(trace, n).Some?)
      && AnsweredMachine(longer, n) == AnsweredMachine(trace, n)
  {
    SamePast(trace, step, |trace|);
  }

  /** What a step of its loop does to the part of a connection that its trace explains. */
  predicate Goes(a: Conn, step: LoopStep, b: Conn) {
    && (step == Beat <==> a.phase.Beating?) && (step == Record <==> a.phase.Recording?)
    && b.recorded == (if step == Record then Some(a.phase.machineId) else a.recorded)
    && (step == Write ==> a.phase.Answering?)
    && match b.phase
       case Handling(req) => step == Read(req)
       case Answering(req, ok) => a.phase == Handling(req) && step.Handle? && step.ok == ok
       case Beating(root) => step == Write && a.phase == Answering(Ping(root), true)
       case Recording(m) => step == Beat && RecordedMachine(a.phase.root) == Some(m)
       case _ =>
         && (step == Write ==> a.phase.req.Other? || !a.phase.ok)
         && (step == Beat ==> RecordedMachine(a.phase.root) == None)
  }

  lemma LoopGoes(s: Center, c: nat, step: LoopStep)
    requires c < |s.conns| && LoopEnabled(s, s.conns[c], step)
    ensures Goes(s.conns[c], step, ApplyLoop(s, c, step).conns[c])
  {
    match step
    case List =>
    case ListIp =>
    case PollServer =>
    case PollConn =>
    case Wake =>
    case Read(_) =>
    case ReadFails =>
    case Handle(_, _) =>
    case Write =>
    case WriteFails =>
    case Beat =>
    case Record =>
  }

  lemma PhaseGoes(trace: seq<LoopStep>, a: Conn, step: LoopStep, b: Conn)
    requires PhaseFits(trace, a.phase) && Goes(a, step, b)
    ensures PhaseFits(trace + [step], b.phase)
  {
    TraceEnds(trace, step);
  }

  lemma GoesAlong(trace: seq<LoopStep>, a: Conn, step: LoopStep, b: Conn)
    requires StandsAt(trace, a) && Goes(a, step, b)
    ensures StandsAt(trace + [step], b)
  {
    TraceGrows(trace, step);
    LastRecordedOfOneMore(trace, step);
    PhaseGoes(trace, a, step, b);
  }

  lemma LoopStandsAt(s: Center, c: nat, step: LoopStep, trace: seq<LoopStep>)
    requires c < |s.conns| && LoopEnabled(s, s.conns[c], step) && StandsAt(trace, s.conns[c])
    ensures StandsAt(trace + [step], ApplyLoop(s, c, step).conns[c])
  {
    LoopGoes(s, c, step);
    GoesAlong(trace, s.conns[c], step, ApplyLoop(s, c, step).conns[c]);
  }

  lemma LeaveStandsAt(s: Center, c: nat, step: LeaveStep, trace: seq<LoopStep>)
    requires c < |s.conns| && LeaveEnabled(s.conns[c], step) && StandsAt(trace, s.conns[c])
    ensures StandsAt(trace, ApplyLeave(s, c, step).conns[c])
  {
    LeaveFrame(s, c, step);
    MaybeTakenIsUntouched(s.conns[c].(phase := ApplyLeave(s, c, step).conns[c].phase), ApplyLeave(s, c, step).conns[c],
                          Task(c));
  }

  lemma ClockFrame(s: Center, step: Step)
    requires Enabled(s, step)
    ensures Apply(s, step).now == s.now + if step.Tick? then step.d else 0
  {
    match step
    case Accept(_, _, _) =>
    case InLoop(c, loop) => LoopFrame(s, c, loop);
    case AfterLoop(c, leave) => LeaveFrame(s, c, leave);
    case ByEvictor(evict) => EvictorFrame(s, evict);
    case ByKick(k, kick) => KickFrame(s, k, kick);
    case Stall(c, on) => StallFrame(s, c, on);
    case _ => AsideFrame(s, step);
  }

  lemma OwnStepTold(past: seq<Step>, s: Center, step: Step, c: nat)
    requires Told(past, s) && Enabled(s, step) && c < |s.conns| && Moves(step, c)
    ensures |Apply(s, step).conns| == |s.conns|
    ensures StandsAt(OwnTrace(past + [step], c), Apply(s, step).conns[c])
    ensures Apply(s, step).conns[c].lastBeat == LastBeatTime(past + [step], c)
  {
    OneMoreStepRead(past, step, c);
    if step.InLoop? {
      LoopStandsAt(s, c, step.loop, OwnTrace(past, c));
      LoopFrame(s, c, step.loop);
    } else {
      LeaveStandsAt(s, c, step.leave, OwnTrace(past, c));
      LeaveFrame(s, c, step.leave);
      assert OwnTrace(past, c) + [] == OwnTrace(past, c);
    }
  }

  lemma StepTold(past: seq<Step>, s: Center, step: Step)
    requires Told(past, s) && Enabled(s, step)
    ensures Told(past + [step], Apply(s, step))
  {
    var all, t := past + [step], Apply(s, step);
    ClockFrame(s, step);
    ConnsGrow(s, step);
    OneMoreStepRead(past, step, 0);
    forall c: nat
      ensures c < |t.conns| ==> StandsAt(OwnTrace(all, c), t.conns[c])
      ensures c < |t.conns| ==> t.conns[c].lastBeat == LastBeatTime(all, c)
      ensures |t.conns| <= c ==> OwnTrace(all, c) == [] && LastBeatTime(all, c) == None
    {
      OneMoreStepRead(past, step, c);
      if c < |s.conns| && Moves(step, c) {
        OwnStepTold(past, s, step, c);
      } else if c < |s.conns| {
        OtherUntouched(s, step, c);
        assert OwnTrace(past, c) + [] == OwnTrace(past, c);
      }
    }
  }

  lemma {:induction false} RunTold(past: seq<Step>, s: Center, steps: seq<Step>, t: Center)
    requires Told(past, s) && RunsTo(s, steps, t)
    ensures Told(past + steps, t)
    decreases |steps|
  {
    if steps == [] {
      assert past + steps == past;
    } else {
      StepTold(past, s, steps[0]);
      RunTold(past + [steps[0]], Apply(s, steps[0]), steps[1..], t);
      assert past + [steps[0]] + steps[1..] == past + steps;
    }
  }

  lemma StartTold()
    ensures Told([], START)
  {
  }

  /// ## Pings and what is recorded of them

  /** Every run, every connection: a heartbeat is recorded after a ping that was read, accepted and answered and only
      then, a machine id after that if the ping names one and only then; the time of the last accepted ping is the time
      of the last such step, and the recorded machine the last one recorded. */
  lemma AcceptedPingsAreRecorded(steps: seq<Step>, s: Center, c: nat)
    requires RunsTo(START, steps, s) && c < |s.conns|
    ensures PingsAreRecorded(OwnTrace(steps, c))
    ensures s.now == Elapsed(steps) && s.conns[c].lastBeat == LastBeatTime(steps, c)
    ensures s.conns[c].recorded == LastRecorded(OwnTrace(steps, c))
  {
    StartTold();
    RunTold([], START, steps, s);
    assert [] + steps == steps;
  }

  lemma {:induction false} TracedStep(steps: seq<Step>, c: nat, i: nat)
    requires i < |OwnTrace(steps, c)|
    ensures InLoop(c, OwnTrace(steps, c)[i]) in steps
  {
    if steps == [] {
      assert false;
    } else {
      var n := |steps| - 1;
      assert steps == steps[..n] + [steps[n]];
      if i < |OwnTrace(steps[..n], c)| {
        TracedStep(steps[..n], c, i);
      }
    }
  }

  lemma {:induction false} BeatenAt(steps: seq<Step>, c: nat) returns (i: nat)
    requires LastBeatTime(steps, c).Some?
    ensures i < |OwnTrace(steps, c)| && OwnTrace(steps, c)[i] == Beat
  {
    if steps == [] {
      assert false;
    } else {
      var n := |steps| - 1;
      if steps[n] == InLoop(c, Beat) {
        i := |OwnTrace(steps[..n], c)|;
      } else {
        i := BeatenAt(steps[..n], c);
      }
    }
  }

  lemma AnsweredWhenBeaten(steps: seq<Step>, c: nat) returns (i: nat)
    requires PingsAreRecorded(OwnTrace(steps, c)) && LastBeatTime(steps, c).Some?
    ensures i <= |OwnTrace(steps, c)| && AnsweredPing(OwnTrace(steps, c), i)
  {
    i := BeatenAt(steps, c);
    assert RecordedAt(OwnTrace(steps, c), i);
  }

  lemma {:induction false} LastRecordedAt(trace: seq<LoopStep>) returns (i: nat)
    requires PingsAreRecorded(trace) && LastRecorded(trace).Some?
    ensures RecordsAt(trace, i, LastRecorded(trace).value)
  {
    var n := |trace| - 1;
    if trace[n] == Record && n >= 1 {
      i := n;
    } else {
      assert trace == trace[..n] + [trace[n]];
      forall k | 0 <= k < n ensures RecordedAt(trace[..n], k) {
        assert RecordedAt(trace, k);
        SamePast(trace[..n], trace[n], k);
      }
      i := LastRecordedAt(trace[..n]);
    }
  }

  lemma NothingAnswered(steps: seq<Step>, c: nat)
    requires forall players :: InLoop(c, Handle(true, players)) !in steps
    ensures forall i :: 0 <= i <= |OwnTrace(steps, c)| ==> !AnsweredPing(OwnTrace(steps, c), i)
  {
    var trace := OwnTrace(steps, c);
    forall i | 0 <= i <= |trace| ensures !AnsweredPing(trace, i) {
      if AnsweredPing(trace, i) {
        assert trace[i - 2] == Handle(true, trace[i - 2].players);
        TracedStep(steps, c, i - 2);
      }
    }
  }

  lemma NothingRecorded(steps: seq<Step>, c: nat)
    requires PingsAreRecorded(OwnTrace(steps, c))
    requires forall i :: 0 <= i <= |OwnTrace(steps, c)| ==> !AnsweredPing(OwnTrace(steps, c), i)
    ensures LastBeatTime(steps, c) == None && LastRecorded(OwnTrace(steps, c)) == None
  {
    var trace := OwnTrace(steps, c);
    if LastBeatTime(steps, c).Some? {
      var _ := AnsweredWhenBeaten(steps, c);
    }
    if LastRecorded(trace).Some? {
      var _ := LastRecordedAt(trace);
    }
  }

  /** A connection of which no ping was ever accepted has no heartbeat and no machine on record, and while it lives its
      client id is in neither map: rejected pings keep nothing alive. */
  lemma RejectedPingsLeaveNothing(steps: seq<Step>, s: Center, c: nat)
    requires RunsTo(START, steps, s) && c < |s.conns|
    requires forall players :: InLoop(c, Handle(true, players)) !in steps
    ensures s.conns[c].lastBeat.None? && s.conns[c].recorded.None?
    ensures Live(s.conns[c]) ==> s.conns[c].clientId !in s.maps.heartbeat && s.conns[c].clientId !in s.maps.machine
  {
    AcceptedPingsAreRecorded(steps, s, c);
    NothingAnswered(steps, c);
    NothingRecorded(steps, c);
    StartIsOk();
    RunKeepsInv(START, steps, s);
    if Live(s.conns[c]) {
      OwnEntries(s, c);
    }
  }

  /// ## Why a connection leaves

  /** The last thing it did in its loop was a failed read or write, or a look at a token, and then its token or the
      server's is cancelled. */
  predicate HasReason(trace: seq<LoopStep>, s: Center, c: nat) {
    && trace != []
    && match trace[|trace| - 1]
       case ReadFails => true
       case WriteFails => true
       case PollServer => Stopping(s, c)
       case PollConn => Stopping(s, c)
       case Wake => Stopping(s, c)
       case _ => false
  }

  ghost predicate ReasonsOk(past: seq<Step>, s: Center) {
    forall c: nat :: c < |s.conns| ==> (Rank(s.conns[c].phase) >= 3 ==> HasReason(OwnTrace(past, c), s, c))
  }

  /** Which steps of its loop end it. */
  lemma LoopEnds(s: Center, c: nat, step: LoopStep)
    requires c < |s.conns| && LoopEnabled(s, s.conns[c], step)
    ensures |ApplyLoop(s, c, step).conns| == |s.conns|
    ensures Rank(ApplyLoop(s, c, step).conns[c].phase) >= 3 ==>
              && (step.PollServer? || step.PollConn? || step.Wake? ==> Stopping(s, c))
              && (step.PollServer? || step.PollConn? || step.Wake? || step.ReadFails? || step.WriteFails?)
  {
    match step
    case List =>
    case ListIp =>
    case PollServer =>
    case PollConn =>
    case Wake =>
    case Read(_) =>
    case ReadFails =>
    case Handle(_, _) =>
    case Write =>
    case WriteFails =>
    case Beat =>
    case Record =>
  }

  lemma LeavingHasLeft(s: Center, c: nat, step: LeaveStep)
    requires c < |s.conns| && LeaveEnabled(s.conns[c], step)
    ensures Rank(s.conns[c].phase) >= 3
  {
  }

  lemma ReasonStays(past: seq<Step>, s: Center, step: Step, c: nat)
    requires Enabled(s, step) && c < |s.conns| && c < |Apply(s, step).conns|
    requires Rank(s.conns[c].phase) >= 3 ==> HasReason(OwnTrace(past, c), s, c)
    requires Rank(Apply(s, step).conns[c].phase) >= 3
    ensures HasReason(OwnTrace(past + [step], c), Apply(s, step), c)
  {
    OneMoreStepRead(past, step, c);
    if Stopping(s, c) {
      StoppingStep(s, step, c);
    }
    if !Moves(step, c) {
      OtherUntouched(s, step, c);
      assert OwnTrace(past, c) + [] == OwnTrace(past, c);
    } else if step.InLoop? {
      LoopEnds(s, c, step.loop);
    } else {
      LeavingHasLeft(s, c, step.leave);
      assert OwnTrace(past, c) + [] == OwnTrace(past, c);
    }
  }

  lemma StepKeepsReasons(past: seq<Step>, s: Center, step: Step)
    requires ReasonsOk(past, s) && Enabled(s, step)
    ensures ReasonsOk(past + [step], Apply(s, step))
  {
    ConnsGrow(s, step);
    forall c: nat | c < |Apply(s, step).conns| && Rank(Apply(s, step).conns[c].phase) >= 3
      ensures HasReason(OwnTrace(past + [step], c), Apply(s, step), c)
    {
      if c < |s.conns| {
        ReasonStays(past, s, step, c);
      }
    }
  }

  lemma {:induction false} RunKeepsReasons(past: seq<Step>, s: Center, steps: seq<Step>, t: Center)
    requires ReasonsOk(past, s) && RunsTo(s, steps, t)
    ensures ReasonsOk(past + steps, t)
    decreases |steps|
  {
    if steps == [] {
      assert past + steps == past;
    } else {
      StepKeepsReasons(past, s, steps[0]);
      RunKeepsReasons(past + [steps[0]], Apply(s, steps[0]), steps[1..], t);
      assert past + [steps[0]] + steps[1..] == past + steps;
    }
  }

  /** In every run a connection that has left its loop left it after a failed read or a failed write, or because its
      token or the server's was cancelled. */
  lemma ConnectionsLeaveForAReason(steps: seq<Step>, s: Center, c: nat)
    requires RunsTo(START, steps, s) && c < |s.conns| && Rank(s.conns[c].phase) >= 3
    ensures HasReason(OwnTrace(steps, c), s, c)
  {
    RunKeepsReasons([], START, steps, s);
    assert [] + steps == steps;
  }
}
