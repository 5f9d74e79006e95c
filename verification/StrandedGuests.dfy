/** Whether the player list can keep a guest nobody will ever remove. */
module StrandedGuests {
  import opened Common
  import opened Players
  import opened CenterMachine
  import opened CenterFrames
  import opened CenterInvariant
  import opened CenterTheorems
  import Roster

  /** A ping body that reports a machine. */
  predicate Reports(root: Json, machineId: string) {
    machineId != "" && RecordedMachine(root) == Some(machineId)
  }

  /** A living connection that has reported the machine, or is just processing its report. */
  predicate Carries(conn: Conn, machineId: string) {
    && Live(conn) && conn.reports == machineId
    && (|| conn.recorded == Some(machineId) || (conn.phase.Answering? && conn.phase.req.Ping?)
        || conn.phase.Beating? || conn.phase.Recording?)
  }

  /** A disconnect event for the machine is in the channel or in the consumer's hand. */
  predicate Announced(s: Center, machineId: string) {
    machineId in s.events || s.hand == Some(machineId)
  }

  ghost predicate Backed(s: Center, machineId: string) {
    (exists c :: 0 <= c < |s.conns| && Carries(s.conns[c], machineId)) || Announced(s, machineId)
  }

  ghost predicate IsGuest(list: seq<PlayerInfo>, machineId: string) {
    Roster.Has(list, machineId, Guest)
  }

  /** A ping response that cannot be written. */
  predicate LosesResponse(s: Center, step: Step) {
    && step.InLoop? && step.loop.WriteFails? && step.c < |s.conns|
    && s.conns[step.c].phase.Answering? && s.conns[step.c].phase.req.Ping?
  }

  /** Nobody is stranded when the response to a connection's ping is lost: the connection has recorded its machine
      before, or another one carries the same machine, or a disconnect event for it is still to come, or it is not a
      guest's. */
  ghost predicate LossIsHarmless(s: Center, c: nat)
    requires c < |s.conns|
  {
    var m := s.conns[c].reports;
    || s.conns[c].recorded.Some?
    || (exists d :: 0 <= d < |s.conns| && d != c && Carries(s.conns[d], m))
    || Announced(s, m)
    || !IsGuest(s.players, m)
  }

  /** The assumptions: the standard ping behaviour, one non-empty machine id a connection, and no harmful loss of a ping
      response. */
  ghost predicate Faithful(s: Center, step: Step) {
    step.InLoop? && step.c < |s.conns| ==>
      var conn := s.conns[step.c];
      match step.loop
      case Read(req) => req.Ping? ==> Reports(req.root, conn.reports)
      case Handle(ok, players) =>
        conn.phase.Handling? && conn.phase.req.Ping? ==>
          ok && players == Roster.Pinged(s.players, ParsePlayerInfo(conn.phase.req.root))
      case WriteFails => LosesResponse(s, step) ==> LossIsHarmless(s, step.c)
      case _ => true
  }

  ghost predicate FaithfulRun(s: Center, steps: seq<Step>, t: Center)
    decreases |steps|
  {
    if steps == [] then s == t
    else Enabled(s, steps[0]) && Faithful(s, steps[0]) && FaithfulRun(Apply(s, steps[0]), steps[1..], t)
  }

  /** Connections carry no report but their own. */
  predicate OwnReport(conn: Conn) {
    && (conn.recorded.Some? ==> conn.recorded.value == conn.reports != "")
    && match conn.phase
       case Handling(req) => req.Ping? ==> Reports(req.root, conn.reports)
       case Answering(req, ok) => req.Ping? ==> ok && Reports(req.root, conn.reports)
       case Beating(root) => Reports(root, conn.reports)
       case Recording(machineId) => machineId == conn.reports != ""
       case _ => true
  }

  /** Every guest on the list is backed. */
  ghost predicate AllBacked(s: Center) {
    forall m :: IsGuest(s.players, m) ==> Backed(s, m)
  }

  ghost predicate NoneStranded(s: Center) {
    && Roster.WellFormed(s.players) && (!s.hosted ==> Roster.NoHost(s.players))
    && (forall c :: 0 <= c < |s.conns| ==> OwnReport(s.conns[c]))
    && AllBacked(s) && !IsGuest(s.players, "")
  }

  lemma PingedGuests(list: seq<PlayerInfo>, info: PlayerInfo, m: string)
    requires IsGuest(Roster.Pinged(list, info), m)
    ensures IsGuest(list, m) || m == info.machineId
  {
    var next := Roster.Pinged(list, info);
    var i :| 0 <= i < |next| && next[i].machineId == m && next[i].kind == Guest;
    if m != info.machineId {
      assert list[i] == next[i];
    }
  }

  lemma GoneGuests(list: seq<PlayerInfo>, machineId: Option<string>, m: string)
    requires Roster.WellFormed(list) && IsGuest(Roster.Gone(list, machineId), m)
    ensures IsGuest(list, m) && machineId != Some(m)
  {
    var next := Roster.Gone(list, machineId);
    var i :| 0 <= i < |next| && next[i].machineId == m && next[i].kind == Guest;
    assert next[i] in list;
    if machineId.Some? {
      Roster.GoneRemovesTheGuest(list, machineId.value);
    }
  }

  lemma OwnReportInLoop(s: Center, c: nat, step: LoopStep)
    requires c < |s.conns| && LoopEnabled(s, s.conns[c], step) && Faithful(s, InLoop(c, step)) && OwnReport(s.conns[c])
    ensures OwnReport(ApplyLoop(s, c, step).conns[c])
  {
    LoopFrame(s, c, step);
  }

  lemma OwnReportAfterLoop(s: Center, c: nat, step: LeaveStep)
    requires c < |s.conns| && LeaveEnabled(s.conns[c], step) && OwnReport(s.conns[c])
    ensures OwnReport(ApplyLeave(s, c, step).conns[c])
  {
    LeaveFrame(s, c, step);
  }

  lemma OwnReportStays(s: Center, step: Step, c: nat)
    requires Enabled(s, step) && Faithful(s, step) && c < |s.conns| && OwnReport(s.conns[c])
    ensures c < |Apply(s, step).conns| && OwnReport(Apply(s, step).conns[c])
  {
    if !Moves(step, c) {
      OtherUntouched(s, step, c);
    } else if step.InLoop? {
      OwnReportInLoop(s, c, step.loop);
    } else {
      OwnReportAfterLoop(s, c, step.leave);
    }
  }

  lemma OwnReportsStay(s: Center, step: Step)
    requires Enabled(s, step) && Faithful(s, step)
    requires forall c :: 0 <= c < |s.conns| ==> OwnReport(s.conns[c])
    ensures forall c :: 0 <= c < |Apply(s, step).conns| ==> OwnReport(Apply(s, step).conns[c])
  {
    ConnsGrow(s, step);
    forall c | 0 <= c < |Apply(s, step).conns| ensures OwnReport(Apply(s, step).conns[c]) {
      if c < |s.conns| {
        OwnReportStays(s, step, c);
      }
    }
  }

  /// ## Backing

  /** Only notifications add events, and only receiving takes one. */
  lemma EventsOnlyGrow(s: Center, step: Step)
    requires Enabled(s, step) && !step.Receive? && !step.Consume?
    ensures s.events <= Apply(s, step).events && Apply(s, step).hand == s.hand
  {
    match step
    case Accept(_, _, _) =>
    case InLoop(c, loop) => LoopFrame(s, c, loop);
    case AfterLoop(c, leave) => LeaveFrame(s, c, leave);
    case ByEvictor(evict) => EvictorFrame(s, evict);
    case ByKick(k, kick) => KickFrame(s, k, kick);
    case Stall(c, on) => StallFrame(s, c, on);
    case _ => AsideFrame(s, step);
  }

  lemma AnnouncementStays(s: Center, step: Step, m: string)
    requires Enabled(s, step) && Announced(s, m) && (step.Consume? ==> s.hand != Some(m))
    ensures Announced(Apply(s, step), m)
  {
    var t := Apply(s, step);
    if m in s.events {
      var i :| 0 <= i < |s.events| && s.events[i] == m;
      if step.Receive? {
        assert i > 0 ==> t.events[i - 1] == m;
      } else if step.Consume? {
        AsideFrame(s, step);
      } else {
        EventsOnlyGrow(s, step);
        assert t.events[i] == m;
      }
    } else if !step.Receive? {
      EventsOnlyGrow(s, step);
    }
  }

  lemma CarrierInLoop(s: Center, c: nat, step: LoopStep, m: string)
    requires c < |s.conns| && LoopEnabled(s, s.conns[c], step) && Faithful(s, InLoop(c, step))
    requires Carries(s.conns[c], m) && OwnReport(s.conns[c]) && !LosesResponse(s, InLoop(c, step))
    ensures |ApplyLoop(s, c, step).conns| == |s.conns| && Carries(ApplyLoop(s, c, step).conns[c], m)
  {
    LoopFrame(s, c, step);
  }

  lemma CarrierAfterLoop(s: Center, c: nat, step: LeaveStep, m: string)
    requires c < |s.conns| && LeaveEnabled(s.conns[c], step) && EntryOk(s, s.conns[c])
    requires Carries(s.conns[c], m)
    ensures Backed(ApplyLeave(s, c, step), m)
  {
    LeaveFrame(s, c, step);
    var t := ApplyLeave(s, c, step);
    if step.Notify? {
      assert t.events[|s.events|] == m;
    } else {
      assert Carries(t.conns[c], m);
    }
  }

  lemma CarrierUntouched(s: Center, step: Step, c: nat, m: string)
    requires Enabled(s, step) && c < |s.conns| && Carries(s.conns[c], m) && !Moves(step, c)
    ensures c < |Apply(s, step).conns| && Carries(Apply(s, step).conns[c], m)
  {
    OtherUntouched(s, step, c);
  }

  lemma CarrierStays(s: Center, step: Step, c: nat, m: string)
    requires Inv(s) && Enabled(s, step) && Faithful(s, step) && c < |s.conns|
    requires Carries(s.conns[c], m) && OwnReport(s.conns[c]) && !LosesResponse(s, step)
    ensures Backed(Apply(s, step), m)
  {
    if step.InLoop? && step.c == c {
      CarrierInLoop(s, c, step.loop, m);
    } else if step.AfterLoop? && step.c == c {
      CarrierAfterLoop(s, c, step.leave, m);
    } else {
      CarrierUntouched(s, step, c, m);
    }
  }

  /** What backs a machine once the response to a ping of connection `c` is lost. */
  lemma BackingAfterLoss(s: Center, c: nat, m: string)
    requires c < |s.conns| && Enabled(s, InLoop(c, WriteFails)) && LosesResponse(s, InLoop(c, WriteFails))
    requires OwnReport(s.conns[c])
    ensures Backed(Apply(s, InLoop(c, WriteFails)), m) <==>
              || s.conns[c].recorded == Some(m)
              || (exists d :: 0 <= d < |s.conns| && d != c && Carries(s.conns[d], m))
              || Announced(s, m)
  {
    var t := Apply(s, InLoop(c, WriteFails));
    LoopFrame(s, c, WriteFails);
    assert t.conns[c] == s.conns[c].(phase := Leaving);
    if s.conns[c].recorded == Some(m) {
      assert Carries(t.conns[c], m);
    }
    if d :| 0 <= d < |s.conns| && d != c && Carries(s.conns[d], m) {
      assert Carries(t.conns[d], m);
    }
  }

  lemma BackingStays(s: Center, step: Step, m: string)
    requires Inv(s) && Enabled(s, step) && Faithful(s, step) && IsGuest(s.players, m) && Backed(s, m)
    requires forall c :: 0 <= c < |s.conns| ==> OwnReport(s.conns[c])
    requires step.Consume? ==> s.hand != Some(m)
    ensures Backed(Apply(s, step), m)
  {
    if Announced(s, m) {
      AnnouncementStays(s, step, m);
    } else if LosesResponse(s, step) {
      assert OwnReport(s.conns[step.c]);
      BackingAfterLoss(s, step.c, m);
      var c :| 0 <= c < |s.conns| && Carries(s.conns[c], m);
      assert c == step.c ==> s.conns[c].reports == m;
    } else {
      var c :| 0 <= c < |s.conns| && Carries(s.conns[c], m);
      assert OwnReport(s.conns[c]);
      CarrierStays(s, step, c, m);
    }
  }

  /** The step handles a ping from the guest. */
  predicate HandlesPingOf(s: Center, step: Step, m: string) {
    && step.InLoop? && step.c < |s.conns| && step.loop.Handle?
    && var phase := s.conns[step.c].phase;
       phase.Handling? && phase.req.Ping? && ParsePlayerInfo(phase.req.root).machineId == m
  }

  /** Where a guest on the list comes from. */
  lemma GuestsHaveASource(s: Center, step: Step, m: string)
    requires NoneStranded(s) && Enabled(s, step) && Faithful(s, step) && IsGuest(Apply(s, step).players, m)
    ensures HandlesPingOf(s, step, m) || (IsGuest(s.players, m) && (step.Consume? ==> s.hand != Some(m)))
  {
    match step
    case InLoop(c, loop) =>
      LoopFrame(s, c, loop);
      if loop.Handle? && s.conns[c].phase.req.Ping? {
        PingedGuests(s.players, ParsePlayerInfo(s.conns[c].phase.req.root), m);
      }
    case AfterLoop(c, leave) => LeaveFrame(s, c, leave);
    case ByEvictor(evict) => EvictorFrame(s, evict);
    case ByKick(k, kick) => KickFrame(s, k, kick);
    case Consume => GoneGuests(s.players, Departed(s.hand.value), m);
    case Remove(machineId) => GoneGuests(s.players, Some(machineId), m);
    case AddHost(host) =>
      var next := Apply(s, step).players;
      var i :| 0 <= i < |next| && next[i].machineId == m && next[i].kind == Guest;
      assert s.players[i] == next[i];
    case _ =>
  }

  lemma HandledPingIsCarried(s: Center, step: Step, m: string)
    requires Enabled(s, step) && Faithful(s, step) && HandlesPingOf(s, step, m) && OwnReport(s.conns[step.c])
    ensures m != "" && Backed(Apply(s, step), m)
  {
    RosterAndRegistryAgree(s.conns[step.c].phase.req.root);
    assert Carries(Apply(s, step).conns[step.c], m);
  }

  lemma GuestsStayBacked(s: Center, step: Step, m: string)
    requires Inv(s) && NoneStranded(s) && Enabled(s, step) && Faithful(s, step) && IsGuest(Apply(s, step).players, m)
    ensures m != "" && Backed(Apply(s, step), m)
  {
    GuestsHaveASource(s, step, m);
    if HandlesPingOf(s, step, m) {
      HandledPingIsCarried(s, step, m);
    } else {
      BackingStays(s, step, m);
    }
  }

  lemma RosterStaysWellFormed(s: Center, step: Step)
    requires NoneStranded(s) && Enabled(s, step) && Faithful(s, step)
    ensures
      var t := Apply(s, step);
      Roster.WellFormed(t.players) && (!t.hosted ==> Roster.NoHost(t.players))
  {
    match step
    case InLoop(c, loop) =>
      LoopFrame(s, c, loop);
      if loop.Handle? && s.conns[c].phase.req.Ping? {
        Roster.OpKeepsWellFormed(s.players, Roster.Ping(ParsePlayerInfo(s.conns[c].phase.req.root)));
      }
    case AfterLoop(c, leave) => LeaveFrame(s, c, leave);
    case ByEvictor(evict) => EvictorFrame(s, evict);
    case ByKick(k, kick) => KickFrame(s, k, kick);
    case Consume => Roster.OpKeepsWellFormed(s.players, Roster.Leave(Departed(s.hand.value)));
    case Remove(machineId) => Roster.OpKeepsWellFormed(s.players, Roster.Leave(Some(machineId)));
    case AddHost(host) => Roster.OpKeepsWellFormed(s.players, Roster.Start(host));
    case _ =>
  }

  lemma StepKeepsNoneStranded(s: Center, step: Step)
    requires Inv(s) && NoneStranded(s) && Enabled(s, step) && Faithful(s, step)
    ensures NoneStranded(Apply(s, step))
  {
    RosterStaysWellFormed(s, step);
    OwnReportsStay(s, step);
    forall m | IsGuest(Apply(s, step).players, m) ensures m != "" && Backed(Apply(s, step), m) {
      GuestsStayBacked(s, step, m);
    }
  }

  lemma {:induction false} FaithfulRunKeeps(s: Center, steps: seq<Step>, t: Center)
    requires Inv(s) && NoneStranded(s) && FaithfulRun(s, steps, t)
    ensures Inv(t) && NoneStranded(t)
    decreases |steps|
  {
    if steps == [] {
    } else {
      StepKeepsInv(s, steps[0]);
      StepKeepsNoneStranded(s, steps[0]);
      FaithfulRunKeeps(Apply(s, steps[0]), steps[1..], t);
    }
  }

  /** No stranded guest: with the standard ping behaviour, one fixed non-empty machine id a connection and no harmful
      loss of a ping response, in every reachable state each guest in the player list has a living connection that has
      reported its id or is just processing it, or a disconnect event for it that is not consumed yet. */
  lemma NoStrandedGuest(steps: seq<Step>, s: Center, p: PlayerInfo)
    requires FaithfulRun(START, steps, s) && p in s.players && p.kind == Guest
    ensures Backed(s, p.machineId)
  {
    StartIsOk();
    FaithfulRunKeeps(START, steps, s);
    var i :| 0 <= i < |s.players| && s.players[i] == p;
    assert IsGuest(s.players, p.machineId);
  }

  /** The exact condition: when the response to a ping cannot be written, every guest stays backed if and only if the
      loss is harmless. */
  lemma LostResponseStrandsExactly(steps: seq<Step>, s: Center, c: nat)
    requires FaithfulRun(START, steps, s) && c < |s.conns| && Enabled(s, InLoop(c, WriteFails))
    requires s.conns[c].phase.req.Ping?
    ensures AllBacked(Apply(s, InLoop(c, WriteFails))) <==> LossIsHarmless(s, c)
  {
    StartIsOk();
    FaithfulRunKeeps(START, steps, s);
    assert OwnReport(s.conns[c]);
    if LossIsHarmless(s, c) {
      StepKeepsNoneStranded(s, InLoop(c, WriteFails));
    } else {
      LoopFrame(s, c, WriteFails);
      BackingAfterLoss(s, c, s.conns[c].reports);
    }
  }

  /// ## Who changes the list

  /** Nothing but a handled ping, a consumed event, a removal or the host's start changes the list. */
  lemma ListStays(s: Center, step: Step)
    requires Enabled(s, step) && !(step.InLoop? && step.loop.Handle?)
    requires !step.Consume? && !step.Remove? && !step.AddHost?
    ensures Apply(s, step).players == s.players
  {
    match step
    case Accept(_, _, _) =>
    case InLoop(c, loop) => LoopFrame(s, c, loop);
    case AfterLoop(c, leave) => LeaveFrame(s, c, leave);
    case ByEvictor(evict) => EvictorFrame(s, evict);
    case ByKick(k, kick) => KickFrame(s, k, kick);
    case Stall(c, on) => StallFrame(s, c, on);
    case _ =>
  }

  lemma WellFormedInRuns(steps: seq<Step>, s: Center)
    requires FaithfulRun(START, steps, s)
    ensures Roster.WellFormed(s.players)
  {
    StartIsOk();
    FaithfulRunKeeps(START, steps, s);
  }

  /** What the others do to it: a consumed event takes the guest of the machine it names off the list, if it names one,
      a removal the guest of the machine, and everybody else stays in place; the host is appended, as the host. */
  lemma ListChanges(steps: seq<Step>, s: Center, step: Step)
    requires FaithfulRun(START, steps, s) && Enabled(s, step)
    ensures step.Consume? ==>
              Apply(s, step).players ==
              if s.hand == Some("") then s.players else Roster.WithoutGuest(s.players, s.hand.value)
    ensures step.Remove? ==> Apply(s, step).players == Roster.WithoutGuest(s.players, step.machineId)
    ensures step.AddHost? ==> Apply(s, step).players == s.players + [step.host.(kind := Host)]
  {
    WellFormedInRuns(steps, s);
    match step
    case Consume =>
      if s.hand != Some("") {
        Roster.GoneRemovesTheGuest(s.players, s.hand.value);
      }
    case Remove(machineId) => Roster.GoneRemovesTheGuest(s.players, machineId);
    case _ =>
  }

  /// ## Guests nobody removes

  /** The step neither removes the machine by name nor consumes an event for it, and its ping, if any, has the standard
      effect. */
  predicate Spares(s: Center, step: Step, machineId: string) {
    match step
    case Remove(m) => m != machineId
    case Consume => s.hand.Some? ==> Departed(s.hand.value) != Some(machineId)
    case InLoop(c, Handle(_, players)) =>
      c < |s.conns| && s.conns[c].phase.Handling? && s.conns[c].phase.req.Ping? ==>
        players == Roster.Pinged(s.players, ParsePlayerInfo(s.conns[c].phase.req.root))
    case _ => true
  }

  ghost predicate SparingRun(s: Center, steps: seq<Step>, t: Center, machineId: string)
    decreases |steps|
  {
    if steps == [] then s == t
    else
      && Enabled(s, steps[0]) && Spares(s, steps[0], machineId)
      && SparingRun(Apply(s, steps[0]), steps[1..], t, machineId)
  }

  lemma SparedStep(s: Center, step: Step, m: string)
    requires Enabled(s, step) && Spares(s, step, m) && IsGuest(s.players, m)
    ensures IsGuest(Apply(s, step).players, m)
  {
    match step
    case Accept(_, _, _) =>
    case InLoop(c, loop) =>
      LoopFrame(s, c, loop);
      if loop.Handle? && s.conns[c].phase.req.Ping? {
        Roster.PingKeepsEntry(s.players, ParsePlayerInfo(s.conns[c].phase.req.root), m, Guest);
      }
    case AfterLoop(c, leave) => LeaveFrame(s, c, leave);
    case ByEvictor(evict) => EvictorFrame(s, evict);
    case ByKick(k, kick) => KickFrame(s, k, kick);
    case Stall(c, on) => StallFrame(s, c, on);
    case Consume => Roster.LeaveKeepsEntry(s.players, Departed(s.hand.value), m, Guest);
    case Remove(machineId) => Roster.LeaveKeepsEntry(s.players, Some(machineId), m, Guest);
    case AddHost(host) => Roster.StartKeepsEntry(s.players, host, m, Guest);
    case _ =>
  }

  lemma {:induction false} SparedGuestStays(s: Center, steps: seq<Step>, t: Center, m: string)
    requires SparingRun(s, steps, t, m) && IsGuest(s.players, m)
    ensures IsGuest(t.players, m)
    decreases |steps|
  {
    if steps == [] {
    } else {
      SparedStep(s, steps[0], m);
      SparedGuestStays(Apply(s, steps[0]), steps[1..], t, m);
    }
  }

  /** Steps of the standard center that do not remove the empty machine id by name. */
  predicate Standard(s: Center, step: Step) {
    match step
    case Remove(m) => m != ""
    case InLoop(_, _) => Spares(s, step, "")
    case _ => true
  }

  ghost predicate StandardRun(s: Center, steps: seq<Step>, t: Center)
    decreases |steps|
  {
    if steps == [] then s == t
    else Enabled(s, steps[0]) && Standard(s, steps[0]) && StandardRun(Apply(s, steps[0]), steps[1..], t)
  }

  /** A guest without a machine id is on the list for good: whatever connects, pings and disconnects, no disconnect
      event removes it. */
  lemma {:induction false} NamelessGuestStaysForGood(s: Center, steps: seq<Step>, t: Center)
    requires StandardRun(s, steps, t) && IsGuest(s.players, "")
    ensures IsGuest(t.players, "")
    decreases |steps|
  {
    if steps == [] {
    } else {
      SparedStep(s, steps[0], "");
      NamelessGuestStaysForGood(Apply(s, steps[0]), steps[1..], t);
    }
  }
}
