/** The center's player list under pings, disconnects and the host's own entry. */
module Roster {
  import opened Common
  import opened Players

  /// ## The operations on values

  /** First position of a machine id. */
  function IndexOf(list: seq<PlayerInfo>, machineId: string): (r: Option<nat>)
    ensures r.Some? ==> r.value < |list| && list[r.value].machineId == machineId
    ensures r.Some? ==> forall i :: 0 <= i < r.value ==> list[i].machineId != machineId
    ensures r.None? ==> forall i :: 0 <= i < |list| ==> list[i].machineId != machineId
  {
    if list == [] then None
    else if list[0].machineId == machineId then Some(0)
    else
      match IndexOf(list[1..], machineId)
      case None => None
      case Some(i) => Some(i + 1)
  }

  /** An entry after a ping about it: a missing EasyTier id does not erase a known one, the kind stays. */
  function Updated(entry: PlayerInfo, info: PlayerInfo): PlayerInfo {
    entry.(name := info.name, vendor := info.vendor,
           easytierId := if info.easytierId.Some? then info.easytierId else entry.easytierId)
  }

  function Pinged(list: seq<PlayerInfo>, info: PlayerInfo): seq<PlayerInfo> {
    match IndexOf(list, info.machineId)
    case Some(i) => list[i := Updated(list[i], info)]
    case None => list + [info.(kind := Guest)]
  }

  function Gone(list: seq<PlayerInfo>, machineId: Option<string>): seq<PlayerInfo> {
    if machineId.None? then list else
      match IndexOf(list, machineId.value)
      case Some(i) => if list[i].kind != Host then list[..i] + list[i + 1..] else list
      case None => list
  }

  function HostAdded(list: seq<PlayerInfo>, host: PlayerInfo): seq<PlayerInfo> {
    list + [host.(kind := Host)]
  }

  /// ## The shared list

  /** The player list and the last snapshot sent to subscribers. */
  class PlayerList {
    var list: seq<PlayerInfo>
    var published: seq<PlayerInfo>

    constructor ()
      ensures list == [] && published == []
    {
      list, published := [], [];
    }

    method Position(machineId: string) returns (r: Option<nat>)
      ensures r == IndexOf(list, machineId)
    {
      for i := 0 to |list|
        invariant forall j :: 0 <= j < i ==> list[j].machineId != machineId
      {
        if list[i].machineId == machineId {
          return Some(i);
        }
      }
      r := None;
    }

    method NotifyPlayersChanged()
      modifies this`published
      ensures published == list
    {
      published := list;
    }

    method OnPlayerPing(info: PlayerInfo)
      modifies this
      ensures list == Pinged(old(list), info) && published == list
    {
      var position := Position(info.machineId);
      match position {
        case Some(i) =>
          var existing := list[i];
          existing := existing.(name := info.name);
          if info.easytierId.Some? {
            existing := existing.(easytierId := info.easytierId);
          }
          existing := existing.(vendor := info.vendor);
          list := list[i := existing];
        case None =>
          list := list + [info.(kind := Guest)];
      }
      NotifyPlayersChanged();
    }

    method OnClientDisconnected(machineId: Option<string>)
      modifies this
      ensures list == Gone(old(list), machineId) && published == list
    {
      if machineId.Some? {
        var position := Position(machineId.value);
        if position.Some? {
          var i := position.value;
          if list[i].kind != Host {
            list := list[..i] + list[i + 1..];
          }
        }
      }
      NotifyPlayersChanged();
    }

    method AddHost(name: string, machineId: string, easytierId: Option<string>, vendor: string)
      modifies this
      ensures list == old(list) + [PlayerInfo(name, machineId, easytierId, vendor, Host)] && published == list
      ensures list == HostAdded(old(list), PlayerInfo(name, machineId, easytierId, vendor, Host))
    {
      list := list + [PlayerInfo(name, machineId, easytierId, vendor, Host)];
      NotifyPlayersChanged();
    }
  }

  /// ## What every run keeps

  datatype Op = Ping(info: PlayerInfo) | Leave(machineId: Option<string>) | Start(host: PlayerInfo)

  function Apply(list: seq<PlayerInfo>, op: Op): seq<PlayerInfo> {
    match op
    case Ping(info) => Pinged(list, info)
    case Leave(machineId) => Gone(list, machineId)
    case Start(host) => HostAdded(list, host)
  }

  function ApplyAll(list: seq<PlayerInfo>, ops: seq<Op>): seq<PlayerInfo>
    decreases |ops|
  {
    if ops == [] then list else ApplyAll(Apply(list, ops[0]), ops[1..])
  }

  ghost predicate NoStart(ops: seq<Op>) {
    forall op :: op in ops ==> !op.Start?
  }

  /** At most one start in the run. */
  ghost predicate OneStart(ops: seq<Op>) {
    forall i, j :: 0 <= i < j < |ops| ==> !(ops[i].Start? && ops[j].Start?)
  }

  /** Guests have distinct machine ids, there is at most one host, and a guest that shares the host's
      machine id stands before it. */
  ghost predicate WellFormed(list: seq<PlayerInfo>) {
    && (forall i, j :: 0 <= i < j < |list| && list[i].kind == list[j].kind ==>
          list[i].kind == Guest && list[i].machineId != list[j].machineId)
    && (forall i, j ::
          (0 <= i < |list| && 0 <= j < |list| && list[i].kind == Guest && list[j].kind == Host
           && list[i].machineId == list[j].machineId) ==> i < j)
  }

  ghost predicate NoHost(list: seq<PlayerInfo>) {
    forall i :: 0 <= i < |list| ==> list[i].kind == Guest
  }

  /** There is an entry of this kind for this machine. */
  ghost predicate Has(list: seq<PlayerInfo>, machineId: string, kind: Kind) {
    exists i :: 0 <= i < |list| && list[i].machineId == machineId && list[i].kind == kind
  }

  /** Every entry of this kind for this machine (there is one at most) knows an EasyTier id. */
  ghost predicate Knows(list: seq<PlayerInfo>, machineId: string, kind: Kind) {
    forall i :: 0 <= i < |list| && list[i].machineId == machineId && list[i].kind == kind ==> list[i].easytierId.Some?
  }

  lemma PingKeepsWellFormed(list: seq<PlayerInfo>, info: PlayerInfo)
    requires WellFormed(list)
    ensures WellFormed(Pinged(list, info)) && (NoHost(list) ==> NoHost(Pinged(list, info)))
  {
  }

  lemma LeaveKeepsWellFormed(list: seq<PlayerInfo>, machineId: Option<string>)
    requires WellFormed(list)
    ensures WellFormed(Gone(list, machineId)) && (NoHost(list) ==> NoHost(Gone(list, machineId)))
  {
    var next := Gone(list, machineId);
    if next != list {
      var k := IndexOf(list, machineId.value).value;
      assert forall i :: 0 <= i < |next| ==> next[i] == list[if i < k then i else i + 1];
    }
  }

  lemma OpKeepsWellFormed(list: seq<PlayerInfo>, op: Op)
    requires WellFormed(list) && (op.Start? ==> NoHost(list))
    ensures WellFormed(Apply(list, op))
    ensures NoHost(list) && !op.Start? ==> NoHost(Apply(list, op))
  {
    match op
    case Ping(info) => PingKeepsWellFormed(list, info);
    case Leave(machineId) => LeaveKeepsWellFormed(list, machineId);
    case Start(_) =>
  }

  /** A host entry survives every operation with its machine id and kind. */
  lemma OpKeepsHost(list: seq<PlayerInfo>, op: Op, machineId: string)
    requires WellFormed(list) && !op.Start? && Has(list, machineId, Host)
    ensures Has(Apply(list, op), machineId, Host)
  {
    var next := Apply(list, op);
    var i :| 0 <= i < |list| && list[i].machineId == machineId && list[i].kind == Host;
    if next != list && op.Leave? && IndexOf(list, op.machineId.value).value < i {
      assert next[i - 1] == list[i];
    } else {
      assert next[i].machineId == machineId && next[i].kind == Host;
    }
  }

  /** An entry that knows its EasyTier id still knows it if it is still there. */
  lemma OpKeepsEasytierId(list: seq<PlayerInfo>, op: Op, machineId: string, kind: Kind)
    requires WellFormed(list) && !op.Start? && Has(list, machineId, kind) && Knows(list, machineId, kind)
    ensures Knows(Apply(list, op), machineId, kind)
  {
  }

  lemma {:induction false} RunKeepsWellFormed(list: seq<PlayerInfo>, ops: seq<Op>)
    requires WellFormed(list) && OneStart(ops) && (NoStart(ops) || NoHost(list))
    ensures WellFormed(ApplyAll(list, ops))
    decreases |ops|
  {
    if ops == [] {
    } else {
      OpKeepsWellFormed(list, ops[0]);
      var rest := ops[1..];
      assert forall i :: 0 <= i < |rest| ==> rest[i] == ops[i + 1];
      if ops[0].Start? {
        assert NoStart(rest);
      }
      RunKeepsWellFormed(Apply(list, ops[0]), rest);
    }
  }

  /** The roster invariant: after any sequence of pings, disconnects and removals with at most one start, guests
      have pairwise distinct machine ids and there is at most one host. */
  lemma RosterInvariant(ops: seq<Op>)
    requires OneStart(ops)
    ensures WellFormed(ApplyAll([], ops))
  {
    RunKeepsWellFormed([], ops);
  }

  /** The host entry, once there, is never removed or given another kind. */
  lemma {:induction false} HostStays(list: seq<PlayerInfo>, ops: seq<Op>, machineId: string)
    requires WellFormed(list) && Has(list, machineId, Host) && NoStart(ops)
    ensures Has(ApplyAll(list, ops), machineId, Host)
    decreases |ops|
  {
    if ops == [] {
    } else {
      OpKeepsWellFormed(list, ops[0]);
      OpKeepsHost(list, ops[0], machineId);
      HostStays(Apply(list, ops[0]), ops[1..], machineId);
    }
  }

  /** The entry is there before the run and after each of its operations. */
  ghost predicate StaysThrough(list: seq<PlayerInfo>, ops: seq<Op>, machineId: string, kind: Kind)
    decreases |ops|
  {
    Has(list, machineId, kind) && (ops == [] || StaysThrough(Apply(list, ops[0]), ops[1..], machineId, kind))
  }

  /** An entry's EasyTier id never goes from present to absent while the entry stays. */
  lemma {:induction false} EasytierIdStays(list: seq<PlayerInfo>, ops: seq<Op>, machineId: string, kind: Kind)
    requires WellFormed(list) && NoStart(ops)
    requires StaysThrough(list, ops, machineId, kind) && Knows(list, machineId, kind)
    ensures Knows(ApplyAll(list, ops), machineId, kind)
    decreases |ops|
  {
    if ops == [] {
    } else {
      OpKeepsWellFormed(list, ops[0]);
      OpKeepsEasytierId(list, ops[0], machineId, kind);
      EasytierIdStays(Apply(list, ops[0]), ops[1..], machineId, kind);
    }
  }

  /// ## What one operation does

  /** The list without the guest of a machine. */
  function WithoutGuest(list: seq<PlayerInfo>, machineId: string): seq<PlayerInfo> {
    if list == [] then []
    else if list[0].kind == Guest && list[0].machineId == machineId then WithoutGuest(list[1..], machineId)
    else [list[0]] + WithoutGuest(list[1..], machineId)
  }

  /** The list without the entries of a machine. */
  function Others(list: seq<PlayerInfo>, machineId: string): seq<PlayerInfo> {
    if list == [] then []
    else if list[0].machineId == machineId then Others(list[1..], machineId)
    else [list[0]] + Others(list[1..], machineId)
  }

  lemma {:induction false} NothingToRemove(list: seq<PlayerInfo>, machineId: string)
    requires forall i :: 0 <= i < |list| ==> list[i].kind == Host || list[i].machineId != machineId
    ensures WithoutGuest(list, machineId) == list
  {
    if list == [] {
    } else {
      NothingToRemove(list[1..], machineId);
    }
  }

  lemma {:induction false} WithoutGuestSplits(a: seq<PlayerInfo>, b: seq<PlayerInfo>, machineId: string)
    ensures WithoutGuest(a + b, machineId) == WithoutGuest(a, machineId) + WithoutGuest(b, machineId)
  {
    if a == [] {
      assert a + b == b;
    } else {
      var both, tail, kept := a + b, WithoutGuest(a[1..], machineId), WithoutGuest(b, machineId);
      assert both[0] == a[0] && both[1..] == a[1..] + b;
      WithoutGuestSplits(a[1..], b, machineId);
      assert WithoutGuest(both[1..], machineId) == tail + kept;
      assert [a[0]] + (tail + kept) == [a[0]] + tail + kept;
    }
  }

  lemma WithoutGuestAt(before: seq<PlayerInfo>, guest: PlayerInfo, after: seq<PlayerInfo>)
    requires guest.kind == Guest
    requires forall i :: 0 <= i < |before| ==> before[i].kind == Host || before[i].machineId != guest.machineId
    requires forall i :: 0 <= i < |after| ==> after[i].kind == Host || after[i].machineId != guest.machineId
    ensures WithoutGuest(before + ([guest] + after), guest.machineId) == before + after
  {
    WithoutGuestSplits(before, [guest] + after, guest.machineId);
    assert ([guest] + after)[1..] == after;
    NothingToRemove(before, guest.machineId);
    NothingToRemove(after, guest.machineId);
  }

  /** A disconnect removes exactly the guest of that machine: everyone else, the host included, stays in place. */
  lemma GoneRemovesTheGuest(list: seq<PlayerInfo>, machineId: string)
    requires WellFormed(list)
    ensures Gone(list, Some(machineId)) == WithoutGuest(list, machineId)
    ensures !Has(Gone(list, Some(machineId)), machineId, Guest)
  {
    var position := IndexOf(list, machineId);
    if position.None? || list[position.value].kind == Host {
      NothingToRemove(list, machineId);
    } else {
      var i := position.value;
      assert list == list[..i] + ([list[i]] + list[i + 1..]);
      WithoutGuestAt(list[..i], list[i], list[i + 1..]);
    }
  }

  lemma {:induction false} OthersOfUpdate(list: seq<PlayerInfo>, i: nat, entry: PlayerInfo)
    requires i < |list| && entry.machineId == list[i].machineId
    ensures Others(list[i := entry], entry.machineId) == Others(list, entry.machineId)
  {
    if i == 0 {
      assert list[0 := entry][1..] == list[1..];
    } else {
      OthersOfUpdate(list[1..], i - 1, entry);
      assert list[i := entry][1..] == list[1..][i - 1 := entry];
    }
  }

  lemma {:induction false} OthersOfAppend(list: seq<PlayerInfo>, entry: PlayerInfo)
    ensures Others(list + [entry], entry.machineId) == Others(list, entry.machineId)
  {
    if list == [] {
      assert (list + [entry])[1..] == [];
    } else {
      OthersOfAppend(list[1..], entry);
      assert (list + [entry])[1..] == list[1..] + [entry];
    }
  }

  /** A ping leaves every other machine's entries as and where they were. */
  lemma PingTouchesOneMachine(list: seq<PlayerInfo>, info: PlayerInfo)
    ensures Others(Pinged(list, info), info.machineId) == Others(list, info.machineId)
  {
    match IndexOf(list, info.machineId)
    case Some(i) => OthersOfUpdate(list, i, Updated(list[i], info));
    case None => OthersOfAppend(list, info.(kind := Guest));
  }

  /** A ping about a machine that is not on the list appends its player as a guest. */
  lemma NewcomerIsAppended(list: seq<PlayerInfo>, info: PlayerInfo)
    requires forall i :: 0 <= i < |list| ==> list[i].machineId != info.machineId
    ensures Pinged(list, info) ==
              list + [PlayerInfo(info.name, info.machineId, info.easytierId, info.vendor, Guest)]
  {
  }

  /** A ping about a machine on the list changes its first entry, and it alone, in place: the name and the vendor become
      the ping's, so does the EasyTier id if the ping gave one and else it stays as it was, and so does the kind. */
  lemma PingIsRecorded(list: seq<PlayerInfo>, info: PlayerInfo, i: nat)
    requires i < |list| && list[i].machineId == info.machineId
    requires forall j :: 0 <= j < i ==> list[j].machineId != info.machineId
    ensures |Pinged(list, info)| == |list|
    ensures forall j :: 0 <= j < |list| && j != i ==> Pinged(list, info)[j] == list[j]
    ensures
      var entry := Pinged(list, info)[i];
      && entry.machineId == info.machineId && entry.name == info.name && entry.vendor == info.vendor
      && entry.kind == list[i].kind
      && (info.easytierId.Some? ==> entry.easytierId == info.easytierId)
      && (info.easytierId.None? ==> entry.easytierId == list[i].easytierId)
  {
    assert IndexOf(list, info.machineId) == Some(i);
  }

  /// ## What a run has made of an entry

  /** The last ping of a machine. */
  function LastPing(ops: seq<Op>, machineId: string): Option<PlayerInfo> {
    if ops == [] then None else
      var last := ops[|ops| - 1];
      if last.Ping? && last.info.machineId == machineId then Some(last.info)
      else LastPing(ops[..|ops| - 1], machineId)
  }

  /** The EasyTier id in the last ping of a machine that gave one. */
  function LastGivenId(ops: seq<Op>, machineId: string): Option<string> {
    if ops == [] then None else
      var last := ops[|ops| - 1];
      if last.Ping? && last.info.machineId == machineId && last.info.easytierId.Some? then last.info.easytierId
      else LastGivenId(ops[..|ops| - 1], machineId)
  }

  /** What an entry is after a run: its machine and kind stay; name and vendor are those of the machine's last ping; the
      EasyTier id is that of the last ping that gave one; and what no ping gave is as it was. */
  ghost predicate Tells(entry: PlayerInfo, before: PlayerInfo, ops: seq<Op>) {
    var last, id := LastPing(ops, before.machineId), LastGivenId(ops, before.machineId);
    && entry.machineId == before.machineId && entry.kind == before.kind
    && entry.name == (if last.Some? then last.value.name else before.name)
    && entry.vendor == (if last.Some? then last.value.vendor else before.vendor)
    && entry.easytierId == (if id.Some? then id else before.easytierId)
  }

  /** The first entry of a machine. */
  ghost predicate IsFirst(list: seq<PlayerInfo>, i: nat, entry: PlayerInfo) {
    && i < |list| && list[i] == entry
    && forall j :: 0 <= j < i ==> list[j].machineId != entry.machineId
  }

  /** Nobody takes the entry off the list; the host's nobody can. */
  ghost predicate NobodyRemoves(ops: seq<Op>, entry: PlayerInfo) {
    entry.kind == Guest ==> Leave(Some(entry.machineId)) !in ops
  }

  lemma OpTells(list: seq<PlayerInfo>, op: Op, i: nat, entry: PlayerInfo) returns (j: nat, next: PlayerInfo)
    requires IsFirst(list, i, entry) && (entry.kind == Guest ==> op != Leave(Some(entry.machineId)))
    ensures IsFirst(Apply(list, op), j, next) && Tells(next, entry, [op])
  {
    var after := Apply(list, op);
    assert LastPing([], entry.machineId) == None && LastGivenId([], entry.machineId) == None;
    assert [op][..0] == [];
    match op
    case Ping(info) =>
      if info.machineId == entry.machineId {
        PingIsRecorded(list, info, i);
      }
      j, next := i, after[i];
    case Leave(machineId) =>
      j := if after != list && IndexOf(list, machineId.value).value < i then i - 1 else i;
      next := entry;
    case Start(_) => j, next := i, entry;
  }

  lemma TellsOneMore(ops: seq<Op>, op: Op, before: PlayerInfo, entry: PlayerInfo, next: PlayerInfo)
    requires Tells(entry, before, ops) && Tells(next, entry, [op])
    ensures Tells(next, before, ops + [op])
  {
    var all := ops + [op];
    assert all[..|all| - 1] == ops && all[|all| - 1] == op && [op][..0] == [];
    assert LastPing([], entry.machineId) == None && LastGivenId([], entry.machineId) == None;
  }

  lemma {:induction false} ApplyAllOneMore(list: seq<PlayerInfo>, ops: seq<Op>, op: Op)
    ensures ApplyAll(list, ops + [op]) == Apply(ApplyAll(list, ops), op)
    decreases |ops|
  {
    if ops == [] {
      assert ([] + [op])[1..] == [];
      assert ApplyAll(Apply(list, op), []) == Apply(list, op);
    } else {
      ApplyAllOneMore(Apply(list, ops[0]), ops[1..], op);
      assert (ops + [op])[1..] == ops[1..] + [op];
    }
  }

  /** Over a whole run of pings, disconnects, removals and starts: a machine's first entry, as long as nobody removes
      it, tells what the pings of that machine have said. */
  lemma {:induction false} EntryTellsLastPings(list: seq<PlayerInfo>, ops: seq<Op>, i: nat, entry: PlayerInfo)
    returns (j: nat, last: PlayerInfo)
    requires IsFirst(list, i, entry) && NobodyRemoves(ops, entry)
    ensures IsFirst(ApplyAll(list, ops), j, last) && Tells(last, entry, ops)
    decreases |ops|
  {
    if ops == [] {
      j, last := i, entry;
    } else {
      var n := |ops| - 1;
      assert ops == ops[..n] + [ops[n]] && ops[n] in ops;
      assert forall op :: op in ops[..n] ==> op in ops;
      j, last := EntryTellsLastPings(list, ops[..n], i, entry);
      var soFar := last;
      j, last := OpTells(ApplyAll(list, ops[..n]), ops[n], j, last);
      ApplyAllOneMore(list, ops[..n], ops[n]);
      TellsOneMore(ops[..n], ops[n], entry, soFar, last);
    }
  }

  /// ## What keeps an entry

  lemma PingKeepsEntry(list: seq<PlayerInfo>, info: PlayerInfo, machineId: string, kind: Kind)
    requires Has(list, machineId, kind)
    ensures Has(Pinged(list, info), machineId, kind)
  {
    var i :| 0 <= i < |list| && list[i].machineId == machineId && list[i].kind == kind;
    var next := Pinged(list, info);
    assert next[i].machineId == machineId && next[i].kind == kind;
  }

  lemma LeaveKeepsEntry(list: seq<PlayerInfo>, left: Option<string>, machineId: string, kind: Kind)
    requires Has(list, machineId, kind) && left != Some(machineId)
    ensures Has(Gone(list, left), machineId, kind)
  {
    var i :| 0 <= i < |list| && list[i].machineId == machineId && list[i].kind == kind;
    var next := Gone(list, left);
    if next != list && IndexOf(list, left.value).value < i {
      assert next[i - 1] == list[i];
    } else {
      assert next[i] == list[i];
    }
  }

  lemma StartKeepsEntry(list: seq<PlayerInfo>, host: PlayerInfo, machineId: string, kind: Kind)
    requires Has(list, machineId, kind)
    ensures Has(HostAdded(list, host), machineId, kind)
  {
    var i :| 0 <= i < |list| && list[i].machineId == machineId && list[i].kind == kind;
    assert HostAdded(list, host)[i] == list[i];
  }
}
