/** The guest's heartbeat loop: sleep an interval, call back, until the callback fails or the token is cancelled. */
module HeartbeatLoop {
  /** How one turn of the loop's `select` goes: the sleep ends and the callback takes some time to answer, or the token
      is cancelled first. */
  datatype Turn = Fired(ok: bool, took: nat) | Cancelled

  predicate Stops(turn: Turn) {
    turn.Cancelled? || !turn.ok
  }

  /** The first turn that ends the loop, or the number of turns if none does. */
  function StopAt(turns: seq<Turn>): (n: nat)
    ensures n <= |turns|
    ensures forall i :: 0 <= i < n ==> !Stops(turns[i])
    ensures n < |turns| ==> Stops(turns[n])
  {
    if turns == [] || Stops(turns[0]) then 0 else 1 + StopAt(turns[1..])
  }

  /** Time the first `n` callbacks take. */
  function Busy(turns: seq<Turn>, n: nat): nat
    requires n <= |turns|
  {
    if n == 0 then 0 else Busy(turns, n - 1) + if turns[n - 1].Fired? then turns[n - 1].took else 0
  }

  lemma {:induction false} StopIs(turns: seq<Turn>, n: nat)
    requires n <= |turns| && (forall i :: 0 <= i < n ==> !Stops(turns[i])) && (n < |turns| ==> Stops(turns[n]))
    ensures StopAt(turns) == n
  {
    if n == 0 {
    } else {
      StopIs(turns[1..], n - 1);
    }
  }

  /** When callback `k` starts: after `k + 1` intervals and the time of the callbacks before it. */
  function StartOf(interval: nat, turns: seq<Turn>, k: nat): nat
    requires k <= |turns|
  {
    (k + 1) * interval + Busy(turns, k)
  }

  lemma NextStart(interval: nat, turns: seq<Turn>, k: nat)
    requires k < |turns| && turns[k].Fired?
    ensures StartOf(interval, turns, k + 1) == StartOf(interval, turns, k) + turns[k].took + interval
  {
    assert (k + 2) * interval == (k + 1) * interval + interval;
  }

  /** The first callback starts one interval after the loop does, each later one an interval after the end of the one
      before. */
  predicate OnTime(interval: nat, turns: seq<Turn>, starts: seq<nat>, k: nat)
    requires k < |starts| <= |turns|
  {
    if k == 0 then starts[0] == interval
    else turns[k - 1].Fired? && starts[k] == starts[k - 1] + turns[k - 1].took + interval
  }

  lemma AllOnTime(interval: nat, turns: seq<Turn>, starts: seq<nat>)
    requires |starts| <= |turns| && forall k :: 0 <= k < |starts| ==> starts[k] == StartOf(interval, turns, k)
    requires forall k :: 0 <= k < |starts| ==> turns[k].Fired?
    ensures forall k :: 0 <= k < |starts| ==> OnTime(interval, turns, starts, k)
  {
    forall k | 0 <= k < |starts| ensures OnTime(interval, turns, starts, k) {
      if k > 0 {
        NextStart(interval, turns, k - 1);
      }
    }
  }

  class HeartbeatService {
    var failures: nat

    constructor ()
      ensures failures == 0
    {
      failures := 0;
    }

    /** The loop over the turns it will see: every callback starts on its time, a failed one is the last and is reported
        exactly once, a cancellation is not reported. */
    method Run(interval: nat, turns: seq<Turn>) returns (starts: seq<nat>)
      modifies this
      ensures
        var stop := StopAt(turns);
        && |starts| == (if stop < |turns| && turns[stop].Fired? then stop + 1 else stop)
        && failures == old(failures) + if stop < |turns| && turns[stop].Fired? then 1 else 0
      ensures |starts| <= |turns| && forall k :: 0 <= k < |starts| ==> starts[k] == StartOf(interval, turns, k)
      ensures forall k :: 0 <= k < |starts| ==> OnTime(interval, turns, starts, k)
    {
      starts := [];
      var now := 0;
      var i := 0;
      while i < |turns|
        invariant 0 <= i <= |turns| && |starts| == i
        invariant forall j :: 0 <= j < i ==> !Stops(turns[j])
        invariant now + interval == StartOf(interval, turns, i) && failures == old(failures)
        invariant forall k :: 0 <= k < i ==> starts[k] == StartOf(interval, turns, k)
      {
        if turns[i].Cancelled? {
          StopIs(turns, i);
          AllOnTime(interval, turns, starts);
          return;
        }
        now := now + interval;
        starts := starts + [now];
        if !turns[i].ok {
          failures := failures + 1;
          StopIs(turns, i);
          AllOnTime(interval, turns, starts);
          return;
        }
        NextStart(interval, turns, i);
        now := now + turns[i].took;
        i := i + 1;
      }
      StopIs(turns, i);
      AllOnTime(interval, turns, starts);
    }
  }
}
