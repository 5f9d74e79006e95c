/** The cancellation token: an atomic flag and a wake-up list, checked twice by every waiter. */
module CancellationTokens {
  import opened Common

  /** What the token's memory holds. `Notify` is taken by its documented guarantee: a call of
      `notify_waiters` wakes every `Notified` created before it, so a `Notified` remembers how many calls
      had happened when it was created and is ready once there have been more. */
  datatype Token = Token(cancelled: bool, notifyCalls: nat) {
    predicate Wakes(created: nat) {
      created < notifyCalls
    }
  }

  const FRESH := Token(false, 0)

  /** The shared object; each method is one atomic access. */
  class TokenState {
    var cancelled: bool
    var notifyCalls: nat

    ghost function View(): Token
      reads this
    {
      Token(cancelled, notifyCalls)
    }

    constructor ()
      ensures View() == FRESH
    {
      cancelled, notifyCalls := false, 0;
    }

    method Load() returns (flag: bool)
      ensures flag == View().cancelled
    {
      flag := cancelled;
    }

    method Store()
      modifies this
      ensures View() == old(View()).(cancelled := true)
    {
      cancelled := true;
    }

    method NotifyWaiters()
      modifies this
      ensures View() == old(View()).(notifyCalls := old(View()).notifyCalls + 1)
    {
      notifyCalls := notifyCalls + 1;
    }

    method Notified() returns (created: nat)
      ensures created == View().notifyCalls
    {
      created := notifyCalls;
    }

    /** `cancel()` run without interference. */
    method Cancel()
      modifies this
      ensures View().cancelled
      ensures forall created: nat :: created <= old(View()).notifyCalls ==> View().Wakes(created)
    {
      Store();
      NotifyWaiters();
    }

    /** `cancelled()` up to its suspension, run without interference: it returns at once if the token is
        cancelled, and otherwise waits on a `Notified` that every later `cancel()` wakes. */
    method Subscribe() returns (waiting: Option<nat>)
      ensures waiting.None? <==> View().cancelled
      ensures waiting.Some? ==> !View().Wakes(waiting.value) && waiting.value <= View().notifyCalls
    {
      var flag := Load();
      if flag {
        return None;
      }
      var created := Notified();
      flag := Load();
      return if flag then None else Some(created);
    }
  }

  /** A task inside `cancelled()`: before the first check, between it and `notified()`, before the second
      check, suspended on its `Notified`, or back. */
  datatype Waiter = Checking | Subscribing | Rechecking(created: nat) | Parked(created: nat) | Woken

  /** A task inside `cancel()`: before the store, between it and the notification, or done. */
  datatype Canceller = Storing | Notifying | Finished

  datatype System = System(token: Token, waiters: seq<Waiter>, cancellers: seq<Canceller>)

  datatype Move =
    | StartWaiter
    | StartCanceller
    | WaiterMoves(w: nat)
    | CancellerMoves(c: nat)

  const IDLE := System(FRESH, [], [])

  predicate Enabled(s: System, m: Move) {
    match m
    case StartWaiter => true
    case StartCanceller => true
    case WaiterMoves(w) =>
      w < |s.waiters| && !s.waiters[w].Woken? && (s.waiters[w].Parked? ==> s.token.Wakes(s.waiters[w].created))
    case CancellerMoves(c) => c < |s.cancellers| && !s.cancellers[c].Finished?
  }

  function NextWaiter(t: Token, w: Waiter): Waiter {
    match w
    case Checking => if t.cancelled then Woken else Subscribing
    case Subscribing => Rechecking(t.notifyCalls)
    case Rechecking(created) => if t.cancelled then Woken else Parked(created)
    case Parked(_) => Woken
    case Woken => Woken
  }

  /** One atomic access by one task. */
  function Apply(s: System, m: Move): System
    requires Enabled(s, m)
  {
    match m
    case StartWaiter => s.(waiters := s.waiters + [Checking])
    case StartCanceller => s.(cancellers := s.cancellers + [Storing])
    case WaiterMoves(w) => s.(waiters := s.waiters[w := NextWaiter(s.token, s.waiters[w])])
    case CancellerMoves(c) =>
      if s.cancellers[c].Storing? then
        s.(token := s.token.(cancelled := true), cancellers := s.cancellers[c := Notifying])
      else
        s.(token := s.token.(notifyCalls := s.token.notifyCalls + 1), cancellers := s.cancellers[c := Finished])
  }

  ghost predicate RunsTo(s: System, moves: seq<Move>, t: System)
    decreases |moves|
  {
    if moves == [] then s == t
    else Enabled(s, moves[0]) && RunsTo(Apply(s, moves[0]), moves[1..], t)
  }

  ghost predicate WaiterFits(s: System, w: Waiter) {
    match w
    case Rechecking(created) => created <= s.token.notifyCalls
    case Parked(created) => created <= s.token.notifyCalls
    case Woken => s.token.cancelled
    case _ => true
  }

  ghost predicate Inv(s: System) {
    && (forall w :: 0 <= w < |s.waiters| ==> WaiterFits(s, s.waiters[w]))
    && (forall c :: 0 <= c < |s.cancellers| && !s.cancellers[c].Storing? ==> s.token.cancelled)
    && (s.token.notifyCalls > 0 ==> s.token.cancelled)
    && (forall c, w ::
          (0 <= c < |s.cancellers| && 0 <= w < |s.waiters| && s.cancellers[c].Finished? && s.waiters[w].Parked?) ==>
          s.token.Wakes(s.waiters[w].created))
  }

  lemma MoveKeepsInv(s: System, m: Move)
    requires Inv(s) && Enabled(s, m)
    ensures Inv(Apply(s, m))
    ensures s.token.cancelled ==> Apply(s, m).token.cancelled
  {
  }

  lemma {:induction false} RunKeepsInv(s: System, moves: seq<Move>, t: System)
    requires Inv(s) && RunsTo(s, moves, t)
    ensures Inv(t) && (s.token.cancelled ==> t.token.cancelled)
    decreases |moves|
  {
    if moves == [] {
    } else {
      MoveKeepsInv(s, moves[0]);
      RunKeepsInv(Apply(s, moves[0]), moves[1..], t);
    }
  }

  /** No lost wake-up: whatever the interleaving of any number of waiters and cancellers, once one `cancel()`
      has completed no waiter is parked without a pending notification; and a waiter returns only when the
      token is cancelled. */
  lemma NoLostWakeup(moves: seq<Move>, s: System)
    requires RunsTo(IDLE, moves, s)
    ensures forall c, w :: 0 <= c < |s.cancellers| && s.cancellers[c].Finished? && 0 <= w < |s.waiters| ==>
              !s.waiters[w].Parked? || s.token.Wakes(s.waiters[w].created)
    ensures forall w :: 0 <= w < |s.waiters| && s.waiters[w].Woken? ==> s.token.cancelled
    ensures forall c :: 0 <= c < |s.cancellers| && s.cancellers[c].Finished? ==> s.token.cancelled
  {
    RunKeepsInv(IDLE, moves, s);
  }

  /** Cancellation is for good: no continuation of a run clears the flag. */
  lemma CancelledForGood(before: seq<Move>, s: System, after: seq<Move>, t: System)
    requires RunsTo(IDLE, before, s) && s.token.cancelled && RunsTo(s, after, t)
    ensures t.token.cancelled
  {
    RunKeepsInv(IDLE, before, s);
    RunKeepsInv(s, after, t);
  }

  /** Own moves a waiter still needs once a `cancel()` has completed. */
  function MovesLeft(w: Waiter): nat {
    match w
    case Checking => 1
    case Subscribing => 2
    case Rechecking(_) => 1
    case Parked(_) => 1
    case Woken => 0
  }

  /** After a completed `cancel()` every waiter can move until it has returned, each of its moves brings
      it closer, and no other task's move holds it back: at most two moves of its own remain. */
  lemma WaitersReturn(moves: seq<Move>, s: System, c: nat, w: nat, m: Move)
    requires RunsTo(IDLE, moves, s) && c < |s.cancellers| && s.cancellers[c].Finished?
    requires w < |s.waiters| && !s.waiters[w].Woken? && Enabled(s, m)
    ensures MovesLeft(s.waiters[w]) <= 2
    ensures Enabled(s, WaiterMoves(w))
    ensures MovesLeft(Apply(s, WaiterMoves(w)).waiters[w]) < MovesLeft(s.waiters[w])
    ensures MovesLeft(Apply(s, m).waiters[w]) <= MovesLeft(s.waiters[w])
  {
    RunKeepsInv(IDLE, moves, s);
  }
}
