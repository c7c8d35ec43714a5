/**
 Whom a notify reaches (`wake_unlock_waiters` in `native/src/server.rs`): a cancel, which bumps the generation under
 `unlock_gen`, releases every waiter; an unlock, which does not take that mutex, misses exactly those between their look
 at the session and the wait.
 */
module Wakeups {
  import opened Bytes
  import opened Entries
  import opened Linearise
  import opened Parking
  import opened Wrappers
  import W = Wallet

  // ── a cancel reaches everyone ──

  /** Where canceller `c` and waiter `t`, which captured at `k` cancels, stand between the bump and the release. */
  predicate Releasing(s: State, c: Tid, t: Tid, k: nat)
  {
    && c in s.threads && t in s.threads && c != t && k <= s.cancels
    && (InLoop(s.threads[t].pc) || Outside(s.threads[t].pc))
    && (InLoop(s.threads[t].pc) ==> s.threads[t].pc.w.k == k)
    && match s.threads[c].pc
       case CancelStart => true
       case CancelBumped => k < s.cancels
       case Finished => k < s.cancels && !s.threads[t].pc.Parked?
       case _ => false
  }

  lemma ReleasingStep(s: State, a: Action, c: Tid, t: Tid, k: nat)
    requires Inv(s) && PcsOk(s) && Enabled(s, a) && Releasing(s, c, t, k)
    requires s.cancels < k + TWO64
    ensures Releasing(After(s, a), c, t, k)
  {
    if a.Move? && a.t == c {
      ThreadStep(s, a, t);
      CancellerStep(s, a, c, t, k);
    } else if a.Move? && a.t == t {
      WaiterMoves(s, a, c, t, k);
    } else if a.Move? {
      SurroundingsAfter(s, a);
    } else {
      ThreadStep(s, a, t);
    }
  }

  lemma WaiterMoves(s: State, a: Action, c: Tid, t: Tid, k: nat)
    requires Inv(s) && PcsOk(s) && Enabled(s, a) && Releasing(s, c, t, k) && a.Move? && a.t == t
    requires s.cancels < k + TWO64
    ensures Releasing(After(s, a), c, t, k)
  {
    ThreadStep(s, a, t);
    SurroundingsAfter(s, a);
    if s.threads[c].pc.Finished? && InLoop(s.threads[t].pc) {
      OvertakenNotPastCheck(s, t);
    }
  }

  /** The canceller's bump, then its notify. */
  lemma CancellerStep(s: State, a: Action, c: Tid, t: Tid, k: nat)
    requires Inv(s) && PcsOk(s) && Enabled(s, a) && Releasing(s, c, t, k) && a.Move? && a.t == c
    ensures Releasing(After(s, a), c, t, k)
  {
    SurroundingsAfter(s, a);
  }

  lemma {:induction false} ReleasingRun(s: State, run: seq<Action>, c: Tid, t: Tid, k: nat)
    requires Inv(s) && Possible(s, run) && Releasing(s, c, t, k)
    requires Run(s, run).cancels < k + TWO64
    ensures Releasing(Run(s, run), c, t, k)
    decreases |run|
  {
    if run != [] {
      StepKeepsInv(s, run[0]);
      CancelsGrow(s, run);
      ReleasingStep(s, run[0], c, t, k);
      ReleasingRun(After(s, run[0]), run[1..], c, t, k);
    }
  }

  lemma {:induction false} RunJoin(s: State, first: seq<Action>, second: seq<Action>)
    requires Possible(s, first) && Possible(Run(s, first), second)
    ensures Possible(s, first + second) && Run(s, first + second) == Run(Run(s, first), second)
    decreases |first|
  {
    if first == [] {
      assert first + second == second;
    } else {
      assert (first + second)[1..] == first[1..] + second;
      RunJoin(After(s, first[0]), first[1..], second);
    }
  }

  /**
   A cancel releases everyone, as one theorem. Canceller `c` is about to bump and waiter `t` has captured. Once `c` has
   bumped and notified (after `first`), `t` is not parked and has not got past its generation check; within three more
   steps of its own, however others interleave (`second`), it is out of the loop. Fewer than 2^64 cancels come meanwhile.
   */
  lemma CancelReleases(s: State, first: seq<Action>, second: seq<Action>, c: Tid, t: Tid)
    requires Inv(s) && c in s.threads && s.threads[c].pc.CancelStart? && t in s.threads && InLoop(s.threads[t].pc)
    requires Possible(s, first) && Possible(Run(s, first), second)
    requires
      var m := Run(s, first);
      c in m.threads && m.threads[c].pc.Finished? && Run(m, second).cancels < s.threads[t].pc.w.k + TWO64
    ensures
      var m := Run(s, first);
      var e := Run(m, second);
      && t in m.threads && t in e.threads
      && (InLoop(m.threads[t].pc) ==> m.threads[t].pc.Woken? || m.threads[t].pc.HoldCheck? || m.threads[t].pc.HoldGen?)
      && (InLoop(e.threads[t].pc) ==> !e.threads[t].pc.Parked? && MovesOf(t, second) < 3)
      && (MovesOf(t, second) >= 3 ==> Outside(e.threads[t].pc))
  {
    assert ThreadInv(s, t);
    RunKeepsInv(s, first);
    CancelsGrow(Run(s, first), second);
    ReleasingRun(s, first, c, t, s.threads[t].pc.w.k);
    ReleasedLeaves(Run(s, first), second, c, t, s.threads[t].pc.w.k);
  }

  lemma ReleasedLeaves(m: State, run: seq<Action>, c: Tid, t: Tid, k: nat)
    requires Inv(m) && Possible(m, run) && Releasing(m, c, t, k) && m.threads[c].pc.Finished?
    requires m.cancels <= Run(m, run).cancels < k + TWO64
    ensures
      var e := Run(m, run);
      && t in e.threads
      && (InLoop(m.threads[t].pc) ==> m.threads[t].pc.Woken? || m.threads[t].pc.HoldCheck? || m.threads[t].pc.HoldGen?)
      && (InLoop(e.threads[t].pc) ==> !e.threads[t].pc.Parked? && MovesOf(t, run) < 3)
      && (MovesOf(t, run) >= 3 ==> Outside(e.threads[t].pc))
  {
    if InLoop(m.threads[t].pc) {
      OvertakenNotPastCheck(m, t);
      OvertakenWaiterLeaves(m, run, t);
    }
    LoopOrOut(m, run, t);
    ReleasingRun(m, run, c, t, k);
    RunKeepsInv(m, run);
    if InLoop(Run(m, run).threads[t].pc) {
      OvertakenNotPastCheck(Run(m, run), t);
    }
    if Outside(m.threads[t].pc) {
      OutStaysOut(m, run, t);
    }
  }

  lemma {:induction false} LoopOrOut(s: State, run: seq<Action>, t: Tid)
    requires Inv(s) && Possible(s, run) && t in s.threads && (InLoop(s.threads[t].pc) || Outside(s.threads[t].pc))
    ensures var e := Run(s, run); t in e.threads && (InLoop(e.threads[t].pc) || Outside(e.threads[t].pc))
    decreases |run|
  {
    if run != [] {
      StepKeepsInv(s, run[0]);
      ThreadStep(s, run[0], t);
      LoopOrOut(After(s, run[0]), run[1..], t);
    }
  }

  // ── an unlock's notify misses exactly those past their look ──

  /** Has looked at the session and not yet let go of `unlock_gen`. */
  predicate PastLook(pc: Pc)
  {
    pc.HoldGen? || pc.HoldTime? || pc.HoldPark?
  }

  /** Own steps from there to the wait. */
  function ToPark(pc: Pc): nat
  {
    match pc
    case HoldGen(_, _) => 3
    case HoldTime(_, _) => 2
    case HoldPark(_, _) => 1
    case _ => 0
  }

  predicate InWait(pc: Pc)
  {
    pc.Parked? || pc.Woken?
  }

  /** With no cancel since its capture and its deadline ahead, a waiter past its look goes on to the wait without another. */
  lemma PastLookStep(s: State, a: Action, t: Tid)
    requires Inv(s) && PcsOk(s) && Enabled(s, a) && t in s.threads && PastLook(s.threads[t].pc)
    requires s.threads[t].pc.w.k == s.cancels && s.now < s.threads[t].pc.w.deadline
    ensures
      var s2 := After(s, a);
      var pc, pc2 := s.threads[t].pc, s2.threads[t].pc;
      && t in s2.threads && (PastLook(pc2) || pc2.Parked?) && pc2.w == pc.w
      && ToPark(pc2) + (if a.Move? && a.t == t then 1 else 0) == ToPark(pc)
  {
    ThreadStep(s, a, t);
    assert ThreadInv(s, t);
  }

  /** Over any run in which no cancel comes and the deadline stays ahead, it parks after exactly its remaining steps. */
  lemma {:induction false} PastLookParks(s: State, run: seq<Action>, t: Tid)
    requires Inv(s) && Possible(s, run) && t in s.threads && PastLook(s.threads[t].pc)
    requires s.threads[t].pc.w.k == Run(s, run).cancels && Run(s, run).now < s.threads[t].pc.w.deadline
    requires MovesOf(t, run) <= ToPark(s.threads[t].pc)
    ensures
      var e := Run(s, run);
      && t in e.threads
      && (MovesOf(t, run) < ToPark(s.threads[t].pc) ==> PastLook(e.threads[t].pc))
      && (MovesOf(t, run) == ToPark(s.threads[t].pc) ==> InWait(e.threads[t].pc))
    decreases |run|
  {
    CancelsGrow(s, run);
    assert ThreadInv(s, t);
    if run != [] {
      var s2 := After(s, run[0]);
      PastLookStep(s, run[0], t);
      StepKeepsInv(s, run[0]);
      if PastLook(s2.threads[t].pc) {
        PastLookParks(s2, run[1..], t);
      } else {
        WaitsStill(s2, run[1..], t);
      }
    }
  }

  lemma {:induction false} WaitsStill(s: State, run: seq<Action>, t: Tid)
    requires Inv(s) && Possible(s, run) && t in s.threads && InWait(s.threads[t].pc) && MovesOf(t, run) == 0
    ensures var e := Run(s, run); t in e.threads && InWait(e.threads[t].pc)
    decreases |run|
  {
    if run != [] {
      ThreadStep(s, run[0], t);
      StepKeepsInv(s, run[0]);
      WaitsStill(After(s, run[0]), run[1..], t);
    }
  }

  /** On the way back to a look, or out. */
  predicate LooksNext(pc: Pc)
  {
    pc.Woken? || pc.HoldCheck? || Outside(pc)
  }

  /** In a vault that stays open, a waiter not past its look, once woken, never parks again. */
  lemma {:induction false} NeverParksAgain(s: State, run: seq<Action>, t: Tid)
    requires Inv(s) && Possible(s, run) && OpenThroughout(s, run) && t in s.threads && LooksNext(s.threads[t].pc)
    ensures var e := Run(s, run); t in e.threads && LooksNext(e.threads[t].pc)
    decreases |run|
  {
    if run != [] {
      LooksNextStep(s, run[0], t);
      StepKeepsInv(s, run[0]);
      NeverParksAgain(After(s, run[0]), run[1..], t);
    }
  }

  lemma LooksNextStep(s: State, a: Action, t: Tid)
    requires Inv(s) && PcsOk(s) && Enabled(s, a) && s.wallet.live.Some? && t in s.threads && LooksNext(s.threads[t].pc)
    ensures var s2 := After(s, a); t in s2.threads && LooksNext(s2.threads[t].pc)
  {
    ThreadStep(s, a, t);
  }

  /** Some run parks `t` although the vault stays open, no cancel comes and the deadline stays ahead. */
  ghost predicate CanPark(s: State, t: Tid, deadline: nat)
  {
    exists run :: ParksIn(s, run, t, deadline)
  }

  ghost predicate ParksIn(s: State, run: seq<Action>, t: Tid, deadline: nat)
  {
    && Possible(s, run) && OpenThroughout(s, run)
    && var e := Run(s, run);
       e.cancels == s.cancels && e.now < deadline && t in e.threads && e.threads[t].pc.Parked?
  }

  /** Left to itself, a waiter past its look parks. */
  lemma {:induction false} ParksAlone(s: State, t: Tid) returns (run: seq<Action>)
    requires Inv(s) && t in s.threads && (PastLook(s.threads[t].pc) || s.threads[t].pc.Parked?)
    requires s.threads[t].pc.w.k == s.cancels && s.now < s.threads[t].pc.w.deadline && s.wallet.live.Some?
    ensures ParksIn(s, run, t, s.threads[t].pc.w.deadline)
    decreases ToPark(s.threads[t].pc)
  {
    InvPcsOk(s);
    if s.threads[t].pc.Parked? {
      run := [];
    } else {
      var a := Move(t, 0, W.NO_FAULT);
      PastLookStep(s, a, t);
      OwnQuietStep(s, t);
      StepKeepsInv(s, a);
      var rest := ParksAlone(After(s, a), t);
      run := [a] + rest;
      assert run[1..] == rest;
    }
  }

  lemma OwnQuietStep(s: State, t: Tid)
    requires PcsOk(s) && t in s.threads && PastLook(s.threads[t].pc)
    requires s.threads[t].pc.HoldGen? ==> s.threads[t].pc.w.start == s.gen
    ensures
      var a := Move(t, 0, W.NO_FAULT);
      Enabled(s, a) && After(s, a).cancels == s.cancels && After(s, a).now == s.now && After(s, a).wallet == s.wallet
  {}

  /**
   Whom an unlock's notify misses, exactly: at a lifecycle call's notify, with the vault open, no cancel since the
   waiter's capture and its deadline ahead, the waiter can still come to be parked in an open vault if and only if it
   holds `unlock_gen` past its look at the session. All others never park again while the vault stays open
   (`NeverParksAgain`); these always park after their remaining steps (`PastLookParks`).
   */
  lemma NotifyMissesIff(s: State, a: Action, t: Tid)
    requires Inv(s) && PcsOk(s) && Enabled(s, a) && a.Move? && s.threads[a.t].pc.LifeNotify? && s.wallet.live.Some?
    requires t in s.threads && InLoop(s.threads[t].pc)
    requires s.threads[t].pc.w.k == s.cancels && s.now < s.threads[t].pc.w.deadline
    ensures CanPark(After(s, a), t, s.threads[t].pc.w.deadline) <==> PastLook(s.threads[t].pc)
  {
    var s2, deadline := After(s, a), s.threads[t].pc.w.deadline;
    StepKeepsInv(s, a);
    SurroundingsAfter(s, a);
    NotifyLeaves(s, a, t);
    if PastLook(s.threads[t].pc) {
      var run := ParksAlone(s2, t);
      assert ParksIn(s2, run, t, deadline);
    } else if CanPark(s2, t, deadline) {
      var run :| ParksIn(s2, run, t, deadline);
      NeverParksAgain(s2, run, t);
    }
  }

  lemma NotifyTurn(s: State, th: Thread, ts: U64, f: W.Faults)
    requires LifeOk(th.pc) && SecretOk(th.pc) && th.pc.LifeNotify?
    ensures Turn(s, th, ts, f).wallet == s.wallet
  {}

  lemma NotifyLeaves(s: State, a: Action, t: Tid)
    requires Inv(s) && PcsOk(s) && Enabled(s, a) && a.Move? && s.threads[a.t].pc.LifeNotify?
    requires t in s.threads && InLoop(s.threads[t].pc)
    ensures
      var s2 := After(s, a);
      && t in s2.threads && s2.wallet == s.wallet && s2.cancels == s.cancels && s2.now == s.now
      && s2.threads[t].pc == if s.threads[t].pc.Parked? then Woken(s.threads[t].pc.w) else s.threads[t].pc
  {
    NotifyTurn(s, s.threads[a.t], a.ts, a.faults);
    SurroundingsAfter(s, a);
  }
}
