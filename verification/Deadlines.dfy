/**
 The deadline of a waiting call (`wait_for_unlock` in `native/src/server.rs`) when timed waits keep time: a parked thread
 wakes when its time is up, and a waiter that is awake takes its steps at once. What `Parking` leaves open about time is
 a hypothesis here, and then no wait outlives its deadline, whatever notifies were missed.
 */
module Deadlines {
  import opened Bytes
  import opened Entries
  import opened Parking
  import opened Wrappers
  import W = Wallet

  /** Between setting its deadline and leaving the loop, and awake. */
  predicate Awake(pc: Pc)
  {
    pc.WantGen? || Holds(pc) || pc.Woken?
  }

  /** Time passes only while no waiter is awake, and never beyond the time a parked one asked to be woken at. */
  predicate Prompt(s: State, a: Action)
  {
    a.Elapse? && a.dt > 0 ==>
      forall t :: t in s.threads ==>
        !Awake(s.threads[t].pc) && (s.threads[t].pc.Parked? ==> s.now + a.dt <= s.threads[t].pc.until)
  }

  ghost predicate PromptRun(s: State, run: seq<Action>)
    requires Possible(s, run)
    decreases |run|
  {
    run == [] || (Prompt(s, run[0]) && PromptRun(After(s, run[0]), run[1..]))
  }

  /** The deadline is not behind, and the wait it asks for ends at the deadline. */
  predicate InTime(pc: Pc, now: nat)
  {
    && (pc.WantGen? ==> now <= pc.deadline)
    && (InLoop(pc) ==> now <= pc.w.deadline)
    && (pc.HoldPark? ==> now + pc.left == pc.w.deadline)
    && (pc.Parked? ==> pc.until == pc.w.deadline)
  }

  predicate AllInTime(s: State)
  {
    forall t :: t in s.threads ==> InTime(s.threads[t].pc, s.now)
  }

  lemma TurnInTime(s: State, th: Thread, ts: U64, f: W.Faults)
    requires LifeOk(th.pc) && SecretOk(th.pc) && InTime(th.pc, s.now)
    ensures InTime(Turn(s, th, ts, f).pc, s.now)
  {}

  lemma StepInTime(s: State, a: Action)
    requires Inv(s) && PcsOk(s) && Enabled(s, a) && Prompt(s, a) && AllInTime(s)
    ensures AllInTime(After(s, a))
  {
    if a.Move? {
      SurroundingsAfter(s, a);
      TurnInTime(s, s.threads[a.t], a.ts, a.faults);
    }
  }

  lemma {:induction false} RunInTime(s: State, run: seq<Action>)
    requires Inv(s) && Possible(s, run) && PromptRun(s, run) && AllInTime(s)
    ensures AllInTime(Run(s, run))
    decreases |run|
  {
    if run != [] {
      InvPcsOk(s);
      StepKeepsInv(s, run[0]);
      StepInTime(s, run[0]);
      RunInTime(After(s, run[0]), run[1..]);
    }
  }

  /** Waiting with that deadline, or past the loop. */
  predicate WaitsUntil(pc: Pc, deadline: nat)
  {
    || (pc.WantGen? && pc.deadline == deadline)
    || (InLoop(pc) && pc.w.deadline == deadline)
    || Outside(pc)
  }

  lemma TurnWaits(s: State, th: Thread, ts: U64, f: W.Faults, deadline: nat)
    requires LifeOk(th.pc) && SecretOk(th.pc) && WaitsUntil(th.pc, deadline)
    ensures WaitsUntil(Turn(s, th, ts, f).pc, deadline)
  {}

  lemma {:induction false} RunWaits(s: State, run: seq<Action>, t: Tid, deadline: nat)
    requires Inv(s) && Possible(s, run) && t in s.threads && WaitsUntil(s.threads[t].pc, deadline)
    ensures var e := Run(s, run); t in e.threads && WaitsUntil(e.threads[t].pc, deadline)
    decreases |run|
  {
    if run != [] {
      var a := run[0];
      InvPcsOk(s);
      StepKeepsInv(s, a);
      if a.Move? {
        SurroundingsAfter(s, a);
        TurnWaits(s, s.threads[t], a.ts, a.faults, deadline);
      }
      RunWaits(After(s, a), run[1..], t, deadline);
    }
  }

  /** Thread `t` is about to set its deadline, and does. */
  predicate SetsDeadline(s: State, a: Action, t: Tid)
  {
    a.Move? && a.t == t && t in s.threads && s.threads[t].pc.SetDeadline?
  }

  /**
   The wait ends in time. Over every run in which timed waits keep time, a call that set its deadline at `s.now` is either
   still in its loop and at most `UNLOCK_WAIT` later, or out of it: on to its critical section, or refused. No notify is
   needed for that, and the program's other threads may do what they like.
   */
  lemma WaitEndsInTime(now: nat, w0: W.State, before: seq<Action>, a: Action, after: seq<Action>, t: Tid)
    requires Possible(Start(now, w0), before) && PromptRun(Start(now, w0), before)
    requires
      var s := Run(Start(now, w0), before);
      && PcsOk(s) && Enabled(s, a) && SetsDeadline(s, a, t)
      && Possible(After(s, a), after) && PromptRun(After(s, a), after)
    ensures
      var s := Run(Start(now, w0), before);
      var e := Run(After(s, a), after);
      && t in e.threads
      && (e.now <= s.now + 120_000_000_000 || Outside(e.threads[t].pc))
      && (!Outside(e.threads[t].pc) ==> WaitsUntil(e.threads[t].pc, s.now + UNLOCK_WAIT))
      && (e.threads[t].pc.Parked? ==> e.threads[t].pc.until == s.now + UNLOCK_WAIT)
  {
    RunKeepsInv(Start(now, w0), before);
    RunInTime(Start(now, w0), before);
    var s := Run(Start(now, w0), before);
    StepKeepsInv(s, a);
    StepInTime(s, a);
    RunInTime(After(s, a), after);
    RunWaits(After(s, a), after, t, s.now + UNLOCK_WAIT);
    var e := Run(After(s, a), after);
    assert InTime(e.threads[t].pc, e.now);
  }
}
