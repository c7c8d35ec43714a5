/**
 Idle auto-lock (`autolock_tick` in `native/src/server.rs` and the timer task in `native/src/main.rs`): a timer that
 sleeps a whole number of seconds chosen at each tick. Times are nanoseconds, sleeps are exact, ticks are atomic.
 */
module AutoLock {

  const SECOND: nat := 1_000_000_000

  function Max(a: nat, b: nat): nat
  {
    if a < b then b else a
  }

  /** Whether a tick locks, given the idle time it reads. */
  predicate TickLocks(unlocked: bool, timeout: nat, idle: nat)
  {
    timeout != 0 && unlocked && idle >= timeout
  }

  /** The whole seconds a tick asks the timer to sleep. */
  function TickSecs(unlocked: bool, timeout: nat, idle: nat): nat
  {
    if timeout == 0 || !unlocked || idle >= timeout then 1 else Max((timeout - idle) / SECOND, 1)
  }

  /** `autolock_in_s` of `vault.status`: whole seconds left, never negative. */
  function Remaining(timeout: nat, idle: nat): nat
  {
    if idle >= timeout then 0 else (timeout - idle) / SECOND
  }

  /** A tick asks for at least a second, and otherwise for just the whole seconds that are left. */
  lemma TickSleepsWholeSeconds(unlocked: bool, timeout: nat, idle: nat)
    ensures TickSecs(unlocked, timeout, idle) >= 1
    ensures
      var secs := TickSecs(unlocked, timeout, idle);
      if timeout != 0 && unlocked && idle < timeout then
        && (secs * 1_000_000_000 <= timeout - idle || secs == 1)
        && timeout - idle < (secs + 1) * 1_000_000_000
      else secs == 1
  {
    if idle < timeout {
      var left := timeout - idle;
      assert left / SECOND * SECOND <= left < (left / SECOND + 1) * SECOND;
    }
  }

  datatype State = State(now: nat, unlocked: bool, lastActivity: nat, installed: nat, nextTick: nat)

  /**
   `Use` is a request that counts as activity, `Poll` one that does not (status, hello, lock of a locked vault,
   cancel); `Install` is the moment create, unlock or rotate stores a session; `Close` is an explicit lock.
   */
  datatype Action = Wait(until: nat) | Tick | Use | Poll | Install | Close

  predicate Enabled(s: State, a: Action)
  {
    match a
    case Wait(until) => s.now <= until <= s.nextTick
    case Tick => s.now == s.nextTick
    case _ => true
  }

  /** `Instant::elapsed`, which never goes below zero. */
  function Idle(s: State): nat
  {
    if s.now < s.lastActivity then 0 else s.now - s.lastActivity
  }

  function Step(s: State, a: Action, timeout: nat): State
  {
    match a
    case Wait(until) => s.(now := until)
    case Tick =>
      var idle := Idle(s);
      s.(unlocked := s.unlocked && !TickLocks(s.unlocked, timeout, idle),
         nextTick := s.now + TickSecs(s.unlocked, timeout, idle) * SECOND)
    case Use => s.(lastActivity := s.now)
    case Poll => s
    case Install => s.(unlocked := true, installed := s.now)
    case Close => s.(unlocked := false)
  }

  /** The agent as started: locked, its first tick due at once. */
  function Start(now: nat): State
  {
    State(now, false, now, now, now)
  }

  predicate Inv(s: State, timeout: nat)
  {
    && s.lastActivity <= s.now && s.installed <= s.now
    && s.now <= s.nextTick
    && (timeout != 0 ==>
          s.nextTick <= Max(s.lastActivity + timeout, if s.unlocked then s.installed else s.now) + SECOND)
  }

  lemma StepKeepsInv(s: State, a: Action, timeout: nat)
    requires Inv(s, timeout) && Enabled(s, a)
    ensures Inv(Step(s, a, timeout), timeout)
  {
    if a.Tick? && s.unlocked && timeout != 0 && s.now - s.lastActivity < timeout {
      var left := timeout - (s.now - s.lastActivity);
      assert left / SECOND * SECOND <= left;
    }
  }

  ghost predicate Allowed(s: State, run: seq<Action>, timeout: nat)
    decreases |run|
  {
    run == [] || (Enabled(s, run[0]) && Allowed(Step(s, run[0], timeout), run[1..], timeout))
  }

  function After(s: State, run: seq<Action>, timeout: nat): State
    decreases |run|
  {
    if run == [] then s else After(Step(s, run[0], timeout), run[1..], timeout)
  }

  lemma {:induction false} RunKeepsInv(s: State, run: seq<Action>, timeout: nat)
    requires Inv(s, timeout) && Allowed(s, run, timeout)
    ensures Inv(After(s, run, timeout), timeout)
    decreases |run|
  {
    if run != [] {
      StepKeepsInv(s, run[0], timeout);
      RunKeepsInv(Step(s, run[0], timeout), run[1..], timeout);
    }
  }

  /**
   The exposure bound: in whatever way uses, polls, unlocks and locks arrive, an unlocked vault is never older than one
   second past the later of its idle deadline and its last unlock.
   */
  lemma UnlockedNeverOutlivesTimeout(start: nat, run: seq<Action>, timeout: nat)
    requires timeout != 0 && Allowed(Start(start), run, timeout)
    ensures
      var s := After(Start(start), run, timeout);
      s.unlocked ==> s.now <= Max(s.lastActivity + timeout, s.installed) + SECOND
  {
    RunKeepsInv(Start(start), run, timeout);
  }

  /** A due tick closes the vault if and only if it is open and has been idle for the whole timeout. */
  lemma TickLocksExactlyWhenIdle(start: nat, run: seq<Action>, timeout: nat)
    requires Allowed(Start(start), run, timeout) && Enabled(After(Start(start), run, timeout), Tick)
    ensures
      var s := After(Start(start), run, timeout);
      s.unlocked && !Step(s, Tick, timeout).unlocked
      <==> timeout != 0 && s.unlocked && s.now >= s.lastActivity + timeout
  {
    RunKeepsInv(Start(start), run, timeout);
  }

  predicate Untouched(run: seq<Action>)
  {
    forall i :: 0 <= i < |run| ==> !run[i].Use? && !run[i].Install? && !run[i].Close?
  }

  lemma {:induction false} UntouchedRun(s: State, run: seq<Action>, timeout: nat)
    requires Inv(s, timeout) && Allowed(s, run, timeout) && Untouched(run)
    ensures
      var e := After(s, run, timeout);
      && e.lastActivity == s.lastActivity && e.installed == s.installed && s.now <= e.now
      && (e.unlocked ==> s.unlocked)
      && (s.unlocked && !e.unlocked ==> e.now >= s.lastActivity + timeout)
    decreases |run|
  {
    if run != [] {
      StepKeepsInv(s, run[0], timeout);
      UntouchedRun(Step(s, run[0], timeout), run[1..], timeout);
    }
  }

  /**
   What `vault.status` reports is kept: if it says `r` seconds remain and nothing but polls happens, the vault is still
   open until `r` seconds have passed and is closed once `r + 2` seconds have.
   */
  lemma ReportedRemainingIsKept(s: State, run: seq<Action>, timeout: nat)
    requires timeout != 0 && Inv(s, timeout) && s.unlocked && s.now - s.lastActivity < timeout
    requires Allowed(s, run, timeout) && Untouched(run)
    ensures
      var r := Remaining(timeout, s.now - s.lastActivity);
      var e := After(s, run, timeout);
      && (e.now < s.now + r * SECOND ==> e.unlocked)
      && (e.now >= s.now + (r + 2) * SECOND ==> !e.unlocked)
  {
    UntouchedRun(s, run, timeout);
    RunKeepsInv(s, run, timeout);
    var left := timeout - (s.now - s.lastActivity);
    assert left / SECOND * SECOND <= left < (left / SECOND + 1) * SECOND;
  }
}
