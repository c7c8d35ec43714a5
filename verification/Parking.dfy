/**
 The concurrent agent (`wait_for_unlock`, `unlock_cancel`, `with_session`, `read_session`, `lock` and the lifecycle calls
 of `native/src/server.rs`) as fine-grained steps of any number of threads: what each takes, checks, parks on and wakes.
 The contents are those of `Wallet`, which `Agent` refines.
 */
module Parking {
  import opened Bytes
  import opened Entries
  import opened Text
  import opened Wrappers
  import W = Wallet

  type Tid = nat

  const SECOND: nat := 1_000_000_000
  const UNLOCK_WAIT: nat := 120 * SECOND
  const TWO64: nat := 0x1_0000_0000_0000_0000

  /**
   What a waiter carries round its loop: its request, deadline, the generation it captured, and how many cancels had
   happened by then (a count the program does not keep, of which the 64-bit generation is the remainder).
   */
  datatype Wait = Wait(r: W.Request, deadline: nat, start: nat, k: nat)

  datatype Pc =
    // a secret call, before and inside wait_for_unlock
    | FirstCheck(r: W.Request)
    | WaitEntry(r: W.Request)
    | Announce(r: W.Request)
    | SetDeadline(r: W.Request)
    | WantGen(r: W.Request, deadline: nat)
    // holding unlock_gen
    | HoldCheck(w: Wait)
    | HoldGen(w: Wait, seen: nat)
    | HoldTime(w: Wait, seen: nat)
    | HoldPark(w: Wait, left: nat)
    // in wait_timeout, and out of it but not yet holding unlock_gen again
    | Parked(w: Wait, until: nat)
    | Woken(w: Wait)
    // about to take the session mutex for the call's own work, and holding it
    | Critical(r: W.Request)
    | InSession(r: W.Request)
    | LockStart
    | CancelStart
    | CancelBumped
    // create, unlock, rotate: read, write, install, notify; unlock then lists what the session holds for its reply
    | LifeStart(r: W.Request)
    | LifeWrite(r: W.Request, entries: EntryMap)
    | LifeInstall(r: W.Request, st: W.Stored)
    | LifeNotify(r: W.Request, first: nat)
    | LifeList(first: nat)
    | Finished

  /**
   `since` and `began` are the length of the history and the time when the call arrived; `asked`, whether it has asked the
   clients to prompt.
   */
  datatype Thread = Thread(pc: Pc, since: nat, began: nat, asked: bool)

  /**
   An answer in the history. `at` is how much history there was at the moment the answer is true of; `k` and `cancels`
   are the cancels before the wait and before the answer. An unlock answers twice: `Done` when it installs, and later with
   the list its reply carries, as `List` would answer then; `first` of the second is where in the history the first is.
   */
  datatype Answer = Answer(
    r: W.Request,
    ts: U64,
    faults: W.Faults,
    resp: W.Response,
    since: nat,
    at: nat,
    began: nat,
    time: nat,
    k: nat,
    cancels: nat,
    first: nat)

  /** `holder` has the `unlock_gen` mutex and `busy` the session mutex for longer than a step. */
  datatype State = State(
    now: nat,
    gen: nat,
    cancels: nat,
    holder: Option<Tid>,
    busy: Option<Tid>,
    threads: map<Tid, Thread>,
    wallet: W.State,
    log: seq<Answer>)

  datatype Call = Secret(r: W.Request) | Life(r: W.Request) | Locking | Cancelling

  datatype Action =
    | Elapse(dt: nat)
    | Begin(t: Tid, call: Call)
    | Move(t: Tid, ts: U64, faults: W.Faults)

  /** The secret calls that look at the session; the others answered before reaching it. */
  predicate NeedsSession(r: W.Request)
  {
    r.Get? || r.List? || (r.Alter? && Accepted(r.change))
  }

  predicate Waits(r: W.Request)
    requires NeedsSession(r)
  {
    r.wait
  }

  predicate WellFormedCall(c: Call)
  {
    (c.Secret? ==> NeedsSession(c.r)) && (c.Life? ==> c.r.Create? || c.r.Unlock? || c.r.Rotate?)
  }

  function EntryPoint(c: Call): Pc
  {
    match c
    case Secret(r) => FirstCheck(r)
    case Life(r) => LifeStart(r)
    case Locking => LockStart
    case Cancelling => CancelStart
  }

  predicate Holds(pc: Pc)
  {
    pc.HoldCheck? || pc.HoldGen? || pc.HoldTime? || pc.HoldPark?
  }

  predicate WantsHold(pc: Pc)
  {
    pc.WantGen? || pc.Woken? || pc.CancelStart?
  }

  /** Steps that look at or change the session, or take its mutex. */
  predicate WantsSession(pc: Pc)
  {
    pc.FirstCheck? || pc.WaitEntry? || pc.HoldCheck? || pc.Critical? || pc.LockStart? || pc.LifeInstall? || pc.LifeList?
  }

  predicate Enabled(s: State, a: Action)
  {
    match a
    case Elapse(_) => true
    case Begin(t, call) => t !in s.threads && WellFormedCall(call)
    case Move(t, _, f) =>
      && t in s.threads && !s.threads[t].pc.Finished?
      && f.writing != Some(Locked) // an I/O failure is never reported in the words of the lock sentinel
      && (WantsHold(s.threads[t].pc) ==> s.holder.None?)
      && (WantsSession(s.threads[t].pc) ==> s.busy.None?)
  }

  // ── steps ──

  /** What a step does with the `unlock_gen` mutex. */
  datatype Mutex = Keep | Take | Release

  /** A thread's own step: where it goes, what it does with the mutex, the contents, and the answer it gives, if any. */
  datatype Effect = Effect(pc: Pc, mutex: Mutex, wallet: W.State, answer: Option<Answer>)

  function Goto(s: State, pc: Pc): Effect
  {
    Effect(pc, Keep, s.wallet, None)
  }

  /** An answer true at this very moment. */
  function Now(s: State, th: Thread, r: W.Request, ts: U64, f: W.Faults, resp: W.Response): Option<Answer>
  {
    Some(Answer(r, ts, f, resp, th.since, |s.log|, th.began, s.now, s.cancels, s.cancels, |s.log|))
  }

  /** Gives up waiting: the answer is `locked`, as last observed when the history had length `seen`. */
  function GiveUp(s: State, th: Thread, w: Wait, seen: nat): Effect
  {
    var a := Answer(w.r, 0, W.NO_FAULT, W.Failed(Locked), th.since, seen, th.began, s.now, w.k, s.cancels, |s.log|);
    Effect(Finished, Release, s.wallet, Some(a))
  }

  function NewPassword(r: W.Request): string
    requires r.Create? || r.Unlock? || r.Rotate?
  {
    if r.Rotate? then r.newPw else r.pw
  }

  /** What the file read of a lifecycle call finds. */
  function ReadFor(w: W.State, r: W.Request, reading: Option<Error>): Result<EntryMap, Error>
    requires r.Create? || r.Unlock? || r.Rotate?
  {
    match r
    case Create(_) => if w.file.Some? then Err(AlreadyExists) else Ok(map[])
    case Unlock(pw) => W.Authenticate(w, pw, reading)
    case Rotate(oldPw, _) => W.Authenticate(w, oldPw, reading)
  }

  /** What of the plain map's answer holds the moment a call takes effect: an unlock's list is read only later. */
  function AtEffect(r: W.Request, resp: W.Response): W.Response
  {
    if r.Unlock? && resp.Listing? then W.Done else resp
  }

  /** The second answer of an unlock. */
  function ListHalf(s: State, th: Thread, first: nat): Answer
  {
    var resp := W.Step(s.wallet, W.List(false), 0, W.NO_FAULT).1;
    Answer(W.List(false), 0, W.NO_FAULT, resp, th.since, |s.log|, th.began, s.now, s.cancels, s.cancels, first)
  }

  predicate LifeOk(pc: Pc)
  {
    (pc.LifeStart? || pc.LifeWrite? || pc.LifeInstall?) ==> pc.r.Create? || pc.r.Unlock? || pc.r.Rotate?
  }

  predicate SecretOk(pc: Pc)
  {
    && ((pc.FirstCheck? || pc.WaitEntry? || pc.Announce? || pc.SetDeadline? || pc.WantGen? || pc.Critical? ||
         pc.InSession?) ==> NeedsSession(pc.r))
    && (InLoop(pc) ==> NeedsSession(pc.w.r))
  }

  predicate InLoop(pc: Pc)
  {
    Holds(pc) || pc.Parked? || pc.Woken?
  }

  /** The step thread `th` (number `t`) takes next. */
  function Turn(s: State, th: Thread, ts: U64, f: W.Faults): Effect
    requires LifeOk(th.pc) && SecretOk(th.pc)
  {
    match th.pc
    case FirstCheck(r) =>
      if s.wallet.live.Some? then Goto(s, Critical(r))
      else if Waits(r) then Goto(s, WaitEntry(r))
      else Effect(Finished, Keep, s.wallet, Now(s, th, r, ts, W.NO_FAULT, W.Failed(Locked)))
    case WaitEntry(r) => Goto(s, if s.wallet.live.Some? then Critical(r) else Announce(r))
    case Announce(r) => Goto(s, SetDeadline(r))
    case SetDeadline(r) => Goto(s, WantGen(r, s.now + UNLOCK_WAIT))
    case WantGen(r, deadline) => Effect(HoldCheck(Wait(r, deadline, s.gen, s.cancels)), Take, s.wallet, None)
    case HoldCheck(w) =>
      if s.wallet.live.Some? then Effect(Critical(w.r), Release, s.wallet, None) else Goto(s, HoldGen(w, |s.log|))
    case HoldGen(w, seen) => if s.gen != w.start then GiveUp(s, th, w, seen) else Goto(s, HoldTime(w, seen))
    case HoldTime(w, seen) =>
      if s.now >= w.deadline then GiveUp(s, th, w, seen) else Goto(s, HoldPark(w, w.deadline - s.now))
    case HoldPark(w, left) => Effect(Parked(w, s.now + left), Release, s.wallet, None)
    // timed out or spuriously woken; a notify does the same from outside
    case Parked(w, _) => Goto(s, Woken(w))
    case Woken(w) => Effect(HoldCheck(w), Take, s.wallet, None)
    case Critical(r) => Goto(s, InSession(r))
    case InSession(r) =>
      var (w2, resp) := W.Step(s.wallet, r, ts, f);
      Effect(Finished, Keep, w2, Now(s, th, r, ts, f, resp))
    case LockStart => Effect(Finished, Keep, s.wallet.(live := None), Now(s, th, W.Lock, ts, f, W.Done))
    case CancelStart => Goto(s, CancelBumped)
    case CancelBumped => Goto(s, Finished)
    case LifeStart(r) =>
      (match ReadFor(s.wallet, r, f.reading)
       case Err(e) => Effect(Finished, Keep, s.wallet, Now(s, th, r, ts, W.Faults(f.reading, None), W.Failed(e)))
       case Ok(m) => Goto(s, if r.Unlock? then LifeInstall(r, W.Stored(r.pw, m)) else LifeWrite(r, m)))
    case LifeWrite(r, m) =>
      if f.writing.Some? then
        Effect(Finished, Keep, s.wallet, Now(s, th, r, ts, W.Faults(None, f.writing), W.Failed(f.writing.value)))
      else
        var st := W.Stored(NewPassword(r), m);
        Effect(LifeInstall(r, st), Keep, s.wallet.(file := Some(st)), None)
    case LifeInstall(r, st) =>
      Effect(LifeNotify(r, |s.log|), Keep, s.wallet.(live := Some(st)), Now(s, th, r, ts, W.NO_FAULT, W.Done))
    case LifeNotify(r, first) => Goto(s, if r.Unlock? then LifeList(first) else Finished)
    case LifeList(first) => Effect(Finished, Keep, s.wallet, Some(ListHalf(s, th, first)))
    case Finished => Goto(s, Finished)
  }

  /** `notify_all`: everyone in the wait has to re-acquire the mutex. */
  function Notified(threads: map<Tid, Thread>): map<Tid, Thread>
  {
    map u | u in threads :: if threads[u].pc.Parked? then threads[u].(pc := Woken(threads[u].pc.w)) else threads[u]
  }

  predicate Notifies(pc: Pc)
  {
    pc.CancelBumped? || pc.LifeNotify?
  }

  predicate PcsOk(s: State)
  {
    forall t :: t in s.threads ==> LifeOk(s.threads[t].pc) && SecretOk(s.threads[t].pc)
  }

  function After(s: State, a: Action): State
    requires PcsOk(s) && Enabled(s, a)
  {
    match a
    case Elapse(dt) => s.(now := s.now + dt)
    case Begin(t, call) => s.(threads := s.threads[t := Thread(EntryPoint(call), |s.log|, s.now, false)])
    case Move(t, ts, f) =>
      var th := s.threads[t];
      var e := Turn(s, th, ts, f);
      State(
        s.now,
        if th.pc.CancelStart? then (s.gen + 1) % TWO64 else s.gen,
        if th.pc.CancelStart? then s.cancels + 1 else s.cancels,
        match e.mutex case Keep => s.holder case Take => Some(t) case Release => None,
        if e.pc.InSession? then Some(t) else if th.pc.InSession? then None else s.busy,
        (if Notifies(th.pc) then Notified(s.threads) else s.threads)[t := th.(pc := e.pc, asked := th.asked || th.pc.Announce?)],
        e.wallet,
        if e.answer.Some? then s.log + [e.answer.value] else s.log)
  }

  // ── the parking invariant ──

  /** Some canceller has bumped the generation and not yet notified. */
  ghost predicate NotifyPending(s: State)
  {
    exists c :: c in s.threads && s.threads[c].pc.CancelBumped?
  }

  /** One thread's part of the invariant. */
  ghost predicate ThreadInv(s: State, t: Tid)
    requires t in s.threads
  {
    var th := s.threads[t];
    && LifeOk(th.pc) && SecretOk(th.pc)
    && th.since <= |s.log| && th.began <= s.now
    && (Holds(th.pc) <==> s.holder == Some(t))
    && (th.pc.InSession? <==> s.busy == Some(t))
    && (th.pc.WantGen? ==> th.pc.deadline >= th.began + UNLOCK_WAIT)
    && (InLoop(th.pc) ==>
          && th.pc.w.start == th.pc.w.k % TWO64 && th.pc.w.k <= s.cancels
          && th.pc.w.deadline >= th.began + UNLOCK_WAIT)
    && (th.pc.HoldTime? || th.pc.HoldPark? ==> th.pc.w.start == s.gen)
    && (th.pc.Parked? ==> th.pc.w.start == s.gen || NotifyPending(s))
  }

  ghost predicate Inv(s: State)
  {
    && s.gen == s.cancels % TWO64
    && (s.holder.Some? ==> s.holder.value in s.threads)
    && (s.busy.Some? ==> s.busy.value in s.threads)
    && forall t :: t in s.threads ==> ThreadInv(s, t)
  }

  lemma InvPcsOk(s: State)
    requires Inv(s)
    ensures PcsOk(s)
  {
    forall t | t in s.threads ensures LifeOk(s.threads[t].pc) && SecretOk(s.threads[t].pc) {
      assert ThreadInv(s, t);
    }
  }

  lemma BumpMod(n: nat)
    ensures (n % TWO64 + 1) % TWO64 == (n + 1) % TWO64
  {}

  lemma StepKeepsInv(s: State, a: Action)
    requires Inv(s) && PcsOk(s) && Enabled(s, a)
    ensures Inv(After(s, a))
  {
    if a.Move? {
      SurroundingsAfter(s, a);
      forall u | u in After(s, a).threads ensures ThreadInv(After(s, a), u) {
        StepKeepsThread(s, a, u);
      }
    } else {
      OutsideStepKeepsInv(s, a);
    }
  }

  /** Time passing and calls arriving. */
  lemma OutsideStepKeepsInv(s: State, a: Action)
    requires Inv(s) && PcsOk(s) && Enabled(s, a) && !a.Move?
    ensures Inv(After(s, a))
  {
    var s2 := After(s, a);
    if NotifyPending(s) {
      var c :| c in s.threads && s.threads[c].pc.CancelBumped?;
      assert s2.threads[c].pc.CancelBumped?;
    }
    forall u | u in s2.threads ensures ThreadInv(s2, u) {
      if u in s.threads {
        assert ThreadInv(s, u);
      }
    }
  }

  lemma StepKeepsThread(s: State, a: Action, u: Tid)
    requires Inv(s) && PcsOk(s) && Enabled(s, a) && a.Move? && u in s.threads
    ensures u in After(s, a).threads && ThreadInv(After(s, a), u)
  {
    var pc := s.threads[a.t].pc;
    if u != a.t {
      OtherThread(s, a, u);
    } else if InLoop(pc) {
      WaiterStep(s, a);
    } else {
      PlainStep(s, a);
    }
  }

  lemma WaiterStep(s: State, a: Action)
    requires Inv(s) && PcsOk(s) && Enabled(s, a) && a.Move? && InLoop(s.threads[a.t].pc)
    ensures a.t in After(s, a).threads && ThreadInv(After(s, a), a.t)
  {
    assert ThreadInv(s, a.t);
  }

  predicate Lifecycle(pc: Pc)
  {
    pc.LifeStart? || pc.LifeWrite? || pc.LifeInstall? || pc.LifeNotify? || pc.LifeList?
  }

  lemma PlainStep(s: State, a: Action)
    requires Inv(s) && PcsOk(s) && Enabled(s, a) && a.Move? && !InLoop(s.threads[a.t].pc)
    ensures a.t in After(s, a).threads && ThreadInv(After(s, a), a.t)
  {
    var pc := s.threads[a.t].pc;
    if Lifecycle(pc) {
      LifecycleStep(s, a);
    } else if pc.Critical? || pc.InSession? || pc.LockStart? {
      WorkStep(s, a);
    } else {
      EntryStep(s, a);
    }
  }

  lemma LifecycleStep(s: State, a: Action)
    requires Inv(s) && PcsOk(s) && Enabled(s, a) && a.Move? && Lifecycle(s.threads[a.t].pc)
    ensures a.t in After(s, a).threads && ThreadInv(After(s, a), a.t)
  {
    assert ThreadInv(s, a.t);
  }

  lemma WorkStep(s: State, a: Action)
    requires Inv(s) && PcsOk(s) && Enabled(s, a) && a.Move?
    requires s.threads[a.t].pc.Critical? || s.threads[a.t].pc.InSession? || s.threads[a.t].pc.LockStart?
    ensures a.t in After(s, a).threads && ThreadInv(After(s, a), a.t)
  {
    assert ThreadInv(s, a.t);
  }

  lemma EntryStep(s: State, a: Action)
    requires Inv(s) && PcsOk(s) && Enabled(s, a) && a.Move? && !InLoop(s.threads[a.t].pc)
    requires !Lifecycle(s.threads[a.t].pc) && !s.threads[a.t].pc.Critical? && !s.threads[a.t].pc.InSession?
    requires !s.threads[a.t].pc.LockStart?
    ensures a.t in After(s, a).threads && ThreadInv(After(s, a), a.t)
  {
    assert ThreadInv(s, a.t);
  }

  /** What a step of one thread can do to another: wake it, move the generation, lengthen the history. */
  lemma OtherThread(s: State, a: Action, u: Tid)
    requires Inv(s) && PcsOk(s) && Enabled(s, a) && a.Move? && u in s.threads && u != a.t
    ensures u in After(s, a).threads && ThreadInv(After(s, a), u)
  {
    assert ThreadInv(s, a.t) && ThreadInv(s, u);
    SurroundingsAfter(s, a);
    if !Notifies(s.threads[a.t].pc) && NotifyPending(s) {
      var c :| c in s.threads && s.threads[c].pc.CancelBumped?;
      assert After(s, a).threads[c].pc.CancelBumped?;
    }
  }

  lemma SurroundingsAfter(s: State, a: Action)
    requires Inv(s) && PcsOk(s) && Enabled(s, a) && a.Move?
    ensures
      var s2 := After(s, a);
      var pc := s.threads[a.t].pc;
      && s2.now == s.now && |s.log| <= |s2.log|
      && s.cancels <= s2.cancels
      && (pc.CancelStart? ==> s.holder.None? && NotifyPending(s2))
      && (!pc.CancelStart? ==> s2.gen == s.gen)
      && s2.gen == s2.cancels % TWO64
      && (s2.holder == s.holder || s2.holder == Some(a.t) || (s.holder == Some(a.t) && s2.holder == None))
      && (s.holder.Some? && s.holder.value != a.t ==> s2.holder == s.holder)
      && (s2.busy == s.busy || s2.busy == Some(a.t) || (s.busy == Some(a.t) && s2.busy == None))
      && (s.busy.Some? && s.busy.value != a.t ==> s2.busy == s.busy)
      && s2.threads.Keys == s.threads.Keys
      && forall u :: u in s.threads && u != a.t ==>
           s2.threads[u] == if Notifies(pc) && s.threads[u].pc.Parked? then
                              s.threads[u].(pc := Woken(s.threads[u].pc.w))
                            else s.threads[u]
  {
    assert ThreadInv(s, a.t);
    BumpMod(s.cancels);
    if s.threads[a.t].pc.CancelStart? {
      assert After(s, a).threads[a.t].pc.CancelBumped?;
    }
  }

  // ── runs ──

  ghost predicate Possible(s: State, run: seq<Action>)
    decreases |run|
  {
    run == [] || (PcsOk(s) && Enabled(s, run[0]) && Possible(After(s, run[0]), run[1..]))
  }

  ghost function Run(s: State, run: seq<Action>): State
    requires Possible(s, run)
    decreases |run|
  {
    if run == [] then s else Run(After(s, run[0]), run[1..])
  }

  function Start(now: nat, wallet: W.State): State
  {
    State(now, 0, 0, None, None, map[], wallet, [])
  }

  lemma {:induction false} RunKeepsInv(s: State, run: seq<Action>)
    requires Inv(s) && Possible(s, run)
    ensures Inv(Run(s, run))
    decreases |run|
  {
    if run != [] {
      StepKeepsInv(s, run[0]);
      RunKeepsInv(After(s, run[0]), run[1..]);
    }
  }

  function MovesOf(t: Tid, run: seq<Action>): nat
  {
    if run == [] then 0 else (if run[0].Move? && run[0].t == t then 1 else 0) + MovesOf(t, run[1..])
  }

  // ── who waits ──

  predicate SentWithWait(r: W.Request)
  {
    (r.Get? || r.List? || r.Alter?) && r.wait
  }

  /** On its way into the wait, or in it. */
  predicate OnTheWayToWait(pc: Pc)
  {
    pc.WaitEntry? || pc.Announce? || pc.SetDeadline? || pc.WantGen?
  }

  /** Only calls sent with `wait` true are on the way into the wait, in it, or have prompted anyone; none waits unprompted. */
  predicate WaitsAsSent(th: Thread)
  {
    && (OnTheWayToWait(th.pc) ==> SentWithWait(th.pc.r))
    && (InLoop(th.pc) ==> SentWithWait(th.pc.w.r))
    && (th.asked && (th.pc.Critical? || th.pc.InSession?) ==> SentWithWait(th.pc.r))
    && (th.asked ==> !th.pc.FirstCheck? && !th.pc.WaitEntry? && !th.pc.Announce?)
    && (th.pc.SetDeadline? || th.pc.WantGen? || InLoop(th.pc) ==> th.asked)
  }

  lemma TurnWaitsAsSent(s: State, th: Thread, ts: U64, f: W.Faults)
    requires LifeOk(th.pc) && SecretOk(th.pc) && WaitsAsSent(th)
    ensures WaitsAsSent(th.(pc := Turn(s, th, ts, f).pc, asked := th.asked || th.pc.Announce?))
  {}

  lemma {:induction false} RunWaitsAsSent(s: State, run: seq<Action>)
    requires Inv(s) && Possible(s, run) && forall t :: t in s.threads ==> WaitsAsSent(s.threads[t])
    ensures forall t :: t in Run(s, run).threads ==> WaitsAsSent(Run(s, run).threads[t])
    decreases |run|
  {
    if run != [] {
      var a := run[0];
      InvPcsOk(s);
      StepKeepsInv(s, a);
      if a.Move? {
        TurnWaitsAsSent(s, s.threads[a.t], a.ts, a.faults);
      }
      RunWaitsAsSent(After(s, a), run[1..]);
    }
  }

  /** Over every run: a call sent with `wait` false is never on the way into the wait or in it, and prompts nobody. */
  lemma OnlyWaitersWait(now: nat, wallet: W.State, run: seq<Action>, t: Tid)
    requires Possible(Start(now, wallet), run) && t in Run(Start(now, wallet), run).threads
    ensures WaitsAsSent(Run(Start(now, wallet), run).threads[t])
  {
    RunWaitsAsSent(Start(now, wallet), run);
  }

  /**
   The first look of a secret call: on to its work if the vault is open; locked, it ends there with `Locked` if it was sent
   with `wait` false, and goes on to wait, unanswered, if it was sent with `wait` true.
   */
  lemma FirstLook(s: State, th: Thread, ts: U64, f: W.Faults)
    requires th.pc.FirstCheck? && SecretOk(th.pc)
    ensures
      var e, r := Turn(s, th, ts, f), th.pc.r;
      && (r.Get? || r.List? || r.Alter?)
      && (s.wallet.live.Some? ==> e.pc == Critical(r) && e.answer.None?)
      && (s.wallet.live.None? && !r.wait ==>
            e.pc.Finished? && e.answer.Some? && e.answer.value.resp == W.Failed(Locked) && e.answer.value.r == r
            && e.answer.value.at == |s.log|)
      && (s.wallet.live.None? && r.wait ==> e.pc == WaitEntry(r) && e.answer.None?)
      && e.wallet == s.wallet
  {}

  // ── a cancel is never lost ──

  /** Whenever a parked waiter's generation is out of date, some canceller is between its bump and its notify. */
  lemma CancelNeverLost(now: nat, wallet: W.State, run: seq<Action>, t: Tid)
    requires Possible(Start(now, wallet), run)
    requires var s := Run(Start(now, wallet), run); t in s.threads && s.threads[t].pc.Parked?
    ensures var s := Run(Start(now, wallet), run); s.threads[t].pc.w.start != s.gen ==> NotifyPending(s)
  {
    RunKeepsInv(Start(now, wallet), run);
    assert ThreadInv(Run(Start(now, wallet), run), t);
  }

  /**
   The notify of a cancel and that of a lifecycle call take everyone out of the wait, so everyone parked before the bump is
   on the way out; no other step of another thread moves a waiter.
   */
  lemma NotifyWakesAll(s: State, a: Action, u: Tid)
    requires PcsOk(s) && Enabled(s, a) && a.Move? && u in s.threads
    ensures
      var pc, before := s.threads[a.t].pc, s.threads[u].pc;
      var s2 := After(s, a);
      && u in s2.threads
      && (pc.CancelBumped? || pc.LifeNotify? ==> !s2.threads[u].pc.Parked?)
      && (u != a.t ==>
            s2.threads[u].pc ==
            if before.Parked? && (pc.CancelBumped? || pc.LifeNotify?) then Woken(before.w) else before)
  {}

  /**
   Where a call begins, told by its first step: a lock locks, a cancel bumps the generation, and a secret call looks at the
   session, takes nothing and prompts nobody.
   */
  lemma CallStarts(s: State, t: Tid, call: Call, ts: U64, f: W.Faults)
    requires Inv(s) && PcsOk(s) && Enabled(s, Begin(t, call))
    requires PcsOk(After(s, Begin(t, call))) && Enabled(After(s, Begin(t, call)), Move(t, ts, f))
    ensures
      var s2 := After(After(s, Begin(t, call)), Move(t, ts, f));
      && t in s2.threads && !s2.threads[t].asked
      && match call
         case Locking =>
           && s2.wallet == W.State(s.wallet.file, None) && s2.threads[t].pc.Finished?
           && |s2.log| == |s.log| + 1 && s2.log[|s.log|].r == W.Lock && s2.log[|s.log|].resp == W.Done
         case Cancelling => s2.gen == (s.gen + 1) % TWO64 && s2.cancels == s.cancels + 1 && s2.wallet == s.wallet
         case Secret(r) =>
           && s2.wallet == s.wallet && s2.gen == s.gen
           && (s.wallet.live.Some? ==> s2.threads[t].pc == Critical(r))
           && (s.wallet.live.None? && r.wait ==> s2.threads[t].pc == WaitEntry(r))
           && (s.wallet.live.None? && !r.wait ==> s2.threads[t].pc.Finished?)
         case Life(_) => s2.wallet == s.wallet && s2.gen == s.gen
  {
    var m := After(s, Begin(t, call));
    CallMoves(m, t, ts, f);
  }

  lemma CallMoves(m: State, t: Tid, ts: U64, f: W.Faults)
    requires PcsOk(m) && Enabled(m, Move(t, ts, f))
    ensures
      var th, e := m.threads[t], Turn(m, m.threads[t], ts, f);
      After(m, Move(t, ts, f)).threads[t] == th.(pc := e.pc, asked := th.asked || th.pc.Announce?)
  {}

  /** A waiter that a cancel has overtaken: bumped since it captured, but by fewer than 2^64 cancels. */
  predicate Overtaken(s: State, t: Tid)
  {
    t in s.threads && InLoop(s.threads[t].pc) && s.threads[t].pc.w.k < s.cancels < s.threads[t].pc.w.k + TWO64
  }

  /** Own steps an overtaken waiter has left once it is not parked. */
  function StepsOut(pc: Pc): nat
  {
    if pc.Woken? then 3 else if pc.HoldCheck? then 2 else if pc.HoldGen? then 1 else 0
  }

  lemma ModApart(a: nat, b: nat)
    requires a < b < a + TWO64
    ensures a % TWO64 != b % TWO64
  {}

  lemma OvertakenNotPastCheck(s: State, t: Tid)
    requires Inv(s) && Overtaken(s, t)
    ensures !s.threads[t].pc.HoldTime? && !s.threads[t].pc.HoldPark?
    ensures s.threads[t].pc.w.start != s.gen
  {
    assert ThreadInv(s, t);
    ModApart(s.threads[t].pc.w.k, s.cancels);
  }

  /**
   Fewer than 2^64 cancels into its wait, an overtaken waiter that is not parked leaves the loop within three steps of
   its own, however other threads interleave; it cannot park again.
   */
  lemma {:induction false} OvertakenWaiterLeaves(s: State, run: seq<Action>, t: Tid)
    requires Inv(s) && Possible(s, run) && Overtaken(s, t) && !s.threads[t].pc.Parked?
    requires Run(s, run).cancels < s.threads[t].pc.w.k + TWO64
    ensures
      var e := Run(s, run);
      && t in e.threads
      && (InLoop(e.threads[t].pc) ==>
            && !e.threads[t].pc.Parked?
            && StepsOut(e.threads[t].pc) + MovesOf(t, run) <= StepsOut(s.threads[t].pc))
    decreases |run|
  {
    OvertakenNotPastCheck(s, t);
    if run != [] {
      var s2 := After(s, run[0]);
      StepKeepsInv(s, run[0]);
      CancelsGrow(s2, run[1..]);
      ThreadStep(s, run[0], t);
      if InLoop(s2.threads[t].pc) {
        OvertakenWaiterLeaves(s2, run[1..], t);
      } else {
        OutStaysOut(s2, run[1..], t);
      }
    }
  }

  lemma {:induction false} CancelsGrow(s: State, run: seq<Action>)
    requires Inv(s) && Possible(s, run)
    ensures s.cancels <= Run(s, run).cancels && s.now <= Run(s, run).now
    ensures s.threads.Keys <= Run(s, run).threads.Keys
    decreases |run|
  {
    if run != [] {
      StepKeepsInv(s, run[0]);
      if run[0].Move? {
        SurroundingsAfter(s, run[0]);
      }
      CancelsGrow(After(s, run[0]), run[1..]);
    }
  }

  predicate Outside(pc: Pc)
  {
    pc.Critical? || pc.InSession? || pc.Finished?
  }

  /** What one step can make of thread `t`: nothing, a wake-up, or one turn of its own. */
  lemma ThreadStep(s: State, a: Action, t: Tid)
    requires Inv(s) && PcsOk(s) && Enabled(s, a) && t in s.threads && (InLoop(s.threads[t].pc) || Outside(s.threads[t].pc))
    ensures
      var s2 := After(s, a);
      var pc, pc2 := s.threads[t].pc, s2.threads[t].pc;
      && t in s2.threads && s.cancels <= s2.cancels && s.now <= s2.now
      && (Outside(pc) ==> Outside(pc2))
      && (InLoop(pc) && !(a.Move? && a.t == t) ==> pc2 == pc || (pc.Parked? && pc2 == Woken(pc.w)))
      && (InLoop(pc) && a.Move? && a.t == t ==>
            || Outside(pc2)
            || (&& InLoop(pc2) && pc2.w == pc.w
                && (pc.HoldCheck? ==> pc2.HoldGen?)
                && (pc.HoldGen? ==> pc2.HoldTime?)
                && (pc.HoldTime? ==> s.now < pc.w.deadline && pc2.HoldPark?)
                && (pc.HoldPark? ==> pc2.Parked?)
                && (pc.Parked? ==> pc2.Woken?)
                && (pc.Woken? ==> pc2.HoldCheck?)))
  {
    if a.Move? {
      SurroundingsAfter(s, a);
    }
  }

  lemma {:induction false} OutStaysOut(s: State, run: seq<Action>, t: Tid)
    requires Inv(s) && Possible(s, run) && t in s.threads && Outside(s.threads[t].pc)
    ensures t in Run(s, run).threads && Outside(Run(s, run).threads[t].pc)
    decreases |run|
  {
    if run != [] {
      StepKeepsInv(s, run[0]);
      ThreadStep(s, run[0], t);
      OutStaysOut(After(s, run[0]), run[1..], t);
    }
  }

  // ── the deadline ends every wait ──

  /** Own steps a waiter has left at most once its deadline has passed. */
  function StepsLeft(pc: Pc): (n: nat)
    ensures n <= 6
  {
    match pc
    case HoldPark(_, _) => 6
    case Parked(_, _) => 5
    case Woken(_) => 4
    case HoldCheck(_) => 3
    case HoldGen(_, _) => 2
    case HoldTime(_, _) => 1
    case _ => 0
  }

  lemma DeadlineStep(s: State, a: Action, t: Tid)
    requires Inv(s) && PcsOk(s) && Enabled(s, a)
    requires t in s.threads && InLoop(s.threads[t].pc) && s.now >= s.threads[t].pc.w.deadline
    ensures
      var s2 := After(s, a);
      && t in s2.threads
      && (InLoop(s2.threads[t].pc) ==>
            && s2.now >= s2.threads[t].pc.w.deadline
            && StepsLeft(s2.threads[t].pc) + (if a.Move? && a.t == t then 1 else 0) <= StepsLeft(s.threads[t].pc))
      && (InLoop(s2.threads[t].pc) || Outside(s2.threads[t].pc))
  {
    ThreadStep(s, a, t);
  }

  /**
   Even if every notify was missed: once the deadline has passed, a waiter is out of the loop after six steps of its
   own, whatever the other threads do in between.
   */
  lemma {:induction false} DeadlineEndsWait(s: State, run: seq<Action>, t: Tid)
    requires Inv(s) && Possible(s, run)
    requires t in s.threads && InLoop(s.threads[t].pc) && s.now >= s.threads[t].pc.w.deadline
    ensures
      var e := Run(s, run);
      && t in e.threads
      && (InLoop(e.threads[t].pc) ==> StepsLeft(e.threads[t].pc) + MovesOf(t, run) <= StepsLeft(s.threads[t].pc))
    decreases |run|
  {
    if run != [] {
      var s2 := After(s, run[0]);
      StepKeepsInv(s, run[0]);
      DeadlineStep(s, run[0], t);
      if InLoop(s2.threads[t].pc) {
        DeadlineEndsWait(s2, run[1..], t);
      } else {
        OutStaysOut(s2, run[1..], t);
      }
    }
  }

  // ── an open vault is seen ──

  /** A secret call that will look at the session before it can be refused, or is past its loop and about to do its work. */
  predicate WillLook(pc: Pc)
  {
    || pc.FirstCheck? || pc.WaitEntry? || pc.Announce? || pc.SetDeadline? || pc.WantGen?
    || pc.HoldCheck? || pc.HoldPark? || pc.Parked? || pc.Woken? || pc.Critical? || pc.InSession?
  }

  ghost predicate OpenThroughout(s: State, run: seq<Action>)
    requires Possible(s, run)
    decreases |run|
  {
    s.wallet.live.Some? && (run == [] || OpenThroughout(After(s, run[0]), run[1..]))
  }

  /** The step is thread `t`'s last, and what it answers is `locked`. */
  predicate Refuses(s: State, a: Action, t: Tid)
    requires PcsOk(s) && Enabled(s, a)
  {
    && a.Move? && a.t == t && !s.threads[t].pc.Finished?
    && var e := Turn(s, s.threads[t], a.ts, a.faults);
       e.answer.Some? && e.answer.value.resp == W.Failed(Locked)
  }

  ghost predicate NeverRefused(s: State, run: seq<Action>, t: Tid)
    requires Possible(s, run)
    decreases |run|
  {
    run == [] || (!Refuses(s, run[0], t) && NeverRefused(After(s, run[0]), run[1..], t))
  }

  lemma CriticalOpen(s: State, th: Thread, ts: U64, f: W.Faults)
    requires LifeOk(th.pc) && SecretOk(th.pc) && th.pc.InSession? && s.wallet.live.Some? && f.writing != Some(Locked)
    ensures
      var e := Turn(s, th, ts, f);
      e.pc.Finished? && e.answer.Some? && e.answer.value.resp != W.Failed(Locked)
  {}

  lemma LookStep(s: State, a: Action, t: Tid)
    requires Inv(s) && PcsOk(s) && Enabled(s, a) && s.wallet.live.Some?
    requires t in s.threads && (WillLook(s.threads[t].pc) || s.threads[t].pc.Finished?)
    ensures !Refuses(s, a, t)
    ensures
      var s2 := After(s, a);
      t in s2.threads && (WillLook(s2.threads[t].pc) || s2.threads[t].pc.Finished?)
  {
    if a.Move? {
      SurroundingsAfter(s, a);
      if a.t == t && s.threads[t].pc.InSession? {
        CriticalOpen(s, s.threads[t], a.ts, a.faults);
      }
    }
  }

  /**
   A secret call still to look at the session, from its first check on, in a vault that stays open from now on, is never
   answered `locked`: not at once, not by its deadline, not by a cancel, not in its critical section.
   */
  lemma {:induction false} OpenVaultIsSeen(s: State, run: seq<Action>, t: Tid)
    requires Inv(s) && Possible(s, run) && OpenThroughout(s, run)
    requires t in s.threads && (WillLook(s.threads[t].pc) || s.threads[t].pc.Finished?)
    ensures NeverRefused(s, run, t)
    decreases |run|
  {
    if run != [] {
      StepKeepsInv(s, run[0]);
      LookStep(s, run[0], t);
      OpenVaultIsSeen(After(s, run[0]), run[1..], t);
    }
  }

  /** Why a waiter leaves its loop: for the critical section with the vault open, or refused after a cancel or in time. */
  lemma LeavesFor(s: State, th: Thread, t: Tid, ts: U64, f: W.Faults)
    requires Inv(s) && t in s.threads && th == s.threads[t] && InLoop(th.pc) && LifeOk(th.pc) && SecretOk(th.pc)
    ensures
      var e := Turn(s, th, ts, f);
      && (e.pc.Critical? ==> s.wallet.live.Some?)
      && (e.pc.Finished? <==> e.answer.Some?)
      && (e.answer.Some? ==>
            && e.answer.value.resp == W.Failed(Locked)
            && (e.answer.value.k < s.cancels || s.now >= th.began + UNLOCK_WAIT))
  {
    assert ThreadInv(s, t);
  }

  /** Whom a thread that cannot step waits for. */
  function Blocker(s: State, pc: Pc): Option<Tid>
  {
    if WantsHold(pc) && s.holder.Some? then s.holder else if WantsSession(pc) then s.busy else None
  }

  /**
   Nobody blocks for good: a thread that cannot step waits for the holder of one of the two mutexes; that one can step,
   or is a waiter at its look at the session, waiting for the holder of the session mutex, who can.
   */
  lemma HolderCanStep(s: State, t: Tid, ts: U64, f: W.Faults)
    requires Inv(s) && t in s.threads && !s.threads[t].pc.Finished? && f.writing != Some(Locked)
    requires !Enabled(s, Move(t, ts, f))
    ensures
      var b := Blocker(s, s.threads[t].pc);
      && b.Some? && b.value != t && b.value in s.threads
      && (Enabled(s, Move(b.value, ts, f))
          || (&& s.threads[b.value].pc.HoldCheck? && s.busy.Some? && s.busy.value !in {t, b.value}
              && Enabled(s, Move(s.busy.value, ts, f))))
  {
    var b := Blocker(s, s.threads[t].pc).value;
    assert ThreadInv(s, t) && ThreadInv(s, b);
    if s.busy.Some? {
      assert ThreadInv(s, s.busy.value);
    }
  }
}
