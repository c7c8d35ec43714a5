/**
 Linearisation of the concurrent agent: every answer of the machine of `Parking` is the one `Wallet` gives at a moment
 inside the call, as long as lifecycle calls keep out of each other's way and of saves.
 */
module Linearise {
  import opened Bytes
  import opened Entries
  import opened Parking
  import opened Wrappers
  import W = Wallet

  // ── replaying the history on the plain map ──

  /** The plain map after the answers so far; an answer true of an earlier moment has no effect of its own. */
  function Replay(w0: W.State, log: seq<Answer>): W.State
    decreases |log|
  {
    if log == [] then w0
    else
      var e := log[|log| - 1];
      var before := Replay(w0, log[..|log| - 1]);
      if e.at == |log| - 1 then W.Step(before, e.r, e.ts, e.faults).0 else before
  }

  /** Answer `i` is the plain map's answer at a moment within the call, and only an answer of the present has an effect. */
  predicate Justified(w0: W.State, log: seq<Answer>, i: nat)
    requires i < |log|
  {
    var e := log[i];
    && e.since <= e.at <= i
    && (var (after, resp) := W.Step(Replay(w0, log[..e.at]), e.r, e.ts, e.faults);
        e.resp == AtEffect(e.r, resp) && (e.at < i ==> after == Replay(w0, log[..e.at])))
    && (NeedsSession(e.r) ==> (e.resp == W.Failed(Locked) <==> Replay(w0, log[..e.at]).live.None?))
    && (NeedsSession(e.r) && e.at < i ==> e.k < e.cancels || e.time >= e.began + UNLOCK_WAIT)
    && (e.first != i ==> SecondHalf(log, i))
  }

  /** Answer `i` is the list of an unlock that answered earlier in the same call, and is true of this moment. */
  predicate SecondHalf(log: seq<Answer>, i: nat)
    requires i < |log|
  {
    var e := log[i];
    && e.first < i && e.at == i && e.r == W.List(false)
    && FirstHalf(log[e.first], e.since, e.began)
  }

  /** The successful install of an unlock of the call that arrived at `since` and `began`. */
  predicate FirstHalf(e: Answer, since: nat, began: nat)
  {
    e.r.Unlock? && e.resp == W.Done && e.since == since && e.began == began
  }

  ghost predicate AllJustified(w0: W.State, log: seq<Answer>)
  {
    forall i :: 0 <= i < |log| ==> Justified(w0, log, i)
  }

  lemma ReplayAppend(w0: W.State, log: seq<Answer>, e: Answer)
    ensures
      Replay(w0, log + [e])
      == if e.at == |log| then W.Step(Replay(w0, log), e.r, e.ts, e.faults).0 else Replay(w0, log)
  {
    assert (log + [e])[..|log|] == log;
  }

  /** An answer appended to a justified history leaves the earlier ones justified. */
  lemma JustifiedAppend(w0: W.State, log: seq<Answer>, e: Answer)
    requires AllJustified(w0, log) && Justified(w0, log + [e], |log|)
    ensures AllJustified(w0, log + [e])
  {
    var log2 := log + [e];
    forall i | 0 <= i < |log2| ensures Justified(w0, log2, i) {
      if i < |log| {
        assert Justified(w0, log, i);
        assert log2[i] == log[i];
        assert log2[..log2[i].at] == log[..log[i].at];
        assert log[i].first < i ==> log2[log[i].first] == log[log[i].first];
      }
    }
  }

  // ── the hypothesis ──

  /** Between a lifecycle call's read of the file and its install of the session. */
  predicate InWindow(pc: Pc)
  {
    pc.LifeWrite? || pc.LifeInstall?
  }

  predicate NoWindow(s: State)
  {
    forall t :: t in s.threads ==> !InWindow(s.threads[t].pc)
  }

  /**
   A call in its critical section that gets as far as a save, which may succeed or fail: even one that fails has the temp
   file open for a while. Whether the change applies does not depend on the clock.
   */
  predicate Saves(s: State, pc: Pc)
  {
    && pc.InSession? && pc.r.Alter? && s.wallet.live.Some?
    && Apply(s.wallet.live.value.entries, pc.r.change, 0).Ok?
  }

  predicate NoSaver(s: State)
  {
    forall t :: t in s.threads ==> !Saves(s, s.threads[t].pc)
  }

  /**
   Lifecycle calls do not overlap each other, no save is attempted between a lifecycle call's read and its install, and
   none is under way when a lifecycle call's own write ends, well or badly.
   */
  predicate Disciplined(s: State, a: Action)
  {
    a.Move? && a.t in s.threads ==>
      && (s.threads[a.t].pc.LifeStart? ==> NoWindow(s))
      && (s.threads[a.t].pc.LifeWrite? ==> NoSaver(s))
      && (Saves(s, s.threads[a.t].pc) ==> NoWindow(s))
  }

  ghost predicate DisciplinedRun(s: State, run: seq<Action>)
    requires Possible(s, run)
    decreases |run|
  {
    run == [] || (Disciplined(s, run[0]) && DisciplinedRun(After(s, run[0]), run[1..]))
  }

  // ── the invariant ──

  /** What a call between its read and its install knows about the map, and what it has already put in the file. */
  predicate WindowHolds(s: State, abs: W.State, pc: Pc)
    requires LifeOk(pc)
  {
    match pc
    case LifeWrite(r, m) =>
      abs == s.wallet && !r.Unlock?
      && (r.Create? ==> abs.file.None? && m == map[])
      && (r.Rotate? ==> abs.file == Some(W.Stored(r.oldPw, m)))
    case LifeInstall(r, st) =>
      && abs.live == s.wallet.live && s.wallet.file == Some(st) && st.pw == NewPassword(r)
      && (r.Unlock? ==> abs.file == Some(st))
      && (r.Create? ==> abs.file.None? && st.entries == map[])
      && (r.Rotate? ==> abs.file == Some(W.Stored(r.oldPw, st.entries)))
    case _ => true
  }

  /** A waiter that last saw the vault locked remembers a moment of its own call at which the map was locked. */
  predicate SeenLocked(w0: W.State, s: State, t: Tid)
    requires t in s.threads
  {
    var th := s.threads[t];
    && th.since <= |s.log|
    && (th.pc.HoldGen? || th.pc.HoldTime? ==>
          th.since <= th.pc.seen <= |s.log| && Replay(w0, s.log[..th.pc.seen]).live.None?)
  }

  /** An unlock that has installed and not yet read its list remembers its install. */
  predicate FirstKept(s: State, t: Tid)
    requires t in s.threads
  {
    var th := s.threads[t];
    th.pc.LifeList? || (th.pc.LifeNotify? && th.pc.r.Unlock?) ==>
      th.pc.first < |s.log| && FirstHalf(s.log[th.pc.first], th.since, th.began)
  }

  ghost predicate Windows(w0: W.State, s: State)
    requires PcsOk(s)
  {
    var abs := Replay(w0, s.log);
    && abs.live == s.wallet.live
    && (NoWindow(s) ==> abs == s.wallet)
    && (forall t :: t in s.threads && InWindow(s.threads[t].pc) ==> WindowHolds(s, abs, s.threads[t].pc))
    && (forall t, u :: t in s.threads && u in s.threads && InWindow(s.threads[t].pc) && InWindow(s.threads[u].pc)
          ==> t == u)
  }

  ghost predicate Linear(w0: W.State, s: State)
  {
    && Inv(s) && PcsOk(s)
    && AllJustified(w0, s.log)
    && (forall t :: t in s.threads ==> SeenLocked(w0, s, t) && FirstKept(s, t))
    && Windows(w0, s)
  }

  /** A session call that does not save answers from the live copy alone and leaves the file as it is. */
  lemma LiveDecides(a: W.State, b: W.State, r: W.Request, ts: U64, f: W.Faults)
    requires a.live == b.live && NeedsSession(r)
    requires r.Alter? && a.live.Some? && Apply(a.live.value.entries, r.change, ts).Ok? ==> f.writing.Some?
    ensures
      && W.Step(a, r, ts, f).1 == W.Step(b, r, ts, f).1
      && W.Step(a, r, ts, f).0.live == W.Step(b, r, ts, f).0.live
      && W.Step(a, r, ts, f).0.file == a.file
  {}

  lemma LockedExactly(w: W.State, r: W.Request, ts: U64, f: W.Faults)
    requires NeedsSession(r) && f.writing != Some(Locked)
    ensures W.Step(w, r, ts, f).1 == W.Failed(Locked) <==> w.live.None?
  {}

  // ── each kind of step ──

  lemma SeenStays(w0: W.State, s: State, a: Action, u: Tid)
    requires Linear(w0, s) && Enabled(s, a) && u in s.threads
    requires u in After(s, a).threads
    requires After(s, a).log == s.log || (|After(s, a).log| == |s.log| + 1 && s.log <= After(s, a).log)
    requires After(s, a).threads[u].since == s.threads[u].since
    requires
      var pc, pc2 := s.threads[u].pc, After(s, a).threads[u].pc;
      || !(pc2.HoldGen? || pc2.HoldTime?)
      || pc2 == pc
      || (pc.HoldGen? && pc2.HoldTime? && pc2.seen == pc.seen)
      || (pc2.HoldGen? && After(s, a).log == s.log && pc2.seen == |s.log| && s.wallet.live.None?)
    ensures SeenLocked(w0, After(s, a), u)
  {
    assert SeenLocked(w0, s, u);
    var s2 := After(s, a);
    var pc2 := s2.threads[u].pc;
    if pc2.HoldGen? || pc2.HoldTime? {
      assert s2.log[..|s.log|] == s.log;
      assert s2.log[..pc2.seen] == s.log[..pc2.seen];
      assert s.log[..|s.log|] == s.log;
    }
  }

  /** How a step changes threads and history, whatever it does to the contents. */
  lemma ShapeAfter(s: State, a: Action)
    requires Inv(s) && PcsOk(s) && Enabled(s, a)
    ensures
      var s2 := After(s, a);
      && (s2.log == s.log || (|s2.log| == |s.log| + 1 && s.log <= s2.log))
      && s.threads.Keys <= s2.threads.Keys
      && (forall u :: u in s2.threads && u !in s.threads ==>
            && a.Begin? && u == a.t && !InWindow(s2.threads[u].pc) && !Holds(s2.threads[u].pc)
            && !s2.threads[u].pc.LifeNotify? && !s2.threads[u].pc.LifeList? && s2.threads[u].since == |s2.log|
            && s2.threads[u].began == s2.now)
      && (forall u :: u in s.threads ==>
            && s2.threads[u].since == s.threads[u].since && s2.threads[u].began == s.threads[u].began
            && (!(a.Move? && u == a.t) ==>
                  s2.threads[u] == s.threads[u] || (s.threads[u].pc.Parked? && s2.threads[u].pc.Woken?)))
  {
    if a.Move? {
      SurroundingsAfter(s, a);
    }
  }

  lemma SeenAfter(w0: W.State, s: State, a: Action)
    requires Linear(w0, s) && Enabled(s, a)
    ensures forall u :: u in After(s, a).threads ==> SeenLocked(w0, After(s, a), u)
  {
    ShapeAfter(s, a);
    forall u | u in After(s, a).threads ensures SeenLocked(w0, After(s, a), u) {
      if u in s.threads {
        MoverSeen(s, a);
        SeenStays(w0, s, a, u);
      }
    }
  }

  lemma FirstAfter(w0: W.State, s: State, a: Action)
    requires Linear(w0, s) && Enabled(s, a)
    ensures forall u :: u in After(s, a).threads ==> FirstKept(After(s, a), u)
  {
    ShapeAfter(s, a);
    forall u | u in After(s, a).threads ensures FirstKept(After(s, a), u) {
      if u in s.threads {
        assert FirstKept(s, u);
        MoverFirst(s, a);
      }
    }
  }

  lemma MoverFirst(s: State, a: Action)
    requires Inv(s) && PcsOk(s) && Enabled(s, a) && (a.Move? ==> FirstKept(s, a.t))
    ensures a.Move? ==> FirstKept(After(s, a), a.t)
  {}

  lemma MoverSeen(s: State, a: Action)
    requires Inv(s) && PcsOk(s) && Enabled(s, a)
    ensures a.Move? ==>
      var pc, pc2 := s.threads[a.t].pc, After(s, a).threads[a.t].pc;
      && (pc2.HoldGen? ==> pc.HoldCheck? && After(s, a).log == s.log && pc2.seen == |s.log| && s.wallet.live.None?)
      && (pc2.HoldTime? ==> pc.HoldGen? && pc2.seen == pc.seen)
  {}

  /** The state after is again linear, as far as history and contents go. */
  ghost predicate Kept(w0: W.State, s2: State)
    requires PcsOk(s2)
  {
    AllJustified(w0, s2.log) && Windows(w0, s2)
  }

  lemma PcsOkAfter(s: State, a: Action)
    requires Inv(s) && PcsOk(s) && Enabled(s, a)
    ensures PcsOk(After(s, a))
  {
    StepKeepsInv(s, a);
    InvPcsOk(After(s, a));
  }

  /** The windows after a step from outside them that changes map and contents alike, or neither. */
  lemma WindowsFollow(w0: W.State, s: State, a: Action)
    requires Linear(w0, s) && Enabled(s, a) && PcsOk(After(s, a))
    requires a.Move? ==> !InWindow(s.threads[a.t].pc) && !InWindow(After(s, a).threads[a.t].pc)
    requires
      var abs, abs2 := Replay(w0, s.log), Replay(w0, After(s, a).log);
      && abs2.live == After(s, a).wallet.live
      && (abs == s.wallet ==> abs2 == After(s, a).wallet)
      && (!NoWindow(s) ==> abs2.file == abs.file && After(s, a).wallet.file == s.wallet.file)
    ensures Windows(w0, After(s, a))
  {
    ShapeAfter(s, a);
    SameOccupants(s, a);
    var s2 := After(s, a);
    var abs2 := Replay(w0, s2.log);
    forall t | t in s2.threads && InWindow(s2.threads[t].pc) ensures WindowHolds(s2, abs2, s2.threads[t].pc) {
      assert WindowHolds(s, Replay(w0, s.log), s.threads[t].pc);
    }
  }

  /** Such a step leaves everyone in a window where they were, and lets nobody in or out. */
  lemma SameOccupants(s: State, a: Action)
    requires Inv(s) && PcsOk(s) && Enabled(s, a)
    requires a.Move? ==> !InWindow(s.threads[a.t].pc) && !InWindow(After(s, a).threads[a.t].pc)
    ensures
      var s2 := After(s, a);
      && (forall u :: u in s2.threads && InWindow(s2.threads[u].pc) ==> u in s.threads && s2.threads[u] == s.threads[u])
      && (forall u :: u in s.threads && InWindow(s.threads[u].pc) ==> u in s2.threads && s2.threads[u] == s.threads[u])
      && (NoWindow(s) <==> NoWindow(s2))
  {
    ShapeAfter(s, a);
  }

  lemma QuietStep(w0: W.State, s: State, a: Action)
    requires Linear(w0, s) && Enabled(s, a) && PcsOk(After(s, a))
    requires After(s, a).wallet == s.wallet && After(s, a).log == s.log
    requires a.Move? ==> !InWindow(s.threads[a.t].pc) && !InWindow(After(s, a).threads[a.t].pc)
    ensures Kept(w0, After(s, a))
  {
    WindowsFollow(w0, s, a);
  }

  /** An answer `locked` that was true at a moment `e.at` of the call is justified. */
  lemma LockedJustified(w0: W.State, log: seq<Answer>, e: Answer)
    requires AllJustified(w0, log) && e.since <= e.at <= |log| && NeedsSession(e.r)
    requires Replay(w0, log[..e.at]).live.None? && e.resp == W.Failed(Locked) && e.faults == W.NO_FAULT
    requires e.at < |log| ==> e.k < e.cancels || e.time >= e.began + UNLOCK_WAIT
    requires e.first == |log|
    ensures AllJustified(w0, log + [e]) && Replay(w0, log + [e]) == Replay(w0, log)
  {
    ReplayAppend(w0, log, e);
    LockedExactly(Replay(w0, log[..e.at]), e.r, e.ts, e.faults);
    assert log[..|log|] == log;
    assert (log + [e])[..e.at] == log[..e.at];
    JustifiedAppend(w0, log, e);
  }

  /** Answers `locked`, for now or for the last check. */
  lemma LockedAnswer(w0: W.State, s: State, a: Action)
    requires Linear(w0, s) && Enabled(s, a) && PcsOk(After(s, a)) && a.Move?
    requires
      var pc := s.threads[a.t].pc;
      (pc.FirstCheck? || pc.HoldGen? || pc.HoldTime?) && After(s, a).log != s.log
    ensures Kept(w0, After(s, a))
  {
    var e := Turn(s, s.threads[a.t], a.ts, a.faults).answer.value;
    LockedFacts(w0, s, a);
    LockedJustified(w0, s.log, e);
    LockedWindows(w0, s, a, e);
  }

  lemma LockedWindows(w0: W.State, s: State, a: Action, e: Answer)
    requires Linear(w0, s) && Enabled(s, a) && PcsOk(After(s, a)) && a.Move?
    requires !InWindow(s.threads[a.t].pc) && After(s, a).threads[a.t].pc.Finished? && After(s, a).wallet == s.wallet
    requires After(s, a).log == s.log + [e] && Replay(w0, s.log + [e]) == Replay(w0, s.log)
    ensures Windows(w0, After(s, a))
  {
    WindowsFollow(w0, s, a);
  }

  lemma LockedFacts(w0: W.State, s: State, a: Action)
    requires Linear(w0, s) && Enabled(s, a) && a.Move?
    requires
      var pc := s.threads[a.t].pc;
      (pc.FirstCheck? || pc.HoldGen? || pc.HoldTime?) && Turn(s, s.threads[a.t], a.ts, a.faults).answer.Some?
    ensures
      var e := Turn(s, s.threads[a.t], a.ts, a.faults).answer.value;
      && e.since <= e.at <= |s.log| && NeedsSession(e.r)
      && Replay(w0, s.log[..e.at]).live.None? && e.resp == W.Failed(Locked) && e.faults == W.NO_FAULT
      && (e.at < |s.log| ==> e.k < e.cancels || e.time >= e.began + UNLOCK_WAIT)
      && e.first == |s.log|
  {
    assert ThreadInv(s, a.t) && SeenLocked(w0, s, a.t);
    assert s.log[..|s.log|] == s.log;
  }

  /** An answer of the present is justified by the map it is given on. */
  lemma PresentAnswer(w0: W.State, log: seq<Answer>, e: Answer)
    requires AllJustified(w0, log) && e.at == |log| && e.since <= |log|
    requires e.resp == AtEffect(e.r, W.Step(Replay(w0, log), e.r, e.ts, e.faults).1)
    requires e.first == |log| || SecondHalf(log + [e], |log|)
    requires e.faults.writing != Some(Locked)
    ensures AllJustified(w0, log + [e])
    ensures Replay(w0, log + [e]) == W.Step(Replay(w0, log), e.r, e.ts, e.faults).0
  {
    ReplayAppend(w0, log, e);
    assert (log + [e])[..|log|] == log;
    if NeedsSession(e.r) {
      LockedExactly(Replay(w0, log), e.r, e.ts, e.faults);
    }
    JustifiedAppend(w0, log, e);
  }

  lemma SessionStep(w0: W.State, s: State, a: Action)
    requires Linear(w0, s) && Enabled(s, a) && PcsOk(After(s, a)) && Disciplined(s, a)
    requires a.Move? && s.threads[a.t].pc.InSession?
    ensures Kept(w0, After(s, a))
  {
    var s2 := After(s, a);
    var th := s.threads[a.t];
    var r := th.pc.r;
    var e := Turn(s, th, a.ts, a.faults).answer.value;
    var abs := Replay(w0, s.log);
    assert SeenLocked(w0, s, a.t) && SecretOk(th.pc);
    if Saves(s, th.pc) {
      assert abs == s.wallet;
    } else {
      LiveDecides(abs, s.wallet, r, a.ts, a.faults);
      LiveDecides(s.wallet, abs, r, a.ts, a.faults);
    }
    PresentAnswer(w0, s.log, e);
    ShapeAfter(s, a);
    WindowsFollow(w0, s, a);
  }

  /** An unlock reads the list of its reply. */
  lemma ListStep(w0: W.State, s: State, a: Action)
    requires Linear(w0, s) && Enabled(s, a) && PcsOk(After(s, a))
    requires a.Move? && s.threads[a.t].pc.LifeList?
    ensures Kept(w0, After(s, a))
  {
    var th := s.threads[a.t];
    var e := ListHalf(s, th, th.pc.first);
    assert SeenLocked(w0, s, a.t) && FirstKept(s, a.t);
    assert (s.log + [e])[th.pc.first] == s.log[th.pc.first];
    assert SecondHalf(s.log + [e], |s.log|);
    PresentAnswer(w0, s.log, e);
    WindowsFollow(w0, s, a);
  }

  lemma LockStep(w0: W.State, s: State, a: Action)
    requires Linear(w0, s) && Enabled(s, a) && PcsOk(After(s, a))
    requires a.Move? && s.threads[a.t].pc.LockStart?
    ensures Kept(w0, After(s, a))
  {
    var e := Turn(s, s.threads[a.t], a.ts, a.faults).answer.value;
    assert SeenLocked(w0, s, a.t);
    PresentAnswer(w0, s.log, e);
    WindowsFollow(w0, s, a);
  }

  /** A step by the only thread in a window, or that enters one, which changes neither history nor live copy. */
  lemma WindowStep(w0: W.State, s: State, a: Action)
    requires Linear(w0, s) && Enabled(s, a) && PcsOk(After(s, a)) && a.Move?
    requires forall u :: u in s.threads && InWindow(s.threads[u].pc) ==> u == a.t
    requires
      var s2 := After(s, a);
      && s2.log == s.log && s2.wallet.live == s.wallet.live
      && InWindow(s2.threads[a.t].pc) && WindowHolds(s2, Replay(w0, s.log), s2.threads[a.t].pc)
    ensures Kept(w0, After(s, a))
  {
    ShapeAfter(s, a);
    var s2 := After(s, a);
    assert forall u :: u in s2.threads && InWindow(s2.threads[u].pc) ==> u == a.t;
    assert a.t in s2.threads;
  }

  lemma LifeStartStep(w0: W.State, s: State, a: Action)
    requires Linear(w0, s) && Enabled(s, a) && PcsOk(After(s, a)) && Disciplined(s, a)
    requires a.Move? && s.threads[a.t].pc.LifeStart?
    ensures Kept(w0, After(s, a))
  {
    var th := s.threads[a.t];
    var t := Turn(s, th, a.ts, a.faults);
    if t.answer.Some? {
      assert SeenLocked(w0, s, a.t) && LifeOk(th.pc);
      PresentAnswer(w0, s.log, t.answer.value);
      WindowsFollow(w0, s, a);
    } else {
      WindowStep(w0, s, a);
    }
  }

  lemma LifeWriteStep(w0: W.State, s: State, a: Action)
    requires Linear(w0, s) && Enabled(s, a) && PcsOk(After(s, a))
    requires a.Move? && s.threads[a.t].pc.LifeWrite?
    ensures Kept(w0, After(s, a))
  {
    var th := s.threads[a.t];
    assert LifeOk(th.pc) && WindowHolds(s, Replay(w0, s.log), th.pc);
    if Turn(s, th, a.ts, a.faults).answer.Some? {
      WriteFailedStep(w0, s, a);
    } else {
      WindowStep(w0, s, a);
    }
  }

  lemma WriteFailedStep(w0: W.State, s: State, a: Action)
    requires Linear(w0, s) && Enabled(s, a) && PcsOk(After(s, a))
    requires a.Move? && s.threads[a.t].pc.LifeWrite? && a.faults.writing.Some?
    ensures Kept(w0, After(s, a))
  {
    var th := s.threads[a.t];
    assert SeenLocked(w0, s, a.t) && LifeOk(th.pc) && WindowHolds(s, Replay(w0, s.log), th.pc);
    PresentAnswer(w0, s.log, Turn(s, th, a.ts, a.faults).answer.value);
    ShapeAfter(s, a);
    assert NoWindow(After(s, a));
  }

  lemma LifeInstallStep(w0: W.State, s: State, a: Action)
    requires Linear(w0, s) && Enabled(s, a) && PcsOk(After(s, a))
    requires a.Move? && s.threads[a.t].pc.LifeInstall?
    ensures Kept(w0, After(s, a))
  {
    var s2 := After(s, a);
    var th := s.threads[a.t];
    var e := Turn(s, th, a.ts, a.faults).answer.value;
    assert SeenLocked(w0, s, a.t) && LifeOk(th.pc);
    assert WindowHolds(s, Replay(w0, s.log), th.pc);
    ShapeAfter(s, a);
    PresentAnswer(w0, s.log, e);
    assert NoWindow(s2);
  }

  /** A thread's step keeps history and contents linear. */
  lemma MoveKeeps(w0: W.State, s: State, a: Action)
    requires Linear(w0, s) && Enabled(s, a) && Disciplined(s, a) && PcsOk(After(s, a)) && a.Move?
    ensures Kept(w0, After(s, a))
  {
    var pc := s.threads[a.t].pc;
    if Lifecycle(pc) {
      LifeKeeps(w0, s, a);
    } else if pc.InSession? {
      SessionStep(w0, s, a);
    } else if pc.LockStart? {
      LockStep(w0, s, a);
    } else if After(s, a).log != s.log {
      LockedAnswer(w0, s, a);
    } else {
      QuietStep(w0, s, a);
    }
  }

  lemma LifeKeeps(w0: W.State, s: State, a: Action)
    requires Linear(w0, s) && Enabled(s, a) && Disciplined(s, a) && PcsOk(After(s, a)) && a.Move?
    requires Lifecycle(s.threads[a.t].pc)
    ensures Kept(w0, After(s, a))
  {
    var pc := s.threads[a.t].pc;
    if pc.LifeList? {
      ListStep(w0, s, a);
    } else if pc.LifeStart? {
      LifeStartStep(w0, s, a);
    } else if pc.LifeWrite? {
      LifeWriteStep(w0, s, a);
    } else if pc.LifeInstall? {
      LifeInstallStep(w0, s, a);
    } else {
      QuietStep(w0, s, a);
    }
  }

  lemma StepKeepsLinear(w0: W.State, s: State, a: Action)
    requires Linear(w0, s) && Enabled(s, a) && Disciplined(s, a)
    ensures Linear(w0, After(s, a))
  {
    StepKeepsInv(s, a);
    PcsOkAfter(s, a);
    SeenAfter(w0, s, a);
    FirstAfter(w0, s, a);
    if a.Move? {
      MoveKeeps(w0, s, a);
    } else {
      QuietStep(w0, s, a);
    }
  }

  // ── what the hypothesis buys ──

  /** While a saver holds the session mutex, others leave the live copy alone. */
  lemma HolderKeepsLive(s: State, a: Action, u: Tid)
    requires Inv(s) && PcsOk(s) && Enabled(s, a) && u in s.threads && s.threads[u].pc.InSession?
    requires a.Move? ==> a.t != u
    ensures After(s, a).wallet.live == s.wallet.live
  {
    assert ThreadInv(s, u);
    if a.Move? {
      assert ThreadInv(s, a.t);
    }
  }

  /**
   Two writers never share the temp file in a disciplined run: once a lifecycle call that is still to write and a saver
   are both at it, neither write can end in a disciplined way.
   */
  lemma {:induction false} WritesNeverOverlap(s: State, run: seq<Action>, t: Tid, u: Tid)
    requires Inv(s) && Possible(s, run) && DisciplinedRun(s, run)
    requires t in s.threads && s.threads[t].pc.LifeWrite? && u in s.threads && Saves(s, s.threads[u].pc)
    ensures
      var e := Run(s, run);
      t in e.threads && e.threads[t] == s.threads[t] && u in e.threads && e.threads[u] == s.threads[u]
    decreases |run|
  {
    if run != [] {
      var a := run[0];
      InvPcsOk(s);
      StepKeepsInv(s, a);
      ShapeAfter(s, a);
      HolderKeepsLive(s, a, u);
      WritesNeverOverlap(After(s, a), run[1..], t, u);
    }
  }

  // ── whole runs ──

  lemma {:induction false} RunKeepsLinear(w0: W.State, s: State, run: seq<Action>)
    requires Linear(w0, s) && Possible(s, run) && DisciplinedRun(s, run)
    ensures Linear(w0, Run(s, run))
    decreases |run|
  {
    if run != [] {
      StepKeepsLinear(w0, s, run[0]);
      RunKeepsLinear(w0, After(s, run[0]), run[1..]);
    }
  }

  /**
   Linearisation: however secret, lock, auto-lock and cancel steps of any number of threads interleave, and as long as
   lifecycle calls are disciplined, every answer given is the plain map's at a moment inside the call; it is `locked`
   exactly when the map is locked at that moment, and a waiter is refused only after a cancel or its full time. An unlock
   answers twice: that it succeeded, then its list, as the plain map's `List` would answer at that later moment.
   */
  lemma EveryAnswerLinearises(now: nat, w0: W.State, run: seq<Action>)
    requires Possible(Start(now, w0), run) && DisciplinedRun(Start(now, w0), run)
    ensures
      var s := Run(Start(now, w0), run);
      && AllJustified(w0, s.log)
      && Replay(w0, s.log).live == s.wallet.live
      && (NoWindow(s) ==> Replay(w0, s.log) == s.wallet)
  {
    assert Linear(w0, Start(now, w0));
    RunKeepsLinear(w0, Start(now, w0), run);
  }

  /**
   A waiter's verdict, over every disciplined run: it goes on to its critical section only from a look at an open vault,
   and is refused only with a moment of its own call at which the map was locked, after a cancel since it began to wait
   or after its full time.
   */
  lemma WaiterVerdict(now: nat, w0: W.State, run: seq<Action>, a: Action)
    requires Possible(Start(now, w0), run) && DisciplinedRun(Start(now, w0), run)
    requires
      var s := Run(Start(now, w0), run);
      PcsOk(s) && Enabled(s, a) && a.Move? && InLoop(s.threads[a.t].pc)
    ensures
      var s := Run(Start(now, w0), run);
      var e := Turn(s, s.threads[a.t], a.ts, a.faults);
      && (e.pc.Critical? ==> s.wallet.live.Some?)
      && (e.pc.Finished? ==>
            && e.answer.Some? && e.answer.value.resp == W.Failed(Locked)
            && var x := e.answer.value;
               && x.since <= x.at <= |s.log| && Replay(w0, s.log[..x.at]).live.None?
               && (x.k < s.cancels || s.now >= x.began + UNLOCK_WAIT))
  {
    assert Linear(w0, Start(now, w0));
    RunKeepsLinear(w0, Start(now, w0), run);
    var s := Run(Start(now, w0), run);
    LeavesFor(s, s.threads[a.t], a.t, a.ts, a.faults);
    assert SeenLocked(w0, s, a.t);
  }

  /** The entries an unlock's reply carries: none when the vault turned out locked again. */
  function ListedEntries(resp: W.Response): map<string, W.Summary>
  {
    if resp.Listing? then resp.entries else map[]
  }

  function LiveSummaries(w: W.State): map<string, W.Summary>
  {
    if w.live.Some? then W.Summaries(w.live.value.entries) else map[]
  }

  /**
   The two halves of an unlock's reply, over every disciplined run: that it succeeded is true of the map at a moment of
   the call, and the entries it lists are those of the live copy at a later moment of the same call, none if the vault is
   locked again by then.
   */
  lemma UnlockReplyHalves(now: nat, w0: W.State, run: seq<Action>, i: nat)
    requires Possible(Start(now, w0), run) && DisciplinedRun(Start(now, w0), run)
    requires var log := Run(Start(now, w0), run).log; i < |log| && log[i].first != i
    ensures
      var log := Run(Start(now, w0), run).log;
      var j := log[i].first;
      && j < i && log[j].r.Unlock? && log[j].since == log[i].since <= log[j].at <= j
      && W.Authenticate(Replay(w0, log[..log[j].at]), log[j].r.pw, log[j].faults.reading).Ok?
      && ListedEntries(log[i].resp) == LiveSummaries(Replay(w0, log[..i]))
  {
    EveryAnswerLinearises(now, w0, run);
    var log := Run(Start(now, w0), run).log;
    assert Justified(w0, log, i) && Justified(w0, log, log[i].first);
  }

  // ── the hypothesis holds by itself for a lone unlock from locked ──

  /**
   The only lifecycle call under way, if any, is thread `t`'s, and up to its install it is the unlock of a locked vault.
   */
  predicate LoneUnlock(s: State, t: Tid)
  {
    && t in s.threads
    && (var pc := s.threads[t].pc;
        (pc.LifeStart? || InWindow(pc) ==> s.wallet.live.None?) && (pc.LifeStart? ==> pc.r.Unlock?) && !pc.LifeWrite?)
    && forall u :: u in s.threads && u != t ==> !Lifecycle(s.threads[u].pc)
  }

  predicate BringsLifecycle(a: Action)
  {
    a.Begin? && a.call.Life?
  }

  /** A step of a thread outside the lifecycle leaves a locked vault locked, and the thread outside. */
  lemma OthersKeepLocked(s: State, th: Thread, ts: U64, f: W.Faults)
    requires LifeOk(th.pc) && SecretOk(th.pc) && !Lifecycle(th.pc)
    ensures !Lifecycle(Turn(s, th, ts, f).pc)
    ensures s.wallet.live.None? ==> Turn(s, th, ts, f).wallet.live.None?
  {}

  /** The unlock's own steps: from its read to its install, then out of the lifecycle for good. */
  lemma OwnStepKeepsLone(s: State, th: Thread, ts: U64, f: W.Faults)
    requires LifeOk(th.pc) && SecretOk(th.pc) && !th.pc.LifeWrite? && (th.pc.LifeStart? ==> th.pc.r.Unlock?)
    requires th.pc.LifeStart? || InWindow(th.pc) ==> s.wallet.live.None?
    ensures
      var e := Turn(s, th, ts, f);
      && !e.pc.LifeStart? && !e.pc.LifeWrite?
      && (e.pc.LifeInstall? ==> e.wallet.live.None?)
  {}

  lemma LoneUnlockStep(s: State, a: Action, t: Tid)
    requires Inv(s) && PcsOk(s) && Enabled(s, a) && LoneUnlock(s, t) && !BringsLifecycle(a)
    ensures Disciplined(s, a) && LoneUnlock(After(s, a), t)
  {
    ShapeAfter(s, a);
    if a.Move? && a.t != t {
      OthersKeepLocked(s, s.threads[a.t], a.ts, a.faults);
    } else if a.Move? {
      OwnStepKeepsLone(s, s.threads[t], a.ts, a.faults);
    }
  }

  /**
   An unlock that starts from a locked vault needs no discipline from anyone: in every run from there, its read, its
   install and beyond, in which no other lifecycle call arrives, every step is disciplined.
   */
  lemma {:induction false} LoneUnlockIsDisciplined(s: State, run: seq<Action>, t: Tid)
    requires Inv(s) && Possible(s, run) && LoneUnlock(s, t)
    requires forall i :: 0 <= i < |run| ==> !BringsLifecycle(run[i])
    ensures DisciplinedRun(s, run)
    decreases |run|
  {
    if run != [] {
      LoneUnlockStep(s, run[0], t);
      StepKeepsInv(s, run[0]);
      LoneUnlockIsDisciplined(After(s, run[0]), run[1..], t);
    }
  }
}
