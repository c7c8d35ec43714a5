/**
 What saves do to a lifecycle call they fall into (`create`, `unlock` and `rotate` of `native/src/server.rs`, which read
 and write the file outside the session mutex and install the session afterwards). One call, `t`'s, is followed from its
 start to its install; no other lifecycle call is under way, everything else goes on as it may.
 */
module Overlap {
  import opened Bytes
  import opened Entries
  import opened Linearise
  import opened Parking
  import opened Wrappers
  import W = Wallet

  // ── the map without the call ──

  /** A step of another call as the plain map does it. */
  function Aside(s: State, a: Action, t: Tid, o: W.State): W.State
  {
    if !a.Move? || a.t == t || a.t !in s.threads then o
    else
      match s.threads[a.t].pc
      case InSession(r) => W.Step(o, r, a.ts, a.faults).0
      case LockStart => o.(live := None)
      case _ => o
  }

  /** The plain map after every call of the run but `t`'s. */
  ghost function Others(s: State, run: seq<Action>, t: Tid, o: W.State): W.State
    requires Possible(s, run)
    decreases |run|
  {
    if run == [] then o else Others(After(s, run[0]), run[1..], t, Aside(s, run[0], t, o))
  }

  /** `t` is in a lifecycle call and nobody else is. */
  predicate Solo(s: State, t: Tid)
  {
    && t in s.threads
    && forall u :: u in s.threads && u != t ==> !Lifecycle(s.threads[u].pc)
  }

  predicate NoneArrives(run: seq<Action>)
  {
    forall i :: 0 <= i < |run| ==> !BringsLifecycle(run[i])
  }

  /** What a call about to install, for the entries and password of `st`, had found in the file. */
  function ReadBy(r: W.Request, st: W.Stored): Option<W.Stored>
    requires r.Create? || r.Unlock? || r.Rotate?
  {
    match r
    case Create(_) => None
    case Unlock(_) => Some(st)
    case Rotate(oldPw, _) => Some(W.Stored(oldPw, st.entries))
  }

  /**
   How `t`'s call stands to the plain map `o` of the others: the live copies are one; the files are one too until the
   call writes, and again from the next save on.
   */
  predicate Beside(s: State, o: W.State, pc: Pc)
    requires LifeOk(pc)
  {
    && W.Coherent(o) && o.live == s.wallet.live
    && match pc
       case LifeStart(r) => o == s.wallet
       case LifeWrite(r, m) =>
         o == s.wallet && !r.Unlock?
         && (if r.Create? then o.file.None? && m == map[] else o.file.Some? && o.file.value.pw == r.oldPw)
       case LifeInstall(r, st) =>
         st.pw == NewPassword(r)
         && (r.Unlock? ==> o == s.wallet && o.file.Some? && o.file.value.pw == r.pw)
         && (r.Create? ==> o.file.None? && st.entries == map[] && s.wallet.file == Some(st))
         && (r.Rotate? ==>
               && o.file.Some? && o.file.value.pw == r.oldPw
               && (s.wallet.file == Some(st) || s.wallet.file == o.file))
       case _ => true
  }

  predicate BeforeInstall(pc: Pc)
  {
    pc.LifeStart? || pc.LifeWrite? || pc.LifeInstall?
  }

  // ── one step ──

  /** A change on maps that share the live copy: the same live copy after, and the same file if it saves. */
  lemma AsideChange(a: W.State, b: W.State, r: W.Request, ts: U64, f: W.Faults)
    requires a.live == b.live && NeedsSession(r)
    ensures
      var a2, b2 := W.Step(a, r, ts, f).0, W.Step(b, r, ts, f).0;
      && a2.live == b2.live
      && ((a2.file == a.file && b2.file == b.file) || (a2.file == a2.live == b2.file && a2.file.Some?))
      && (a.live.Some? ==> a2.live.Some? && a2.live.value.pw == a.live.value.pw)
      && (a.live.None? ==> a2 == a && b2 == b)
  {}

  /** Another thread's step, seen from `t`: only its wallet part matters. */
  lemma OtherStep(s: State, a: Action, t: Tid, o: W.State)
    requires Inv(s) && PcsOk(s) && Enabled(s, a) && a.Move? && a.t != t && Solo(s, t) && BeforeInstall(s.threads[t].pc)
    requires Beside(s, o, s.threads[t].pc)
    ensures
      var s2 := After(s, a);
      t in s2.threads && s2.threads[t].pc == s.threads[t].pc && Beside(s2, Aside(s, a, t, o), s.threads[t].pc)
  {
    SurroundingsAfter(s, a);
    var th := s.threads[a.t];
    var pc := s.threads[t].pc;
    if th.pc.InSession? {
      W.StepKeepsCoherent(o, th.pc.r, a.ts, a.faults);
      AsideChange(o, s.wallet, th.pc.r, a.ts, a.faults);
      SessionEffect(s, th, a.ts, a.faults);
    } else {
      OutsideEffect(s, th, a.ts, a.faults);
    }
  }

  lemma SessionEffect(s: State, th: Thread, ts: U64, f: W.Faults)
    requires LifeOk(th.pc) && SecretOk(th.pc) && th.pc.InSession?
    ensures Turn(s, th, ts, f).wallet == W.Step(s.wallet, th.pc.r, ts, f).0
  {}

  lemma OutsideEffect(s: State, th: Thread, ts: U64, f: W.Faults)
    requires LifeOk(th.pc) && SecretOk(th.pc) && !Lifecycle(th.pc) && !th.pc.InSession?
    ensures Turn(s, th, ts, f).wallet == if th.pc.LockStart? then s.wallet.(live := None) else s.wallet
  {}

  lemma OwnStep(s: State, a: Action, t: Tid, o: W.State)
    requires Inv(s) && PcsOk(s) && Enabled(s, a) && a.Move? && a.t == t
    requires BeforeInstall(s.threads[t].pc) && Beside(s, o, s.threads[t].pc)
    ensures
      var s2 := After(s, a);
      t in s2.threads && LifeOk(s2.threads[t].pc) && (BeforeInstall(s2.threads[t].pc) ==> Beside(s2, o, s2.threads[t].pc))
  {}

  lemma SoloStep(s: State, a: Action, t: Tid)
    requires Inv(s) && PcsOk(s) && Enabled(s, a) && Solo(s, t) && !BringsLifecycle(a)
    ensures Solo(After(s, a), t)
  {
    ShapeAfter(s, a);
    if a.Move? && a.t != t {
      OthersKeepLocked(s, s.threads[a.t], a.ts, a.faults);
    }
  }

  /** Past its install a call never comes back to before it. */
  lemma InstalledStep(s: State, a: Action, t: Tid)
    requires Inv(s) && PcsOk(s) && Enabled(s, a) && t in s.threads && !BeforeInstall(s.threads[t].pc)
    ensures t in After(s, a).threads && !BeforeInstall(After(s, a).threads[t].pc)
  {
    ShapeAfter(s, a);
  }

  lemma BesideStep(s: State, a: Action, t: Tid, o: W.State)
    requires Inv(s) && PcsOk(s) && Enabled(s, a) && Solo(s, t) && !BringsLifecycle(a)
    requires BeforeInstall(s.threads[t].pc) && Beside(s, o, s.threads[t].pc)
    ensures
      var s2 := After(s, a);
      t in s2.threads && LifeOk(s2.threads[t].pc)
      && (BeforeInstall(s2.threads[t].pc) ==> Beside(s2, Aside(s, a, t, o), s2.threads[t].pc))
  {
    if a.Move? && a.t != t {
      OtherStep(s, a, t, o);
    } else if a.Move? {
      OwnStep(s, a, t, o);
    }
  }

  lemma {:induction false} NeverBack(s: State, run: seq<Action>, t: Tid)
    requires Inv(s) && Possible(s, run) && t in s.threads && !BeforeInstall(s.threads[t].pc)
    ensures var e := Run(s, run); t in e.threads && !BeforeInstall(e.threads[t].pc)
    decreases |run|
  {
    if run != [] {
      StepKeepsInv(s, run[0]);
      InstalledStep(s, run[0], t);
      NeverBack(After(s, run[0]), run[1..], t);
    }
  }

  lemma {:induction false} BesideRun(s: State, run: seq<Action>, t: Tid, o: W.State)
    requires Inv(s) && PcsOk(s) && Possible(s, run) && Solo(s, t) && NoneArrives(run)
    requires BeforeInstall(s.threads[t].pc) && Beside(s, o, s.threads[t].pc)
    requires var e := Run(s, run); t in e.threads && BeforeInstall(e.threads[t].pc)
    ensures
      var e := Run(s, run);
      LifeOk(e.threads[t].pc) && Beside(e, Others(s, run, t, o), e.threads[t].pc) && Solo(e, t)
    decreases |run|
  {
    if run != [] {
      var s2 := After(s, run[0]);
      StepKeepsInv(s, run[0]);
      InvPcsOk(s2);
      SoloStep(s, run[0], t);
      BesideStep(s, run[0], t, o);
      if BeforeInstall(s2.threads[t].pc) {
        BesideRun(s2, run[1..], t, Aside(s, run[0], t, o));
      } else {
        NeverBack(s2, run[1..], t);
      }
    }
  }

  // ── when the call is the plain map's ──

  /** The install has the effect and the answer the plain map's call has on the map of all the others. */
  predicate InstallIsCall(s: State, th: Thread, o: W.State, ts: U64, f: W.Faults)
    requires LifeOk(th.pc) && SecretOk(th.pc) && th.pc.LifeInstall?
  {
    var e := Turn(s, th, ts, f);
    var (w, resp) := W.Step(o, th.pc.r, ts, W.NO_FAULT);
    e.wallet == w && e.answer.value.resp == AtEffect(th.pc.r, resp)
  }

  lemma InstallIsCallIff(s: State, th: Thread, o: W.State, ts: U64, f: W.Faults)
    requires LifeOk(th.pc) && SecretOk(th.pc) && th.pc.LifeInstall? && Beside(s, o, th.pc)
    ensures
      InstallIsCall(s, th, o, ts, f) <==> o.file == ReadBy(th.pc.r, th.pc.st) && s.wallet.file == Some(th.pc.st)
  {}

  /** Another thread's attempt to save. */
  predicate SavesAside(s: State, a: Action, t: Tid)
  {
    a.Move? && a.t != t && a.t in s.threads && Saves(s, s.threads[a.t].pc)
  }

  /** One that replaces the file. */
  predicate SavedAside(s: State, a: Action, t: Tid)
  {
    SavesAside(s, a, t) && a.faults.writing.None?
  }

  // ── said in terms of the saves ──

  /** What the last successful save of another call left: since `t`'s read of the file, and since its write. */
  datatype LastSave = LastSave(sinceRead: Option<W.Stored>, sinceWrite: Option<W.Stored>)

  const NO_SAVE := LastSave(None, None)

  function Recorded(s: State, a: Action, t: Tid, last: LastSave): LastSave
    requires PcsOk(s) && Enabled(s, a)
  {
    if t !in s.threads || !SavedAside(s, a, t) then last
    else
      LastSave(
        if InWindow(s.threads[t].pc) then After(s, a).wallet.file else last.sinceRead,
        if s.threads[t].pc.LifeInstall? then After(s, a).wallet.file else last.sinceWrite)
  }

  ghost function LastSaves(s: State, run: seq<Action>, t: Tid, last: LastSave): LastSave
    requires Possible(s, run)
    decreases |run|
  {
    if run == [] then last else LastSaves(After(s, run[0]), run[1..], t, Recorded(s, run[0], t, last))
  }

  function Either(saved: Option<W.Stored>, known: Option<W.Stored>): Option<W.Stored>
  {
    if saved.Some? then saved else known
  }

  /** Both files are what the last save left, or else what the call knows them to be. */
  predicate Told(s: State, o: W.State, pc: Pc, last: LastSave)
    requires LifeOk(pc)
  {
    match pc
    case LifeStart(r) => last == NO_SAVE
    case LifeWrite(r, m) =>
      o.file == Either(last.sinceRead, ReadBy(r, W.Stored(NewPassword(r), m))) && last.sinceWrite.None?
    case LifeInstall(r, st) =>
      o.file == Either(last.sinceRead, ReadBy(r, st)) && s.wallet.file == Either(last.sinceWrite, Some(st))
    case _ => true
  }

  lemma ToldOwn(s: State, a: Action, t: Tid, o: W.State, last: LastSave)
    requires Inv(s) && PcsOk(s) && Enabled(s, a) && a.Move? && a.t == t
    requires BeforeInstall(s.threads[t].pc) && Beside(s, o, s.threads[t].pc) && Told(s, o, s.threads[t].pc, last)
    ensures
      var s2 := After(s, a);
      t in s2.threads && LifeOk(s2.threads[t].pc)
      && (BeforeInstall(s2.threads[t].pc) ==> Told(s2, o, s2.threads[t].pc, last))
  {}

  lemma ToldOther(s: State, a: Action, t: Tid, o: W.State, last: LastSave)
    requires Inv(s) && PcsOk(s) && Enabled(s, a) && a.Move? && a.t != t && Solo(s, t) && BeforeInstall(s.threads[t].pc)
    requires Beside(s, o, s.threads[t].pc) && Told(s, o, s.threads[t].pc, last)
    ensures
      var s2 := After(s, a);
      t in s2.threads && s2.threads[t].pc == s.threads[t].pc
      && Told(s2, Aside(s, a, t, o), s.threads[t].pc, Recorded(s, a, t, last))
  {
    SurroundingsAfter(s, a);
    if SavedAside(s, a, t) {
      SaveGoesToFile(s, a, t, o);
    } else {
      QuietAside(s, a, t, o);
    }
  }

  lemma ToldStep(s: State, a: Action, t: Tid, o: W.State, last: LastSave)
    requires Inv(s) && PcsOk(s) && Enabled(s, a) && Solo(s, t) && !BringsLifecycle(a)
    requires BeforeInstall(s.threads[t].pc) && Beside(s, o, s.threads[t].pc) && Told(s, o, s.threads[t].pc, last)
    ensures
      var s2 := After(s, a);
      t in s2.threads && LifeOk(s2.threads[t].pc)
      && (BeforeInstall(s2.threads[t].pc) ==>
            Told(s2, Aside(s, a, t, o), s2.threads[t].pc, Recorded(s, a, t, last)))
  {
    if a.Move? && a.t != t {
      ToldOther(s, a, t, o, last);
    } else if a.Move? {
      ToldOwn(s, a, t, o, last);
    }
  }

  /** A step of another thread that saves nothing leaves both files alone. */
  lemma QuietAside(s: State, a: Action, t: Tid, o: W.State)
    requires PcsOk(s) && Enabled(s, a) && a.Move? && a.t != t && Solo(s, t) && !SavedAside(s, a, t)
    requires o.live == s.wallet.live
    ensures Aside(s, a, t, o).file == o.file && After(s, a).wallet.file == s.wallet.file
  {
    var th := s.threads[a.t];
    if th.pc.InSession? {
      AsideChange(o, s.wallet, th.pc.r, a.ts, a.faults);
      SessionEffect(s, th, a.ts, a.faults);
      NoSaveKeepsFile(o, th.pc.r, a.ts, a.faults);
      NoSaveKeepsFile(s.wallet, th.pc.r, a.ts, a.faults);
    } else {
      OutsideEffect(s, th, a.ts, a.faults);
    }
  }

  lemma NoSaveKeepsFile(w: W.State, r: W.Request, ts: U64, f: W.Faults)
    requires NeedsSession(r)
    requires !(r.Alter? && w.live.Some? && Apply(w.live.value.entries, r.change, ts).Ok? && f.writing.None?)
    ensures W.Step(w, r, ts, f).0.file == w.file
  {}

  lemma SaveGoesToFile(s: State, a: Action, t: Tid, o: W.State)
    requires PcsOk(s) && Enabled(s, a) && SavedAside(s, a, t) && o.live == s.wallet.live
    ensures var o2 := Aside(s, a, t, o); o2.file == o2.live == After(s, a).wallet.file && o2.file.Some?
  {
    SessionEffect(s, s.threads[a.t], a.ts, a.faults);
  }

  lemma {:induction false} ToldRun(s: State, run: seq<Action>, t: Tid, o: W.State, last: LastSave)
    requires Inv(s) && PcsOk(s) && Possible(s, run) && Solo(s, t) && NoneArrives(run)
    requires BeforeInstall(s.threads[t].pc) && Beside(s, o, s.threads[t].pc) && Told(s, o, s.threads[t].pc, last)
    requires var e := Run(s, run); t in e.threads && BeforeInstall(e.threads[t].pc)
    ensures
      var e := Run(s, run);
      && LifeOk(e.threads[t].pc)
      && Told(e, Others(s, run, t, o), e.threads[t].pc, LastSaves(s, run, t, last))
    decreases |run|
  {
    if run != [] {
      var s2 := After(s, run[0]);
      StepKeepsInv(s, run[0]);
      InvPcsOk(s2);
      SoloStep(s, run[0], t);
      BesideStep(s, run[0], t, o);
      ToldStep(s, run[0], t, o, last);
      if BeforeInstall(s2.threads[t].pc) {
        ToldRun(s2, run[1..], t, Aside(s, run[0], t, o), Recorded(s, run[0], t, last));
      } else {
        NeverBack(s2, run[1..], t);
      }
    }
  }

  /**
   Create, unlock or rotate, from its start to its install, with no other lifecycle call: what it does is the plain map's
   call, made at the install, if and only if the last save since its read, if there was one, left in the file just what
   the call had read, and the last since its write just what it had written.
   */
  lemma CallIsMapsIff(s: State, run: seq<Action>, t: Tid, ts: U64, f: W.Faults)
    requires Inv(s) && PcsOk(s) && W.Coherent(s.wallet) && Possible(s, run) && Solo(s, t) && NoneArrives(run)
    requires s.threads[t].pc.LifeStart?
    requires var e := Run(s, run); t in e.threads && e.threads[t].pc.LifeInstall?
    ensures
      var e := Run(s, run);
      var last := LastSaves(s, run, t, NO_SAVE);
      && LifeOk(e.threads[t].pc) && SecretOk(e.threads[t].pc)
      && (InstallIsCall(e, e.threads[t], Others(s, run, t, s.wallet), ts, f) <==>
          && (last.sinceRead.Some? ==> last.sinceRead == ReadBy(e.threads[t].pc.r, e.threads[t].pc.st))
          && (last.sinceWrite.Some? ==> last.sinceWrite == Some(e.threads[t].pc.st)))
  {
    BesideRun(s, run, t, s.wallet);
    ToldRun(s, run, t, s.wallet, NO_SAVE);
    InstallIsCallIff(Run(s, run), Run(s, run).threads[t], Others(s, run, t, s.wallet), ts, f);
  }

  /** No save is even attempted between `t`'s read of the file and the end of the run. */
  ghost predicate NoSaveSinceRead(s: State, run: seq<Action>, t: Tid)
    requires Possible(s, run)
    decreases |run|
  {
    run == []
    || (&& (t in s.threads && InWindow(s.threads[t].pc) ==> !SavesAside(s, run[0], t))
        && NoSaveSinceRead(After(s, run[0]), run[1..], t))
  }

  lemma {:induction false} NothingRecorded(s: State, run: seq<Action>, t: Tid)
    requires Inv(s) && Possible(s, run) && NoSaveSinceRead(s, run, t)
    ensures LastSaves(s, run, t, NO_SAVE) == NO_SAVE
    decreases |run|
  {
    if run != [] {
      StepKeepsInv(s, run[0]);
      NothingRecorded(After(s, run[0]), run[1..], t);
    }
  }

  /** With no save attempted between its read and its install, every lifecycle call is the plain map's. */
  lemma SaveFreeCallIsMaps(s: State, run: seq<Action>, t: Tid, ts: U64, f: W.Faults)
    requires Inv(s) && PcsOk(s) && W.Coherent(s.wallet) && Possible(s, run) && Solo(s, t) && NoneArrives(run)
    requires s.threads[t].pc.LifeStart? && NoSaveSinceRead(s, run, t)
    requires var e := Run(s, run); t in e.threads && e.threads[t].pc.LifeInstall?
    ensures
      var e := Run(s, run);
      && LifeOk(e.threads[t].pc) && SecretOk(e.threads[t].pc)
      && InstallIsCall(e, e.threads[t], Others(s, run, t, s.wallet), ts, f)
  {
    NothingRecorded(s, run, t);
    CallIsMapsIff(s, run, t, ts, f);
  }

  // ── a save between rotate's write and its install ──

  /** The rotation has written, and a save since has put the vault back under the old password. */
  predicate Overwritten(s: State, o: W.State, t: Tid)
  {
    && t in s.threads && s.threads[t].pc.LifeInstall? && s.threads[t].pc.r.Rotate?
    && s.wallet.file == o.file && o.file.Some? && o.file.value.pw == s.threads[t].pc.r.oldPw
  }

  lemma SaveOverwrites(s: State, a: Action, t: Tid, o: W.State)
    requires Inv(s) && PcsOk(s) && Enabled(s, a) && Solo(s, t) && !BringsLifecycle(a)
    requires t in s.threads && s.threads[t].pc.LifeInstall? && s.threads[t].pc.r.Rotate?
    requires Beside(s, o, s.threads[t].pc) && !(a.Move? && a.t == t)
    requires SavedAside(s, a, t) || Overwritten(s, o, t)
    ensures Overwritten(After(s, a), Aside(s, a, t, o), t)
  {
    if a.Move? {
      OtherStep(s, a, t, o);
      if SavedAside(s, a, t) {
        SaveGoesToFile(s, a, t, o);
      } else {
        QuietAside(s, a, t, o);
      }
    }
  }

  ghost predicate SaveFalls(s: State, run: seq<Action>, t: Tid)
    requires Possible(s, run)
    decreases |run|
  {
    run != [] && (SavedAside(s, run[0], t) || SaveFalls(After(s, run[0]), run[1..], t))
  }

  lemma {:induction false} OverwrittenRun(s: State, run: seq<Action>, t: Tid, o: W.State)
    requires Inv(s) && PcsOk(s) && Possible(s, run) && Solo(s, t) && NoneArrives(run) && MovesOf(t, run) == 0
    requires s.threads[t].pc.LifeInstall? && s.threads[t].pc.r.Rotate? && Beside(s, o, s.threads[t].pc)
    requires SaveFalls(s, run, t) || Overwritten(s, o, t)
    ensures
      var e := Run(s, run);
      t in e.threads && e.threads[t] == s.threads[t] && Overwritten(e, Others(s, run, t, o), t)
    decreases |run|
  {
    if run != [] {
      var s2 := After(s, run[0]);
      StepKeepsInv(s, run[0]);
      InvPcsOk(s2);
      SoloStep(s, run[0], t);
      ShapeAfter(s, run[0]);
      BesideStep(s, run[0], t, o);
      if SavedAside(s, run[0], t) || Overwritten(s, o, t) {
        SaveOverwrites(s, run[0], t, o);
      }
      OverwrittenRun(s2, run[1..], t, Aside(s, run[0], t, o));
    }
  }

  /**
   A save between rotate's write and its install (`first` leads from the start of a rotation of a coherent vault to where
   it is about to install, `second` contains the save): the rotation is answered `Done` and the live copy is under the
   new password, while the file opens under the old password and, the two being different, not under the new one.
   */
  lemma RotateOverSave(s: State, first: seq<Action>, second: seq<Action>, t: Tid, ts: U64, f: W.Faults)
    requires Inv(s) && PcsOk(s) && W.Coherent(s.wallet) && Solo(s, t)
    requires s.threads[t].pc.LifeStart? && s.threads[t].pc.r.Rotate?
    requires Possible(s, first) && NoneArrives(first)
    requires
      var m := Run(s, first);
      && t in m.threads && m.threads[t].pc.LifeInstall? && m.threads[t].pc.r == s.threads[t].pc.r
      && Possible(m, second) && NoneArrives(second) && MovesOf(t, second) == 0 && SaveFalls(m, second, t)
    ensures
      var m := Run(s, first);
      var e := Run(m, second);
      var r := s.threads[t].pc.r;
      && t in e.threads && e.threads[t] == m.threads[t] && LifeOk(e.threads[t].pc) && SecretOk(e.threads[t].pc)
      && var w := Turn(e, e.threads[t], ts, f);
         && w.answer.Some? && w.answer.value.resp == W.Done
         && w.wallet.live.Some? && w.wallet.live.value.pw == r.newPw
         && W.Authenticate(w.wallet, r.oldPw, None).Ok?
         && (r.oldPw != r.newPw ==> W.Authenticate(w.wallet, r.newPw, None) == Err(WrongPassword))
  {
    BesideRun(s, first, t, s.wallet);
    RunKeepsInv(s, first);
    InvPcsOk(Run(s, first));
    OverwrittenRun(Run(s, first), second, t, Others(s, first, t, s.wallet));
  }
}
