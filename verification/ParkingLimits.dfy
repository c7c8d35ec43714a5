/**
 What the concurrent agent does not promise, each shown by a run: an unlock may miss a waiter about to park, and an
 unlock of an open vault that straddles a save loses the saved change from the live copy.
 */
module ParkingLimits {
  import opened Bytes
  import opened Entries
  import opened Linearise
  import opened Parking
  import opened Text
  import opened Wrappers
  import W = Wallet

  ghost predicate Reaches(s: State, e: State)
  {
    exists run: seq<Action> :: Possible(s, run) && Run(s, run) == e
  }

  lemma {:induction false} RunAppend(s: State, run: seq<Action>, a: Action)
    requires Possible(s, run) && PcsOk(Run(s, run)) && Enabled(Run(s, run), a)
    ensures Possible(s, run + [a]) && Run(s, run + [a]) == After(Run(s, run), a)
    decreases |run|
  {
    var run2 := run + [a];
    if run == [] {
      assert run2[1..] == [];
    } else {
      assert run2[1..] == run[1..] + [a];
      RunAppend(After(s, run[0]), run[1..], a);
    }
  }

  lemma ReachesNext(s: State, m: State, a: Action)
    requires Reaches(s, m) && Inv(s) && Enabled(m, a)
    ensures Inv(m) && PcsOk(m) && Reaches(s, After(m, a))
  {
    var run :| Possible(s, run) && Run(s, run) == m;
    RunKeepsInv(s, run);
    InvPcsOk(m);
    RunAppend(s, run, a);
  }

  lemma ReachesStart(now: nat, w0: W.State)
    ensures Inv(Start(now, w0)) && Reaches(Start(now, w0), Start(now, w0))
  {
    assert Possible(Start(now, w0), []) && Run(Start(now, w0), []) == Start(now, w0);
  }

  lemma ReachesBegin(now: nat, w0: W.State, m: State, t: Tid, call: Call) returns (e: State)
    requires Reaches(Start(now, w0), m) && Enabled(m, Begin(t, call))
    ensures e == m.(threads := m.threads[t := Thread(EntryPoint(call), |m.log|, m.now, false)])
    ensures Reaches(Start(now, w0), e)
  {
    ReachesStart(now, w0);
    ReachesNext(Start(now, w0), m, Begin(t, call));
    e := After(m, Begin(t, call));
  }

  /** A step other than a bump, landing where `eff` says. */
  lemma ReachesTurn(now: nat, w0: W.State, m: State, t: Tid, ts: U64, eff: Effect) returns (e: State)
    requires Reaches(Start(now, w0), m) && Enabled(m, Move(t, ts, W.NO_FAULT)) && !m.threads[t].pc.CancelStart?
    requires LifeOk(m.threads[t].pc) && SecretOk(m.threads[t].pc)
    requires Turn(m, m.threads[t], ts, W.NO_FAULT) == eff
    ensures
      e == State(
        m.now, m.gen, m.cancels,
        match eff.mutex case Keep => m.holder case Take => Some(t) case Release => None,
        if eff.pc.InSession? then Some(t) else if m.threads[t].pc.InSession? then None else m.busy,
        (if Notifies(m.threads[t].pc) then Notified(m.threads) else m.threads)[t := m.threads[t].(pc := eff.pc, asked := m.threads[t].asked || m.threads[t].pc.Announce?)],
        eff.wallet,
        if eff.answer.Some? then m.log + [eff.answer.value] else m.log)
    ensures Reaches(Start(now, w0), e)
  {
    ReachesStart(now, w0);
    ReachesNext(Start(now, w0), m, Move(t, ts, W.NO_FAULT));
    e := After(m, Move(t, ts, W.NO_FAULT));
  }

  /** Parked although the vault is open and nobody is going to notify: only the deadline or a later call ends the wait. */
  predicate ParkedInVain(s: State, t: Tid)
  {
    && t in s.threads && s.threads[t].pc.Parked? && s.wallet.live.Some?
    && forall u :: u in s.threads && u != t ==> s.threads[u].pc.Finished?
  }

  /**
   For every locked vault and every waiting read: the waiter sees the vault locked, an unlock installs and notifies
   before the waiter parks, and the waiter then parks in an open vault with no notify to come.
   */
  lemma UnlockNotifyCanBeMissed(now: nat, st: W.Stored, name: string)
    ensures
      var w0 := W.State(Some(st), None);
      exists e :: Reaches(Start(now, w0), e) && ParkedInVain(e, 1)
  {
    var w0 := W.State(Some(st), None);
    var s := WaiterSeesLocked(now, w0, W.Get(name, true));
    var th := s.threads[1];
    s := UnlockPasses(now, w0, s, st);
    assert s.threads[1] == th;
    s := WaiterParks(now, w0, s);
    assert ParkedInVain(s, 1);
  }

  /** Whether a waiter there has asked the clients to prompt. */
  predicate Asked(pc: Pc)
  {
    pc.SetDeadline? || pc.WantGen? || InLoop(pc)
  }

  /** The state in which thread 1 alone is at `pc` and nothing else has happened. */
  function Alone(now: nat, w0: W.State, pc: Pc, holder: Option<Tid>): State
  {
    Start(now, w0).(threads := map[1 := Thread(pc, 0, now, Asked(pc))], holder := holder)
  }

  lemma AloneTurn(now: nat, w0: W.State, pc: Pc, holder: Option<Tid>, eff: Effect)
    requires Reaches(Start(now, w0), Alone(now, w0, pc, holder))
    requires LifeOk(pc) && SecretOk(pc) && !pc.CancelStart? && !Notifies(pc) && !pc.Finished?
    requires WantsHold(pc) ==> holder.None?
    requires Turn(Alone(now, w0, pc, holder), Thread(pc, 0, now, Asked(pc)), 0, W.NO_FAULT) == eff
    requires Asked(eff.pc) == (Asked(pc) || pc.Announce?)
    requires eff.wallet == w0 && eff.answer.None? && !eff.pc.InSession? && !pc.InSession?
    ensures
      Reaches(Start(now, w0),
        Alone(now, w0, eff.pc, match eff.mutex case Keep => holder case Take => Some(1) case Release => None))
  {
    var s := ReachesTurn(now, w0, Alone(now, w0, pc, holder), 1, 0, eff);
    assert s.threads == map[1 := Thread(eff.pc, 0, now, Asked(eff.pc))];
  }

  lemma WaiterSeesLocked(now: nat, w0: W.State, r: W.Request) returns (s: State)
    requires r.Get? && r.wait && w0.live.None?
    ensures Reaches(Start(now, w0), s)
    ensures s == Alone(now, w0, HoldGen(Wait(r, now + UNLOCK_WAIT, 0, 0), 0), Some(1))
  {
    ReachesStart(now, w0);
    s := ReachesBegin(now, w0, Start(now, w0), 1, Secret(r));
    assert s == Alone(now, w0, FirstCheck(r), None);
    AloneTurn(now, w0, FirstCheck(r), None, Effect(WaitEntry(r), Keep, w0, None));
    AloneTurn(now, w0, WaitEntry(r), None, Effect(Announce(r), Keep, w0, None));
    AloneTurn(now, w0, Announce(r), None, Effect(SetDeadline(r), Keep, w0, None));
    WaiterTakesMutex(now, w0, r);
    s := Alone(now, w0, HoldGen(Wait(r, now + UNLOCK_WAIT, 0, 0), 0), Some(1));
  }

  lemma WaiterTakesMutex(now: nat, w0: W.State, r: W.Request)
    requires r.Get? && r.wait && w0.live.None?
    requires Reaches(Start(now, w0), Alone(now, w0, SetDeadline(r), None))
    ensures Reaches(Start(now, w0), Alone(now, w0, HoldGen(Wait(r, now + UNLOCK_WAIT, 0, 0), 0), Some(1)))
  {
    var w := Wait(r, now + UNLOCK_WAIT, 0, 0);
    AloneTurn(now, w0, SetDeadline(r), None, Effect(WantGen(r, now + UNLOCK_WAIT), Keep, w0, None));
    AloneTurn(now, w0, WantGen(r, now + UNLOCK_WAIT), None, Effect(HoldCheck(w), Take, w0, None));
    AloneTurn(now, w0, HoldCheck(w), Some(1), Effect(HoldGen(w, 0), Keep, w0, None));
  }

  /** A whole unlock by thread 2 while thread 1 holds `unlock_gen`: the notify finds nobody parked. */
  lemma UnlockPasses(now: nat, w0: W.State, m: State, st: W.Stored) returns (e: State)
    requires Reaches(Start(now, w0), m) && m.threads.Keys == {1} && m.threads[1].pc.HoldGen?
    requires m.wallet == W.State(Some(st), None) && m.busy.None?
    ensures Reaches(Start(now, w0), e)
    ensures e.threads.Keys == {1, 2} && e.threads[1] == m.threads[1] && e.threads[2].pc.Finished?
    ensures e.wallet.live.Some? && e.gen == m.gen && e.now == m.now && e.holder == m.holder
  {
    var r := W.Unlock(st.pw);
    e := ReachesBegin(now, w0, m, 2, Life(r));
    e := ReachesTurn(now, w0, e, 2, 0, Effect(LifeInstall(r, st), Keep, m.wallet, None));
    e := InstallAndNotify(now, w0, e);
  }

  lemma InstallAndNotify(now: nat, w0: W.State, m: State) returns (e: State)
    requires Reaches(Start(now, w0), m) && m.threads.Keys == {1, 2}
    requires !m.threads[1].pc.Parked? && m.threads[2].pc.LifeInstall? && m.threads[2].pc.r.Unlock? && m.busy.None?
    ensures Reaches(Start(now, w0), e)
    ensures e.threads.Keys == {1, 2} && e.threads[1] == m.threads[1] && e.threads[2].pc.Finished?
    ensures e.wallet.live.Some? && e.gen == m.gen && e.now == m.now && e.holder == m.holder
  {
    e := ReachesTurn(now, w0, m, 2, 0, Turn(m, m.threads[2], 0, W.NO_FAULT));
    var r, first := e.threads[2].pc.r, e.threads[2].pc.first;
    e := ReachesTurn(now, w0, e, 2, 0, Effect(LifeList(first), Keep, e.wallet, None));
    e := ReachesTurn(now, w0, e, 2, 0, Turn(e, e.threads[2], 0, W.NO_FAULT));
  }

  lemma WaiterParks(now: nat, w0: W.State, m: State) returns (e: State)
    requires Reaches(Start(now, w0), m) && 1 in m.threads && m.threads[1].pc.HoldGen?
    requires NeedsSession(m.threads[1].pc.w.r)
    requires m.threads[1].pc.w.start == m.gen && m.now < m.threads[1].pc.w.deadline
    ensures Reaches(Start(now, w0), e) && e.threads.Keys == m.threads.Keys && e.wallet == m.wallet
    ensures e.threads[1].pc.Parked? && forall u :: u in m.threads && u != 1 ==> e.threads[u] == m.threads[u]
  {
    var w, seen := m.threads[1].pc.w, m.threads[1].pc.seen;
    e := ReachesTurn(now, w0, m, 1, 0, Effect(HoldTime(w, seen), Keep, m.wallet, None));
    e := ReachesTurn(now, w0, e, 1, 0, Effect(HoldPark(w, w.deadline - m.now), Keep, m.wallet, None));
    e := ReachesTurn(now, w0, e, 1, 0, Effect(Parked(w, m.now + (w.deadline - m.now)), Release, m.wallet, None));
  }

  /** A change was answered as stored, yet it is missing from the live copy while the file has it. */
  predicate UpdateLost(s: State, c: Change)
  {
    && |s.log| == 2 && s.log[0].r == W.Alter(c, true) && s.log[0].resp == W.Done
    && s.wallet.live.Some? && s.wallet.file.Some?
    && Touched(c) !! s.wallet.live.value.entries.Keys && Touched(c) <= s.wallet.file.value.entries.Keys
  }

  /**
   Why lifecycle calls must keep out of the way of saves: for every open vault and every new secret, unlocking it again
   around the save of that secret ends with the secret answered as stored and gone from the live copy.
   */
  lemma OverlappingUnlockLosesUpdate(now: nat, st: W.Stored, name: string, v: string, ts: U64)
    requires name !in st.entries && !IsBlank(name)
    ensures
      var w0 := W.State(Some(st), Some(st));
      exists e :: Reaches(Start(now, w0), e) && UpdateLost(e, Set(name, Some(v), None))
  {
    var s := UnlockReads(now, st, ts);
    var th := s.threads[1];
    s := SaveArrives(now, s, st, W.Alter(Set(name, Some(v), None), true));
    s := SaveHappens(now, s, st, name, v, ts);
    assert s.threads[1] == th;
    s := UnlockInstalls(now, s, st, ts);
    assert UpdateLost(s, Set(name, Some(v), None));
  }

  lemma UnlockReads(now: nat, st: W.Stored, ts: U64) returns (s: State)
    ensures var w0 := W.State(Some(st), Some(st)); Reaches(Start(now, w0), s) && s.wallet == w0 && s.busy.None?
    ensures s.threads == map[1 := Thread(LifeInstall(W.Unlock(st.pw), st), 0, now, false)] && s.log == []
  {
    var w0 := W.State(Some(st), Some(st));
    var r := W.Unlock(st.pw);
    ReachesStart(now, w0);
    s := ReachesBegin(now, w0, Start(now, w0), 1, Life(r));
    s := ReachesTurn(now, w0, s, 1, ts, Effect(LifeInstall(r, st), Keep, w0, None));
  }

  lemma UnlockInstalls(now: nat, m: State, st: W.Stored, ts: U64) returns (e: State)
    requires Reaches(Start(now, W.State(Some(st), Some(st))), m)
    requires 1 in m.threads && m.threads[1].pc == LifeInstall(W.Unlock(st.pw), st) && m.busy.None?
    ensures Reaches(Start(now, W.State(Some(st), Some(st))), e)
    ensures e.wallet == m.wallet.(live := Some(st)) && m.log <= e.log && |e.log| == |m.log| + 1
  {
    var answer := Now(m, m.threads[1], W.Unlock(st.pw), ts, W.NO_FAULT, W.Done);
    var eff := Effect(LifeNotify(W.Unlock(st.pw), |m.log|), Keep, m.wallet.(live := Some(st)), answer);
    e := ReachesTurn(now, W.State(Some(st), Some(st)), m, 1, ts, eff);
  }

  lemma SaveArrives(now: nat, m: State, st: W.Stored, call: W.Request) returns (e: State)
    requires var w0 := W.State(Some(st), Some(st)); Reaches(Start(now, w0), m) && m.wallet == w0
    requires m.threads.Keys == {1} && call.Alter? && NeedsSession(call) && m.busy.None?
    ensures Reaches(Start(now, W.State(Some(st), Some(st))), e)
    ensures e.threads == m.threads[2 := Thread(InSession(call), |m.log|, m.now, false)]
    ensures e.wallet == m.wallet && e.log == m.log
  {
    var w0 := W.State(Some(st), Some(st));
    e := ReachesBegin(now, w0, m, 2, Secret(call));
    e := ReachesTurn(now, w0, e, 2, 0, Effect(Critical(call), Keep, w0, None));
    e := ReachesTurn(now, w0, e, 2, 0, Effect(InSession(call), Keep, w0, None));
  }

  lemma SaveHappens(now: nat, m: State, st: W.Stored, name: string, v: string, ts: U64) returns (e: State)
    requires var w0 := W.State(Some(st), Some(st)); Reaches(Start(now, w0), m) && m.wallet == w0
    requires m.log == [] && name !in st.entries && !IsBlank(name)
    requires m.threads.Keys == {1, 2} && m.threads[2].pc == InSession(W.Alter(Set(name, Some(v), None), true))
    ensures Reaches(Start(now, W.State(Some(st), Some(st))), e) && e.busy.None?
    ensures 1 in e.threads && e.threads[1] == m.threads[1]
    ensures e.wallet.file.Some? && name in e.wallet.file.value.entries
    ensures |e.log| == 1 && e.log[0].r == W.Alter(Set(name, Some(v), None), true) && e.log[0].resp == W.Done
  {
    var call := m.threads[2].pc.r;
    var saved := Some(W.Stored(st.pw, st.entries[name := NewEntry(v, ts)]));
    var answer := Now(m, m.threads[2], call, ts, W.NO_FAULT, W.Done);
    var eff := Effect(Finished, Keep, W.State(saved, saved), answer);
    e := ReachesTurn(now, W.State(Some(st), Some(st)), m, 2, ts, eff);
  }

  /** An unlock was answered as successful, in one call, with an empty list. */
  predicate ListedNothing(s: State)
  {
    && |s.log| == 3 && s.log[2].first == 0
    && s.log[0].r.Unlock? && s.log[0].resp == W.Done && ListedEntries(s.log[2].resp) == map[]
  }

  /** For every vault, a lock between an unlock's install and its reading of the list leaves the list empty. */
  lemma UnlockMayListNothing(now: nat, st: W.Stored)
    ensures
      var w0 := W.State(Some(st), None);
      exists e :: Reaches(Start(now, w0), e) && ListedNothing(e)
  {
    var w0 := W.State(Some(st), None);
    var s := FirstUnlock(now, st);
    s := LockThenList(now, w0, s);
    assert ListedNothing(s);
  }

  lemma FirstRead(now: nat, st: W.Stored) returns (s: State)
    ensures Reaches(Start(now, W.State(Some(st), None)), s) && s.threads.Keys == {1} && s.busy.None? && s.log == []
    ensures s.threads[1].pc == LifeInstall(W.Unlock(st.pw), st) && s.wallet == W.State(Some(st), None)
  {
    var w0 := W.State(Some(st), None);
    var r := W.Unlock(st.pw);
    ReachesStart(now, w0);
    s := ReachesBegin(now, w0, Start(now, w0), 1, Life(r));
    s := ReachesTurn(now, w0, s, 1, 0, Effect(LifeInstall(r, st), Keep, w0, None));
  }

  lemma FirstUnlock(now: nat, st: W.Stored) returns (s: State)
    ensures Reaches(Start(now, W.State(Some(st), None)), s) && s.threads.Keys == {1} && s.busy.None? && |s.log| == 1
    ensures s.threads[1].pc == LifeNotify(W.Unlock(st.pw), 0) && s.log[0].r == W.Unlock(st.pw) && s.log[0].resp == W.Done
  {
    var w0 := W.State(Some(st), None);
    var r := W.Unlock(st.pw);
    s := FirstRead(now, st);
    var done := Now(s, s.threads[1], r, 0, W.NO_FAULT, W.Done);
    s := ReachesTurn(now, w0, s, 1, 0, Effect(LifeNotify(r, 0), Keep, W.State(Some(st), Some(st)), done));
  }

  lemma LockThenList(now: nat, w0: W.State, m: State) returns (e: State)
    requires Reaches(Start(now, w0), m) && m.threads.Keys == {1} && m.busy.None? && |m.log| == 1
    requires m.threads[1].pc.LifeNotify? && m.threads[1].pc.r.Unlock? && m.threads[1].pc.first == 0
    ensures Reaches(Start(now, w0), e)
    ensures |e.log| == 3 && e.log[0] == m.log[0] && e.log[2].first == 0 && e.log[2].resp == W.Failed(Locked)
  {
    e := ReachesTurn(now, w0, m, 1, 0, Effect(LifeList(0), Keep, m.wallet, None));
    e := LockBy(now, w0, e, 2);
    e := ListLocked(now, w0, e, 1);
  }

  lemma LockBy(now: nat, w0: W.State, m: State, t: Tid) returns (e: State)
    requires Reaches(Start(now, w0), m) && t !in m.threads && m.busy.None?
    ensures Reaches(Start(now, w0), e) && e.busy.None? && e.wallet.live.None?
    ensures m.log <= e.log && |e.log| == |m.log| + 1
    ensures forall u :: u in m.threads ==> u in e.threads && e.threads[u] == m.threads[u]
  {
    e := ReachesBegin(now, w0, m, t, Locking);
    var locked := Effect(Finished, Keep, e.wallet.(live := None), Now(e, e.threads[t], W.Lock, 0, W.NO_FAULT, W.Done));
    e := ReachesTurn(now, w0, e, t, 0, locked);
  }

  lemma ListLocked(now: nat, w0: W.State, m: State, t: Tid) returns (e: State)
    requires Reaches(Start(now, w0), m) && t in m.threads && m.busy.None? && m.wallet.live.None?
    requires m.threads[t].pc.LifeList?
    ensures Reaches(Start(now, w0), e) && m.log <= e.log && |e.log| == |m.log| + 1
    ensures e.log[|m.log|].first == m.threads[t].pc.first && e.log[|m.log|].resp == W.Failed(Locked)
  {
    var half := ListHalf(m, m.threads[t], m.threads[t].pc.first);
    e := ReachesTurn(now, w0, m, t, 0, Effect(Finished, Keep, m.wallet, Some(half)));
  }
}
