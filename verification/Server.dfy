/**
 The live agent as the mutable object it is (`native/src/server.rs`): session, failure counter, activity clock, client
 registry and the vault directory. Every handler is proved to do what the request step of `LockCache` and `Agent` says.
 */
module Server {
  import opened AutoLock
  import opened Base32
  import opened Bytes
  import opened Entries
  import opened LockCache
  import opened Text
  import opened Totp
  import opened VaultFormat
  import opened VaultWrite
  import opened Wrappers
  import A = Agent
  import W = Wallet

  const U32_MAX: U32 := 0xFFFF_FFFF

  /** Status polls, handshakes, locks and cancels do not extend the session. */
  predicate CountsAsActivity(r: W.Request)
  {
    !(r.Hello? || r.Status? || r.Lock? || r.CancelUnlock?)
  }

  /** Seconds slept before answering the `n`-th consecutive failed unlock. */
  function Backoff(n: nat): nat
    requires n > 0
  {
    match n
    case 1 => 1
    case 2 => 2
    case 3 => 4
    case 4 => 8
    case _ => 16
  }

  /** The shift the program computes it with: `1 << min(n - 1, 4)`. */
  lemma BackoffIsShift(n: nat)
    requires n > 0
    ensures Backoff(n) == Pow2(if n - 1 < 4 then n - 1 else 4)
  {
    assert Pow2(1) == 2 && Pow2(2) == 4 && Pow2(3) == 8 && Pow2(4) == 16;
  }

  /** The failure counter after a request that answered `resp`. */
  function FailuresAfter(count: U32, r: W.Request, resp: W.Response): U32
  {
    if !(r.Create? || r.Unlock? || r.Rotate?) then count
    else if !resp.Failed? then 0
    else if r.Unlock? && count < U32_MAX then count + 1
    else count
  }

  /** The counter over a succession of answers to one kind of request. */
  function FailuresOver(count: U32, r: W.Request, resps: seq<W.Response>): U32
  {
    if resps == [] then count else FailuresAfter(FailuresOver(count, r, resps[..|resps| - 1]), r, resps[|resps| - 1])
  }

  /** The n-th unlock in a row to fail counts n, and a success, of any lifecycle call, starts over. */
  lemma {:induction false} FailuresInARow(r: W.Request, resps: seq<W.Response>)
    requires r.Unlock? && |resps| <= 0xFFFF_FFFF && forall i :: 0 <= i < |resps| ==> resps[i].Failed?
    ensures FailuresOver(0, r, resps) == |resps|
  {
    if resps != [] {
      FailuresInARow(r, resps[..|resps| - 1]);
    }
  }

  lemma FailureCounting(count: U32, r: W.Request, resp: W.Response)
    ensures (r.Create? || r.Unlock? || r.Rotate?) && !resp.Failed? ==> FailuresAfter(count, r, resp) == 0
    ensures r.Unlock? && resp.Failed? ==> FailuresAfter(count, r, resp) == if count == 0xFFFF_FFFF then count else count + 1
    ensures !r.Unlock? && resp.Failed? ==> FailuresAfter(count, r, resp) == count
    ensures !(r.Create? || r.Unlock? || r.Rotate?) ==> FailuresAfter(count, r, resp) == count
  {}

  /** One closure run against the body in place. */
  method RunChange(body: Body, c: Change, ts: U64) returns (err: Option<Error>)
    modifies body
    ensures body.Outcome(old(body.entries), c, ts, err)
  {
    match c {
      case Set(name, v, meta) => err := body.SetSecret(name, v, meta, ts);
      case Delete(name) => err := body.DeleteSecret(name, ts);
      case Rename(from, to) => err := body.RenameSecret(from, to, ts);
      case GenerateInto(name, drawn) => err := body.GenerateSecret(name, drawn, ts);
    }
  }

  class Server {
    const kdf: KdfParams
    const lockTimeout: nat
    const dir: VaultDir
    var session: Option<Session>
    var failCount: U32
    var lastActivity: nat
    var queues: Queues
    var nextClient: nat
    var unlockGen: U64
    var parked: seq<Parked>

    ghost function Core(): A.Core
      reads this, dir
    {
      A.Core(dir.View(), session)
    }

    ghost function View(): Hub
      reads this, dir
    {
      Hub(Core(), queues, parked)
    }

    ghost predicate Valid()
      reads this
    {
      && (forall id :: id in queues ==> id < nextClient)
      && forall i :: 0 <= i < |parked| ==> MayWait(parked[i].r)
    }

    constructor (kdf: KdfParams, lockTimeout: nat, dir: VaultDir, now: nat)
      ensures Valid() && View() == Hub(A.Core(dir.View(), None), map[], [])
      ensures this.kdf == kdf && this.lockTimeout == lockTimeout && this.dir == dir
      ensures failCount == 0 && lastActivity == now
    {
      this.kdf, this.lockTimeout, this.dir := kdf, lockTimeout, dir;
      session, failCount, lastActivity, queues, nextClient := None, 0, now, map[], 1;
      unlockGen, parked := 0, [];
    }

    // ── client registry + broadcast ──

    method RegisterClient() returns (id: ClientId)
      requires Valid()
      modifies this
      ensures Valid() && id !in old(queues) && queues == old(queues)[id := []]
      ensures Core() == old(Core()) && parked == old(parked)
      ensures failCount == old(failCount) && lastActivity == old(lastActivity)
    {
      id := nextClient;
      nextClient := nextClient + 1;
      queues := queues[id := []];
    }

    method UnregisterClient(id: ClientId) returns (remaining: nat)
      requires Valid()
      modifies this
      ensures Valid() && queues == old(queues) - {id} && remaining == |queues|
      ensures Core() == old(Core()) && parked == old(parked)
      ensures failCount == old(failCount) && lastActivity == old(lastActivity)
    {
      queues := queues - {id};
      remaining := |queues|;
    }

    /** One send per registered client. */
    method SendToAll(m: Message)
      modifies this`queues
      ensures queues == Broadcast(old(queues), [m])
    {
      var todo := queues.Keys;
      while todo != {}
        invariant todo <= old(queues).Keys && queues.Keys == old(queues).Keys
        invariant forall id :: id in queues ==>
          queues[id] == if id in todo then old(queues)[id] else old(queues)[id] + [m]
      {
        var id :| id in todo;
        queues := queues[id := queues[id] + [m]];
        todo := todo - {id};
      }
    }

    // ── lock state ──

    /** Drops the session; says whether there was one. */
    method Lock() returns (was: bool)
      modifies this`session
      ensures session == None && was == old(session).Some?
    {
      was := session.Some?;
      session := None;
    }

    method AutolockTick(now: nat) returns (secs: nat)
      requires lastActivity <= now
      modifies this
      ensures secs == TickSecs(old(session).Some?, lockTimeout, now - old(lastActivity))
      ensures
        View() == if TickLocks(old(session).Some?, lockTimeout, now - old(lastActivity)) then AutoLocked(old(View()))
                  else old(View())
      ensures failCount == old(failCount) && Untouched(old(lastActivity), old(nextClient), old(unlockGen))
    {
      if lockTimeout == 0 || session.None? {
        return 1;
      }
      var idle := now - lastActivity;
      if idle >= lockTimeout {
        var was := Lock();
        if was {
          SendToAll(StateNote(true));
        }
        return 1;
      }
      var left := (lockTimeout - idle) / SECOND;
      return if left < 1 then 1 else left;
    }

    // ── vault lifecycle ──

    /** `vault::save` and the writes of create and rotate: seal the whole body, replace the file. */
    method WriteVault(s: Session, env: A.Env) returns (ok: bool)
      modifies dir
      ensures ok == Committed(env.plan)
      ensures dir.View() == AfterWrite(old(dir.View()), A.Image(s, env.nonce), env.plan)
      ensures dir.history == old(dir.history) + WriteSteps(old(dir.View()), A.Image(s, env.nonce), env.plan)
    {
      ok := dir.Write(s.body, s.key, s.salt, s.params, env.nonce, env.plan);
    }

    method ReadVault(pw: Password, env: A.Env) returns (r: Result<Session, Error>)
      ensures r == A.VaultUnlock(dir.View(), pw, env)
    {
      if dir.vault.None? || !env.readOk {
        return Err(Io);
      }
      return UnlockFile(dir.vault.value.content, pw, env.readArgonOk);
    }

    /** Installs a session after a successful create, unlock or rotate. */
    method Install(s: Session)
      modifies this
      ensures session == Some(s) && failCount == 0 && queues == Broadcast(old(queues), [StateNote(false)])
      ensures parked == old(parked)
      ensures Untouched(old(lastActivity), old(nextClient), old(unlockGen))
    {
      session := Some(s);
      failCount := 0;
      SendToAll(StateNote(false));
    }

    method Create(pw: Password, env: A.Env) returns (resp: W.Response)
      modifies this, dir
      ensures Handled(old(View()), old(failCount), W.Create(pw), env, Some(resp))
      ensures Untouched(old(lastActivity), old(nextClient), old(unlockGen))
    {
      if dir.vault.Some? {
        NoNotes(queues);
        return W.Failed(AlreadyExists);
      }
      var key := DeriveKey(pw, env.salt, kdf, env.writeArgonOk);
      if key.Err? {
        NoNotes(queues);
        return W.Failed(key.error);
      }
      var s := Session(map[], key.value, env.salt, kdf);
      var ok := WriteVault(s, env);
      if !ok {
        NoNotes(queues);
        return W.Failed(Io);
      }
      Install(s);
      return W.Done;
    }

    method Unlock(pw: Password, env: A.Env) returns (resp: W.Response, delay: nat)
      modifies this, dir
      ensures Handled(old(View()), old(failCount), W.Unlock(pw), env, Some(resp))
      ensures Untouched(old(lastActivity), old(nextClient), old(unlockGen))
      ensures
        var n: nat := failCount;
        delay == if resp.Failed? && n > 0 then Pow2(if n - 1 < 4 then n - 1 else 4) else 0
      ensures resp.Failed? ==> failCount > 0
    {
      var r := ReadVault(pw, env);
      if r.Ok? {
        Install(r.value);
        // read back from the session, which nobody has touched in between here
        return W.Listing(if session.Some? then W.Summaries(session.value.body) else map[]), 0;
      }
      failCount := if failCount < U32_MAX then failCount + 1 else failCount;
      NoNotes(queues);
      BackoffIsShift(failCount);
      return W.Failed(r.error), Backoff(failCount);
    }

    method Rotate(oldPw: Password, newPw: Password, env: A.Env) returns (resp: W.Response)
      modifies this, dir
      ensures Handled(old(View()), old(failCount), W.Rotate(oldPw, newPw), env, Some(resp))
      ensures Untouched(old(lastActivity), old(nextClient), old(unlockGen))
    {
      var current := ReadVault(oldPw, env);
      if current.Err? {
        NoNotes(queues);
        return W.Failed(current.error);
      }
      var key := DeriveKey(newPw, env.salt, kdf, env.writeArgonOk);
      if key.Err? {
        NoNotes(queues);
        return W.Failed(key.error);
      }
      var s := Session(current.value.body, key.value, env.salt, kdf);
      var ok := WriteVault(s, env);
      if !ok {
        NoNotes(queues);
        return W.Failed(Io);
      }
      Install(s);
      return W.Done;
    }

    method DoLock(ghost env: A.Env) returns (resp: W.Response)
      modifies this
      ensures Handled(old(View()), old(failCount), W.Lock, env, Some(resp))
      ensures Untouched(old(lastActivity), old(nextClient), old(unlockGen))
    {
      var was := Lock();
      if was {
        SendToAll(StateNote(true));
      } else {
        NoNotes(queues);
      }
      return W.Done;
    }

    // ── secrets ──

    /** `with_session` once the session mutex is taken: run the closure on the live body, then save the whole of it. */
    method Change(c: Change, ghost wait: bool, env: A.Env) returns (resp: W.Response)
      requires Accepted(c)
      modifies this, dir
      ensures Worked(old(View()), old(failCount), W.Alter(c, wait), env, resp)
      ensures Untouched(old(lastActivity), old(nextClient), old(unlockGen))
    {
      if session.None? {
        return W.Failed(Locked);
      }
      var body := new Body(session.value.body);
      var err := RunChange(body, c, env.ts);
      if err.Some? {
        return W.Failed(err.value);
      }
      session := Some(session.value.(body := body.entries));
      var ok := WriteVault(session.value, env);
      if !ok {
        return W.Failed(Io);
      }
      return if c.GenerateInto? then W.Drawn(c.drawn) else W.Done;
    }

    /** `with_session`: a locked call that may wait asks every client to prompt and parks (nothing is answered yet). */
    method WithSession(c: Change, wait: bool, env: A.Env) returns (resp: Option<W.Response>)
      requires Accepted(c)
      modifies this, dir
      ensures Handled(old(View()), old(failCount), W.Alter(c, wait), env, resp)
      ensures Untouched(old(lastActivity), old(nextClient), old(unlockGen))
    {
      if session.None? && wait {
        SendToAll(UnlockNeeded);
        return None;
      }
      NoNotes(queues);
      var done := Change(c, wait, env);
      return Some(done);
    }

    method Alter(c: Change, wait: bool, env: A.Env) returns (resp: Option<W.Response>)
      modifies this, dir
      ensures Handled(old(View()), old(failCount), W.Alter(c, wait), env, resp)
      ensures Untouched(old(lastActivity), old(nextClient), old(unlockGen))
    {
      if Validate(c).Some? {
        NoNotes(queues);
        return Some(W.Failed(Validate(c).value));
      }
      if c.GenerateInto? && IsBlank(c.name) {
        NoNotes(queues);
        return Some(W.Drawn(c.drawn));
      }
      resp := WithSession(c, wait, env);
    }

    /** The closures given to `read_session`. */
    method Lookup(name: string) returns (resp: W.Response)
      ensures forall wait, env :: A.Step(Core(), W.Get(name, wait), kdf, env) == (Core(), resp)
    {
      if session.None? {
        return W.Failed(Locked);
      }
      if name !in session.value.body {
        return W.Failed(NoSuchSecret(name));
      }
      return W.Got(session.value.body[name]);
    }

    method Summarise() returns (resp: W.Response)
      ensures forall wait, env :: A.Step(Core(), W.List(wait), kdf, env) == (Core(), resp)
    {
      if session.None? {
        return W.Failed(Locked);
      }
      return W.Listing(W.Summaries(session.value.body));
    }

    method Get(name: string, wait: bool, ghost env: A.Env) returns (resp: Option<W.Response>)
      modifies this
      ensures Handled(old(View()), old(failCount), W.Get(name, wait), env, resp)
      ensures Untouched(old(lastActivity), old(nextClient), old(unlockGen))
    {
      if session.None? && wait {
        SendToAll(UnlockNeeded);
        return None;
      }
      NoNotes(queues);
      var found := Lookup(name);
      return Some(found);
    }

    method List(wait: bool, ghost env: A.Env) returns (resp: Option<W.Response>)
      modifies this
      ensures Handled(old(View()), old(failCount), W.List(wait), env, resp)
      ensures Untouched(old(lastActivity), old(nextClient), old(unlockGen))
    {
      if session.None? && wait {
        SendToAll(UnlockNeeded);
        return None;
      }
      NoNotes(queues);
      var list := Summarise();
      return Some(list);
    }

    /** `secret.totp` on the session there is. */
    method CurrentCode(name: string, now: U64, mac: Hmac, other: char -> string)
      returns (r: Result<Result<Shown, TotpError>, Error>)
      ensures r == if session.None? then Err(Locked) else Ok(SecretTotp(session.value.body, name, now, mac, other))
    {
      if session.None? {
        return Err(Locked);
      }
      var body := session.value.body;
      if name !in body {
        return Ok(Err(NoEntry));
      }
      var code := Code(body[name].value, now, PERIOD, DIGITS, mac, other);
      if code.Err? {
        return Ok(Err(code.error));
      }
      return Ok(Ok(Shown(code.value, PERIOD - now % PERIOD)));
    }

    /** `autolock_in_s` of `vault.status`, where it is given. */
    method AutolockIn(now: nat) returns (secs: Option<nat>)
      requires lastActivity <= now
      ensures secs == if lockTimeout == 0 || session.None? then None else Some(Remaining(lockTimeout, now - lastActivity))
    {
      if lockTimeout == 0 || session.None? {
        return None;
      }
      var idle := now - lastActivity;
      return Some(if idle >= lockTimeout then 0 else (lockTimeout - idle) / AutoLock.SECOND);
    }

    // ── dispatch ──

    /** Nothing but `before`'s contents is changed by `r`, which answers `resp`: as `Agent` says. */
    ghost predicate Worked(before: Hub, failures: U32, r: W.Request, env: A.Env, resp: W.Response)
      reads this, dir
    {
      && A.Step(before.core, r, kdf, env) == (Core(), resp)
      && queues == before.queues && parked == before.parked && failCount == failures
    }

    /** The fields a request does not touch, whatever it does. */
    ghost predicate Untouched(activity: nat, next: nat, gen: U64)
      reads this
    {
      lastActivity == activity && nextClient == next && unlockGen == gen
    }

    /**
     The state now is `before` after request `r`: contents and answer by `Agent`, notifications by `LockCache`; without an
     answer, the call has asked for the unlock and waits.
     */
    ghost predicate Handled(before: Hub, failures: U32, r: W.Request, env: A.Env, resp: Option<W.Response>)
      reads this, dir
    {
      && parked == before.parked
      && (resp.None? <==> AsksToUnlock(before.core, r))
      && match resp
         case None =>
           Core() == before.core && failCount == failures && queues == Broadcast(before.queues, [UnlockNeeded])
         case Some(x) =>
           && A.Step(before.core, r, kdf, env) == (Core(), x)
           && queues == Broadcast(before.queues, Notes(before.core, r, x))
           && failCount == FailuresAfter(failures, r, x)
    }

    method Dispatch(r: W.Request, now: nat, env: A.Env) returns (resp: Option<W.Response>)
      modifies this, dir
      ensures Handled(old(View()), old(failCount), r, env, resp)
      ensures lastActivity == if r.Hello? || r.Status? || r.Lock? || r.CancelUnlock? then old(lastActivity) else now
      ensures nextClient == old(nextClient)
      ensures unlockGen == if r.CancelUnlock? then (old(unlockGen) + 1) % 0x1_0000_0000_0000_0000 else old(unlockGen)
    {
      if CountsAsActivity(r) {
        lastActivity := now;
      }
      assert View() == old(View());
      match r {
        case Create(pw) =>
          var x := Create(pw, env);
          resp := Some(x);
        case Unlock(pw) =>
          var x, delay := Unlock(pw, env);
          resp := Some(x);
        case Lock =>
          var x := DoLock(env);
          resp := Some(x);
        case Rotate(oldPw, newPw) =>
          var x := Rotate(oldPw, newPw, env);
          resp := Some(x);
        case Get(name, wait) => resp := Get(name, wait, env);
        case List(wait) => resp := List(wait, env);
        case Alter(c, wait) => resp := Alter(c, wait, env);
        case CancelUnlock =>
          NoNotes(queues);
          unlockGen := (unlockGen + 1) % 0x1_0000_0000_0000_0000;
          resp := Some(W.Done);
        case Hello | Status =>
          NoNotes(queues);
          resp := Some(W.Info(
            session.None?,
            dir.vault.Some?,
            if session.Some? then Some(W.Summaries(session.value.body)) else None));
      }
    }

    method SendReply(to: ClientId, m: Message)
      modifies this`queues
      ensures queues == Send(old(queues), to, m)
    {
      if to in queues {
        queues := queues[to := queues[to] + [m]];
      }
    }

    /** One request of one client, answered on its own queue, or parked. */
    method Handle(from: ClientId, id: nat, caches: bool, r: W.Request, now: nat, env: A.Env)
      requires Valid()
      modifies this, dir
      ensures Valid() && View() == Serve(old(View()), from, id, caches, r, kdf, env)
      ensures lastActivity == if r.Hello? || r.Status? || r.Lock? || r.CancelUnlock? then old(lastActivity) else now
    {
      var resp := Dispatch(r, now, env);
      assert queues.Keys == old(queues).Keys;
      if resp.Some? {
        SendReply(from, Reply(id, caches, resp.value));
      } else {
        AsksMayWait(old(Core()), r);
        parked := parked + [Parked(from, id, r)];
      }
    }

    /** What the wait of a parked call comes to, `woken` by an unlock or not, and its answer. */
    method Resume(k: nat, woken: bool, env: A.Env)
      requires Valid() && k < |parked|
      modifies this, dir
      ensures Valid() && View() == Resumed(old(View()), k, woken, kdf, env)
      ensures lastActivity == old(lastActivity)
    {
      var p := parked[k];
      var resp := W.Failed(Locked);
      if woken {
        match p.r {
          case Get(name, _) => resp := Lookup(name);
          case List(_) => resp := Summarise();
          case Alter(c, wait) => resp := Change(c, wait, env);
        }
        assert A.Step(old(Core()), p.r, kdf, env) == (Core(), resp);
      }
      assert queues == old(queues);
      parked := parked[..k] + parked[k + 1..];
      SendReply(p.from, Reply(p.id, false, resp));
    }
  }

  lemma NoNotes(q: Queues)
    ensures Broadcast(q, []) == q
  {
    assert forall id :: id in q ==> q[id] + [] == q[id];
  }
}
