/**
 Broadcasts and the clients' lock cache: the registry and notifications of `native/src/server.rs`, and the `unlocked`
 flag of `lua/lvim-keyring/init.lua`. A request is one atomic step here, except that a secret call that waits for an
 unlock is two: it asks every client to prompt, and is answered when it resumes.
 */
module LockCache {
  import opened Bytes
  import opened Entries
  import opened Text
  import opened VaultFormat
  import opened Wrappers
  import A = Agent
  import W = Wallet

  type ClientId = nat

  /** A line on its way to a client. `caches` marks a status reply whose requester refreshes its cache from it. */
  datatype Message =
    | StateNote(locked: bool)
    | UnlockNeeded
    | Reply(id: nat, caches: bool, response: W.Response)

  type Queues = map<ClientId, seq<Message>>

  /** A secret call waiting for an unlock. */
  datatype Parked = Parked(from: ClientId, id: nat, r: W.Request)

  datatype Hub = Hub(core: A.Core, queues: Queues, parked: seq<Parked>)

  // ── what a request broadcasts ──

  /** A waiting secret request that finds the vault locked asks every client to prompt. */
  predicate AsksToUnlock(c: A.Core, r: W.Request)
  {
    && c.session.None?
    && match r
       case Get(_, wait) => wait
       case List(wait) => wait
       case Alter(ch, wait) => wait && Validate(ch).None? && !A.BareGenerate(r)
       case _ => false
  }

  /** The notifications of one request that answers `resp`, in the order they are sent. */
  function Notes(c: A.Core, r: W.Request, resp: W.Response): seq<Message>
  {
    match r
    case Create(_) | Rotate(_, _) | Unlock(_) => if resp.Failed? then [] else [StateNote(false)]
    case Lock => if c.session.Some? then [StateNote(true)] else []
    case _ => []
  }

  function Broadcast(q: Queues, notes: seq<Message>): Queues
  {
    map id | id in q :: q[id] + notes
  }

  function Send(q: Queues, to: ClientId, m: Message): Queues
  {
    if to in q then q[to := q[to] + [m]] else q
  }

  /** The requests that may wait. */
  predicate MayWait(r: W.Request)
  {
    r.Get? || r.List? || (r.Alter? && Accepted(r.change))
  }

  /** Serving request `id` of client `from`: work, broadcast, then reply; or ask for the unlock and wait. */
  function Serve(h: Hub, from: ClientId, id: nat, caches: bool, r: W.Request, kdf: KdfParams, env: A.Env): Hub
  {
    if AsksToUnlock(h.core, r) then
      Hub(h.core, Broadcast(h.queues, [UnlockNeeded]), h.parked + [Parked(from, id, r)])
    else
      var (core, resp) := A.Step(h.core, r, kdf, env);
      Hub(core, Send(Broadcast(h.queues, Notes(h.core, r, resp)), from, Reply(id, caches, resp)), h.parked)
  }

  /**
   The wait of the `k`-th parked call is over: refused, or after an unlock, when it does its work on the session there is
   by then, locked again or not.
   */
  function Resumed(h: Hub, k: nat, woken: bool, kdf: KdfParams, env: A.Env): Hub
    requires k < |h.parked|
  {
    var p := h.parked[k];
    var (core, resp) := if woken then A.Step(h.core, p.r, kdf, env) else (h.core, W.Failed(Locked));
    Hub(core, Send(h.queues, p.from, Reply(p.id, false, resp)), h.parked[..k] + h.parked[k + 1..])
  }

  /** The timer's tick when the idle time has run out. */
  function AutoLocked(h: Hub): Hub
  {
    if h.core.session.None? then h
    else Hub(h.core.(session := None), Broadcast(h.queues, [StateNote(true)]), h.parked)
  }

  // ── the client side ──

  /** The lock state a message tells its receiver, if it is one the cache is refreshed from. */
  function Flag(m: Message): Option<bool>
  {
    match m
    case StateNote(locked) => Some(locked)
    case UnlockNeeded => None
    case Reply(_, caches, resp) => if caches && resp.Info? then Some(resp.locked) else None
  }

  /** The cached lock state once every queued message has been handled. */
  function Settled(cached: bool, queue: seq<Message>): bool
    decreases |queue|
  {
    if queue == [] then cached
    else Settled(if Flag(queue[0]).Some? then Flag(queue[0]).value else cached, queue[1..])
  }

  /** `cached` is the client's last known "locked"; `greeted` is whether its hello has been answered. */
  datatype Client = Client(cached: bool, greeted: bool)

  datatype System = System(hub: Hub, clients: map<ClientId, Client>)

  datatype Event =
    | Connect(id: ClientId, stale: bool)
    | Disconnect(id: ClientId)
    | Request(from: ClientId, reqId: nat, caches: bool, r: W.Request, env: A.Env)
    | Resume(k: nat, woken: bool, env: A.Env)
    | IdleLock
    | Deliver(id: ClientId)

  /** A connecting client still has whatever its cache held before; the handshake always refreshes it. */
  function Next(s: System, e: Event, kdf: KdfParams): System
  {
    match e
    case Connect(id, stale) =>
      if id in s.clients then s
      else System(s.hub.(queues := s.hub.queues[id := []]), s.clients[id := Client(stale, false)])
    case Disconnect(id) => System(s.hub.(queues := s.hub.queues - {id}), s.clients - {id})
    case Request(from, reqId, caches, r, env) =>
      if from !in s.clients then s
      else
        System(
          Serve(s.hub, from, reqId, caches || r.Hello?, r, kdf, env),
          s.clients[from := s.clients[from].(greeted := s.clients[from].greeted || r.Hello?)])
    case Resume(k, woken, env) =>
      if k < |s.hub.parked| then System(Resumed(s.hub, k, woken, kdf, env), s.clients) else s
    case IdleLock => System(AutoLocked(s.hub), s.clients)
    case Deliver(id) =>
      if id !in s.clients || id !in s.hub.queues || s.hub.queues[id] == [] then s
      else
        var q := s.hub.queues[id];
        var c := s.clients[id];
        System(
          s.hub.(queues := s.hub.queues[id := q[1..]]),
          s.clients[id := c.(cached := Settled(c.cached, q[..1]))])
  }

  function Run(s: System, events: seq<Event>, kdf: KdfParams): System
    decreases |events|
  {
    if events == [] then s else Run(Next(s, events[0], kdf), events[1..], kdf)
  }

  lemma {:induction false} SettledAppend(cached: bool, a: seq<Message>, b: seq<Message>)
    ensures Settled(cached, a + b) == Settled(Settled(cached, a), b)
    decreases |a|
  {
    if a == [] {
      assert a + b == b;
    } else {
      assert (a + b)[1..] == a[1..] + b;
      SettledAppend(if Flag(a[0]).Some? then Flag(a[0]).value else cached, a[1..], b);
    }
  }

  /** Every greeted client will, once its queue is drained, hold the agent's lock state. */
  predicate CachesRight(s: System)
  {
    && s.clients.Keys == s.hub.queues.Keys
    && (forall i :: 0 <= i < |s.hub.parked| ==> MayWait(s.hub.parked[i].r))
    && forall id :: id in s.clients && s.clients[id].greeted ==>
         Settled(s.clients[id].cached, s.hub.queues[id]) == s.hub.core.session.None?
  }

  /** The one flagged note of a request is there exactly when the lock state may have changed, and says what it is. */
  lemma NotesTellNewState(c: A.Core, r: W.Request, kdf: KdfParams, env: A.Env, cached: bool)
    requires cached == c.session.None?
    ensures
      var (c2, resp) := A.Step(c, r, kdf, env);
      Settled(cached, Notes(c, r, resp)) == c2.session.None?
  {
    var resp := A.Step(c, r, kdf, env).1;
    assert forall m: Message :: Settled(cached, [m]) == if Flag(m).Some? then Flag(m).value else cached;
  }

  /** A reply that refreshes caches tells the state the request left. */
  lemma ReplyTellsState(c: A.Core, r: W.Request, kdf: KdfParams, env: A.Env)
    ensures
      var (c2, resp) := A.Step(c, r, kdf, env);
      resp.Info? ==> resp.locked == c2.session.None?
  {}

  /** A secret call leaves the lock state, and its reply tells nothing of it. */
  lemma SecretKeepsLock(c: A.Core, r: W.Request, kdf: KdfParams, env: A.Env)
    requires MayWait(r)
    ensures
      var (c2, resp) := A.Step(c, r, kdf, env);
      c2.session.None? == c.session.None? && !resp.Info?
  {}

  lemma ResumeKeepsCaches(s: System, k: nat, woken: bool, env: A.Env, kdf: KdfParams)
    requires CachesRight(s) && k < |s.hub.parked|
    ensures CachesRight(Next(s, Resume(k, woken, env), kdf))
  {
    var p := s.hub.parked[k];
    var s2 := Next(s, Resume(k, woken, env), kdf);
    var resp := if woken then A.Step(s.hub.core, p.r, kdf, env).1 else W.Failed(Locked);
    SecretKeepsLock(s.hub.core, p.r, kdf, env);
    forall id | id in s.clients && s.clients[id].greeted
      ensures Settled(s2.clients[id].cached, s2.hub.queues[id]) == s2.hub.core.session.None?
    {
      UnflaggedReply(s.clients[id].cached, s.hub.queues[id], p.id, resp);
    }
  }

  lemma UnflaggedReply(cached: bool, q: seq<Message>, id: nat, resp: W.Response)
    ensures Settled(cached, q + [Reply(id, false, resp)]) == Settled(cached, q)
  {
    var one: seq<Message> := [Reply(id, false, resp)];
    assert one[1..] == [];
    SettledAppend(cached, q, one);
    assert Settled(Settled(cached, q), one) == Settled(cached, q);
  }

  lemma NextKeepsCaches(s: System, e: Event, kdf: KdfParams)
    requires CachesRight(s)
    ensures CachesRight(Next(s, e, kdf))
  {
    match e
    case Request(from, reqId, caches, r, env) =>
      if from in s.clients {
        forall id | id in s.clients
          ensures
            var s2 := Next(s, e, kdf);
            s2.clients[id].greeted ==>
              Settled(s2.clients[id].cached, s2.hub.queues[id]) == s2.hub.core.session.None?
        {
          RequestKeepsCache(s, e, kdf, id);
        }
        AsksMayWait(s.hub.core, r);
      }
    case Resume(k, woken, env) =>
      if k < |s.hub.parked| {
        ResumeKeepsCaches(s, k, woken, env, kdf);
      }
    case IdleLock =>
      forall id | id in s.clients && s.hub.core.session.Some?
        ensures Settled(s.clients[id].cached, s.hub.queues[id] + [StateNote(true)]) == true
      {
        SettledAppend(s.clients[id].cached, s.hub.queues[id], [StateNote(true)]);
      }
    case Deliver(id) =>
      if id in s.clients && s.hub.queues[id] != [] {
        var q := s.hub.queues[id];
        assert q == q[..1] + q[1..];
        SettledAppend(s.clients[id].cached, q[..1], q[1..]);
      }
    case _ =>
  }

  lemma AsksMayWait(c: A.Core, r: W.Request)
    ensures AsksToUnlock(c, r) ==> MayWait(r)
  {}

  lemma AskKeepsCache(s: System, e: Event, kdf: KdfParams, id: ClientId)
    requires CachesRight(s) && e.Request? && e.from in s.clients && id in s.clients && AsksToUnlock(s.hub.core, e.r)
    ensures
      var s2 := Next(s, e, kdf);
      && id in s2.clients && id in s2.hub.queues && s2.hub.core == s.hub.core
      && s2.clients[id].cached == s.clients[id].cached && s2.clients[id].greeted == s.clients[id].greeted
      && Settled(s.clients[id].cached, s2.hub.queues[id]) == Settled(s.clients[id].cached, s.hub.queues[id])
  {
    var one: seq<Message> := [UnlockNeeded];
    assert one[1..] == [];
    SettledAppend(s.clients[id].cached, s.hub.queues[id], one);
  }

  lemma RequestKeepsCache(s: System, e: Event, kdf: KdfParams, id: ClientId)
    requires CachesRight(s) && e.Request? && e.from in s.clients && id in s.clients
    ensures
      var s2 := Next(s, e, kdf);
      && id in s2.clients && id in s2.hub.queues
      && (s2.clients[id].greeted ==>
            Settled(s2.clients[id].cached, s2.hub.queues[id]) == s2.hub.core.session.None?)
  {
    if AsksToUnlock(s.hub.core, e.r) {
      AskKeepsCache(s, e, kdf, id);
    } else {
      ServedKeepsCache(s, e, kdf, id);
    }
  }

  lemma ServedKeepsCache(s: System, e: Event, kdf: KdfParams, id: ClientId)
    requires CachesRight(s) && e.Request? && e.from in s.clients && id in s.clients && !AsksToUnlock(s.hub.core, e.r)
    ensures
      var s2 := Next(s, e, kdf);
      && id in s2.clients && id in s2.hub.queues
      && (s2.clients[id].greeted ==>
            Settled(s2.clients[id].cached, s2.hub.queues[id]) == s2.hub.core.session.None?)
  {
    var (c2, resp) := A.Step(s.hub.core, e.r, kdf, e.env);
    var notes := Notes(s.hub.core, e.r, resp);
    var cached, q := s.clients[id].cached, s.hub.queues[id];
    var reply := Reply(e.reqId, e.caches || e.r.Hello?, resp);
    SettledAppend(cached, q, notes);
    SettledAppend(cached, q + notes, [reply]);
    ReplyTellsState(s.hub.core, e.r, kdf, e.env);
    if s.clients[id].greeted {
      NotesTellNewState(s.hub.core, e.r, kdf, e.env, Settled(cached, q));
    }
    assert Settled(Settled(cached, q + notes), [reply])
        == if Flag(reply).Some? then Flag(reply).value else Settled(cached, q + notes);
  }

  /**
   Over every run of connects, disconnects, requests, idle locks and deliveries: a greeted client's queue settles to the
   agent's lock state, so whenever the queue is empty the cache is that state.
   */
  lemma {:induction false} CachesAlwaysRight(s: System, events: seq<Event>, kdf: KdfParams)
    requires CachesRight(s)
    ensures CachesRight(Run(s, events, kdf))
    ensures
      var e := Run(s, events, kdf);
      forall id :: id in e.clients && e.clients[id].greeted && e.hub.queues[id] == [] ==>
        e.clients[id].cached == e.hub.core.session.None?
    decreases |events|
  {
    if events != [] {
      NextKeepsCaches(s, events[0], kdf);
      CachesAlwaysRight(Next(s, events[0], kdf), events[1..], kdf);
    }
  }

  // ── who is told what ──

  /** A change of the lock state is announced once, to everyone and in the right sense, and nothing else is. */
  lemma NotesOnTransitionOnly(c: A.Core, r: W.Request, kdf: KdfParams, env: A.Env)
    ensures
      var (c2, resp) := A.Step(c, r, kdf, env);
      Notes(c, r, resp) ==
        if (r.Create? || r.Unlock? || r.Rotate?) && c2.session.Some? && !resp.Failed? then [StateNote(false)]
        else if c.session.Some? && c2.session.None? then [StateNote(true)]
        else []
  {}

  /** One request answered: the notes go to every client, the reply to its sender behind them, and to nobody else. */
  lemma ServedQueues(
      h: Hub, from: ClientId, id: nat, caches: bool, r: W.Request, kdf: KdfParams, env: A.Env, to: ClientId)
    requires !AsksToUnlock(h.core, r) && to in h.queues
    ensures
      var (core, resp) := A.Step(h.core, r, kdf, env);
      var h2 := Serve(h, from, id, caches, r, kdf, env);
      && h2.core == core && h2.parked == h.parked && h2.queues.Keys == h.queues.Keys
      && h2.queues[to] ==
           h.queues[to] + Notes(h.core, r, resp) + (if to == from then [Reply(id, caches, resp)] else [])
  {}

  /** A call that may not wait is answered at once on a locked vault, `Locked`, and nobody is asked to prompt. */
  lemma NoWaitAnswersAtOnce(h: Hub, from: ClientId, id: nat, r: W.Request, kdf: KdfParams, env: A.Env)
    requires (r.Get? || r.List? || (r.Alter? && Accepted(r.change))) && !r.wait && h.core.session.None?
    requires from in h.queues
    ensures
      var h2 := Serve(h, from, id, false, r, kdf, env);
      && h2.core == h.core && h2.parked == h.parked
      && h2.queues == h.queues[from := h.queues[from] + [Reply(id, false, W.Failed(Locked))]]
  {
    assert Broadcast(h.queues, []) == h.queues by {
      assert forall c :: c in h.queues ==> h.queues[c] + [] == h.queues[c];
    }
  }

  /** A call that may wait asks everyone once and stays unanswered. */
  lemma WaitAsksEveryone(h: Hub, from: ClientId, id: nat, r: W.Request, kdf: KdfParams, env: A.Env, to: ClientId)
    requires (r.Get? || r.List? || (r.Alter? && Accepted(r.change))) && r.wait && h.core.session.None? && to in h.queues
    ensures
      var h2 := Serve(h, from, id, false, r, kdf, env);
      && h2.core == h.core && h2.parked == h.parked + [Parked(from, id, r)]
      && to in h2.queues && h2.queues[to] == h.queues[to] + [UnlockNeeded]
  {}

  /** Ending a wait answers that call alone, once: refused without a look, or as the map answers it now. */
  lemma ResumeAnswersOne(h: Hub, k: nat, woken: bool, kdf: KdfParams, env: A.Env, to: ClientId)
    requires k < |h.parked| && to in h.queues
    ensures
      var p := h.parked[k];
      var h2 := Resumed(h, k, woken, kdf, env);
      && multiset(h.parked) == multiset(h2.parked) + multiset{p}
      && h2.queues.Keys == h.queues.Keys
      && (!woken ==> h2.core == h.core)
      && h2.queues[to] ==
           h.queues[to]
           + (if to != p.from then []
              else [Reply(p.id, false, if woken then A.Step(h.core, p.r, kdf, env).1 else W.Failed(Locked))])
  {
    assert h.parked == h.parked[..k] + [h.parked[k]] + h.parked[k + 1..];
  }

  /**
   Transparent unlock: a read of a locked vault that may wait asks every client to prompt and is answered, once some
   client has unlocked, with what the file held.
   */
  lemma TransparentUnlock(
      h: Hub, w: W.State, from: ClientId, id: nat, name: string, opener: ClientId, openId: nat, pw: Password,
      kdf: KdfParams, env: A.Env, unlocking: A.Env, resuming: A.Env)
    requires A.Agrees(h.core, w) && h.core.session.None? && from in h.queues
    requires W.Authenticate(w, pw, A.Reading(unlocking)).Ok?
    ensures
      var m := W.Authenticate(w, pw, A.Reading(unlocking)).value;
      var asked := Serve(h, from, id, false, W.Get(name, true), kdf, env);
      var opened_ := Serve(asked, opener, openId, false, W.Unlock(pw), kdf, unlocking);
      && asked.core == h.core && asked.queues == Broadcast(h.queues, [UnlockNeeded])
      && opened_.parked == h.parked + [Parked(from, id, W.Get(name, true))]
      && var q := Resumed(opened_, |h.parked|, true, kdf, resuming).queues;
         && from in q && q[from] != []
         && q[from][|q[from]| - 1]
            == Reply(id, false, if name in m then W.Got(m[name]) else W.Failed(NoSuchSecret(name)))
  {
    var asked := Serve(h, from, id, false, W.Get(name, true), kdf, env);
    UnlockServed(asked, w, opener, openId, pw, kdf, unlocking);
    var opened_ := Serve(asked, opener, openId, false, W.Unlock(pw), kdf, unlocking);
    GetResumed(opened_, |h.parked|, kdf, resuming);
  }

  lemma UnlockServed(h: Hub, w: W.State, from: ClientId, id: nat, pw: Password, kdf: KdfParams, env: A.Env)
    requires A.Agrees(h.core, w) && W.Authenticate(w, pw, A.Reading(env)).Ok?
    ensures
      var h2 := Serve(h, from, id, false, W.Unlock(pw), kdf, env);
      && h2.parked == h.parked && h2.queues.Keys == h.queues.Keys
      && h2.core.session.Some? && h2.core.session.value.body == W.Authenticate(w, pw, A.Reading(env)).value
  {
    A.UnlockAgrees(h.core.disk, w, pw, env);
  }

  lemma GetResumed(h: Hub, k: nat, kdf: KdfParams, env: A.Env)
    requires k < |h.parked| && h.parked[k].r.Get? && h.core.session.Some? && h.parked[k].from in h.queues
    ensures
      var p, m := h.parked[k], h.core.session.value.body;
      var q := Resumed(h, k, true, kdf, env).queues;
      && p.from in q && q[p.from] != []
      && q[p.from][|q[p.from]| - 1]
         == Reply(p.id, false, if p.r.name in m then W.Got(m[p.r.name]) else W.Failed(NoSuchSecret(p.r.name)))
  {}
}
