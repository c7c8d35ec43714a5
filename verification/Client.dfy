/**
 The editor's end of the agent connection (`lua/lvim-keyring/daemon.lua`): requests correlated by id, callers of `ensure`
 coalesced into one connect, and a teardown that may be re-entered from the very callbacks it fires.

 Callbacks are arbitrary code: while one runs it may call `ensure`, `request` or `stop`, or let events in by pumping the
 loop. What is still to run when control is inside a callback is kept as an explicit stack of frames.
 */
module Client {
  import opened Wrappers

  type Id = nat

  /** The n-th callback ever handed to `ensure` or `request`. */
  type Token = nat

  datatype Kind = EnsureCall | RequestCall

  /** A value of the `pending` table. */
  datatype Callback = User(k: Token) | Handshake

  /** What a callback is called with: ready or not, a good or bad answer under its id, or the error of a teardown. */
  datatype How = Ready | Refused | Answered(id: Id, good: bool) | Torn

  datatype Firing = Firing(k: Token, how: How)

  datatype Frame =
    | UserCode                                    // a callback or notification handler is running
    | FireWaiters(rest: seq<Token>, ok: bool)     // the loop over captured waiters
    | FireDead(dead: map<Id, Callback>)           // teardown's loop over what was pending
    | TakeWaiters                                 // teardown's second half

  /**
   `attempt`: the connect that began when `connecting` was last set is still in progress (socket connect, retry timer, or
   the scheduled `on_connected`); `stale` counts those of before a teardown, which nobody cancels.
   */
  datatype State = State(
    pipe: bool,
    ready: bool,
    connecting: bool,
    attempt: bool,
    stale: nat,
    idSeq: nat,
    pending: map<Id, Callback>,
    waiters: seq<Token>,
    stack: seq<Frame>,
    kinds: seq<Kind>,
    fired: seq<Firing>,
    sentAs: map<Token, Id>)

  const START := State(false, false, false, false, 0, 0, map[], [], [], [], [], map[])

  // ── the pieces of the module ──

  function Push(s: State, frames: seq<Frame>): State
  {
    s.(stack := frames + s.stack)
  }

  /** Whatever attempt is in progress goes on, but no longer on behalf of `connecting`. */
  function Outdated(s: State): State
  {
    s.(attempt := false, stale := if s.attempt then s.stale + 1 else s.stale)
  }

  function Offline(s: State): State
  {
    Outdated(s).(ready := false, connecting := false, pipe := false, pending := map[])
  }

  /** `teardown`, up to the point where it starts calling back. */
  function Teardown(s: State): State
  {
    Push(
      Offline(s),
      [FireDead(s.pending), TakeWaiters])
  }

  function Fire(s: State, k: Token, how: How): State
  {
    Push(s.(fired := s.fired + [Firing(k, how)]), [UserCode])
  }

  /** The body of `request`'s own waiter once the agent is up: take an id, remember the callback, send. */
  function SendRequest(s: State, k: Token): State
  {
    var id := s.idSeq + 1;
    s.(idSeq := id, pending := s.pending[id := User(k)], sentAs := s.sentAs[k := id])
  }

  /** Calls one waiter: an `ensure` callback is user code, a `request` waiter sends or reports the error. */
  function Notify(s: State, k: Token, ok: bool): State
    requires k < |s.kinds|
  {
    if s.kinds[k].EnsureCall? then Fire(s, k, if ok then Ready else Refused)
    else if ok then SendRequest(s, k)
    else Fire(s, k, Refused)
  }

  /** The handshake callback's failure path: capture the waiters, tear down, then refuse them. */
  function HandshakeFailed(s: State): State
  {
    Teardown(Push(s.(waiters := [], connecting := false), [FireWaiters(s.waiters, false)]))
  }

  /** One entry of a teardown's table: an error for a request, a failed handshake for a handshake. */
  function CallDead(s: State, cb: Callback): State
  {
    match cb
    case User(k) => Fire(s, k, Torn)
    case Handshake => HandshakeFailed(s)
  }

  /** Its success path: ready, the `vault.state` handler first, then every captured waiter. */
  function HandshakeDone(s: State): State
  {
    Push(s.(waiters := [], connecting := false, ready := true), [UserCode, FireWaiters(s.waiters, true)])
  }

  /** Sends `rpc.hello` under a fresh id. */
  function StartHandshake(s: State): State
  {
    s.(idSeq := s.idSeq + 1, pending := s.pending[s.idSeq + 1 := Handshake])
  }

  /** `on_message` for a response: the entry leaves the table before its callback runs. */
  function Respond(s: State, id: Id, good: bool): State
  {
    if id !in s.pending then s
    else
      var s1 := s.(pending := s.pending - {id});
      match s.pending[id]
      case User(k) => Fire(s1, k, Answered(id, good))
      case Handshake => if good then HandshakeDone(s1) else HandshakeFailed(s1)
  }

  /** `ensure` and `request`, which differ in what their callback does once called. `secure` is the socket-directory check. */
  function Call(s: State, kind: Kind, secure: bool): State
  {
    var k := |s.kinds|;
    var s1 := s.(kinds := s.kinds + [kind]);
    if s.ready && s.pipe then Notify(s1, k, true)
    else
      var s2 := s1.(waiters := s.waiters + [k]);
      if s.connecting then s2
      else if secure then Outdated(s2).(connecting := true, attempt := true)
      else Teardown(s2.(connecting := true))
  }

  // ── one step ──

  datatype Action =
    | Ensure(secure: bool)
    | Request(secure: bool)
    | Stop                      // M.stop, a read error, end of file, or a try_connect failing after its attempt is over
    | Connect                   // some attempt's socket connect succeeded
    | OnConnected(late: bool)    // the scheduled `on_connected` of the current or a stale attempt, which ends with it
    | GiveUp(late: bool)         // an attempt fails for good
    | Message(id: Id, good: bool)
    | Return                    // the running callback comes to its end
    | Continue(id: Id)          // the innermost loop calls its next callback; `id` is the entry `pairs` yields next

  /** Outside callbacks the event loop runs; inside one, user code does. */
  predicate Open(s: State)
  {
    s.stack == [] || s.stack[0].UserCode?
  }

  predicate Enabled(s: State, a: Action)
  {
    match a
    case Return => s.stack != [] && s.stack[0].UserCode?
    case Continue(id) =>
      && s.stack != [] && !s.stack[0].UserCode?
      && (s.stack[0].FireDead? && s.stack[0].dead != map[] ==> id in s.stack[0].dead)
      && (s.stack[0].FireWaiters? && s.stack[0].rest != [] ==> s.stack[0].rest[0] < |s.kinds|)
    case Connect => Open(s) && !s.pipe && (s.attempt || s.stale > 0)
    case OnConnected(late) => Open(s) && if late then s.stale > 0 else s.attempt && s.pipe
    case GiveUp(late) => Open(s) && if late then s.stale > 0 else s.attempt
    case _ => Open(s)
  }

  /** The innermost loop's next turn. */
  function Turn(s: State, id: Id): State
    requires Enabled(s, Continue(id))
  {
    var below := s.(stack := s.stack[1..]);
    match s.stack[0]
    case FireWaiters(rest, ok) =>
      if rest == [] then below else Notify(Push(below, [FireWaiters(rest[1..], ok)]), rest[0], ok)
    case FireDead(dead) =>
      if dead == map[] then below
      else
        CallDead(Push(below, [FireDead(dead - {id})]), dead[id])
    case TakeWaiters => Push(below.(waiters := []), [FireWaiters(s.waiters, false)])
    case UserCode => s
  }

  /** The attempt is over. */
  function Ended(s: State, late: bool): State
    requires late ==> s.stale > 0
  {
    if late then s.(stale := s.stale - 1) else s.(attempt := false)
  }

  function Step(s: State, a: Action): State
    requires Enabled(s, a)
  {
    match a
    case Ensure(secure) => Call(s, EnsureCall, secure)
    case Request(secure) => Call(s, RequestCall, secure)
    case Stop => Teardown(s)
    case Connect => s.(pipe := true)
    case OnConnected(late) => if s.pipe then StartHandshake(Ended(s, late)) else Ended(s, late)
    case GiveUp(late) => Teardown(Ended(s, late))
    case Message(id, good) => Respond(s, id, good)
    case Return => s.(stack := s.stack[1..])
    case Continue(id) => Turn(s, id)
  }

  // ── where a callback is ──

  function InSeq(ks: seq<Token>, k: Token): nat
  {
    if ks == [] then 0 else (if ks[0] == k then 1 else 0) + InSeq(ks[1..], k)
  }

  function InEntry(m: map<Id, Callback>, id: Id, k: Token): nat
  {
    if id in m && m[id] == User(k) then 1 else 0
  }

  /** How often `k` is a callback in the entries of a table with ids below `bound`. */
  function InTable(m: map<Id, Callback>, bound: nat, k: Token): nat
  {
    if bound == 0 then 0 else InTable(m, bound - 1, k) + InEntry(m, bound - 1, k)
  }

  function InFrame(f: Frame, bound: nat, k: Token): nat
  {
    match f
    case FireWaiters(rest, _) => InSeq(rest, k)
    case FireDead(dead) => InTable(dead, bound, k)
    case _ => 0
  }

  /** How often loops in progress have still to call `k`. */
  function InStack(stack: seq<Frame>, bound: nat, k: Token): nat
  {
    if stack == [] then 0 else InFrame(stack[0], bound, k) + InStack(stack[1..], bound, k)
  }

  function InFired(fired: seq<Firing>, k: Token): nat
  {
    if fired == [] then 0 else InFired(fired[..|fired| - 1], k) + (if fired[|fired| - 1].k == k then 1 else 0)
  }

  /** How many places hold `k`: waiting, pending an answer, about to be called by a loop in progress, called. */
  function Places(s: State, k: Token): nat
  {
    InSeq(s.waiters, k) + InTable(s.pending, s.idSeq + 1, k) + InStack(s.stack, s.idSeq + 1, k) + InFired(s.fired, k)
  }

  /** A table that holds, under ids already used, callbacks of requests sent under that very id. */
  predicate TableOk(m: map<Id, Callback>, idSeq: nat, sentAs: map<Token, Id>)
  {
    forall id :: id in m ==> 0 < id <= idSeq && (m[id].User? ==> m[id].k in sentAs && sentAs[m[id].k] == id)
  }

  /** Callbacks that have not been sent as requests. */
  predicate UnsentOk(ks: seq<Token>, n: nat, sentAs: map<Token, Id>)
  {
    forall k :: k in ks ==> k < n && k !in sentAs
  }

  predicate FrameOk(f: Frame, n: nat, idSeq: nat, sentAs: map<Token, Id>)
  {
    match f
    case FireDead(dead) => TableOk(dead, idSeq, sentAs)
    case FireWaiters(rest, _) => UnsentOk(rest, n, sentAs)
    case _ => true
  }

  predicate StackOk(stack: seq<Frame>, n: nat, idSeq: nat, sentAs: map<Token, Id>)
  {
    stack == [] || (FrameOk(stack[0], n, idSeq, sentAs) && StackOk(stack[1..], n, idSeq, sentAs))
  }

  /** Each request sent has an id of its own, never above the counter. */
  predicate IdsOk(kinds: seq<Kind>, idSeq: nat, sentAs: map<Token, Id>)
  {
    && (forall k :: k in sentAs ==> k < |kinds| && kinds[k].RequestCall? && 0 < sentAs[k] <= idSeq)
    && (forall j, k :: j in sentAs && k in sentAs && j != k ==> sentAs[j] != sentAs[k])
  }

  /** An answer reached only the callback of the request that went out under its id. */
  predicate FiredOk(fired: seq<Firing>, sentAs: map<Token, Id>)
  {
    forall i :: 0 <= i < |fired| ==>
      fired[i].how.Answered? ==> fired[i].k in sentAs && sentAs[fired[i].k] == fired[i].how.id
  }

  predicate WillTake(stack: seq<Frame>)
  {
    stack != [] && (stack[0].TakeWaiters? || WillTake(stack[1..]))
  }

  predicate Local(s: State)
  {
    && TableOk(s.pending, s.idSeq, s.sentAs)
    && StackOk(s.stack, |s.kinds|, s.idSeq, s.sentAs)
    && UnsentOk(s.waiters, |s.kinds|, s.sentAs)
    && IdsOk(s.kinds, s.idSeq, s.sentAs)
    && FiredOk(s.fired, s.sentAs)
    // nobody waits without a connect attempt in flight or a teardown about to take the waiters
    && (s.waiters == [] || s.connecting || WillTake(s.stack))
  }

  /** Every callback handed over is in exactly one place, and nothing else is anywhere. */
  ghost predicate Conserved(s: State)
  {
    forall k: Token :: Places(s, k) == if k < |s.kinds| then 1 else 0
  }

  ghost predicate Inv(s: State)
  {
    Local(s) && Conserved(s)
  }

  // ── counting ──

  lemma {:induction false} TableRemove(m: map<Id, Callback>, id: Id, bound: nat, k: Token)
    requires id in m && id < bound
    ensures InTable(m - {id}, bound, k) + InEntry(m, id, k) == InTable(m, bound, k)
  {
    if bound - 1 == id {
      TableSame(m - {id}, m, id, k);
    } else {
      TableRemove(m, id, bound - 1, k);
    }
  }

  lemma {:induction false} TableSame(a: map<Id, Callback>, b: map<Id, Callback>, bound: nat, k: Token)
    requires forall id: Id :: id < bound ==> InEntry(a, id, k) == InEntry(b, id, k)
    ensures InTable(a, bound, k) == InTable(b, bound, k)
  {
    if bound > 0 {
      TableSame(a, b, bound - 1, k);
    }
  }

  lemma TableAdd(m: map<Id, Callback>, id: Id, cb: Callback, bound: nat, k: Token)
    requires id !in m && id < bound
    ensures InTable(m[id := cb], bound, k) == InTable(m, bound, k) + if cb == User(k) then 1 else 0
  {
    TableRemove(m[id := cb], id, bound, k);
    assert m[id := cb] - {id} == m;
  }

  lemma {:induction false} TableEmpty(bound: nat, k: Token)
    ensures InTable(map[], bound, k) == 0
  {
    if bound > 0 {
      TableEmpty(bound - 1, k);
    }
  }

  lemma {:induction false} TableHas(m: map<Id, Callback>, id: Id, bound: nat, k: Token)
    requires id in m && id < bound && m[id] == User(k)
    ensures InTable(m, bound, k) > 0
  {
    if bound - 1 != id {
      TableHas(m, id, bound - 1, k);
    }
  }

  lemma {:induction false} SeqHas(ks: seq<Token>, k: Token)
    ensures k in ks <==> InSeq(ks, k) > 0
  {
    if ks != [] {
      SeqHas(ks[1..], k);
    }
  }

  lemma {:induction false} SeqAppend(ks: seq<Token>, j: Token, k: Token)
    ensures InSeq(ks + [j], k) == InSeq(ks, k) + if j == k then 1 else 0
  {
    if ks != [] {
      assert (ks + [j])[1..] == ks[1..] + [j];
      SeqAppend(ks[1..], j, k);
    }
  }

  /** Raising the id counter moves no callback. */
  lemma {:induction false} StackGrow(stack: seq<Frame>, n: nat, idSeq: nat, sentAs: map<Token, Id>, k: Token)
    requires StackOk(stack, n, idSeq, sentAs)
    ensures InStack(stack, idSeq + 2, k) == InStack(stack, idSeq + 1, k)
  {
    if stack != [] {
      StackGrow(stack[1..], n, idSeq, sentAs, k);
    }
  }

  lemma PushPlaces(s: State, f: Frame, k: Token)
    ensures Places(Push(s, [f]), k) == Places(s, k) + InFrame(f, s.idSeq + 1, k)
  {
    assert Push(s, [f]).stack[1..] == s.stack;
  }

  lemma PushTwo(s: State, f: Frame, g: Frame)
    ensures Push(s, [f, g]) == Push(Push(s, [g]), [f])
  {
    assert [f, g] + s.stack == [f] + ([g] + s.stack);
  }

  // ── no piece loses, copies or invents a callback ──

  lemma TeardownPlaces(s: State, k: Token)
    ensures Places(Teardown(s), k) == Places(s, k)
  {
    var s1 := Offline(s);
    TableEmpty(s.idSeq + 1, k);
    PushTwo(s1, FireDead(s.pending), TakeWaiters);
    PushPlaces(s1, TakeWaiters, k);
    PushPlaces(Push(s1, [TakeWaiters]), FireDead(s.pending), k);
  }

  lemma FirePlaces(s: State, j: Token, how: How, k: Token)
    ensures Places(Fire(s, j, how), k) == Places(s, k) + if j == k then 1 else 0
  {
    var s1 := s.(fired := s.fired + [Firing(j, how)]);
    assert s1.fired[..|s1.fired| - 1] == s.fired;
    PushPlaces(s1, UserCode, k);
  }

  lemma SendPlaces(s: State, j: Token, k: Token)
    requires Local(s)
    ensures Places(SendRequest(s, j), k) == Places(s, k) + if j == k then 1 else 0
  {
    StackGrow(s.stack, |s.kinds|, s.idSeq, s.sentAs, k);
    TableAdd(s.pending, s.idSeq + 1, User(j), s.idSeq + 2, k);
  }

  lemma NotifyPlaces(s: State, j: Token, ok: bool, k: Token)
    requires Local(s) && j < |s.kinds|
    ensures Places(Notify(s, j, ok), k) == Places(s, k) + if j == k then 1 else 0
  {
    if s.kinds[j].RequestCall? && ok {
      SendPlaces(s, j, k);
    } else {
      FirePlaces(s, j, if s.kinds[j].EnsureCall? && ok then Ready else Refused, k);
    }
  }

  lemma CapturePlaces(s: State, ok: bool, k: Token)
    ensures Places(Push(s.(waiters := [], connecting := false), [FireWaiters(s.waiters, ok)]), k) == Places(s, k)
  {
    PushPlaces(s.(waiters := [], connecting := false), FireWaiters(s.waiters, ok), k);
  }

  lemma HandshakeFailedPlaces(s: State, k: Token)
    ensures Places(HandshakeFailed(s), k) == Places(s, k)
  {
    CapturePlaces(s, false, k);
    TeardownPlaces(Push(s.(waiters := [], connecting := false), [FireWaiters(s.waiters, false)]), k);
  }

  lemma HandshakeDonePlaces(s: State, k: Token)
    ensures Places(HandshakeDone(s), k) == Places(s, k)
  {
    var s1 := s.(waiters := [], connecting := false);
    CapturePlaces(s, true, k);
    PushPlaces(Push(s1, [FireWaiters(s.waiters, true)]), UserCode, k);
    PushTwo(s1, UserCode, FireWaiters(s.waiters, true));
  }

  lemma StartHandshakePlaces(s: State, k: Token)
    requires Local(s)
    ensures Places(StartHandshake(s), k) == Places(s, k)
  {
    StackGrow(s.stack, |s.kinds|, s.idSeq, s.sentAs, k);
    TableAdd(s.pending, s.idSeq + 1, Handshake, s.idSeq + 2, k);
  }

  lemma HandshakePlaces(s: State, k: Token)
    requires Local(s)
    ensures Places(HandshakeFailed(s), k) == Places(s, k)
    ensures Places(HandshakeDone(s), k) == Places(s, k)
    ensures Places(StartHandshake(s), k) == Places(s, k)
  {
    HandshakeFailedPlaces(s, k);
    HandshakeDonePlaces(s, k);
    StartHandshakePlaces(s, k);
  }

  // ── nor breaks the order of things ──

  lemma {:induction false} StackOkLater(stack: seq<Frame>, n: nat, idSeq: nat, sentAs: map<Token, Id>, k: Token)
    requires StackOk(stack, n, idSeq, sentAs) && k !in sentAs && InStack(stack, idSeq + 1, k) == 0
    ensures StackOk(stack, n, idSeq + 1, sentAs[k := idSeq + 1])
  {
    if stack != [] {
      if stack[0].FireWaiters? {
        SeqHas(stack[0].rest, k);
      }
      StackOkLater(stack[1..], n, idSeq, sentAs, k);
    }
  }

  lemma {:induction false} StackOkMore(stack: seq<Frame>, n: nat, idSeq: nat, sentAs: map<Token, Id>)
    requires StackOk(stack, n, idSeq, sentAs)
    ensures StackOk(stack, n, idSeq + 1, sentAs) && StackOk(stack, n + 1, idSeq, sentAs)
  {
    if stack != [] {
      StackOkMore(stack[1..], n, idSeq, sentAs);
    }
  }

  lemma PushLocal(s: State, f: Frame)
    requires Local(s) && FrameOk(f, |s.kinds|, s.idSeq, s.sentAs)
    ensures Local(Push(s, [f]))
  {
    assert Push(s, [f]).stack[1..] == s.stack;
  }

  lemma TeardownLocal(s: State)
    requires Local(s)
    ensures Local(Teardown(s))
  {
    PushLocal(s, TakeWaiters);
    var s1 := Offline(Push(s, [TakeWaiters]));
    assert WillTake(s1.stack);
    PushLocal(s1, FireDead(s.pending));
    PushTwo(Offline(s), FireDead(s.pending), TakeWaiters);
  }

  lemma FireLocal(s: State, k: Token, how: How)
    requires Local(s) && (how.Answered? ==> k in s.sentAs && s.sentAs[k] == how.id)
    ensures Local(Fire(s, k, how))
  {
    PushLocal(s.(fired := s.fired + [Firing(k, how)]), UserCode);
  }

  lemma SendLocal(s: State, k: Token)
    requires Local(s) && k !in s.sentAs && k < |s.kinds| && s.kinds[k].RequestCall?
    requires Places(s, k) == 0
    ensures Local(SendRequest(s, k))
  {
    SeqHas(s.waiters, k);
    StackOkLater(s.stack, |s.kinds|, s.idSeq, s.sentAs, k);
  }

  lemma NotifyLocal(s: State, k: Token, ok: bool)
    requires Local(s) && k !in s.sentAs && k < |s.kinds| && Places(s, k) == 0
    ensures Local(Notify(s, k, ok))
  {
    if s.kinds[k].RequestCall? && ok {
      SendLocal(s, k);
    } else {
      FireLocal(s, k, if s.kinds[k].EnsureCall? && ok then Ready else Refused);
    }
  }

  lemma CaptureLocal(s: State, ok: bool)
    requires Local(s)
    ensures Local(Push(s.(waiters := [], connecting := false), [FireWaiters(s.waiters, ok)]))
  {
    PushLocal(s.(waiters := [], connecting := false), FireWaiters(s.waiters, ok));
  }

  lemma HandshakeLocal(s: State)
    requires Local(s)
    ensures Local(HandshakeFailed(s)) && Local(HandshakeDone(s)) && Local(StartHandshake(s))
  {
    var s1 := s.(waiters := [], connecting := false);
    CaptureLocal(s, false);
    TeardownLocal(Push(s1, [FireWaiters(s.waiters, false)]));
    CaptureLocal(s, true);
    PushLocal(Push(s1, [FireWaiters(s.waiters, true)]), UserCode);
    PushTwo(s1, UserCode, FireWaiters(s.waiters, true));
    StackOkMore(s.stack, |s.kinds|, s.idSeq, s.sentAs);
  }

  // ── steps ──

  lemma RespondLocal(s: State, id: Id, good: bool)
    requires Local(s)
    ensures Local(Respond(s, id, good))
  {
    if id in s.pending {
      var s1 := s.(pending := s.pending - {id});
      if s.pending[id].User? {
        FireLocal(s1, s.pending[id].k, Answered(id, good));
      } else {
        HandshakeLocal(s1);
      }
    }
  }

  lemma RespondPlaces(s: State, id: Id, good: bool, k: Token)
    requires Local(s)
    ensures Places(Respond(s, id, good), k) == Places(s, k)
  {
    if id in s.pending {
      var s1 := s.(pending := s.pending - {id});
      TableRemove(s.pending, id, s.idSeq + 1, k);
      if s.pending[id].User? {
        FirePlaces(s1, s.pending[id].k, Answered(id, good), k);
      } else {
        HandshakePlaces(s1, k);
      }
    }
  }

  lemma RespondKeeps(s: State, id: Id, good: bool)
    requires Inv(s)
    ensures Inv(Respond(s, id, good))
  {
    RespondLocal(s, id, good);
    forall k: Token ensures Places(Respond(s, id, good), k) == Places(s, k) {
      RespondPlaces(s, id, good, k);
    }
  }

  lemma CallKeeps(s: State, kind: Kind, secure: bool)
    requires Inv(s)
    ensures Inv(Call(s, kind, secure))
  {
    var j := |s.kinds|;
    var s1 := s.(kinds := s.kinds + [kind]);
    StackOkMore(s.stack, j, s.idSeq, s.sentAs);
    assert Local(s1) && forall k: Token :: Places(s1, k) == Places(s, k);
    if s.ready && s.pipe {
      NotifyLocal(s1, j, true);
      forall k: Token ensures Places(Notify(s1, j, true), k) == Places(s, k) + if j == k then 1 else 0 {
        NotifyPlaces(s1, j, true, k);
      }
    } else {
      WaitKeeps(s1, j, secure);
    }
  }

  lemma WaitKeeps(s: State, j: Token, secure: bool)
    requires Local(s) && j < |s.kinds| && j !in s.sentAs
    requires forall k: Token :: Places(s, k) + (if j == k then 1 else 0) == if k < |s.kinds| then 1 else 0
    ensures
      var s2 := s.(waiters := s.waiters + [j], connecting := true);
      Inv(s2) && Inv(Outdated(s2).(attempt := true)) && Inv(Teardown(s2))
  {
    var s2 := s.(waiters := s.waiters + [j], connecting := true);
    assert forall k: Token :: Places(Outdated(s2).(attempt := true), k) == Places(s2, k);
    TeardownLocal(s2);
    forall k: Token ensures Places(Teardown(s2), k) == Places(s2, k) == Places(s, k) + if j == k then 1 else 0 {
      SeqAppend(s.waiters, j, k);
      TeardownPlaces(s2, k);
    }
  }

  /** Handing the first waiter of a loop to its callback. */
  lemma NextWaiter(s: State, rest: seq<Token>, ok: bool, k: Token)
    requires s.stack != [] && s.stack[0] == FireWaiters(rest, ok) && rest != []
    ensures
      var s1 := Push(s.(stack := s.stack[1..]), [FireWaiters(rest[1..], ok)]);
      Places(s1, k) + (if rest[0] == k then 1 else 0) == Places(s, k)
  {
    PushPlaces(s.(stack := s.stack[1..]), FireWaiters(rest[1..], ok), k);
  }

  lemma NextWaiterLocal(s: State, rest: seq<Token>, ok: bool)
    requires Local(s) && s.stack != [] && s.stack[0] == FireWaiters(rest, ok) && rest != []
    ensures Local(Push(s.(stack := s.stack[1..]), [FireWaiters(rest[1..], ok)])) && rest[0] !in s.sentAs
  {
    assert FrameOk(s.stack[0], |s.kinds|, s.idSeq, s.sentAs) && UnsentOk(rest, |s.kinds|, s.sentAs);
    assert forall k :: k in rest[1..] ==> k in rest;
    PushLocal(s.(stack := s.stack[1..]), FireWaiters(rest[1..], ok));
  }

  lemma NextWaiterTurn(s: State, rest: seq<Token>, ok: bool)
    requires Inv(s) && s.stack != [] && s.stack[0] == FireWaiters(rest, ok) && rest != [] && rest[0] < |s.kinds|
    ensures Inv(Notify(Push(s.(stack := s.stack[1..]), [FireWaiters(rest[1..], ok)]), rest[0], ok))
  {
    var s1 := Push(s.(stack := s.stack[1..]), [FireWaiters(rest[1..], ok)]);
    NextWaiterLocal(s, rest, ok);
    NextWaiter(s, rest, ok, rest[0]);
    NotifyLocal(s1, rest[0], ok);
    forall k: Token ensures Places(Notify(s1, rest[0], ok), k) == Places(s, k) {
      NextWaiter(s, rest, ok, k);
      NotifyPlaces(s1, rest[0], ok, k);
    }
  }

  lemma FireWaitersTurn(s: State, id: Id)
    requires Inv(s) && Enabled(s, Continue(id)) && s.stack[0].FireWaiters?
    ensures Inv(Turn(s, id))
  {
    if s.stack[0].rest == [] {
      assert forall k: Token :: Places(s.(stack := s.stack[1..]), k) == Places(s, k);
    } else {
      NextWaiterTurn(s, s.stack[0].rest, s.stack[0].ok);
    }
  }

  lemma CallDeadKeeps(s: State, cb: Callback, k: Token)
    requires Local(s)
    ensures Local(CallDead(s, cb)) && CallDead(s, cb).kinds == s.kinds
    ensures Places(CallDead(s, cb), k) == Places(s, k) + if cb == User(k) then 1 else 0
  {
    match cb
    case User(j) =>
      FireLocal(s, j, Torn);
      FirePlaces(s, j, Torn, k);
    case Handshake =>
      HandshakeLocal(s);
      HandshakeFailedPlaces(s, k);
  }

  /** Taking one entry off a teardown's table. */
  lemma NextDead(s: State, dead: map<Id, Callback>, id: Id, k: Token)
    requires Local(s) && s.stack != [] && s.stack[0] == FireDead(dead) && id in dead
    ensures
      var s1 := Push(s.(stack := s.stack[1..]), [FireDead(dead - {id})]);
      Local(s1) && Places(s1, k) + (if dead[id] == User(k) then 1 else 0) == Places(s, k)
  {
    PushLocal(s.(stack := s.stack[1..]), FireDead(dead - {id}));
    PushPlaces(s.(stack := s.stack[1..]), FireDead(dead - {id}), k);
    TableRemove(dead, id, s.idSeq + 1, k);
  }

  lemma FireDeadTurn(s: State, id: Id)
    requires Inv(s) && Enabled(s, Continue(id)) && s.stack[0].FireDead?
    ensures Inv(Turn(s, id))
  {
    var below := s.(stack := s.stack[1..]);
    var dead: map<Id, Callback> := s.stack[0].dead;
    if dead == map[] {
      forall k: Token ensures Places(below, k) == Places(s, k) {
        TableEmpty(s.idSeq + 1, k);
      }
    } else {
      var s1 := Push(below, [FireDead(dead - {id})]);
      NextDead(s, dead, id, 0);
      CallDeadKeeps(s1, dead[id], 0);
      forall k: Token ensures Places(CallDead(s1, dead[id]), k) == Places(s, k) {
        NextDead(s, dead, id, k);
        CallDeadKeeps(s1, dead[id], k);
      }
    }
  }

  lemma TakeWaitersTurn(s: State, id: Id)
    requires Inv(s) && Enabled(s, Continue(id)) && s.stack[0].TakeWaiters?
    ensures Inv(Turn(s, id))
  {
    var below := s.(stack := s.stack[1..], waiters := []);
    PushLocal(below, FireWaiters(s.waiters, false));
    forall k: Token ensures Places(Turn(s, id), k) == Places(s, k) {
      PushPlaces(below, FireWaiters(s.waiters, false), k);
    }
  }

  lemma StepKeepsInv(s: State, a: Action)
    requires Inv(s) && Enabled(s, a)
    ensures Inv(Step(s, a))
  {
    match a
    case Ensure(secure) => CallKeeps(s, EnsureCall, secure);
    case Request(secure) => CallKeeps(s, RequestCall, secure);
    case Message(id, good) => RespondKeeps(s, id, good);
    case Continue(id) =>
      if s.stack[0].FireWaiters? {
        FireWaitersTurn(s, id);
      } else if s.stack[0].FireDead? {
        FireDeadTurn(s, id);
      } else {
        TakeWaitersTurn(s, id);
      }
    case _ => PlainStep(s, a);
  }

  lemma PlainStep(s: State, a: Action)
    requires Inv(s) && Enabled(s, a) && (a.Stop? || a.Connect? || a.OnConnected? || a.GiveUp? || a.Return?)
    ensures Inv(Step(s, a))
  {
    if a.Stop? {
      TeardownKeeps(s);
    } else if a.GiveUp? {
      EndedKeeps(s, a.late);
      TeardownKeeps(Ended(s, a.late));
    } else if a.OnConnected? {
      EndedKeeps(s, a.late);
      StartHandshakeKeeps(Ended(s, a.late));
    } else {
      assert forall k: Token :: Places(Step(s, a), k) == Places(s, k);
    }
  }

  lemma EndedKeeps(s: State, late: bool)
    requires Inv(s) && (late ==> s.stale > 0)
    ensures Inv(Ended(s, late))
  {
    assert forall k: Token :: Places(Ended(s, late), k) == Places(s, k);
  }

  lemma TeardownKeeps(s: State)
    requires Inv(s)
    ensures Inv(Teardown(s))
  {
    TeardownLocal(s);
    forall k: Token ensures Places(Teardown(s), k) == Places(s, k) {
      TeardownPlaces(s, k);
    }
  }

  lemma StartHandshakeKeeps(s: State)
    requires Inv(s)
    ensures Inv(StartHandshake(s))
  {
    HandshakeLocal(s);
    forall k: Token ensures Places(StartHandshake(s), k) == Places(s, k) {
      StartHandshakePlaces(s, k);
    }
  }

  // ── whole runs ──

  ghost predicate Possible(s: State, run: seq<Action>)
    decreases |run|
  {
    run == [] || (Enabled(s, run[0]) && Possible(Step(s, run[0]), run[1..]))
  }

  ghost function Run(s: State, run: seq<Action>): State
    requires Possible(s, run)
    decreases |run|
  {
    if run == [] then s else Run(Step(s, run[0]), run[1..])
  }

  lemma {:induction false} RunKeepsInv(s: State, run: seq<Action>)
    requires Inv(s) && Possible(s, run)
    ensures Inv(Run(s, run))
    decreases |run|
  {
    if run != [] {
      StepKeepsInv(s, run[0]);
      RunKeepsInv(Step(s, run[0]), run[1..]);
    }
  }

  lemma {:induction false} FiredHas(fired: seq<Firing>, i: nat, k: Token)
    requires i < |fired| && fired[i].k == k
    ensures InFired(fired, k) > 0
  {
    if i < |fired| - 1 {
      FiredHas(fired[..|fired| - 1], i, k);
    }
  }

  lemma {:induction false} FiredTwice(fired: seq<Firing>, i: nat, j: nat)
    requires i < j < |fired| && fired[i].k == fired[j].k
    ensures InFired(fired, fired[i].k) >= 2
  {
    var rest := fired[..|fired| - 1];
    if j < |fired| - 1 {
      FiredTwice(rest, i, j);
    } else {
      FiredHas(rest, i, fired[i].k);
    }
  }

  /**
   Conservation: however connects, answers, failures and re-entrant calls from inside callbacks interleave, at every
   moment each callback handed to `ensure` or `request` is in exactly one place, and so is called at most once.
   */
  lemma EachCallbackInOnePlace(run: seq<Action>, k: Token)
    requires Possible(START, run) && k < |Run(START, run).kinds|
    ensures
      var s := Run(START, run);
      InSeq(s.waiters, k) + InTable(s.pending, s.idSeq + 1, k) + InStack(s.stack, s.idSeq + 1, k) + InFired(s.fired, k)
      == 1
    ensures
      var s := Run(START, run);
      forall i, j :: 0 <= i < j < |s.fired| ==> s.fired[i].k != s.fired[j].k
  {
    StartInv();
    RunKeepsInv(START, run);
    var s := Run(START, run);
    assert Places(s, k) == 1;
    forall i, j | 0 <= i < j < |s.fired| ensures s.fired[i].k != s.fired[j].k {
      assert Places(s, s.fired[i].k) <= 1;
      if s.fired[i].k == s.fired[j].k {
        FiredTwice(s.fired, i, j);
      }
    }
  }

  lemma StartInv()
    ensures Inv(START)
  {
    forall k: Token ensures Places(START, k) == 0 {
      TableEmpty(1, k);
    }
  }

  /** An answer reaches only the callback of the request sent under its id, and no two requests ever share an id. */
  lemma AnswersReachTheirRequest(run: seq<Action>)
    requires Possible(START, run)
    ensures
      var s := Run(START, run);
      && (forall i :: 0 <= i < |s.fired| && s.fired[i].how.Answered? ==>
            s.fired[i].k in s.sentAs && s.sentAs[s.fired[i].k] == s.fired[i].how.id)
      && (forall j, k :: j in s.sentAs && k in s.sentAs && j != k ==> s.sentAs[j] != s.sentAs[k])
      && (forall id :: id in s.pending && s.pending[id].User? ==>
            s.pending[id].k in s.sentAs && s.sentAs[s.pending[id].k] == id)
  {
    StartInv();
    RunKeepsInv(START, run);
  }

  /** The id counter outlives every reconnect: no step lowers it, and whatever is sent next goes out above it. */
  lemma IdsNeverReused(run: seq<Action>, a: Action, k: Token)
    requires Possible(START, run) && Enabled(Run(START, run), a)
    ensures
      var s := Run(START, run);
      var s2 := Step(s, a);
      && s.idSeq <= s2.idSeq
      && (k in s2.sentAs && k !in s.sentAs ==>
            s2.sentAs[k] > s.idSeq && forall j :: j in s.sentAs ==> s.sentAs[j] < s2.sentAs[k])
  {
    StartInv();
    RunKeepsInv(START, run);
    StepIds(Run(START, run), a);
  }

  /** A step sends nothing, or sends one request under the next id. */
  predicate IdsAfter(s: State, s2: State)
  {
    s.idSeq <= s2.idSeq && forall k :: k in s2.sentAs && k !in s.sentAs ==> s2.sentAs[k] == s.idSeq + 1
  }

  lemma NotifyIds(s: State, k: Token, ok: bool)
    requires k < |s.kinds|
    ensures IdsAfter(s, Notify(s, k, ok))
  {}

  lemma CallIds(s: State, kind: Kind, secure: bool)
    ensures IdsAfter(s, Call(s, kind, secure))
  {
    NotifyIds(s.(kinds := s.kinds + [kind]), |s.kinds|, true);
  }

  lemma RespondIds(s: State, id: Id, good: bool)
    ensures IdsAfter(s, Respond(s, id, good))
  {}

  lemma CallDeadIds(s: State, cb: Callback)
    ensures IdsAfter(s, CallDead(s, cb))
  {}

  lemma TurnIds(s: State, id: Id)
    requires Enabled(s, Continue(id))
    ensures IdsAfter(s, Turn(s, id))
  {
    if s.stack[0].FireWaiters? {
      FireWaitersIds(s, id);
    } else if s.stack[0].FireDead? && s.stack[0].dead != map[] {
      var dead: map<Id, Callback> := s.stack[0].dead;
      CallDeadIds(Push(s.(stack := s.stack[1..]), [FireDead(dead - {id})]), dead[id]);
    }
  }

  lemma FireWaitersIds(s: State, id: Id)
    requires Enabled(s, Continue(id)) && s.stack[0].FireWaiters?
    ensures IdsAfter(s, Turn(s, id))
  {
    var rest, ok := s.stack[0].rest, s.stack[0].ok;
    if rest != [] {
      NotifyIds(Push(s.(stack := s.stack[1..]), [FireWaiters(rest[1..], ok)]), rest[0], ok);
    }
  }

  lemma StepIds(s: State, a: Action)
    requires Enabled(s, a)
    ensures IdsAfter(s, Step(s, a))
  {
    match a
    case Ensure(secure) => CallIds(s, EnsureCall, secure);
    case Request(secure) => CallIds(s, RequestCall, secure);
    case Message(id, good) => RespondIds(s, id, good);
    case Continue(id) => TurnIds(s, id);
    case _ =>
  }

  // ── whoever waits has an attempt ──

  predicate HandshakePending(m: map<Id, Callback>)
  {
    exists id :: id in m && m[id].Handshake?
  }

  /** `connecting` stands for an attempt in progress or an unanswered handshake, and handshakes are sent on a connection. */
  predicate AttemptOk(s: State)
  {
    && (s.connecting ==> s.attempt || HandshakePending(s.pending))
    && (HandshakePending(s.pending) ==> s.pipe)
  }

  lemma NewEntry(m: map<Id, Callback>, id: Id, cb: Callback)
    requires id !in m
    ensures HandshakePending(m[id := cb]) <==> HandshakePending(m) || cb.Handshake?
  {
    if HandshakePending(m) {
      var h :| h in m && m[h].Handshake?;
      assert h in m[id := cb] && m[id := cb][h].Handshake?;
    }
    if cb.Handshake? {
      assert m[id := cb][id].Handshake?;
    }
  }

  lemma OldEntry(m: map<Id, Callback>, id: Id)
    requires id in m && m[id].User?
    ensures HandshakePending(m - {id}) <==> HandshakePending(m)
  {
    if HandshakePending(m) {
      var h :| h in m && m[h].Handshake?;
      assert h in m - {id} && (m - {id})[h].Handshake?;
    }
  }

  lemma NotifyAttempt(s: State, k: Token, ok: bool)
    requires Local(s) && AttemptOk(s) && k < |s.kinds|
    ensures AttemptOk(Notify(s, k, ok))
  {
    if s.kinds[k].RequestCall? && ok {
      assert s.idSeq + 1 !in s.pending;
      NewEntry(s.pending, s.idSeq + 1, User(k));
    }
  }

  lemma RespondAttempt(s: State, id: Id, good: bool)
    requires Local(s) && AttemptOk(s)
    ensures AttemptOk(Respond(s, id, good))
  {
    if id in s.pending && s.pending[id].User? {
      OldEntry(s.pending, id);
    } else if id in s.pending {
      assert HandshakePending(s.pending);
      assert HandshakePending(s.pending - {id}) ==> HandshakePending(s.pending);
    }
  }

  lemma CallAttempt(s: State, kind: Kind, secure: bool)
    requires Local(s) && AttemptOk(s)
    ensures AttemptOk(Call(s, kind, secure))
  {
    var s1 := s.(kinds := s.kinds + [kind]);
    if s.ready && s.pipe {
      StackOkMore(s.stack, |s.kinds|, s.idSeq, s.sentAs);
      NotifyAttempt(s1, |s.kinds|, true);
    }
  }

  lemma CallDeadAttempt(s: State, cb: Callback)
    requires AttemptOk(s)
    ensures AttemptOk(CallDead(s, cb))
  {}

  lemma NextWaiterAttempt(s: State, rest: seq<Token>, ok: bool)
    requires Local(s) && AttemptOk(s) && s.stack != [] && s.stack[0] == FireWaiters(rest, ok) && rest != []
    requires rest[0] < |s.kinds|
    ensures AttemptOk(Notify(Push(s.(stack := s.stack[1..]), [FireWaiters(rest[1..], ok)]), rest[0], ok))
  {
    NextWaiterLocal(s, rest, ok);
    NotifyAttempt(Push(s.(stack := s.stack[1..]), [FireWaiters(rest[1..], ok)]), rest[0], ok);
  }

  lemma TurnAttempt(s: State, id: Id)
    requires Local(s) && AttemptOk(s) && Enabled(s, Continue(id))
    ensures AttemptOk(Turn(s, id))
  {
    match s.stack[0]
    case FireWaiters(rest, ok) =>
      if rest != [] {
        NextWaiterAttempt(s, rest, ok);
      }
    case FireDead(dead) =>
      if dead != map[] {
        CallDeadAttempt(Push(s.(stack := s.stack[1..]), [FireDead(dead - {id})]), dead[id]);
      }
    case TakeWaiters =>
  }

  lemma StepAttempt(s: State, a: Action)
    requires Local(s) && AttemptOk(s) && Enabled(s, a)
    ensures AttemptOk(Step(s, a))
  {
    match a
    case Ensure(secure) => CallAttempt(s, EnsureCall, secure);
    case Request(secure) => CallAttempt(s, RequestCall, secure);
    case Message(id, good) => RespondAttempt(s, id, good);
    case Continue(id) => TurnAttempt(s, id);
    case OnConnected(_) =>
      assert s.idSeq + 1 !in s.pending;
      NewEntry(s.pending, s.idSeq + 1, Handshake);
    case _ =>
  }

  lemma {:induction false} RunAttempt(s: State, run: seq<Action>)
    requires Inv(s) && AttemptOk(s) && Possible(s, run)
    ensures AttemptOk(Run(s, run))
    decreases |run|
  {
    if run != [] {
      StepKeepsInv(s, run[0]);
      StepAttempt(s, run[0]);
      RunAttempt(Step(s, run[0]), run[1..]);
    }
  }

  /**
   With no callback running, whoever still waits has a connect attempt of its own in progress, or a handshake sent on a
   live connection and not yet answered.
   */
  lemma WaitersHaveAnAttempt(run: seq<Action>)
    requires Possible(START, run) && Run(START, run).stack == []
    ensures
      var s := Run(START, run);
      s.waiters != [] ==> s.attempt || (s.pipe && HandshakePending(s.pending))
  {
    StartInv();
    RunKeepsInv(START, run);
    RunAttempt(START, run);
  }
}
