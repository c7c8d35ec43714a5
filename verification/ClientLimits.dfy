/**
 Which requests of the client end up waiting on no connection, and what becomes of them: a callback may stop the client
 while others of the same handshake are still to be told it is ready, and those send all the same.
 */
module ClientLimits {
  import opened Client

  // ── requests sent on no connection ──

  predicate Pends(s: State, k: Token)
  {
    exists id :: id in s.pending && s.pending[id] == User(k)
  }

  /** The step runs `teardown`. */
  predicate TearsDown(s: State, a: Action)
    requires Enabled(s, a)
  {
    match a
    case Stop => true
    case GiveUp(_) => true
    case Ensure(secure) => !(s.ready && s.pipe) && !s.connecting && !secure
    case Request(secure) => !(s.ready && s.pipe) && !s.connecting && !secure
    case Message(id, good) => id in s.pending && s.pending[id].Handshake? && !good
    case Continue(id) => s.stack[0].FireDead? && s.stack[0].dead != map[] && s.stack[0].dead[id].Handshake?
    case _ => false
  }

  /** An answer under the id of request `k`. */
  predicate Answers(s: State, a: Action, k: Token)
  {
    a.Message? && a.id in s.pending && s.pending[a.id] == User(k)
  }

  /** Request `k`'s turn in the loop that tells the waiters the client is ready. */
  predicate TurnToSend(s: State, a: Action, k: Token)
  {
    && a.Continue? && s.stack != [] && s.stack[0].FireWaiters? && s.stack[0].ok
    && s.stack[0].rest != [] && s.stack[0].rest[0] == k && k < |s.kinds| && s.kinds[k].RequestCall?
  }

  predicate SentAtOnce(s: State, a: Action, k: Token)
  {
    a.Request? && s.ready && s.pipe && k == |s.kinds|
  }

  lemma SendPends(s: State, j: Token, k: Token)
    requires Local(s)
    ensures Pends(SendRequest(s, j), k) <==> Pends(s, k) || j == k
  {
    var s2 := SendRequest(s, j);
    assert s.idSeq + 1 !in s.pending;
    assert s2.pending[s.idSeq + 1] == User(j);
    if Pends(s, k) {
      var id :| id in s.pending && s.pending[id] == User(k);
      assert s2.pending[id] == User(k);
    }
  }

  /** A waiter that is not a request being sent: only its callback runs. */
  lemma FirePends(s: State, j: Token, ok: bool, k: Token)
    requires j < |s.kinds| && !(s.kinds[j].RequestCall? && ok)
    ensures Notify(s, j, ok).pipe == s.pipe && Notify(s, j, ok).pending == s.pending
    ensures Pends(Notify(s, j, ok), k) <==> Pends(s, k)
  {}

  lemma NotifyPends(s: State, j: Token, ok: bool, k: Token)
    requires Local(s) && j < |s.kinds|
    ensures Notify(s, j, ok).pipe == s.pipe
    ensures Pends(Notify(s, j, ok), k) <==> Pends(s, k) || (j == k && ok && s.kinds[k].RequestCall?)
  {
    if s.kinds[j].RequestCall? && ok {
      SendPends(s, j, k);
    } else {
      FirePends(s, j, ok, k);
    }
  }

  lemma RespondPends(s: State, id: Id, good: bool, k: Token)
    requires Local(s)
    ensures
      var torn := id in s.pending && s.pending[id].Handshake? && !good;
      var answered := id in s.pending && s.pending[id] == User(k);
      && (Pends(Respond(s, id, good), k) <==> Pends(s, k) && !torn && !answered)
      && (s.pipe && !torn ==> Respond(s, id, good).pipe)
  {
    if id in s.pending && Pends(s, k) && s.pending[id] != User(k) {
      var j :| j in s.pending && s.pending[j] == User(k);
      assert (s.pending - {id})[j] == User(k);
    }
  }

  lemma NextWaiterPends(s: State, rest: seq<Token>, ok: bool, k: Token)
    requires Local(s) && s.stack != [] && s.stack[0] == FireWaiters(rest, ok) && rest != [] && rest[0] < |s.kinds|
    ensures
      var s2 := Notify(Push(s.(stack := s.stack[1..]), [FireWaiters(rest[1..], ok)]), rest[0], ok);
      && (Pends(s2, k) <==> Pends(s, k) || (rest[0] == k && ok && s.kinds[k].RequestCall?))
      && s2.pipe == s.pipe
  {
    NextWaiterLocal(s, rest, ok);
    NotifyPends(Push(s.(stack := s.stack[1..]), [FireWaiters(rest[1..], ok)]), rest[0], ok, k);
  }

  /** Calling one dead entry: a request's callback changes nothing else, a handshake's tears the client down again. */
  lemma CallDeadPends(s: State, cb: Callback, k: Token)
    ensures Pends(CallDead(s, cb), k) <==> Pends(s, k) && cb.User?
    ensures s.pipe && cb.User? ==> CallDead(s, cb).pipe
  {}

  lemma FireDeadPends(s: State, id: Id, k: Token)
    requires Local(s) && Enabled(s, Continue(id)) && s.stack[0].FireDead?
    ensures
      var torn := s.stack[0].dead != map[] && s.stack[0].dead[id].Handshake?;
      && (Pends(Turn(s, id), k) <==> Pends(s, k) && !torn)
      && (s.pipe && !torn ==> Turn(s, id).pipe)
  {
    var dead: map<Id, Callback> := s.stack[0].dead;
    if dead != map[] {
      CallDeadPends(Push(s.(stack := s.stack[1..]), [FireDead(dead - {id})]), dead[id], k);
    }
  }

  lemma FireWaitersPends(s: State, id: Id, k: Token)
    requires Local(s) && Enabled(s, Continue(id)) && s.stack[0].FireWaiters?
    ensures Pends(Turn(s, id), k) <==> Pends(s, k) || TurnToSend(s, Continue(id), k)
    ensures Turn(s, id).pipe == s.pipe
  {
    if s.stack[0].rest != [] {
      NextWaiterPends(s, s.stack[0].rest, s.stack[0].ok, k);
    }
  }

  lemma TurnPends(s: State, id: Id, k: Token)
    requires Local(s) && Enabled(s, Continue(id))
    ensures
      var torn := TearsDown(s, Continue(id));
      && (Pends(Turn(s, id), k) <==> (Pends(s, k) && !torn) || TurnToSend(s, Continue(id), k))
      && (s.pipe && !torn ==> Turn(s, id).pipe)
  {
    if s.stack[0].FireWaiters? {
      FireWaitersPends(s, id, k);
    } else if s.stack[0].FireDead? {
      FireDeadPends(s, id, k);
    }
  }

  lemma CallPends(s: State, kind: Kind, secure: bool, k: Token)
    requires Local(s)
    ensures
      var torn := !(s.ready && s.pipe) && !s.connecting && !secure;
      var sent := s.ready && s.pipe && k == |s.kinds| && kind.RequestCall?;
      && (Pends(Call(s, kind, secure), k) <==> (Pends(s, k) && !torn) || sent)
      && (s.pipe && !torn ==> Call(s, kind, secure).pipe)
  {
    if s.ready && s.pipe {
      StackOkMore(s.stack, |s.kinds|, s.idSeq, s.sentAs);
      NotifyPends(s.(kinds := s.kinds + [kind]), |s.kinds|, true, k);
    }
  }

  lemma OnConnectedPends(s: State, late: bool, k: Token)
    requires Local(s) && Enabled(s, OnConnected(late))
    ensures Pends(Step(s, OnConnected(late)), k) <==> Pends(s, k)
    ensures s.pipe ==> Step(s, OnConnected(late)).pipe
  {
    assert s.idSeq + 1 !in s.pending;
    if Pends(s, k) {
      var id :| id in s.pending && s.pending[id] == User(k);
      assert Step(s, OnConnected(late)).pending[id] == User(k);
    }
  }

  lemma PendsStep(s: State, a: Action, k: Token)
    requires Local(s) && Enabled(s, a)
    ensures
      Pends(Step(s, a), k) <==>
      (Pends(s, k) && !TearsDown(s, a) && !Answers(s, a, k)) || TurnToSend(s, a, k) || SentAtOnce(s, a, k)
    ensures s.pipe && !TearsDown(s, a) ==> Step(s, a).pipe
  {
    match a
    case Ensure(secure) => CallPends(s, EnsureCall, secure, k);
    case Request(secure) => CallPends(s, RequestCall, secure, k);
    case Message(id, good) => RespondPends(s, id, good, k);
    case Continue(id) => TurnPends(s, id, k);
    case OnConnected(late) => OnConnectedPends(s, late, k);
    case _ =>
  }

  /** No teardown, and no answer under the id of request `k`. */
  ghost predicate Undisturbed(s: State, run: seq<Action>, k: Token)
    requires Possible(s, run)
    decreases |run|
  {
    run == []
    || (!TearsDown(s, run[0]) && !Answers(s, run[0], k) && Undisturbed(Step(s, run[0]), run[1..], k))
  }

  /** The turn of request `k` came with no connection, and neither a teardown nor an answer came since. */
  ghost predicate SentOffline(s: State, run: seq<Action>, k: Token)
    requires Possible(s, run)
    decreases |run|
  {
    && run != []
    && (|| (TurnToSend(s, run[0], k) && !s.pipe && Undisturbed(Step(s, run[0]), run[1..], k))
        || SentOffline(Step(s, run[0]), run[1..], k))
  }

  lemma {:induction false} PipeStays(s: State, run: seq<Action>, k: Token)
    requires Inv(s) && Possible(s, run) && s.pipe && Undisturbed(s, run, k)
    ensures Run(s, run).pipe
    decreases |run|
  {
    if run != [] {
      StepKeepsInv(s, run[0]);
      PendsStep(s, run[0], k);
      PipeStays(Step(s, run[0]), run[1..], k);
    }
  }

  lemma {:induction false} PendsRun(s: State, run: seq<Action>, k: Token)
    requires Inv(s) && Possible(s, run) && !Run(s, run).pipe
    ensures Pends(Run(s, run), k) <==> (Pends(s, k) && Undisturbed(s, run, k)) || SentOffline(s, run, k)
    decreases |run|
  {
    if run != [] {
      var s2, rest := Step(s, run[0]), run[1..];
      StepKeepsInv(s, run[0]);
      PendsStep(s, run[0], k);
      PendsRun(s2, rest, k);
      if (TurnToSend(s, run[0], k) || SentAtOnce(s, run[0], k)) && s.pipe && Undisturbed(s2, rest, k) {
        SendKeepsPipe(s, run[0], k);
        PipeStays(s2, rest, k);
      }
    }
  }

  lemma SendKeepsPipe(s: State, a: Action, k: Token)
    requires Local(s) && Enabled(s, a) && (TurnToSend(s, a, k) || SentAtOnce(s, a, k)) && s.pipe
    ensures Step(s, a).pipe
  {
    PendsStep(s, a, k);
  }

  /**
   Exactly which requests wait on a client with no connection, over every run: those whose turn to be sent came when there
   was none (the client had been torn down since the handshake succeeded), with neither a teardown nor an answer under
   their id since. No answer can be expected: the id went out on no connection.
   */
  lemma PendsOfflineIff(run: seq<Action>, k: Token)
    requires Possible(START, run) && !Run(START, run).pipe
    ensures Pends(Run(START, run), k) <==> SentOffline(START, run, k)
  {
    StartInv();
    PendsRun(START, run, k);
  }

  // ── the next teardown calls them back ──

  predicate DeadHas(f: Frame, k: Token)
  {
    f.FireDead? && exists id :: id in f.dead && f.dead[id] == User(k)
  }

  predicate InDead(stack: seq<Frame>, k: Token)
  {
    stack != [] && (DeadHas(stack[0], k) || InDead(stack[1..], k))
  }

  /** A teardown in progress still has to call `k`, or has. */
  predicate DeadOrTorn(s: State, k: Token)
  {
    InDead(s.stack, k) || Firing(k, Torn) in s.fired
  }

  /** Frames pushed on top, and firings added, lose nothing. */
  predicate Extends(s: State, s2: State)
  {
    && (exists n :: 0 <= n <= |s2.stack| && s2.stack[n..] == s.stack)
    && forall f :: f in s.fired ==> f in s2.fired
  }

  lemma {:induction false} InDeadBelow(stack: seq<Frame>, n: nat, k: Token)
    requires n <= |stack| && InDead(stack[n..], k)
    ensures InDead(stack, k)
  {
    if n > 0 {
      assert stack[1..][n - 1..] == stack[n..];
      InDeadBelow(stack[1..], n - 1, k);
    }
  }

  lemma ExtendsKeeps(s: State, s2: State, k: Token)
    requires DeadOrTorn(s, k) && Extends(s, s2)
    ensures DeadOrTorn(s2, k)
  {
    if InDead(s.stack, k) {
      var n :| 0 <= n <= |s2.stack| && s2.stack[n..] == s.stack;
      InDeadBelow(s2.stack, n, k);
    }
  }

  lemma PushExtends(s: State, s2: State, frames: seq<Frame>)
    requires s2.stack == frames + s.stack && forall f :: f in s.fired ==> f in s2.fired
    ensures Extends(s, s2)
  {
    assert s2.stack[|frames|..] == s.stack;
  }

  lemma NotifyExtends(s: State, k: Token, ok: bool)
    requires k < |s.kinds|
    ensures Extends(s, Notify(s, k, ok))
  {
    PushExtends(s, Notify(s, k, ok), if s.kinds[k].RequestCall? && ok then [] else [UserCode]);
  }

  lemma HandshakeExtends(s: State)
    ensures Extends(s, HandshakeFailed(s)) && Extends(s, HandshakeDone(s)) && Extends(s, Teardown(s))
  {
    PushExtends(s, Teardown(s), [FireDead(s.pending), TakeWaiters]);
    PushExtends(s, HandshakeDone(s), [UserCode, FireWaiters(s.waiters, true)]);
    var three := [FireDead(s.pending), TakeWaiters] + [FireWaiters(s.waiters, false)];
    assert HandshakeFailed(s).stack == three + s.stack;
    PushExtends(s, HandshakeFailed(s), three);
  }

  lemma CallDeadExtends(s: State, cb: Callback)
    ensures Extends(s, CallDead(s, cb))
    ensures cb.User? ==> Firing(cb.k, Torn) in CallDead(s, cb).fired
  {
    match cb
    case User(k) => PushExtends(s, CallDead(s, cb), [UserCode]);
    case Handshake => HandshakeExtends(s);
  }

  /** Taking an entry other than `k`'s off the table of a teardown. */
  lemma OtherEntry(s: State, id: Id, k: Token)
    requires s.stack != [] && s.stack[0].FireDead? && id in s.stack[0].dead && s.stack[0].dead[id] != User(k)
    requires DeadOrTorn(s, k)
    ensures DeadOrTorn(Push(s.(stack := s.stack[1..]), [FireDead(s.stack[0].dead - {id})]), k)
  {
    var dead: map<Id, Callback> := s.stack[0].dead;
    var s1 := Push(s.(stack := s.stack[1..]), [FireDead(dead - {id})]);
    assert s1.stack[0] == FireDead(dead - {id}) && s1.stack[1..] == s.stack[1..];
    if DeadHas(s.stack[0], k) {
      var j :| j in dead && dead[j] == User(k);
      assert j in dead - {id} && (dead - {id})[j] == User(k);
    }
  }

  lemma DeadTurn(s: State, id: Id, k: Token)
    requires Enabled(s, Continue(id)) && s.stack[0].FireDead? && DeadOrTorn(s, k)
    ensures DeadOrTorn(Turn(s, id), k)
  {
    var dead: map<Id, Callback> := s.stack[0].dead;
    if dead != map[] {
      var s1 := Push(s.(stack := s.stack[1..]), [FireDead(dead - {id})]);
      CallDeadExtends(s1, dead[id]);
      if dead[id] != User(k) {
        OtherEntry(s, id, k);
        ExtendsKeeps(s1, CallDead(s1, dead[id]), k);
      }
    }
  }

  lemma OtherTurn(s: State, id: Id, k: Token)
    requires Enabled(s, Continue(id)) && !s.stack[0].FireDead? && DeadOrTorn(s, k)
    ensures DeadOrTorn(Turn(s, id), k)
  {
    var below := s.(stack := s.stack[1..]);
    if s.stack[0].FireWaiters? && s.stack[0].rest != [] {
      var rest, ok := s.stack[0].rest, s.stack[0].ok;
      var s1 := Push(below, [FireWaiters(rest[1..], ok)]);
      PushExtends(below, s1, [FireWaiters(rest[1..], ok)]);
      ExtendsKeeps(below, s1, k);
      NotifyExtends(s1, rest[0], ok);
      ExtendsKeeps(s1, Turn(s, id), k);
    } else if s.stack[0].TakeWaiters? {
      PushExtends(below, Turn(s, id), [FireWaiters(s.waiters, false)]);
      ExtendsKeeps(below, Turn(s, id), k);
    }
  }

  lemma CallExtends(s: State, kind: Kind, secure: bool)
    ensures Extends(s, Call(s, kind, secure))
  {
    var k := |s.kinds|;
    var s1 := s.(kinds := s.kinds + [kind]);
    var s2 := s1.(waiters := s1.waiters + [k]);
    PushExtends(s, s1, []);
    PushExtends(s, s2, []);
    if s.ready && s.pipe {
      NotifyExtends(s1, k, true);
      assert Extends(s, Notify(s1, k, true));
    } else if !s.connecting && !secure {
      HandshakeExtends(s2.(connecting := true));
    } else {
      PushExtends(s, Call(s, kind, secure), []);
    }
  }

  lemma RespondExtends(s: State, id: Id, good: bool)
    ensures Extends(s, Respond(s, id, good))
  {
    PushExtends(s, s, []);
    if id in s.pending {
      var s1 := s.(pending := s.pending - {id});
      match s.pending[id] {
        case User(k) => PushExtends(s, Respond(s, id, good), [UserCode]);
        case Handshake => HandshakeExtends(s1);
      }
    }
  }

  lemma DeadOrTornStep(s: State, a: Action, k: Token)
    requires Enabled(s, a) && DeadOrTorn(s, k)
    ensures DeadOrTorn(Step(s, a), k)
  {
    if a.Continue? {
      if s.stack[0].FireDead? {
        DeadTurn(s, a.id, k);
      } else {
        OtherTurn(s, a.id, k);
      }
    } else if !a.Return? {
      StepExtends(s, a);
      ExtendsKeeps(s, Step(s, a), k);
    }
  }

  lemma QuietExtends(s: State, a: Action)
    requires Enabled(s, a) && (a.Connect? || a.OnConnected?)
    ensures Extends(s, Step(s, a))
  {
    PushExtends(s, Step(s, a), []);
  }

  lemma TornExtends(s: State, a: Action)
    requires Enabled(s, a) && (a.Stop? || a.GiveUp?)
    ensures Extends(s, Step(s, a))
  {
    HandshakeExtends(if a.Stop? then s else Ended(s, a.late));
  }

  lemma StepExtends(s: State, a: Action)
    requires Enabled(s, a) && !a.Continue? && !a.Return?
    ensures Extends(s, Step(s, a))
  {
    if a.Ensure? || a.Request? {
      CallExtends(s, if a.Ensure? then EnsureCall else RequestCall, a.secure);
    } else if a.Message? {
      RespondExtends(s, a.id, a.good);
    } else if a.Stop? || a.GiveUp? {
      TornExtends(s, a);
    } else {
      QuietExtends(s, a);
    }
  }

  /** A teardown takes every pending request onto its list. */
  lemma TeardownTakes(s: State, a: Action, k: Token)
    requires Local(s) && Enabled(s, a) && TearsDown(s, a) && Pends(s, k)
    ensures DeadOrTorn(Step(s, a), k)
  {
    var id :| id in s.pending && s.pending[id] == User(k);
    var e := Step(s, a);
    if a.Message? {
      assert (s.pending - {a.id})[id] == User(k);
      assert e.stack[0] == FireDead(s.pending - {a.id});
    } else {
      assert e.stack[0] == FireDead(s.pending);
    }
    assert DeadHas(e.stack[0], k);
  }

  lemma {:induction false} DeadOrTornRun(s: State, run: seq<Action>, k: Token)
    requires Possible(s, run) && DeadOrTorn(s, k)
    ensures DeadOrTorn(Run(s, run), k)
    decreases |run|
  {
    if run != [] {
      DeadOrTornStep(s, run[0], k);
      DeadOrTornRun(Step(s, run[0]), run[1..], k);
    }
  }

  /** Whatever waits for an answer when a teardown comes has been called back with its error once the callbacks are through. */
  lemma NextTeardownCallsBack(before: seq<Action>, a: Action, after: seq<Action>, k: Token)
    requires Possible(START, before) && Enabled(Run(START, before), a)
    requires TearsDown(Run(START, before), a) && Pends(Run(START, before), k)
    requires Possible(Step(Run(START, before), a), after)
    ensures
      var e := Run(Step(Run(START, before), a), after);
      e.stack == [] ==> Firing(k, Torn) in e.fired
  {
    StartInv();
    RunKeepsInv(START, before);
    TeardownTakes(Run(START, before), a, k);
    DeadOrTornRun(Step(Run(START, before), a), after, k);
  }

  /** Pending with no connection, no attempt and no callback running. */
  predicate StuckRequest(s: State, k: Token)
  {
    s.stack == [] && !s.pipe && !s.ready && !s.connecting && !s.attempt && s.stale == 0 && Pends(s, k)
  }

  ghost predicate Reaches(e: State)
  {
    exists run: seq<Action> :: Possible(START, run) && Run(START, run) == e
  }

  lemma {:induction false} RunAppend(s: State, run: seq<Action>, a: Action)
    requires Possible(s, run) && Enabled(Run(s, run), a)
    ensures Possible(s, run + [a]) && Run(s, run + [a]) == Step(Run(s, run), a)
    decreases |run|
  {
    var run2 := run + [a];
    if run == [] {
      assert run2[1..] == [];
    } else {
      assert run2[1..] == run[1..] + [a];
      RunAppend(Step(s, run[0]), run[1..], a);
    }
  }

  lemma ReachesNext(m: State, a: Action, e: State)
    requires Reaches(m) && Enabled(m, a) && Step(m, a) == e
    ensures Reaches(e)
  {
    var run :| Possible(START, run) && Run(START, run) == m;
    RunAppend(START, run, a);
  }

  /**
   A request that waits behind a caller whose callback calls `stop` is still sent when its turn comes: it ends up in the
   table of a client with no connection, and nothing in flight will call it back.
   */
  lemma RequestCanBeStuck()
    ensures exists e :: Reaches(e) && StuckRequest(e, 1)
  {
    var s := BothCalledBack();
    var last: seq<Token> := [1];
    assert last[1..] == [] && s.stack[1..] == [];
    var e := s.(
      idSeq := 2, pending := map[2 := User(1)], sentAs := map[1 := 2], stack := [FireWaiters([], true)]);
    assert Push(s.(stack := []), [FireWaiters([], true)]).stack == [FireWaiters([], true)];
    ReachesNext(s, Continue(0), e);
    assert e.stack[1..] == [];
    ReachesNext(e, Continue(0), e.(stack := []));
    assert 2 in e.pending;
    assert StuckRequest(e.(stack := []), 1);
  }

  /** Both waiters captured, the first one's callback has stopped the client, the second is next. */
  lemma BothCalledBack() returns (s: State)
    ensures Reaches(s)
    ensures
      s == START.(
        idSeq := 1,
        kinds := [EnsureCall, RequestCall],
        fired := [Firing(0, Ready)],
        stack := [FireWaiters([1], true)])
  {
    s := FirstCalledBack();
    var below := [UserCode, FireWaiters([1], true)];
    var stopped := s.(pipe := false, ready := false, stack := [FireDead(map[]), TakeWaiters] + below);
    ReachesNext(s, Stop, stopped);
    assert stopped.stack[1..] == [TakeWaiters] + below;
    var taking := stopped.(stack := [TakeWaiters] + below);
    ReachesNext(stopped, Continue(0), taking);
    assert taking.stack[1..] == below;
    var refusing := taking.(stack := [FireWaiters([], false)] + below);
    ReachesNext(taking, Continue(0), refusing);
    assert refusing.stack[1..] == below;
    ReachesNext(refusing, Continue(0), refusing.(stack := below));
    assert below[1..] == [FireWaiters([1], true)];
    s := refusing.(stack := [FireWaiters([1], true)]);
    ReachesNext(refusing.(stack := below), Return, s);
  }

  /** `ensure` and `request` coalesced into one connect whose handshake succeeded, first callback running. */
  lemma FirstCalledBack() returns (s: State)
    ensures Reaches(s)
    ensures
      s == START.(
        pipe := true,
        ready := true,
        idSeq := 1,
        kinds := [EnsureCall, RequestCall],
        fired := [Firing(0, Ready)],
        stack := [UserCode, FireWaiters([1], true)])
  {
    assert Possible(START, []) && Run(START, []) == START;
    var s1 := START.(kinds := [EnsureCall], waiters := [0], connecting := true, attempt := true);
    ReachesNext(START, Ensure(true), s1);
    var s2 := s1.(kinds := [EnsureCall, RequestCall], waiters := [0, 1]);
    ReachesNext(s1, Request(true), s2);
    var s3 := s2.(pipe := true);
    ReachesNext(s2, Connect, s3);
    var s4 := s3.(idSeq := 1, pending := map[1 := Handshake], attempt := false);
    ReachesNext(s3, OnConnected(false), s4);
    s := HandshakeAnswered(s4);
  }

  lemma HandshakeAnswered(m: State) returns (s: State)
    requires Reaches(m) && m.stack == [] && m.idSeq == 1 && m.pending == map[1 := Handshake]
    requires m.waiters == [0, 1] && m.kinds == [EnsureCall, RequestCall] && m.fired == []
    ensures Reaches(s)
    ensures
      s == m.(
        ready := true,
        connecting := false,
        waiters := [],
        pending := map[],
        fired := [Firing(0, Ready)],
        stack := [UserCode, FireWaiters([1], true)])
  {
    var gone: map<Id, Callback> := map[];
    assert m.pending - {1} == gone;
    var s1 := m.(
      ready := true, connecting := false, waiters := [], pending := gone,
      stack := [UserCode, FireWaiters([0, 1], true)]);
    assert HandshakeDone(m.(pending := gone)).stack == s1.stack;
    ReachesNext(m, Message(1, true), s1);
    assert s1.stack[1..] == [FireWaiters([0, 1], true)];
    var s2 := s1.(stack := [FireWaiters([0, 1], true)]);
    ReachesNext(s1, Return, s2);
    var both: seq<Token> := [0, 1];
    assert both[1..] == [1];
    s := s2.(fired := [Firing(0, Ready)], stack := [UserCode, FireWaiters([1], true)]);
    assert s2.stack[1..] == [];
    ReachesNext(s2, Continue(0), s);
  }
}
