/**
 What the client's callbacks are told (`lua/lvim-keyring/daemon.lua`), over every run: who is told it is ready, who is
 refused, and whose answer a request is given.
 */
module ClientVerdicts {
  import opened Client
  import opened ClientLimits

  // ── ready or refused ──

  /** A loop in progress still has to tell `k` `ok`. */
  predicate InLoopFor(f: Frame, k: Token, ok: bool)
  {
    f.FireWaiters? && f.ok == ok && k in f.rest
  }

  predicate InLoops(stack: seq<Frame>, k: Token, ok: bool)
  {
    stack != [] && (InLoopFor(stack[0], k, ok) || InLoops(stack[1..], k, ok))
  }

  /** Called with that verdict; for a request told it may go ahead, sent. */
  predicate Told(s: State, k: Token, ok: bool)
  {
    if ok then Firing(k, Ready) in s.fired || k in s.sentAs else Firing(k, Refused) in s.fired
  }

  predicate Due(s: State, k: Token, ok: bool)
  {
    InLoops(s.stack, k, ok) || Told(s, k, ok)
  }

  /** `k` is handed over on a ready, connected client, or waits when a good answer to a pending handshake comes. */
  predicate EntitledNow(s: State, a: Action, k: Token)
  {
    || ((a.Ensure? || a.Request?) && s.ready && s.pipe && k == |s.kinds|)
    || (a.Message? && a.good && a.id in s.pending && s.pending[a.id].Handshake? && k in s.waiters)
  }

  /** `k` waits when a teardown takes the waiters, or when a pending handshake is refused, answered badly or torn down. */
  predicate RefusedNow(s: State, a: Action, k: Token)
  {
    && k in s.waiters
    && (|| (a.Continue? && s.stack != [] && s.stack[0].TakeWaiters?)
        || (a.Message? && !a.good && a.id in s.pending && s.pending[a.id].Handshake?)
        || (&& a.Continue? && s.stack != [] && s.stack[0].FireDead? && a.id in s.stack[0].dead
            && s.stack[0].dead[a.id].Handshake?))
  }

  predicate DecidedNow(s: State, a: Action, k: Token, ok: bool)
  {
    if ok then EntitledNow(s, a, k) else RefusedNow(s, a, k)
  }

  // ── frames pushed, verdicts given ──

  lemma PushedLoop(s: State, s2: State, f: Frame, k: Token, ok: bool)
    requires s2.stack == [f] + s.stack && s2.fired == s.fired && s2.sentAs == s.sentAs
    ensures Due(s2, k, ok) <==> Due(s, k, ok) || InLoopFor(f, k, ok)
  {
    assert s2.stack[1..] == s.stack;
  }

  lemma SameDue(s: State, s2: State, k: Token, ok: bool)
    requires s2.stack == s.stack && s2.fired == s.fired && s2.sentAs == s.sentAs
    ensures Due(s2, k, ok) <==> Due(s, k, ok)
  {}

  predicate Verdict(how: How, ok: bool)
  {
    if ok then how == Ready else how == Refused
  }

  lemma FireDue(s: State, j: Token, how: How, k: Token, ok: bool)
    ensures Due(Fire(s, j, how), k, ok) <==> Due(s, k, ok) || (j == k && Verdict(how, ok))
  {
    var s2 := Fire(s, j, how);
    assert s2.stack[1..] == s.stack;
  }

  lemma NotifyDue(s: State, j: Token, given: bool, k: Token, ok: bool)
    requires j < |s.kinds|
    ensures Due(Notify(s, j, given), k, ok) <==> Due(s, k, ok) || (j == k && given == ok)
  {
    if s.kinds[j].RequestCall? && given {
      assert SendRequest(s, j).stack == s.stack;
    } else {
      FireDue(s, j, if given then Ready else Refused, k, ok);
    }
  }

  lemma TeardownDue(s: State, k: Token, ok: bool)
    ensures Due(Teardown(s), k, ok) <==> Due(s, k, ok)
  {
    var s1 := Push(Offline(s), [TakeWaiters]);
    PushedLoop(s, s1, TakeWaiters, k, ok);
    PushTwo(Offline(s), FireDead(s.pending), TakeWaiters);
    PushedLoop(s1, Teardown(s), FireDead(s.pending), k, ok);
  }

  lemma HandshakeFailedDue(s: State, k: Token, ok: bool)
    ensures Due(HandshakeFailed(s), k, ok) <==> Due(s, k, ok) || (!ok && k in s.waiters)
  {
    var s1 := Push(s.(waiters := [], connecting := false), [FireWaiters(s.waiters, false)]);
    PushedLoop(s, s1, FireWaiters(s.waiters, false), k, ok);
    TeardownDue(s1, k, ok);
  }

  lemma HandshakeDoneDue(s: State, k: Token, ok: bool)
    ensures Due(HandshakeDone(s), k, ok) <==> Due(s, k, ok) || (ok && k in s.waiters)
  {
    var base := s.(waiters := [], connecting := false, ready := true);
    var s1 := Push(base, [FireWaiters(s.waiters, true)]);
    PushedLoop(s, s1, FireWaiters(s.waiters, true), k, ok);
    PushTwo(base, UserCode, FireWaiters(s.waiters, true));
    PushedLoop(s1, HandshakeDone(s), UserCode, k, ok);
  }

  // ── one step ──

  lemma RespondDue(s: State, id: Id, good: bool, k: Token, ok: bool)
    ensures Due(Respond(s, id, good), k, ok) <==> Due(s, k, ok) || DecidedNow(s, Message(id, good), k, ok)
  {
    if id in s.pending {
      var s1 := s.(pending := s.pending - {id});
      SameDue(s, s1, k, ok);
      if s.pending[id].User? {
        FireDue(s1, s.pending[id].k, Answered(id, good), k, ok);
      } else {
        HandshakeDoneDue(s1, k, ok);
        HandshakeFailedDue(s1, k, ok);
      }
    }
  }

  lemma CallDue(s: State, kind: Kind, secure: bool, k: Token, ok: bool)
    ensures
      Due(Call(s, kind, secure), k, ok) <==> Due(s, k, ok) || (ok && s.ready && s.pipe && k == |s.kinds|)
  {
    var s1 := s.(kinds := s.kinds + [kind]);
    if s.ready && s.pipe {
      NotifyDue(s1, |s.kinds|, true, k, ok);
    } else {
      TeardownDue(s1.(waiters := s1.waiters + [|s.kinds|], connecting := true), k, ok);
    }
  }

  lemma FireWaitersDue(s: State, id: Id, k: Token, ok: bool)
    requires Enabled(s, Continue(id)) && s.stack[0].FireWaiters?
    ensures Due(Turn(s, id), k, ok) <==> Due(s, k, ok)
  {
    var below := s.(stack := s.stack[1..]);
    var rest, given := s.stack[0].rest, s.stack[0].ok;
    if rest != [] {
      var s1 := Push(below, [FireWaiters(rest[1..], given)]);
      PushedLoop(below, s1, FireWaiters(rest[1..], given), k, ok);
      NotifyDue(s1, rest[0], given, k, ok);
      assert k in rest <==> k == rest[0] || k in rest[1..];
    }
  }

  lemma CallDeadDue(s: State, cb: Callback, k: Token, ok: bool)
    ensures Due(CallDead(s, cb), k, ok) <==> Due(s, k, ok) || (cb.Handshake? && !ok && k in s.waiters)
  {
    match cb
    case User(j) => FireDue(s, j, Torn, k, ok);
    case Handshake => HandshakeFailedDue(s, k, ok);
  }

  lemma OtherTurnDue(s: State, id: Id, k: Token, ok: bool)
    requires Enabled(s, Continue(id)) && !s.stack[0].FireWaiters?
    ensures Due(Turn(s, id), k, ok) <==> Due(s, k, ok) || DecidedNow(s, Continue(id), k, ok)
  {
    var below := s.(stack := s.stack[1..]);
    if s.stack[0].FireDead? {
      var dead: map<Id, Callback> := s.stack[0].dead;
      if dead != map[] {
        var s1 := Push(below, [FireDead(dead - {id})]);
        PushedLoop(below, s1, FireDead(dead - {id}), k, ok);
        CallDeadDue(s1, dead[id], k, ok);
      }
    } else {
      PushedLoop(below, Turn(s, id), FireWaiters(s.waiters, false), k, ok);
    }
  }

  /** A verdict becomes due exactly when it is decided, and stays so. */
  lemma StepDue(s: State, a: Action, k: Token, ok: bool)
    requires Enabled(s, a)
    ensures Due(Step(s, a), k, ok) <==> Due(s, k, ok) || DecidedNow(s, a, k, ok)
  {
    match a
    case Ensure(secure) => CallDue(s, EnsureCall, secure, k, ok);
    case Request(secure) => CallDue(s, RequestCall, secure, k, ok);
    case Message(id, good) => RespondDue(s, id, good, k, ok);
    case Continue(id) =>
      if s.stack[0].FireWaiters? {
        FireWaitersDue(s, id, k, ok);
      } else {
        OtherTurnDue(s, id, k, ok);
      }
    case Stop => TeardownDue(s, k, ok);
    case GiveUp(late) =>
      SameDue(s, Ended(s, late), k, ok);
      TeardownDue(Ended(s, late), k, ok);
    case Connect => SameDue(s, Step(s, a), k, ok);
    case OnConnected(_) => SameDue(s, Step(s, a), k, ok);
    case Return =>
  }

  // ── whole runs ──

  ghost predicate Decided(s: State, run: seq<Action>, k: Token, ok: bool)
    requires Possible(s, run)
    decreases |run|
  {
    run != [] && (DecidedNow(s, run[0], k, ok) || Decided(Step(s, run[0]), run[1..], k, ok))
  }

  lemma {:induction false} RunDue(s: State, run: seq<Action>, k: Token, ok: bool)
    requires Possible(s, run)
    ensures Due(Run(s, run), k, ok) <==> Due(s, k, ok) || Decided(s, run, k, ok)
    decreases |run|
  {
    if run != [] {
      StepDue(s, run[0], k, ok);
      RunDue(Step(s, run[0]), run[1..], k, ok);
    }
  }

  /**
   Who is told what, over every run, once the callbacks are through: a callback has been called ready, or its request sent,
   if and only if it was handed over on a ready client or waited when a good answer to a handshake came; it has been refused
   if and only if it waited when a teardown took the waiters or a handshake was refused.
   */
  lemma VerdictsIff(run: seq<Action>, k: Token)
    requires Possible(START, run) && Run(START, run).stack == []
    ensures
      var s := Run(START, run);
      && (Firing(k, Ready) in s.fired || k in s.sentAs <==> Decided(START, run, k, true))
      && (Firing(k, Refused) in s.fired <==> Decided(START, run, k, false))
  {
    RunDue(START, run, k, true);
    RunDue(START, run, k, false);
  }

  /** In the middle of callbacks too, nobody is told what was not decided. */
  lemma NoVerdictUndecided(run: seq<Action>, k: Token)
    requires Possible(START, run)
    ensures
      var s := Run(START, run);
      && (Firing(k, Ready) in s.fired || k in s.sentAs ==> Decided(START, run, k, true))
      && (Firing(k, Refused) in s.fired ==> Decided(START, run, k, false))
  {
    RunDue(START, run, k, true);
    RunDue(START, run, k, false);
  }

  // ── waiters of a teardown ──

  /** A teardown has still to take `k`, or something has been decided for it. */
  predicate Pursued(s: State, k: Token)
  {
    (k in s.waiters && WillTake(s.stack)) || Due(s, k, true) || Due(s, k, false)
  }

  lemma {:induction false} TakeBelow(stack: seq<Frame>, n: nat)
    requires n <= |stack| && WillTake(stack[n..])
    ensures WillTake(stack)
  {
    if n > 0 {
      assert stack[1..][n - 1..] == stack[n..];
      TakeBelow(stack[1..], n - 1);
    }
  }

  /** What pieces of the module do to the waiters and the ready flag, and whose answers they pass on. */
  predicate OldAnswers(s: State, s2: State)
  {
    forall f :: f in s2.fired && f.how.Answered? ==> f in s.fired
  }

  lemma NotifyPlain(s: State, j: Token, ok: bool)
    requires j < |s.kinds|
    ensures Notify(s, j, ok).waiters == s.waiters && Notify(s, j, ok).ready == s.ready && OldAnswers(s, Notify(s, j, ok))
  {}

  lemma CallPlain(s: State, kind: Kind, secure: bool)
    ensures forall k :: k in s.waiters ==> k in Call(s, kind, secure).waiters
    ensures
      Call(s, kind, secure).ready <==>
      s.ready && !(!(s.ready && s.pipe) && !s.connecting && !secure)
    ensures OldAnswers(s, Call(s, kind, secure))
  {
    if s.ready && s.pipe {
      NotifyPlain(s.(kinds := s.kinds + [kind]), |s.kinds|, true);
    }
  }

  lemma RespondPlain(s: State, id: Id, good: bool)
    ensures
      var shaken := id in s.pending && s.pending[id].Handshake?;
      && (!shaken ==> Respond(s, id, good).waiters == s.waiters)
      && (Respond(s, id, good).ready <==> (s.ready && !(shaken && !good)) || (shaken && good))
    ensures
      forall f :: f in Respond(s, id, good).fired && f.how.Answered? ==> f in s.fired || f.how == Answered(id, good)
  {}

  lemma CallDeadPlain(s: State, cb: Callback)
    ensures cb.User? ==> CallDead(s, cb).waiters == s.waiters && CallDead(s, cb).ready == s.ready
    ensures cb.Handshake? ==> !CallDead(s, cb).ready
    ensures OldAnswers(s, CallDead(s, cb))
  {}

  lemma TurnPlain(s: State, id: Id)
    requires Enabled(s, Continue(id))
    ensures
      var shaken := s.stack[0].FireDead? && s.stack[0].dead != map[] && s.stack[0].dead[id].Handshake?;
      && (!shaken && !s.stack[0].TakeWaiters? ==> Turn(s, id).waiters == s.waiters)
      && (Turn(s, id).ready <==> s.ready && !shaken)
    ensures OldAnswers(s, Turn(s, id))
  {
    var below := s.(stack := s.stack[1..]);
    match s.stack[0]
    case FireWaiters(rest, ok) =>
      if rest != [] {
        NotifyPlain(Push(below, [FireWaiters(rest[1..], ok)]), rest[0], ok);
      }
    case FireDead(dead) =>
      if dead != map[] {
        CallDeadPlain(Push(below, [FireDead(dead - {id})]), dead[id]);
      }
    case TakeWaiters =>
  }

  /** A waiter stays one until something is decided for it. */
  lemma StaysWaiting(s: State, a: Action, k: Token)
    requires Enabled(s, a) && k in s.waiters && !DecidedNow(s, a, k, true) && !DecidedNow(s, a, k, false)
    ensures k in Step(s, a).waiters
  {
    match a
    case Ensure(secure) => CallPlain(s, EnsureCall, secure);
    case Request(secure) => CallPlain(s, RequestCall, secure);
    case Message(id, good) => RespondPlain(s, id, good);
    case Continue(id) => TurnPlain(s, id);
    case _ => PlainWaiters(s, a);
  }

  lemma PlainWaiters(s: State, a: Action)
    requires Enabled(s, a) && !a.Ensure? && !a.Request? && !a.Message? && !a.Continue?
    ensures Step(s, a).waiters == s.waiters && OldAnswers(s, Step(s, a))
    ensures Step(s, a).ready <==> s.ready && !TearsDown(s, a)
  {}

  lemma TakeStays(s: State, a: Action)
    requires Enabled(s, a) && WillTake(s.stack) && !(a.Continue? && s.stack[0].TakeWaiters?)
    ensures WillTake(Step(s, a).stack)
  {
    if a.Return? {
    } else if a.Continue? {
      var below := s.(stack := s.stack[1..]);
      TurnExtends(s, a.id);
      var n :| 0 <= n <= |Turn(s, a.id).stack| && Turn(s, a.id).stack[n..] == below.stack;
      TakeBelow(Turn(s, a.id).stack, n);
    } else {
      StepExtends(s, a);
      var n :| 0 <= n <= |Step(s, a).stack| && Step(s, a).stack[n..] == s.stack;
      TakeBelow(Step(s, a).stack, n);
    }
  }

  /** A turn works above what lies below its frame. */
  lemma TurnExtends(s: State, id: Id)
    requires Enabled(s, Continue(id))
    ensures Extends(s.(stack := s.stack[1..]), Turn(s, id))
  {
    var below := s.(stack := s.stack[1..]);
    match s.stack[0] {
      case FireWaiters(rest, ok) =>
        if rest == [] {
          PushExtends(below, below, []);
        } else {
          var s1 := Push(below, [FireWaiters(rest[1..], ok)]);
          PushExtends(below, s1, [FireWaiters(rest[1..], ok)]);
          NotifyExtends(s1, rest[0], ok);
          ExtendsTwice(below, s1, Turn(s, id));
        }
      case FireDead(dead) =>
        if dead == map[] {
          PushExtends(below, below, []);
        } else {
          var s1 := Push(below, [FireDead(dead - {id})]);
          PushExtends(below, s1, [FireDead(dead - {id})]);
          CallDeadExtends(s1, dead[id]);
          ExtendsTwice(below, s1, Turn(s, id));
        }
      case TakeWaiters =>
        PushExtends(below, Turn(s, id), [FireWaiters(s.waiters, false)]);
    }
  }

  lemma ExtendsTwice(a: State, b: State, c: State)
    requires Extends(a, b) && Extends(b, c)
    ensures Extends(a, c)
  {
    var m :| 0 <= m <= |b.stack| && b.stack[m..] == a.stack;
    var n :| 0 <= n <= |c.stack| && c.stack[n..] == b.stack;
    assert c.stack[n + m..] == c.stack[n..][m..];
  }

  lemma PursuedStep(s: State, a: Action, k: Token)
    requires Enabled(s, a) && Pursued(s, k)
    ensures Pursued(Step(s, a), k)
  {
    StepDue(s, a, k, true);
    StepDue(s, a, k, false);
    if k in s.waiters && WillTake(s.stack) && !DecidedNow(s, a, k, true) && !DecidedNow(s, a, k, false) {
      StaysWaiting(s, a, k);
      TakeStays(s, a);
    }
  }

  lemma {:induction false} PursuedRun(s: State, run: seq<Action>, k: Token)
    requires Possible(s, run) && Pursued(s, k)
    ensures Pursued(Run(s, run), k)
    decreases |run|
  {
    if run != [] {
      PursuedStep(s, run[0], k);
      PursuedRun(Step(s, run[0]), run[1..], k);
    }
  }

  /**
   Whoever waits when a teardown begins has been told something once the callbacks are through: refused, unless a callback
   in between let another handshake succeed first.
   */
  lemma TeardownLeavesNoWaiter(s: State, a: Action, run: seq<Action>, k: Token)
    requires Enabled(s, a) && TearsDown(s, a) && k in s.waiters && Possible(Step(s, a), run)
    requires Run(Step(s, a), run).stack == []
    ensures
      var e := Run(Step(s, a), run);
      Firing(k, Refused) in e.fired || Firing(k, Ready) in e.fired || k in e.sentAs
  {
    TeardownPursues(s, a, k);
    PursuedRun(Step(s, a), run, k);
  }

  lemma TeardownPursues(s: State, a: Action, k: Token)
    requires Enabled(s, a) && TearsDown(s, a) && k in s.waiters
    ensures Pursued(Step(s, a), k)
  {
    StepDue(s, a, k, false);
    if !DecidedNow(s, a, k, false) {
      var e := Step(s, a);
      assert e.stack[1..][0] == TakeWaiters;
    }
  }

  /** A loop over dead callbacks has its teardown's taking of the waiters right below it. */
  predicate Covered(stack: seq<Frame>)
  {
    stack != [] ==>
      && Covered(stack[1..])
      && (stack[0].FireDead? ==> |stack| > 1 && stack[1].TakeWaiters?)
  }

  lemma CoverOne(f: Frame, stack: seq<Frame>)
    requires Covered(stack) && !f.FireDead?
    ensures Covered([f] + stack)
  {
    assert ([f] + stack)[1..] == stack;
  }

  lemma TeardownCovered(s: State)
    requires Covered(s.stack)
    ensures Covered(Teardown(s).stack)
  {
    var below := [TakeWaiters] + s.stack;
    CoverOne(TakeWaiters, s.stack);
    assert Teardown(s).stack == [FireDead(s.pending)] + below;
    assert Teardown(s).stack[1..] == below;
  }

  lemma HandshakeFailedCovered(s: State)
    requires Covered(s.stack)
    ensures Covered(HandshakeFailed(s).stack)
  {
    CoverOne(FireWaiters(s.waiters, false), s.stack);
    TeardownCovered(Push(s.(waiters := [], connecting := false), [FireWaiters(s.waiters, false)]));
  }

  lemma NotifyCovered(s: State, j: Token, ok: bool)
    requires Covered(s.stack) && j < |s.kinds|
    ensures Covered(Notify(s, j, ok).stack)
  {
    CoverOne(UserCode, s.stack);
  }

  lemma CallCovered(s: State, kind: Kind, secure: bool)
    requires Covered(s.stack)
    ensures Covered(Call(s, kind, secure).stack)
  {
    var k := |s.kinds|;
    var s1 := s.(kinds := s.kinds + [kind]);
    if s.ready && s.pipe {
      NotifyCovered(s1, k, true);
    } else if !s.connecting && !secure {
      TeardownCovered(s1.(waiters := s.waiters + [k], connecting := true));
    }
  }

  lemma RespondCovered(s: State, id: Id, good: bool)
    requires Covered(s.stack)
    ensures Covered(Respond(s, id, good).stack)
  {
    if id in s.pending {
      var s1 := s.(pending := s.pending - {id});
      CoverOne(UserCode, s.stack);
      if s.pending[id].Handshake? && good {
        var loop := [FireWaiters(s.waiters, true)] + s.stack;
        CoverOne(FireWaiters(s.waiters, true), s.stack);
        CoverOne(UserCode, loop);
        assert HandshakeDone(s1).stack == [UserCode] + loop;
      } else if s.pending[id].Handshake? {
        HandshakeFailedCovered(s1);
      }
    }
  }

  lemma TurnCovered(s: State, id: Id)
    requires Enabled(s, Continue(id)) && Covered(s.stack)
    ensures Covered(Turn(s, id).stack)
  {
    var below := s.(stack := s.stack[1..]);
    match s.stack[0] {
      case FireWaiters(rest, ok) =>
        if rest != [] {
          CoverOne(FireWaiters(rest[1..], ok), below.stack);
          NotifyCovered(Push(below, [FireWaiters(rest[1..], ok)]), rest[0], ok);
        }
      case FireDead(dead) =>
        if dead != map[] {
          var s1 := Push(below, [FireDead(dead - {id})]);
          assert s1.stack[1..] == below.stack;
          if dead[id].User? {
            CoverOne(UserCode, s1.stack);
          } else {
            HandshakeFailedCovered(s1);
          }
        }
      case TakeWaiters => CoverOne(FireWaiters(s.waiters, false), below.stack);
    }
  }

  lemma StepCovered(s: State, a: Action)
    requires Enabled(s, a) && Covered(s.stack)
    ensures Covered(Step(s, a).stack)
  {
    match a
    case Ensure(secure) => CallCovered(s, EnsureCall, secure);
    case Request(secure) => CallCovered(s, RequestCall, secure);
    case Stop => TeardownCovered(s);
    case GiveUp(late) => TeardownCovered(Ended(s, late));
    case Message(id, good) => RespondCovered(s, id, good);
    case Continue(id) => TurnCovered(s, id);
    case Connect =>
    case OnConnected(_) =>
    case Return =>
  }

  lemma {:induction false} RunCovered(s: State, run: seq<Action>)
    requires Possible(s, run) && Covered(s.stack)
    ensures Covered(Run(s, run).stack)
    decreases |run|
  {
    if run != [] {
      StepCovered(s, run[0]);
      RunCovered(Step(s, run[0]), run[1..]);
    }
  }

  lemma {:induction false} DeadLoopTakes(stack: seq<Frame>, i: nat)
    requires Covered(stack) && i < |stack| && stack[i].FireDead?
    ensures WillTake(stack)
  {
    if i == 0 {
      assert stack[1..][0].TakeWaiters?;
    } else {
      DeadLoopTakes(stack[1..], i - 1);
    }
  }

  /**
   A teardown calls the dead callbacks before it takes the waiters, so a caller that one of those callbacks adds is not left
   waiting either: after any run, whoever waits while such a loop is in progress has been told something once the callbacks
   are through.
   */
  lemma DeadLoopLeavesNoWaiter(first: seq<Action>, i: nat, run: seq<Action>, k: Token)
    requires Possible(START, first) && Possible(Run(START, first), run)
    requires var s := Run(START, first); i < |s.stack| && s.stack[i].FireDead? && k in s.waiters
    requires Run(Run(START, first), run).stack == []
    ensures
      var e := Run(Run(START, first), run);
      Firing(k, Refused) in e.fired || Firing(k, Ready) in e.fired || k in e.sentAs
  {
    RunCovered(START, first);
    DeadLoopTakes(Run(START, first).stack, i);
    PursuedRun(Run(START, first), run, k);
  }

  // ── answers ──

  /** A callback is told its answer was good or bad as the message under its id was. */
  lemma {:induction false} AnswersAsSent(s: State, run: seq<Action>, f: Firing)
    requires Possible(s, run) && f.how.Answered? && f in Run(s, run).fired
    ensures f in s.fired || Message(f.how.id, f.how.good) in run
    decreases |run|
  {
    if run != [] {
      AnswersAsSent(Step(s, run[0]), run[1..], f);
      if f in Step(s, run[0]).fired {
        NewAnswer(s, run[0], f);
      }
    }
  }

  lemma NewAnswer(s: State, a: Action, f: Firing)
    requires Enabled(s, a) && f.how.Answered? && f in Step(s, a).fired
    ensures f in s.fired || a == Message(f.how.id, f.how.good)
  {
    match a
    case Ensure(secure) => CallPlain(s, EnsureCall, secure);
    case Request(secure) => CallPlain(s, RequestCall, secure);
    case Message(id, good) => RespondPlain(s, id, good);
    case Continue(id) => TurnPlain(s, id);
    case _ => PlainWaiters(s, a);
  }

  // ── ready, and one attempt ──

  /** Ready from a good answer to a handshake until the next teardown. */
  lemma ReadyIff(s: State, a: Action)
    requires Enabled(s, a)
    ensures
      Step(s, a).ready <==>
      (s.ready && !TearsDown(s, a)) || (a.Message? && a.good && a.id in s.pending && s.pending[a.id].Handshake?)
  {
    match a
    case Ensure(secure) => CallPlain(s, EnsureCall, secure);
    case Request(secure) => CallPlain(s, RequestCall, secure);
    case Message(id, good) => RespondPlain(s, id, good);
    case Continue(id) => TurnPlain(s, id);
    case _ => PlainWaiters(s, a);
  }

  /** While a connect is in progress a further caller just waits for it. */
  lemma CallersCoalesce(s: State, kind: Kind, secure: bool)
    requires s.connecting && !(s.ready && s.pipe)
    ensures
      Call(s, kind, secure)
      == s.(kinds := s.kinds + [kind], waiters := s.waiters + [|s.kinds|])
  {}
}
