/**
 The module locals of `lua/lvim-keyring/daemon.lua` as mutable fields, each function of the module as the method that
 updates them, against the specification in `Client`. A callback's own code is not part of a method: where the module
 calls one, the method records the call and leaves on `stack` what remains to be done once it returns.
 */
module DaemonClient {
  import opened Client
  import opened ClientLimits

  class Daemon {
    var pipe: bool
    var ready: bool
    var connecting: bool
    var attempt: bool
    var stale: nat
    var readTail: string
    var idSeq: nat
    var pending: map<Id, Callback>
    var ensureWaiters: seq<Token>
    var stack: seq<Frame>
    var kinds: seq<Kind>
    var fired: seq<Firing>
    ghost var sentAs: map<Token, Id>

    ghost function View(): State
      reads this
    {
      State(pipe, ready, connecting, attempt, stale, idSeq, pending, ensureWaiters, stack, kinds, fired, sentAs)
    }

    constructor ()
      ensures View() == START && readTail == ""
    {
      pipe, ready, connecting, attempt, stale, readTail := false, false, false, false, 0, "";
      idSeq, pending, ensureWaiters := 0, map[], [];
      stack, kinds, fired, sentAs := [], [], [], map[];
    }

    method Later(frame: Frame)
      modifies this`stack
      ensures stack == [frame] + old(stack)
    {
      stack := [frame] + stack;
    }

    method CallBack(k: Token, how: How)
      modifies this`stack, this`fired
      ensures View() == Client.Fire(old(View()), k, how)
    {
      fired := fired + [Firing(k, how)];
      Later(UserCode);
    }

    /** The attempt in progress, if any, goes on unowned. */
    method OutdateAttempt()
      modifies this`attempt, this`stale
      ensures View() == Outdated(old(View()))
    {
      if attempt {
        stale := stale + 1;
      }
      attempt := false;
    }

    method GoOffline()
      modifies this
      ensures View() == Offline(old(View())) && readTail == ""
    {
      ready := false;
      connecting := false;
      readTail := "";
      OutdateAttempt();
      if pipe {
        pipe := false;
      }
      pending := map[];
    }

    method Teardown()
      modifies this
      ensures View() == Client.Teardown(old(View())) && readTail == ""
    {
      var dead := pending;
      GoOffline();
      Later(TakeWaiters);
      Later(FireDead(dead));
      assert stack == [FireDead(dead), TakeWaiters] + old(stack);
    }

    method SendHello()
      modifies this
      ensures View() == StartHandshake(old(View())) && readTail == old(readTail)
    {
      idSeq := idSeq + 1;
      pending := pending[idSeq := Callback.Handshake];
    }

    /** The callback `handshake` leaves in the table. `good`: an answer that is a table with a recent enough protocol. */
    method HandshakeAnswered(good: bool)
      modifies this
      ensures View() == if good then HandshakeDone(old(View())) else HandshakeFailed(old(View()))
      ensures readTail == if good then old(readTail) else ""
    {
      var waiters := ensureWaiters;
      ensureWaiters := [];
      connecting := false;
      Later(FireWaiters(waiters, good));
      if !good {
        Teardown();
        return;
      }
      ready := true;
      Later(UserCode);
      assert stack == [UserCode, FireWaiters(waiters, true)] + old(stack);
    }

    method OnMessage(id: Id, good: bool)
      modifies this
      ensures View() == Respond(old(View()), id, good)
      ensures readTail == if id in old(pending) && old(pending)[id].Handshake? && !good then "" else old(readTail)
    {
      if id !in pending {
        return;
      }
      var cb := pending[id];
      pending := pending - {id};
      match cb {
        case User(k) => CallBack(k, Answered(id, good));
        case Handshake => HandshakeAnswered(good);
      }
    }

    /** A waiter being called: the callback given to `ensure`, or the function `request` waits with. */
    method CallWaiter(k: Token, ok: bool)
      requires k < |kinds|
      modifies this
      ensures View() == Notify(old(View()), k, ok) && readTail == old(readTail)
    {
      if kinds[k].EnsureCall? {
        CallBack(k, if ok then Ready else Refused);
        return;
      }
      if !ok {
        CallBack(k, Refused);
        return;
      }
      idSeq := idSeq + 1;
      pending := pending[idSeq := User(k)];
      sentAs := sentAs[k := idSeq];
    }

    /** `ensure`, and `request` through it; `secure` is the verdict on the socket directory. */
    method Ensure(kind: Kind, secure: bool)
      modifies this
      ensures View() == Call(old(View()), kind, secure)
      ensures
        readTail ==
          if !old(ready && pipe) && !old(connecting) && !secure then "" else old(readTail)
    {
      var k := |kinds|;
      kinds := kinds + [kind];
      if ready && pipe {
        CallWaiter(k, true);
        return;
      }
      ensureWaiters := ensureWaiters + [k];
      if connecting {
        return;
      }
      connecting := true;
      if !secure {
        Teardown();
        return;
      }
      OutdateAttempt();
      attempt := true;
    }

    /** The innermost loop in progress makes its next call; `id` is the entry `pairs` comes to. */
    method Continue(id: Id)
      requires Enabled(View(), Action.Continue(id))
      modifies this
      ensures View() == Turn(old(View()), id)
      ensures readTail == if TearsDown(old(View()), Action.Continue(id)) then "" else old(readTail)
    {
      var frame := stack[0];
      stack := stack[1..];
      match frame {
        case FireWaiters(rest, ok) =>
          if rest != [] {
            Later(FireWaiters(rest[1..], ok));
            CallWaiter(rest[0], ok);
          }
        case FireDead(dead) =>
          if dead != map[] {
            Later(FireDead(dead - {id}));
            match dead[id] {
              case User(k) => CallBack(k, Torn);
              case Handshake => HandshakeAnswered(false);
            }
          }
        case TakeWaiters =>
          var waiters := ensureWaiters;
          ensureWaiters := [];
          Later(FireWaiters(waiters, false));
      }
    }

    method EndAttempt(late: bool)
      requires late ==> stale > 0
      modifies this`attempt, this`stale
      ensures View() == Ended(old(View()), late)
    {
      if late {
        stale := stale - 1;
      } else {
        attempt := false;
      }
    }

    /** One event or call from user code, kept safe by the invariant of `Client`. */
    method Handle(a: Action)
      requires Inv(View()) && Enabled(View(), a)
      modifies this
      ensures View() == Step(old(View()), a) && Inv(View())
      ensures readTail == if TearsDown(old(View()), a) then "" else old(readTail)
    {
      StepKeepsInv(View(), a);
      match a {
        case Ensure(secure) => Ensure(EnsureCall, secure);
        case Request(secure) => Ensure(RequestCall, secure);
        case Stop => Teardown();
        case Connect => pipe := true;
        case OnConnected(late) =>
          EndAttempt(late);
          if pipe {
            SendHello();
          }
        case GiveUp(late) =>
          EndAttempt(late);
          Teardown();
        case Message(id, good) => OnMessage(id, good);
        case Return => stack := stack[1..];
        case Continue(id) => Continue(id);
      }
    }
  }
}
