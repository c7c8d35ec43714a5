/**
 The order of `vault.state` notes (`native/src/server.rs`): the session changes under its mutex and the note goes out after
 the mutex is released, so notes of different calls may overtake each other. `LockCache` takes the two for one step; here
 they are two.
 */
module NoteOrder {
  import opened Wrappers

  /**
   `changes` says of each change of the session, in order, whether it locked; `unsent` are those whose note is still to go
   out, `sent` the others in the order their notes went out.
   */
  datatype State = State(locked: bool, changes: seq<bool>, unsent: set<nat>, sent: seq<nat>)

  datatype Action =
    | Install          // create, unlock or rotate stores a session
    | Lock             // explicit or idle; announced only if there was a session
    | Send(i: nat)

  function Start(locked: bool): State
  {
    State(locked, [], {}, [])
  }

  predicate Enabled(s: State, a: Action)
  {
    a.Send? ==> a.i in s.unsent
  }

  function Changed(s: State, locked: bool): State
  {
    State(locked, s.changes + [locked], s.unsent + {|s.changes|}, s.sent)
  }

  function Step(s: State, a: Action): State
    requires Enabled(s, a)
  {
    match a
    case Install => Changed(s, false)
    case Lock => if s.locked then s else Changed(s, true)
    case Send(i) => s.(unsent := s.unsent - {i}, sent := s.sent + [i])
  }

  predicate Inv(s: State, start: bool)
  {
    && s.locked == (if s.changes == [] then start else s.changes[|s.changes| - 1])
    && (forall i :: i in s.unsent ==> i < |s.changes|)
    && (forall k :: 0 <= k < |s.sent| ==> s.sent[k] < |s.changes|)
    && (forall i :: 0 <= i < |s.changes| ==> i in s.unsent || i in s.sent)
  }

  /** What a client that starts out knowing `start` has cached once its queue is drained: what the last note said. */
  function Cached(s: State, start: bool): bool
    requires Inv(s, start)
  {
    if s.sent == [] then start else s.changes[s.sent[|s.sent| - 1]]
  }

  lemma StepKeepsInv(s: State, a: Action, start: bool)
    requires Inv(s, start) && Enabled(s, a)
    ensures Inv(Step(s, a), start)
  {
    var s2 := Step(s, a);
    forall i | 0 <= i < |s2.changes| ensures i in s2.unsent || i in s2.sent {
      if i < |s.changes| && i in s.sent {
        assert i in s2.sent;
      } else if a.Send? && i == a.i {
        assert s2.sent[|s.sent|] == i;
      }
    }
  }

  ghost predicate Possible(s: State, run: seq<Action>)
    decreases |run|
  {
    run == [] || (Enabled(s, run[0]) && Possible(Step(s, run[0]), run[1..]))
  }

  function Run(s: State, run: seq<Action>): State
    requires Possible(s, run)
    decreases |run|
  {
    if run == [] then s else Run(Step(s, run[0]), run[1..])
  }

  lemma {:induction false} RunKeepsInv(s: State, run: seq<Action>, start: bool)
    requires Inv(s, start) && Possible(s, run)
    ensures Inv(Run(s, run), start)
    decreases |run|
  {
    if run != [] {
      StepKeepsInv(s, run[0], start);
      RunKeepsInv(Step(s, run[0]), run[1..], start);
    }
  }

  /**
   When every note has gone out, a client that was right at the start is right if and only if the note sent last came from
   a change with the same effect as the last change; in particular if it came from that one.
   */
  lemma CachedRightIff(start: bool, run: seq<Action>)
    requires Possible(Start(start), run) && Run(Start(start), run).unsent == {}
    ensures
      var s := Run(Start(start), run);
      && Inv(s, start)
      && (s.changes == [] <==> s.sent == [])
      && (s.changes != [] ==>
            (Cached(s, start) == s.locked <==> s.changes[s.sent[|s.sent| - 1]] == s.changes[|s.changes| - 1]))
  {
    RunKeepsInv(Start(start), run, start);
    var s := Run(Start(start), run);
    if s.changes != [] {
      assert 0 in s.sent;
    }
  }

  /** An unlock whose note is overtaken by that of a lock right after it: every client takes a locked vault for unlocked. */
  lemma OvertakenNote()
    ensures
      var run := [Install] + ([Lock] + ([Send(1)] + ([Send(0)] + [])));
      && Possible(Start(true), run)
      && var s := Run(Start(true), run);
         Inv(s, true) && s.unsent == {} && s.locked && !Cached(s, true)
  {
    var s1 := Step(Start(true), Install);
    var s2 := Step(s1, Lock);
    var s3 := Step(s2, Send(1));
    var s4 := Step(s3, Send(0));
    assert s4.unsent == {};
    RunFirst(s3, Send(0), []);
    RunFirst(s2, Send(1), [Send(0)] + []);
    RunFirst(s1, Lock, [Send(1)] + ([Send(0)] + []));
    RunFirst(Start(true), Install, [Lock] + ([Send(1)] + ([Send(0)] + [])));
    StepKeepsInv(Start(true), Install, true);
    StepKeepsInv(s1, Lock, true);
    StepKeepsInv(s2, Send(1), true);
    StepKeepsInv(s3, Send(0), true);
  }

  lemma RunFirst(s: State, a: Action, rest: seq<Action>)
    requires Enabled(s, a) && Possible(Step(s, a), rest)
    ensures Possible(s, [a] + rest) && Run(s, [a] + rest) == Run(Step(s, a), rest)
  {
    assert ([a] + rest)[1..] == rest;
  }
}
