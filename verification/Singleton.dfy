/**
 The lifetime of socket-mode daemons that share one socket path (`serve_socket` and `handle_conn` in
 `native/src/main.rs`): flock, clear, bind, serve, unlink, exit, for any number of processes that may die at any point.
 */
module Singleton {
  import opened Wrappers

  /** A process instance; a recycled pid is a new one. */
  type Pid = nat

  datatype Pc =
    | Spawned          // before opening the lock file
    | Opened           // lock file open, flock not tried
    | Guarded          // flock taken, stale socket not cleared yet
    | Cleared          // about to bind
    | Serving
    | Leaving          // socket removed on SIGTERM or after the last client, exit still to come
    | Gone

  /** `holder` is who the kernel says holds the flock; `path` whose listener the socket path names, living or dead. */
  datatype State = State(procs: map<Pid, Pc>, holder: Option<Pid>, path: Option<Pid>)

  datatype Action =
    | Spawn(p: Pid)
    | OpenLock(p: Pid, ok: bool)
    | Flock(p: Pid)
    | Clear(p: Pid, ok: bool)
    | Bind(p: Pid, ok: bool)
    | Unlink(p: Pid, ok: bool)
    | Exit(p: Pid)
    | Crash(p: Pid)

  predicate At(s: State, p: Pid, pc: Pc)
  {
    p in s.procs && s.procs[p] == pc
  }

  predicate Alive(s: State, p: Pid)
  {
    p in s.procs && s.procs[p] != Gone
  }

  predicate PastFlock(pc: Pc)
  {
    pc.Guarded? || pc.Cleared? || pc.Serving? || pc.Leaving?
  }

  predicate Enabled(s: State, a: Action)
  {
    match a
    case Spawn(p) => p !in s.procs
    case OpenLock(p, _) => At(s, p, Spawned)
    case Flock(p) => At(s, p, Opened)
    case Clear(p, _) => At(s, p, Guarded)
    case Bind(p, _) => At(s, p, Cleared)
    // the SIGTERM task and the last-client task may both get here before the process is gone
    case Unlink(p, _) => At(s, p, Serving) || At(s, p, Leaving)
    case Exit(p) => At(s, p, Leaving)
    case Crash(p) => Alive(s, p)
  }

  function Move(s: State, p: Pid, pc: Pc): State
  {
    s.(procs := s.procs[p := pc])
  }

  /** The process ends and the kernel drops its flock, if it had it. The socket path stays as it is. */
  function End(s: State, p: Pid): State
  {
    State(s.procs[p := Gone], if s.holder == Some(p) then None else s.holder, s.path)
  }

  function Step(s: State, a: Action): State
  {
    match a
    case Spawn(p) => Move(s, p, Spawned)
    case OpenLock(p, ok) => if ok then Move(s, p, Opened) else End(s, p)
    case Flock(p) => if s.holder.None? then Move(s, p, Guarded).(holder := Some(p)) else End(s, p)
    // a failure to remove is ignored
    case Clear(p, ok) => if ok then Move(s, p, Cleared).(path := None) else Move(s, p, Cleared)
    // binding an existing path fails, and any bind failure ends the process
    case Bind(p, ok) => if ok && s.path.None? then Move(s, p, Serving).(path := Some(p)) else End(s, p)
    case Unlink(p, ok) => if ok then Move(s, p, Leaving).(path := None) else Move(s, p, Leaving)
    case Exit(p) => End(s, p)
    case Crash(p) => End(s, p)
  }

  predicate Inv(s: State)
  {
    && (s.holder.Some? ==> s.holder.value in s.procs)
    && (forall p :: p in s.procs ==> (PastFlock(s.procs[p]) <==> s.holder == Some(p)))
    && (forall p :: p in s.procs && s.procs[p].Serving? ==> s.path == Some(p))
    && (s.path.Some? ==>
          && s.path.value in s.procs
          && var pc := s.procs[s.path.value]; pc.Serving? || pc.Leaving? || pc.Gone?)
  }

  lemma StepKeepsInv(s: State, a: Action)
    requires Inv(s) && Enabled(s, a)
    ensures Inv(Step(s, a))
  {}

  ghost predicate Possible(s: State, run: seq<Action>)
    decreases |run|
  {
    run == [] || (Enabled(s, run[0]) && Possible(Step(s, run[0]), run[1..]))
  }

  function Run(s: State, run: seq<Action>): State
    decreases |run|
  {
    if run == [] then s else Run(Step(s, run[0]), run[1..])
  }

  /** Nobody running; the path may still name a socket left by a process long gone. */
  predicate Initial(s: State)
  {
    s.holder.None? && (forall p :: p in s.procs ==> s.procs[p].Gone?) && (s.path.Some? ==> s.path.value in s.procs)
  }

  lemma {:induction false} RunKeepsInv(s: State, run: seq<Action>)
    requires Inv(s) && Possible(s, run)
    ensures Inv(Run(s, run))
    decreases |run|
  {
    if run != [] {
      StepKeepsInv(s, run[0]);
      RunKeepsInv(Step(s, run[0]), run[1..]);
    }
  }

  /**
   Singleton: in every state any number of daemons can reach, at most one is past the flock, and one that is serving is
   the one the socket path leads to.
   */
  lemma AtMostOneAndReachable(s: State, run: seq<Action>, p: Pid, q: Pid)
    requires Initial(s) && Possible(s, run)
    requires var e := Run(s, run); p in e.procs && q in e.procs && PastFlock(e.procs[p])
    ensures var e := Run(s, run); PastFlock(e.procs[q]) ==> p == q
    ensures var e := Run(s, run); e.procs[p].Serving? ==> e.path == Some(p)
  {
    RunKeepsInv(s, run);
  }

  function Actor(a: Action): Pid
  {
    a.p
  }

  /**
   Nobody touches a live daemon's socket: whoever removes or binds the path is the flock holder, and what the path named
   before was nothing, its own socket, or that of a process already gone.
   */
  lemma OnlyHolderTouchesSocket(s: State, run: seq<Action>, a: Action)
    requires Initial(s) && Possible(s, run) && Enabled(Run(s, run), a)
    requires Step(Run(s, run), a).path != Run(s, run).path
    ensures
      var e := Run(s, run);
      && e.holder == Some(Actor(a))
      && (e.path.None? || e.path == Some(Actor(a)) || !Alive(e, e.path.value))
  {
    RunKeepsInv(s, run);
    var e := Run(s, run);
    assert PastFlock(e.procs[Actor(a)]);
  }

  /** A daemon that loses the race for the flock is gone and has changed nothing else. */
  lemma LoserDefers(s: State, p: Pid)
    requires Inv(s) && Enabled(s, Flock(p)) && s.holder.Some?
    ensures
      var e := Step(s, Flock(p));
      && e.procs[p].Gone? && e.holder == s.holder && e.path == s.path
      && forall q :: q in s.procs && q != p ==> e.procs[q] == s.procs[q]
  {
    assert !PastFlock(s.procs[p]);
  }

  ghost predicate Leads(s: State, run: seq<Action>, e: State)
  {
    Possible(s, run) && Run(s, run) == e
  }

  lemma LeadsCons(s: State, a: Action, run: seq<Action>, e: State)
    requires Enabled(s, a) && Leads(Step(s, a), run, e)
    ensures Leads(s, [a] + run, e)
  {
    assert ([a] + run)[1..] == run;
  }

  /** After any run, once nobody holds the flock a newly spawned daemon left alone gets to serve, stale socket or not. */
  lemma SuccessorServes(s: State, run: seq<Action>, p: Pid)
    requires Initial(s) && Possible(s, run)
    requires var e := Run(s, run); e.holder.None? && p !in e.procs
    ensures
      var takeover := [Spawn(p)] + ([OpenLock(p, true)] + ([Flock(p)] + ([Clear(p, true)] + ([Bind(p, true)] + []))));
      var e := Run(s, run);
      Leads(e, takeover, State(e.procs[p := Serving], Some(p), Some(p)))
  {
    var e := Run(s, run);
    var e1 := Step(e, Spawn(p));
    var e2 := Step(e1, OpenLock(p, true));
    var e3 := Step(e2, Flock(p));
    var e4 := Step(e3, Clear(p, true));
    var end := Step(e4, Bind(p, true));
    assert end.procs == e.procs[p := Serving];
    LeadsCons(e4, Bind(p, true), [], end);
    LeadsCons(e3, Clear(p, true), [Bind(p, true)] + [], end);
    LeadsCons(e2, Flock(p), [Clear(p, true)] + ([Bind(p, true)] + []), end);
    LeadsCons(e1, OpenLock(p, true), [Flock(p)] + ([Clear(p, true)] + ([Bind(p, true)] + [])), end);
    LeadsCons(e, Spawn(p),
      [OpenLock(p, true)] + ([Flock(p)] + ([Clear(p, true)] + ([Bind(p, true)] + []))), end);
  }
}
