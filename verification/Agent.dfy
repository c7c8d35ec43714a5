/**
 The agent's vault operations on the real file format (`native/src/vault.rs` and the `vault.*` and `secret.*`
 handlers of `native/src/server.rs`), one request at a time, and the proof that over every run they behave
 as the plain password-protected map of `Wallet`.
 */
module Agent {
  import opened Bytes
  import opened Entries
  import opened Text
  import opened VaultFormat
  import opened VaultWrite
  import opened Wrappers
  import W = Wallet

  /** The part of the agent that matters for its contents: the vault directory and the session. */
  datatype Core = Core(disk: Disk, session: Option<Session>)

  /** Everything one request draws or is told by the environment. */
  datatype Env = Env(
    readOk: bool,
    readArgonOk: bool,
    writeArgonOk: bool,
    salt: Salt,
    nonce: Nonce,
    plan: Plan,
    ts: U64)

  // ── vault.rs: create, unlock, rotate, save ──

  function VaultUnlock(d: Disk, pw: Password, env: Env): Result<Session, Error>
  {
    if d.vault.None? || !env.readOk then Err(Io) else UnlockFile(d.vault.value.content, pw, env.readArgonOk)
  }

  function Image(s: Session, nonce: Nonce): File
  {
    Written(s.body, s.key, s.salt, s.params, nonce)
  }

  /** The session `create` is about to write, if it gets that far. */
  function Creation(d: Disk, pw: Password, kdf: KdfParams, env: Env): Result<Session, Error>
  {
    if d.vault.Some? then Err(AlreadyExists)
    else
      match DeriveKey(pw, env.salt, kdf, env.writeArgonOk)
      case Err(e) => Err(e)
      case Ok(key) => Ok(Session(map[], key, env.salt, kdf))
  }

  /** The session `rotate` is about to write: the entries of the file under a fresh salt and the new password. */
  function Rotation(d: Disk, oldPw: Password, newPw: Password, kdf: KdfParams, env: Env): Result<Session, Error>
  {
    match VaultUnlock(d, oldPw, env)
    case Err(e) => Err(e)
    case Ok(current) =>
      match DeriveKey(newPw, env.salt, kdf, env.writeArgonOk)
      case Err(e) => Err(e)
      case Ok(key) => Ok(Session(current.body, key, env.salt, kdf))
  }

  /** The session after a change's closure ran, before it is saved. */
  function Altered(c: Core, ch: Change, ts: U64): Result<Session, Error>
  {
    if Validate(ch).Some? then Err(Validate(ch).value)
    else if c.session.None? then Err(Locked)
    else
      match Apply(c.session.value.body, ch, ts)
      case Err(e) => Err(e)
      case Ok(m) => Ok(c.session.value.(body := m))
  }

  predicate BareGenerate(r: W.Request)
  {
    r.Alter? && r.change.GenerateInto? && IsBlank(r.change.name)
  }

  /** What the request will try to write, or why it never reaches the file. */
  function Draft(c: Core, r: W.Request, kdf: KdfParams, env: Env): Result<Session, Error>
    requires r.Create? || r.Rotate? || r.Alter?
  {
    match r
    case Create(pw) => Creation(c.disk, pw, kdf, env)
    case Rotate(oldPw, newPw) => Rotation(c.disk, oldPw, newPw, kdf, env)
    case Alter(ch, _) => Altered(c, ch, env.ts)
  }

  // ── server.rs: one request ──

  function Step(c: Core, r: W.Request, kdf: KdfParams, env: Env): (Core, W.Response)
  {
    match r
    case Hello | Status =>
      var shown := if c.session.Some? then Some(W.Summaries(c.session.value.body)) else None;
      (c, W.Info(c.session.None?, c.disk.vault.Some?, shown))
    case Unlock(pw) =>
      (match VaultUnlock(c.disk, pw, env)
       case Err(e) => (c, W.Failed(e))
       case Ok(s) => (c.(session := Some(s)), W.Listing(W.Summaries(s.body))))
    case Lock => (c.(session := None), W.Done)
    case CancelUnlock => (c, W.Done)
    case Get(name, _) =>
      if c.session.None? then (c, W.Failed(Locked))
      else if name !in c.session.value.body then (c, W.Failed(NoSuchSecret(name)))
      else (c, W.Got(c.session.value.body[name]))
    case List(_) =>
      if c.session.None? then (c, W.Failed(Locked)) else (c, W.Listing(W.Summaries(c.session.value.body)))
    case Create(_) | Rotate(_, _) | Alter(_, _) =>
      if BareGenerate(r) then (c, W.Drawn(r.change.drawn))
      else
        match Draft(c, r, kdf, env)
        case Err(e) => (c, W.Failed(e))
        case Ok(s) =>
          var disk := AfterWrite(c.disk, Image(s, env.nonce), env.plan);
          if Committed(env.plan) then
            (Core(disk, Some(s)), Success(r))
          else
            // A failed save leaves the changed body in the session; create and rotate install nothing.
            (Core(disk, if r.Alter? then Some(s) else c.session), W.Failed(Io))
  }

  /** The directory states a request passes through, if it writes at all. */
  function DiskSteps(c: Core, r: W.Request, kdf: KdfParams, env: Env): seq<Disk>
  {
    if Writes(c, r, kdf, env) then
      WriteSteps(c.disk, Image(Draft(c, r, kdf, env).value, env.nonce), env.plan)
    else []
  }

  // ── the relation to the plain map ──

  /** The file is the stored copy sealed under its password, with whatever salt, parameters and nonce its header says. */
  predicate SealedAs(f: File, st: W.Stored)
  {
    && Parse(f).Ok?
    && var h := Parse(f).value;
       h.params.Valid() && f == Written(st.entries, Derived(st.pw, h.salt, h.params), h.salt, h.params, h.nonce)
  }

  /** The session holds the live copy and the very key and header fields the file is sealed with. */
  predicate SessionHolds(s: Session, st: W.Stored, f: File)
  {
    && s.body == st.entries
    && s.key == Derived(st.pw, s.salt, s.params)
    && Parse(f).Ok? && s.salt == Parse(f).value.salt && s.params == Parse(f).value.params
  }

  predicate FileAgrees(slot: Option<Slot>, file: Option<W.Stored>)
  {
    && (slot.Some? <==> file.Some?)
    && (slot.Some? ==> slot.value.synced && SealedAs(slot.value.content, file.value))
  }

  predicate Agrees(c: Core, w: W.State)
  {
    && W.Coherent(w)
    && FileAgrees(c.disk.vault, w.file)
    && (c.session.Some? <==> w.live.Some?)
    && (c.session.Some? ==> SessionHolds(c.session.value, w.live.value, c.disk.vault.value.content))
  }

  /** How the environment's answers look at the level of the plain map. */
  function Reading(env: Env): Option<Error>
  {
    if !env.readOk then Some(Io) else if !env.readArgonOk then Some(BadParams) else None
  }

  function Writing(r: W.Request, kdf: KdfParams, env: Env): Option<Error>
  {
    if !r.Alter? && !(kdf.Valid() && env.writeArgonOk) then Some(BadParams)
    else if !Committed(env.plan) then Some(Io)
    else None
  }

  function FaultsOf(r: W.Request, kdf: KdfParams, env: Env): W.Faults
  {
    W.Faults(Reading(env), Writing(r, kdf, env))
  }

  lemma ImageSealed(s: Session, pw: Password, nonce: Nonce)
    requires s.key == Derived(pw, s.salt, s.params) && s.params.Valid()
    ensures SealedAs(Image(s, nonce), W.Stored(pw, s.body))
    ensures SessionHolds(s, W.Stored(pw, s.body), Image(s, nonce))
  {
    ParseWritten(s.body, s.key, s.salt, s.params, nonce);
  }

  /** Reading the file authenticates exactly as the plain map does. */
  lemma UnlockAgrees(d: Disk, w: W.State, pw: Password, env: Env)
    requires FileAgrees(d.vault, w.file)
    ensures
      match W.Authenticate(w, pw, Reading(env))
      case Err(e) => VaultUnlock(d, pw, env) == Err(e)
      case Ok(m) =>
        && VaultUnlock(d, pw, env).Ok?
        && SessionHolds(VaultUnlock(d, pw, env).value, W.Stored(pw, m), d.vault.value.content)
  {
    if d.vault.Some? && env.readOk && env.readArgonOk {
      var f, st := d.vault.value.content, w.file.value;
      var h := Parse(f).value;
      UnlockWritten(st.entries, st.pw, h.salt, h.params, h.nonce);
    }
  }

  /** A request that reaches its write. */
  predicate Writes(c: Core, r: W.Request, kdf: KdfParams, env: Env)
  {
    (r.Create? || r.Rotate? || r.Alter?) && !BareGenerate(r) && Draft(c, r, kdf, env).Ok?
  }

  /** What a writing request answers once the file is replaced. */
  function Success(r: W.Request): W.Response
  {
    if r.Alter? && r.change.GenerateInto? then W.Drawn(r.change.drawn) else W.Done
  }

  /** The drafted session is the map's next state, in both copies. */
  predicate Drafted(s: Session, good: W.State)
  {
    && s.params.Valid() && s.key == Derived(s.key.pw, s.salt, s.params)
    && good.live == Some(W.Stored(s.key.pw, s.body)) && good.file == good.live
  }

  /** What each writing request drafts, seen from the plain map. */
  lemma DraftAgrees(c: Core, w: W.State, r: W.Request, kdf: KdfParams, env: Env)
    requires Agrees(c, w) && (r.Create? || r.Rotate? || r.Alter?) && !BareGenerate(r)
    ensures
      var f := FaultsOf(r, kdf, env);
      match Draft(c, r, kdf, env)
      case Err(e) => W.Step(w, r, env.ts, f) == (w, W.Failed(e))
      case Ok(s) =>
        && Drafted(s, W.Step(w, r, env.ts, f.(writing := None)).0)
        && W.Step(w, r, env.ts, f.(writing := None)).1 == Success(r)
        && f.writing == (if Committed(env.plan) then None else Some(Io))
        && (r.Alter? ==> c.session.Some? && s.salt == c.session.value.salt && s.params == c.session.value.params
                         && s.key == c.session.value.key)
  {
    match r
    case Create(_) =>
    case Alter(ch, _) =>
    case Rotate(oldPw, _) => UnlockAgrees(c.disk, w, oldPw, env);
  }

  /** The plain map under a writing fault: nothing is stored, and only an alteration shows in the live copy. */
  lemma MapUnderWritingFault(w: W.State, r: W.Request, ts: U64, f: W.Faults, e: Error)
    requires (r.Create? || r.Rotate? || r.Alter?) && !BareGenerate(r) && f.writing == Some(e)
    requires W.Step(w, r, ts, f.(writing := None)).1 == Success(r)
    ensures
      var good := W.Step(w, r, ts, f.(writing := None)).0;
      W.Step(w, r, ts, f) == (if r.Alter? then w.(live := good.live) else w, W.Failed(e))
  {}

  /** One request: the same answer as the plain map, and agreement afterwards. */
  lemma StepRefines(c: Core, w: W.State, r: W.Request, kdf: KdfParams, env: Env)
    requires Agrees(c, w)
    ensures
      var (c2, resp) := Step(c, r, kdf, env);
      var (w2, want) := W.Step(w, r, env.ts, FaultsOf(r, kdf, env));
      resp == want && Agrees(c2, w2)
  {
    W.StepKeepsCoherent(w, r, env.ts, FaultsOf(r, kdf, env));
    if r.Unlock? {
      UnlockAgrees(c.disk, w, r.pw, env);
    } else if (r.Create? || r.Rotate? || r.Alter?) && !BareGenerate(r) {
      DraftAgrees(c, w, r, kdf, env);
      if Writes(c, r, kdf, env) {
        WriteRefines(c, w, r, kdf, env);
      }
    }
  }

  lemma WriteRefines(c: Core, w: W.State, r: W.Request, kdf: KdfParams, env: Env)
    requires Agrees(c, w) && Writes(c, r, kdf, env)
    ensures
      var (c2, resp) := Step(c, r, kdf, env);
      var (w2, want) := W.Step(w, r, env.ts, FaultsOf(r, kdf, env));
      resp == want && Agrees(c2, w2)
  {
    DraftAgrees(c, w, r, kdf, env);
    var f := FaultsOf(r, kdf, env);
    var s := Draft(c, r, kdf, env).value;
    var good := W.Step(w, r, env.ts, f.(writing := None)).0;
    var c2 := Step(c, r, kdf, env).0;
    WriteIsAllOrNothing(c.disk, Image(s, env.nonce), env.plan);
    if Committed(env.plan) {
      ImageSealed(s, s.key.pw, env.nonce);
      assert f == f.(writing := None);
      assert Agrees(c2, good);
    } else {
      MapUnderWritingFault(w, r, env.ts, f, Io);
      assert c2.disk.vault == c.disk.vault;
      assert Agrees(c2, if r.Alter? then w.(live := good.live) else w);
    }
  }

  // ── stopping in the middle of a request ──

  /** The directory after `i` steps of a request. */
  function StoppedDisk(c: Core, r: W.Request, kdf: KdfParams, env: Env, i: nat): Disk
    requires i <= |DiskSteps(c, r, kdf, env)|
  {
    if i == 0 then c.disk else DiskSteps(c, r, kdf, env)[i - 1]
  }

  /** The request's rename is among its first `i` steps. */
  predicate Renamed(c: Core, r: W.Request, kdf: KdfParams, env: Env, i: nat)
  {
    Writes(c, r, kdf, env) && Committed(env.plan) && i == |DiskSteps(c, r, kdf, env)|
  }

  /** A process stopped after `i` steps of a request leaves what the plain map has with the change done or not done. */
  lemma StopRefines(c: Core, w: W.State, r: W.Request, kdf: KdfParams, env: Env, i: nat)
    requires Agrees(c, w) && i <= |DiskSteps(c, r, kdf, env)|
    ensures
      Agrees(Core(StoppedDisk(c, r, kdf, env, i), None), W.Stopped(w, r, env.ts, Renamed(c, r, kdf, env, i)))
  {
    if Writes(c, r, kdf, env) {
      DraftAgrees(c, w, r, kdf, env);
      var s := Draft(c, r, kdf, env).value;
      var out := Image(s, env.nonce);
      var f := FaultsOf(r, kdf, env);
      var good := W.Step(w, r, env.ts, f.(writing := None)).0;
      ImageSealed(s, s.key.pw, env.nonce);
      ReadingFaultMoot(w, r, env.ts, f);
      WriteIsAllOrNothing(c.disk, out, env.plan);
      if i > 0 {
        StoppedWriteIsOldOrNew(c.disk, out, env.plan, i - 1);
      }
      assert FileAgrees(Some(Slot(out, true)), good.file);
    }
  }

  /** A request that succeeds under a reading fault (because it reads no file) or without one does the same with none. */
  lemma ReadingFaultMoot(w: W.State, r: W.Request, ts: U64, f: W.Faults)
    requires W.Step(w, r, ts, f.(writing := None)).1 == Success(r) && (r.Create? || r.Rotate? || r.Alter?)
    ensures W.Step(w, r, ts, W.NO_FAULT) == W.Step(w, r, ts, f.(writing := None))
  {}

  // ── whole runs ──

  /**
   The agent on its machine. `past` is what the vault path has named since the machine came up, oldest first: the
   directory is never synced, so a power cut may bring any of it back.
   */
  datatype Host = Host(core: Core, past: seq<Option<Slot>>)

  /** The plain map and, as `past`, its stored copies since the machine came up. */
  datatype MapHost = MapHost(w: W.State, past: seq<Option<W.Stored>>)

  /**
   `Stopped`: the process ends after `i` directory steps of the request. `PowerCut`: the machine goes down there, and on
   restart `after` is found, the vault path as it was `kept` renames after the machine came up, temp and backup anyhow.
   `kdf` is the configuration of the daemon that serves the request; the next one may have another.
   */
  datatype Event =
    | Served(r: W.Request, env: Env, kdf: KdfParams)
    | Stopped(r: W.Request, env: Env, kdf: KdfParams, i: nat)
    | PowerCut(r: W.Request, env: Env, kdf: KdfParams, i: nat, kept: nat, after: Disk)

  /** How many directory steps of the event's request are done. */
  function StepsDone(c: Core, e: Event): nat
  {
    if e.Served? then |DiskSteps(c, e.r, e.kdf, e.env)| else e.i
  }

  function PastAfter(h: Host, e: Event): seq<Option<Slot>>
    requires StepsDone(h.core, e) <= |DiskSteps(h.core, e.r, e.kdf, e.env)|
  {
    var i := StepsDone(h.core, e);
    if Renamed(h.core, e.r, e.kdf, e.env, i) then h.past + [StoppedDisk(h.core, e.r, e.kdf, e.env, i).vault] else h.past
  }

  ghost predicate CanHappen(h: Host, e: Event)
  {
    && StepsDone(h.core, e) <= |DiskSteps(h.core, e.r, e.kdf, e.env)|
    && (e.PowerCut? ==>
          && e.kept < |PastAfter(h, e)| && SlotSynced(e.after.vault)
          && Survives(PastAfter(h, e)[e.kept], ContentOf(e.after.vault)))
  }

  ghost function After(h: Host, e: Event): Host
    requires CanHappen(h, e)
  {
    match e
    case Served(r, env, kdf) => Host(Step(h.core, r, kdf, env).0, PastAfter(h, e))
    case Stopped(r, env, kdf, i) => Host(Core(StoppedDisk(h.core, r, kdf, env, i), None), PastAfter(h, e))
    case PowerCut(_, _, _, _, _, after) => Host(Core(after, None), [after.vault])
  }

  function Answer(c: Core, e: Event): Option<W.Response>
  {
    if e.Served? then Some(Step(c, e.r, e.kdf, e.env).1) else None
  }

  /** The plain map once the event's request is over, before any power cut. */
  function MapThen(h: Host, m: MapHost, e: Event): MapHost
  {
    var renamed := Renamed(h.core, e.r, e.kdf, e.env, StepsDone(h.core, e));
    var w :=
      if e.Served? then W.Step(m.w, e.r, e.env.ts, FaultsOf(e.r, e.kdf, e.env)).0
      else W.Stopped(m.w, e.r, e.env.ts, renamed);
    MapHost(w, if renamed then m.past + [w.file] else m.past)
  }

  /** A power cut makes one of the copies stored since the machine came up the stored copy, and leaves nothing unlocked. */
  function MapAfter(h: Host, m: MapHost, e: Event): MapHost
  {
    var then_ := MapThen(h, m, e);
    if e.PowerCut? && e.kept < |then_.past| then MapHost(W.State(then_.past[e.kept], None), [then_.past[e.kept]])
    else then_
  }

  function MapAnswer(w: W.State, e: Event): Option<W.Response>
  {
    if e.Served? then Some(W.Step(w, e.r, e.env.ts, FaultsOf(e.r, e.kdf, e.env)).1) else None
  }

  predicate PastAgrees(past: seq<Option<Slot>>, mapPast: seq<Option<W.Stored>>)
  {
    |past| == |mapPast| && forall k :: 0 <= k < |past| ==> FileAgrees(past[k], mapPast[k])
  }

  predicate HostAgrees(h: Host, m: MapHost)
  {
    Agrees(h.core, m.w) && PastAgrees(h.past, m.past) && LastIsFile(m)
  }

  /** What the path names now is the last of what it has named. */
  predicate LastIsFile(m: MapHost)
  {
    m.past != [] && m.past[|m.past| - 1] == m.w.file
  }

  /** A request that does not get as far as its rename leaves the stored copy. */
  lemma NoRenameKeepsFile(c: Core, w: W.State, r: W.Request, kdf: KdfParams, env: Env)
    requires Agrees(c, w) && !(Writes(c, r, kdf, env) && Committed(env.plan))
    ensures W.Step(w, r, env.ts, FaultsOf(r, kdf, env)).0.file == w.file
  {
    if (r.Create? || r.Rotate? || r.Alter?) && !BareGenerate(r) {
      DraftAgrees(c, w, r, kdf, env);
    }
  }

  /** The past as it stands after the event's request, if the stored copies before and after agree with the paths. */
  lemma PastStep(h: Host, m: MapHost, e: Event)
    requires PastAgrees(h.past, m.past) && LastIsFile(m)
    requires StepsDone(h.core, e) <= |DiskSteps(h.core, e.r, e.kdf, e.env)|
    requires
      FileAgrees(
        StoppedDisk(h.core, e.r, e.kdf, e.env, StepsDone(h.core, e)).vault, MapThen(h, m, e).w.file)
    requires
      !Renamed(h.core, e.r, e.kdf, e.env, StepsDone(h.core, e)) ==> MapThen(h, m, e).w.file == m.w.file
    ensures PastAgrees(PastAfter(h, e), MapThen(h, m, e).past) && LastIsFile(MapThen(h, m, e))
  {}

  lemma ServedRefines(h: Host, m: MapHost, e: Event)
    requires HostAgrees(h, m) && e.Served?
    ensures
      var w := MapThen(h, m, e).w;
      var i := StepsDone(h.core, e);
      && Answer(h.core, e) == MapAnswer(m.w, e) && Agrees(Step(h.core, e.r, e.kdf, e.env).0, w)
      && FileAgrees(StoppedDisk(h.core, e.r, e.kdf, e.env, i).vault, w.file)
      && (!Renamed(h.core, e.r, e.kdf, e.env, i) ==> w.file == m.w.file)
  {
    StepRefines(h.core, m.w, e.r, e.kdf, e.env);
    ServedDisk(h.core, e.r, e.kdf, e.env);
    if !Renamed(h.core, e.r, e.kdf, e.env, StepsDone(h.core, e)) {
      NoRenameKeepsFile(h.core, m.w, e.r, e.kdf, e.env);
    }
  }

  lemma RequestRefines(h: Host, m: MapHost, e: Event)
    requires HostAgrees(h, m) && CanHappen(h, e)
    ensures PastAgrees(PastAfter(h, e), MapThen(h, m, e).past) && LastIsFile(MapThen(h, m, e))
    ensures
      e.Served? ==>
        && Answer(h.core, e) == MapAnswer(m.w, e)
        && Agrees(Step(h.core, e.r, e.kdf, e.env).0, MapThen(h, m, e).w)
    ensures
      !e.Served? ==> Agrees(Core(StoppedDisk(h.core, e.r, e.kdf, e.env, e.i), None), MapThen(h, m, e).w)
  {
    if e.Served? {
      ServedRefines(h, m, e);
    } else {
      StopRefines(h.core, m.w, e.r, e.kdf, e.env, e.i);
    }
    PastStep(h, m, e);
  }

  /** A request served to its end has gone through all its directory steps. */
  lemma ServedDisk(c: Core, r: W.Request, kdf: KdfParams, env: Env)
    ensures Step(c, r, kdf, env).0.disk == StoppedDisk(c, r, kdf, env, |DiskSteps(c, r, kdf, env)|)
  {}

  lemma EventRefines(h: Host, m: MapHost, e: Event)
    requires HostAgrees(h, m) && CanHappen(h, e)
    ensures Answer(h.core, e) == MapAnswer(m.w, e) && HostAgrees(After(h, e), MapAfter(h, m, e))
  {
    RequestRefines(h, m, e);
    if e.PowerCut? {
      CutRefines(h, m, e);
    }
  }

  /** What a power cut brings back is sealed as the copy stored by the rename it goes back to. */
  lemma CutRefines(h: Host, m: MapHost, e: Event)
    requires CanHappen(h, e) && e.PowerCut? && PastAgrees(PastAfter(h, e), MapThen(h, m, e).past)
    ensures HostAgrees(After(h, e), MapAfter(h, m, e))
  {
    var slot, st := PastAfter(h, e)[e.kept], MapThen(h, m, e).past[e.kept];
    assert FileAgrees(slot, st);
    assert e.after.vault == slot;
  }

  ghost predicate Possible(h: Host, events: seq<Event>)
    decreases |events|
  {
    events == [] || (CanHappen(h, events[0]) && Possible(After(h, events[0]), events[1..]))
  }

  ghost function Run(h: Host, events: seq<Event>): (Host, seq<Option<W.Response>>)
    requires Possible(h, events)
    decreases |events|
  {
    if events == [] then (h, [])
    else
      var rest := Run(After(h, events[0]), events[1..]);
      (rest.0, [Answer(h.core, events[0])] + rest.1)
  }

  ghost function MapRun(h: Host, m: MapHost, events: seq<Event>): (MapHost, seq<Option<W.Response>>)
    requires Possible(h, events)
    decreases |events|
  {
    if events == [] then (m, [])
    else
      var rest := MapRun(After(h, events[0]), MapAfter(h, m, events[0]), events[1..]);
      (rest.0, [MapAnswer(m.w, events[0])] + rest.1)
  }

  /**
   Refinement over whole runs: after any sequence of requests, failed reads and writes, processes stopped inside a request
   and power cuts that bring back any earlier content of the path, every answer is the plain map's and the agent agrees
   with it.
   */
  lemma {:induction false} RunRefines(h: Host, m: MapHost, events: seq<Event>)
    requires HostAgrees(h, m) && Possible(h, events)
    ensures Run(h, events).1 == MapRun(h, m, events).1
    ensures HostAgrees(Run(h, events).0, MapRun(h, m, events).0)
    decreases |events|
  {
    if events != [] {
      EventRefines(h, m, events[0]);
      RunRefines(After(h, events[0]), MapAfter(h, m, events[0]), events[1..]);
    }
  }

  const FRESH := Host(Core(Disk(None, None, None), None), [None])

  const FRESH_MAP := MapHost(W.State(None, None), [None])

  /** After any run from no vault at all, the file opens under the password of the stored copy, to it, and to nothing else. */
  lemma FileAlwaysOpens(events: seq<Event>, pw: Password)
    requires Possible(FRESH, events)
    ensures
      var c := Run(FRESH, events).0.core;
      var w := MapRun(FRESH, FRESH_MAP, events).0.w;
      && (c.disk.vault.Some? <==> w.file.Some?)
      && (w.file.Some? ==>
            var found := UnlockFile(c.disk.vault.value.content, pw, true);
            && (found.Ok? <==> pw == w.file.value.pw)
            && (found.Ok? ==> found.value.body == w.file.value.entries))
  {
    RunRefines(FRESH, FRESH_MAP, events);
    var c := Run(FRESH, events).0.core;
    var w := MapRun(FRESH, FRESH_MAP, events).0.w;
    if w.file.Some? {
      var f, st := c.disk.vault.value.content, w.file.value;
      var h := Parse(f).value;
      UnlockWritten(st.entries, st.pw, h.salt, h.params, h.nonce);
      OpenedSessionOwnsFile(f, st.pw, true);
    }
  }

  // ── which save the file is ──

  function NewSave(h: Host, m: MapHost, e: Event): seq<Option<W.Stored>>
  {
    if Renamed(h.core, e.r, e.kdf, e.env, StepsDone(h.core, e)) then [MapThen(h, m, e).w.file] else []
  }

  /** The copies stored by the renames of a run, in order, undone or not. */
  ghost function Saves(h: Host, m: MapHost, events: seq<Event>): seq<Option<W.Stored>>
    requires Possible(h, events)
    decreases |events|
  {
    if events == [] then []
    else
      var e := events[0];
      NewSave(h, m, e) + Saves(After(h, e), MapAfter(h, m, e), events[1..])
  }

  predicate NoPowerCut(events: seq<Event>)
  {
    forall i :: 0 <= i < |events| ==> !events[i].PowerCut?
  }

  /** Everything the path might come back as is in `made`, the copies stored so far. */
  predicate PastFrom(m: MapHost, made: seq<Option<W.Stored>>)
  {
    made != [] && forall k :: 0 <= k < |m.past| ==> m.past[k] in made
  }

  lemma EventSaves(h: Host, m: MapHost, e: Event, made: seq<Option<W.Stored>>)
    requires PastFrom(m, made)
    ensures PastFrom(MapAfter(h, m, e), made + NewSave(h, m, e))
  {
    var then_ := MapThen(h, m, e);
    assert then_.past == m.past + NewSave(h, m, e);
    assert PastFrom(then_, made + NewSave(h, m, e));
  }

  predicate Latest(m: MapHost, made: seq<Option<W.Stored>>)
  {
    made != [] && made[|made| - 1] == m.w.file
  }

  lemma LatestOf(m: MapHost, after: MapHost, new_: seq<Option<W.Stored>>, made: seq<Option<W.Stored>>)
    requires LastIsFile(m) && Latest(m, made) && LastIsFile(after)
    requires after.past == m.past + new_ && (new_ == [] || new_ == [after.w.file])
    ensures Latest(after, made + new_)
  {
    assert new_ == [] ==> made + new_ == made;
  }

  lemma PastGrows(h: Host, m: MapHost, e: Event)
    requires !e.PowerCut?
    ensures
      var after, new_ := MapAfter(h, m, e), NewSave(h, m, e);
      after.past == m.past + new_ && (new_ == [] || new_ == [after.w.file])
  {}

  lemma EventLatest(h: Host, m: MapHost, e: Event, made: seq<Option<W.Stored>>)
    requires LastIsFile(m) && LastIsFile(MapAfter(h, m, e)) && !e.PowerCut? && Latest(m, made)
    ensures Latest(MapAfter(h, m, e), made + NewSave(h, m, e))
  {
    PastGrows(h, m, e);
    LatestOf(m, MapAfter(h, m, e), NewSave(h, m, e), made);
  }

  lemma AgreeingLast(h: Host, m: MapHost)
    requires HostAgrees(h, m)
    ensures LastIsFile(m)
  {}

  /** One event: agreement, the copies the path may name, and, without a power cut, the latest of them. */
  lemma SaveStep(h: Host, m: MapHost, e: Event, made: seq<Option<W.Stored>>)
    requires HostAgrees(h, m) && CanHappen(h, e) && PastFrom(m, made)
    ensures HostAgrees(After(h, e), MapAfter(h, m, e))
    ensures PastFrom(MapAfter(h, m, e), made + NewSave(h, m, e))
    ensures !e.PowerCut? && Latest(m, made) ==> Latest(MapAfter(h, m, e), made + NewSave(h, m, e))
  {
    EventRefines(h, m, e);
    EventSaves(h, m, e, made);
    AgreeingLast(h, m);
    AgreeingLast(After(h, e), MapAfter(h, m, e));
    if !e.PowerCut? && Latest(m, made) {
      EventLatest(h, m, e, made);
    }
  }

  ghost predicate SavesTold(
      h: Host, m: MapHost, events: seq<Event>, made: seq<Option<W.Stored>>)
    requires Possible(h, events)
  {
    var end := MapRun(h, m, events).0;
    var all := made + Saves(h, m, events);
    && HostAgrees(Run(h, events).0, end) && PastFrom(end, all)
    && (NoPowerCut(events) && Latest(m, made) ==> Latest(end, all))
  }

  lemma {:induction false} RunSaves(
      h: Host, m: MapHost, events: seq<Event>, made: seq<Option<W.Stored>>)
    requires HostAgrees(h, m) && Possible(h, events) && PastFrom(m, made)
    ensures SavesTold(h, m, events, made)
    decreases |events|
  {
    if events != [] {
      var e := events[0];
      SaveStep(h, m, e, made);
      RunSaves(After(h, e), MapAfter(h, m, e), events[1..], made + NewSave(h, m, e));
      SavesCons(h, m, events, made);
    } else {
      assert made + [] == made;
    }
  }

  lemma SavesCons(h: Host, m: MapHost, events: seq<Event>, made: seq<Option<W.Stored>>)
    requires events != [] && Possible(h, events)
    ensures
      var e := events[0];
      var h2, m2 := After(h, e), MapAfter(h, m, e);
      && Run(h, events).0 == Run(h2, events[1..]).0
      && MapRun(h, m, events).0 == MapRun(h2, m2, events[1..]).0
      && made + NewSave(h, m, e) + Saves(h2, m2, events[1..]) == made + Saves(h, m, events)
  {
    var e := events[0];
    Regroup(made, NewSave(h, m, e), Saves(After(h, e), MapAfter(h, m, e), events[1..]));
  }

  lemma Regroup<T>(a: seq<T>, b: seq<T>, c: seq<T>)
    ensures a + b + c == a + (b + c)
  {}

  /**
   After any run from no vault, the stored copy is what some save of the run stored, under the password of that save, or
   still none; without a power cut it is what the last one stored.
   */
  lemma FileIsASave(events: seq<Event>)
    requires Possible(FRESH, events)
    ensures
      var w := MapRun(FRESH, FRESH_MAP, events).0.w;
      var saves := Saves(FRESH, FRESH_MAP, events);
      && w.file in [None] + saves
      && (NoPowerCut(events) ==> w.file == if saves == [] then None else saves[|saves| - 1])
  {
    FreshAgrees();
    RunSaves(FRESH, FRESH_MAP, events, [None]);
    AgreeingLast(Run(FRESH, events).0, MapRun(FRESH, FRESH_MAP, events).0);
    LastOfSaves(MapRun(FRESH, FRESH_MAP, events).0, Saves(FRESH, FRESH_MAP, events));
  }

  lemma FreshAgrees()
    ensures HostAgrees(FRESH, FRESH_MAP) && PastFrom(FRESH_MAP, [None]) && Latest(FRESH_MAP, [None])
  {}

  lemma LastOfSaves(end: MapHost, saves: seq<Option<W.Stored>>)
    requires LastIsFile(end) && PastFrom(end, [None] + saves)
    ensures end.w.file in [None] + saves
    ensures Latest(end, [None] + saves) ==> end.w.file == if saves == [] then None else saves[|saves| - 1]
  {}

  /** A served request that writes and commits reports no failure, and adds one name's content to the past. */
  lemma SavedPast(h: Host, m: MapHost, r: W.Request, kdf: KdfParams, env: Env)
    requires HostAgrees(h, m) && Writes(h.core, r, kdf, env) && Committed(env.plan)
    ensures CanHappen(h, Served(r, env, kdf)) && !Step(h.core, r, kdf, env).1.Failed?
    ensures
      var past := After(h, Served(r, env, kdf)).past;
      |past| == |h.past| + 1 && past[..|h.past|] == h.past
    ensures
      var past := MapAfter(h, m, Served(r, env, kdf)).past;
      |past| == |m.past| + 1 && past[..|m.past|] == m.past
  {}

  /** Losing power while the agent is asked for its status brings back any copy of the past. */
  lemma CutBringsBack(h: Host, m: MapHost, kdf: KdfParams, env: Env, kept: nat, after: Disk)
    requires HostAgrees(h, m) && kept < |h.past| && after.vault == h.past[kept]
    ensures
      var cut := PowerCut(W.Status, env, kdf, 0, kept, after);
      CanHappen(h, cut) && MapAfter(h, m, cut).w == W.State(m.past[kept], None)
  {
    var cut := PowerCut(W.Status, env, kdf, 0, kept, after);
    StatusWritesNothing(h, m, cut);
    assert FileAgrees(h.past[kept], m.past[kept]);
    assert Survives(h.past[kept], ContentOf(after.vault));
  }

  lemma StatusWritesNothing(h: Host, m: MapHost, e: Event)
    requires e.PowerCut? && e.r == W.Status && e.i == 0
    ensures DiskSteps(h.core, e.r, e.kdf, e.env) == [] && PastAfter(h, e) == h.past && MapThen(h, m, e).past == m.past
  {}

  /** A reported save need not survive: in every agreeing state a power cut right after it may bring back the copy before. */
  lemma PowerCutMayUndoSave(h: Host, m: MapHost, r: W.Request, kdf: KdfParams, env: Env, later: Env, after: Disk)
    requires HostAgrees(h, m) && Writes(h.core, r, kdf, env) && Committed(env.plan)
    requires after.vault == h.past[|h.past| - 1]
    ensures CanHappen(h, Served(r, env, kdf))
    ensures
      var saved := After(h, Served(r, env, kdf));
      var cut := PowerCut(W.Status, later, kdf, 0, |h.past| - 1, after);
      && !Step(h.core, r, kdf, env).1.Failed?
      && CanHappen(saved, cut)
      && MapAfter(saved, MapAfter(h, m, Served(r, env, kdf)), cut).w == W.State(m.w.file, None)
  {
    SavedPast(h, m, r, kdf, env);
    EventRefines(h, m, Served(r, env, kdf));
    var saved, mSaved := After(h, Served(r, env, kdf)), MapAfter(h, m, Served(r, env, kdf));
    var last := |h.past| - 1;
    assert saved.past[last] == saved.past[..|h.past|][last] && mSaved.past[last] == mSaved.past[..|m.past|][last];
    CutBringsBack(saved, mSaved, kdf, later, last, after);
  }

  /** Where live and stored copies are equal, locking and unlocking gives back the very session there was. */
  lemma LockUnlockRestoresSession(c: Core, w: W.State, kdf: KdfParams, lockEnv: Env, unlockEnv: Env)
    requires Agrees(c, w) && w.live.Some? && w.live == w.file
    requires unlockEnv.readOk && unlockEnv.readArgonOk
    ensures
      var locked := Step(c, W.Lock, kdf, lockEnv).0;
      Step(locked, W.Unlock(w.live.value.pw), kdf, unlockEnv).0 == c
  {
    UnlockAgrees(c.disk, w, w.live.value.pw, unlockEnv);
  }

  /** In any agreeing state, a change that reports success survives locking and unlocking with the current password. */
  lemma ChangeSurvivesLock(
      c: Core, w: W.State, ch: Change, wait: bool, kdf: KdfParams, env: Env, lockEnv: Env, unlockEnv: Env)
    requires Agrees(c, w) && w.live.Some? && Accepted(ch)
    requires !Step(c, W.Alter(ch, wait), kdf, env).1.Failed?
    requires unlockEnv.readOk && unlockEnv.readArgonOk
    ensures
      var changed := Step(c, W.Alter(ch, wait), kdf, env).0;
      var locked := Step(changed, W.Lock, kdf, lockEnv).0;
      && changed.session.Some?
      && Apply(w.live.value.entries, ch, env.ts) == Ok(changed.session.value.body)
      && Step(locked, W.Unlock(w.live.value.pw), kdf, unlockEnv).0 == changed
  {
    var r := W.Alter(ch, wait);
    var f := FaultsOf(r, kdf, env);
    var changed := Step(c, r, kdf, env).0;
    var wChanged := W.Step(w, r, env.ts, f).0;
    StepRefines(c, w, r, kdf, env);
    W.LockUnlockAfterChange(w, ch, wait, env.ts, f);
    assert wChanged.live.value.pw == w.live.value.pw;
    LockUnlockRestoresSession(changed, wChanged, kdf, lockEnv, unlockEnv);
  }

  /**
   A change whose save fails is reported as failed yet stays in the live copy: for every unlocked state in which the
   change applies, the file holds the changed map afterwards if and only if the save went through or the file held it
   before.
   */
  lemma FailedSaveStaysLive(c: Core, w: W.State, ch: Change, wait: bool, kdf: KdfParams, env: Env)
    requires Agrees(c, w) && w.live.Some? && Accepted(ch)
    requires Apply(w.live.value.entries, ch, env.ts).Ok?
    ensures
      var m := Apply(w.live.value.entries, ch, env.ts).value;
      var c2 := Step(c, W.Alter(ch, wait), kdf, env).0;
      && c2.session.Some? && c2.session.value.body == m
      && c2.disk.vault.Some? && w.file.Some?
      && (SealedAs(c2.disk.vault.value.content, W.Stored(w.live.value.pw, m)) <==>
          Committed(env.plan) || m == w.file.value.entries)
  {
    StepRefines(c, w, W.Alter(ch, wait), kdf, env);
    var m := Apply(w.live.value.entries, ch, env.ts).value;
    var f := Step(c, W.Alter(ch, wait), kdf, env).0.disk.vault.value.content;
    var st := if Committed(env.plan) then W.Stored(w.live.value.pw, m) else w.file.value;
    assert SealedAs(f, st);
    if SealedAs(f, W.Stored(w.live.value.pw, m)) {
      SealedOnce(f, st, W.Stored(w.live.value.pw, m));
    }
  }

  /**
   What the file of a successful write is sealed with: a fresh nonce every time, a fresh salt and the configured costs for
   create and rotate, and for a change the session's own.
   */
  lemma WrittenHeader(c: Core, r: W.Request, kdf: KdfParams, env: Env)
    requires Writes(c, r, kdf, env) && Committed(env.plan)
    ensures
      var c2 := Step(c, r, kdf, env).0;
      && c2.disk.vault.Some? && c2.session.Some? && Parse(c2.disk.vault.value.content).Ok?
      && var h := Parse(c2.disk.vault.value.content).value;
         && h.nonce == env.nonce && h.salt == c2.session.value.salt && h.params == c2.session.value.params
         && (r.Create? || r.Rotate? ==> h.salt == env.salt && h.params == kdf)
         && (r.Alter? ==> c.session.Some? && h.salt == c.session.value.salt && h.params == c.session.value.params)
  {
    var s := Draft(c, r, kdf, env).value;
    WriteIsAllOrNothing(c.disk, Image(s, env.nonce), env.plan);
    ParseWritten(s.body, s.key, s.salt, s.params, env.nonce);
  }

  /** One file seals one password and one set of entries. */
  lemma SealedOnce(f: File, a: W.Stored, b: W.Stored)
    requires SealedAs(f, a) && SealedAs(f, b)
    ensures a == b
  {
    var h := Parse(f).value;
    UnlockWritten(a.entries, a.pw, h.salt, h.params, h.nonce);
    UnlockWritten(b.entries, b.pw, h.salt, h.params, h.nonce);
    OpenedSessionOwnsFile(f, a.pw, true);
  }

  // ── the entries every run can reach ──

  ghost predicate ClockNonDecreasing(events: seq<Event>, from: U64)
  {
    events == [] || (from <= events[0].env.ts && ClockNonDecreasing(events[1..], events[0].env.ts))
  }

  function Clock(events: seq<Event>, from: U64): U64
  {
    if events == [] then from else events[|events| - 1].env.ts
  }

  /** Every map held, stored or once stored is well formed. */
  predicate GoodHost(m: MapHost, clock: U64)
  {
    W.Good(m.w, clock) && forall k :: 0 <= k < |m.past| ==> W.GoodStored(m.past[k], clock)
  }

  lemma EventKeepsGood(h: Host, m: MapHost, e: Event, from: U64)
    requires GoodHost(m, from) && from <= e.env.ts
    ensures GoodHost(MapAfter(h, m, e), e.env.ts)
  {
    W.StepKeepsGood(m.w, e.r, from, e.env.ts, if e.Served? then FaultsOf(e.r, e.kdf, e.env) else W.NO_FAULT);
    GoodLater(m, from, e.env.ts);
    assert W.Good(MapThen(h, m, e).w, e.env.ts);
  }

  /**
   Starting from no vault, with a clock that never goes back, every live and stored map holds only non-blank names,
   no optional field set to the empty string, and creation times no later than update times.
   */
  lemma {:induction false} RunKeepsGood(h: Host, m: MapHost, events: seq<Event>, from: U64)
    requires Possible(h, events) && GoodHost(m, from) && ClockNonDecreasing(events, from)
    ensures GoodHost(MapRun(h, m, events).0, Clock(events, from))
    decreases |events|
  {
    if events != [] {
      ClockCons(events, from);
      EventKeepsGood(h, m, events[0], from);
      RunKeepsGood(
        After(h, events[0]), MapAfter(h, m, events[0]), events[1..], events[0].env.ts);
      MapRunCons(h, m, events);
    }
  }

  lemma ClockCons(events: seq<Event>, from: U64)
    requires events != [] && ClockNonDecreasing(events, from)
    ensures Clock(events, from) == Clock(events[1..], events[0].env.ts)
    ensures from <= events[0].env.ts && ClockNonDecreasing(events[1..], events[0].env.ts)
  {}

  lemma MapRunCons(h: Host, m: MapHost, events: seq<Event>)
    requires events != [] && Possible(h, events)
    ensures
      MapRun(h, m, events).0
      == MapRun(After(h, events[0]), MapAfter(h, m, events[0]), events[1..]).0
  {}

  lemma GoodLater(m: MapHost, from: U64, ts: U64)
    requires GoodHost(m, from) && from <= ts
    ensures GoodHost(m, ts)
  {
    forall st: W.Stored | GoodMap(st.entries, from) ensures GoodMap(st.entries, ts) {}
  }

  /** The same of the agent's own session, after any run from no vault. */
  lemma SessionAlwaysGood(events: seq<Event>)
    requires Possible(FRESH, events) && ClockNonDecreasing(events, 0)
    ensures
      var c := Run(FRESH, events).0.core;
      c.session.Some? ==> GoodMap(c.session.value.body, Clock(events, 0))
  {
    RunRefines(FRESH, FRESH_MAP, events);
    RunKeepsGood(FRESH, FRESH_MAP, events, 0);
  }
}
