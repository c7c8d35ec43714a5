/**
 The agent as its users may think of it: a password-protected map with one stored copy and, while unlocked,
 one live copy. No keys, headers, temp files or session objects.
 */
module Wallet {
  import opened Bytes
  import opened Entries
  import opened Text
  import opened Wrappers

  datatype Stored = Stored(pw: string, entries: EntryMap)

  datatype State = State(file: Option<Stored>, live: Option<Stored>)

  /** The value-free view of an entry that lists carry. */
  datatype Summary = Summary(
    user: Option<string>,
    url: Option<string>,
    notes: Option<string>,
    tags: seq<string>,
    totp: bool,
    created: U64,
    updated: U64)

  datatype Request =
    | Hello
    | Status
    | Create(pw: string)
    | Unlock(pw: string)
    | Lock
    | CancelUnlock
    | Rotate(oldPw: string, newPw: string)
    | Get(name: string, wait: bool)
    | List(wait: bool)
    | Alter(change: Change, wait: bool)

  datatype Response =
    | Done
    | Drawn(value: string)
    | Got(entry: Entry)
    | Listing(entries: map<string, Summary>)
    | Info(locked: bool, exists_: bool, shown: Option<map<string, Summary>>)
    | Failed(error: Error)

  /** What may go wrong around a request: while reading the file, and while writing it. */
  datatype Faults = Faults(reading: Option<Error>, writing: Option<Error>)

  const NO_FAULT := Faults(None, None)

  function Summarise(e: Entry): Summary
  {
    Summary(e.user, e.url, e.notes, e.tags, e.totp, e.created, e.updated)
  }

  function Summaries(m: EntryMap): map<string, Summary>
  {
    map n | n in m :: Summarise(m[n])
  }

  /** What unlocking with `pw` finds in the stored copy. */
  function Authenticate(w: State, pw: string, reading: Option<Error>): Result<EntryMap, Error>
  {
    if w.file.None? then Err(Io)
    else if reading.Some? then Err(reading.value)
    else if pw != w.file.value.pw then Err(WrongPassword)
    else Ok(w.file.value.entries)
  }

  function Alteration(w: State, c: Change, ts: U64, f: Faults): (State, Response)
  {
    if Validate(c).Some? then (w, Failed(Validate(c).value))
    else if c.GenerateInto? && IsBlank(c.name) then (w, Drawn(c.drawn))
    else if w.live.None? then (w, Failed(Locked))
    else
      match Apply(w.live.value.entries, c, ts)
      case Err(e) => (w, Failed(e))
      case Ok(m) =>
        var live := Stored(w.live.value.pw, m);
        // A change whose save fails stays in the live copy only.
        if f.writing.Some? then (w.(live := Some(live)), Failed(f.writing.value))
        else (State(Some(live), Some(live)), if c.GenerateInto? then Drawn(c.drawn) else Done)
  }

  function Step(w: State, r: Request, ts: U64, f: Faults): (State, Response)
  {
    match r
    case Hello | Status =>
      (w, Info(w.live.None?, w.file.Some?, if w.live.Some? then Some(Summaries(w.live.value.entries)) else None))
    case Create(pw) =>
      if w.file.Some? then (w, Failed(AlreadyExists))
      else if f.writing.Some? then (w, Failed(f.writing.value))
      else (State(Some(Stored(pw, map[])), Some(Stored(pw, map[]))), Done)
    case Unlock(pw) =>
      (match Authenticate(w, pw, f.reading)
       case Err(e) => (w, Failed(e))
       case Ok(m) => (w.(live := Some(Stored(pw, m))), Listing(Summaries(m))))
    case Lock => (w.(live := None), Done)
    case CancelUnlock => (w, Done)
    case Rotate(oldPw, newPw) =>
      (match Authenticate(w, oldPw, f.reading)
       case Err(e) => (w, Failed(e))
       case Ok(m) =>
         if f.writing.Some? then (w, Failed(f.writing.value))
         else (State(Some(Stored(newPw, m)), Some(Stored(newPw, m))), Done))
    case Get(name, _) =>
      if w.live.None? then (w, Failed(Locked))
      else if name !in w.live.value.entries then (w, Failed(NoSuchSecret(name)))
      else (w, Got(w.live.value.entries[name]))
    case List(_) =>
      if w.live.None? then (w, Failed(Locked)) else (w, Listing(Summaries(w.live.value.entries)))
    case Alter(c, _) => Alteration(w, c, ts, f)
  }

  /** The process stopped while serving `r`: nothing stays unlocked, and the file did or did not take the change. */
  function Stopped(w: State, r: Request, ts: U64, took: bool): State
  {
    State(if took then Step(w, r, ts, NO_FAULT).0.file else w.file, None)
  }

  /** The live copy is always held under the password the stored copy is sealed with. */
  predicate Coherent(w: State)
  {
    w.live.Some? ==> w.file.Some? && w.live.value.pw == w.file.value.pw
  }

  lemma StepKeepsCoherent(w: State, r: Request, ts: U64, f: Faults)
    requires Coherent(w)
    ensures Coherent(Step(w, r, ts, f).0)
  {}

  /** A successful change leaves the two copies equal, so locking and unlocking again loses and invents nothing. */
  lemma LockUnlockAfterChange(w: State, c: Change, wait: bool, ts: U64, f: Faults)
    requires Coherent(w) && w.live.Some? && Accepted(c)
    requires !Step(w, Alter(c, wait), ts, f).1.Failed?
    ensures
      var changed := Step(w, Alter(c, wait), ts, f).0;
      var locked := Step(changed, Lock, ts, NO_FAULT).0;
      && changed.file == changed.live
      && Apply(w.live.value.entries, c, ts) == Ok(changed.live.value.entries)
      && locked.live == None
      && Step(locked, Unlock(w.file.value.pw), ts, NO_FAULT).0 == changed
  {}

  /** Unlocking from locked and locking again is invisible, whatever the password. */
  lemma UnlockThenLock(w: State, pw: string, ts: U64, f: Faults)
    requires w.live.None?
    ensures Step(Step(w, Unlock(pw), ts, f).0, Lock, ts, f).0 == w
  {}

  /** After a rotation the new password opens what the old one did and the old one opens nothing. */
  lemma RotateSwapsPasswords(w: State, oldPw: string, newPw: string, ts: U64)
    requires oldPw != newPw
    requires Step(w, Rotate(oldPw, newPw), ts, NO_FAULT).1 == Done
    ensures
      var after := Step(w, Rotate(oldPw, newPw), ts, NO_FAULT).0;
      && Authenticate(after, newPw, None) == Authenticate(w, oldPw, None)
      && Authenticate(after, oldPw, None) == Err(WrongPassword)
  {}

  // ── what each request answers ──

  /** A list shows every entry, each with all it holds but the value. */
  lemma SummariesShowAll(m: EntryMap)
    ensures Summaries(m).Keys == m.Keys
    ensures forall n :: n in m ==>
      && Summaries(m)[n].user == m[n].user && Summaries(m)[n].url == m[n].url && Summaries(m)[n].notes == m[n].notes
      && Summaries(m)[n].tags == m[n].tags && Summaries(m)[n].totp == m[n].totp
      && Summaries(m)[n].created == m[n].created && Summaries(m)[n].updated == m[n].updated
  {}

  /** A list shows nothing of the values: entries that differ in those alone look the same. */
  lemma SummariesHideValues(m: EntryMap, name: string, v: string)
    requires name in m
    ensures Summaries(m[name := m[name].(value := v)]) == Summaries(m)
  {}

  /** Handshake and status tell whether the vault is locked and whether there is one, and list it while it is open. */
  lemma StatusTells(w: State, r: Request, ts: U64, f: Faults)
    requires r.Hello? || r.Status?
    ensures
      var (after, resp) := Step(w, r, ts, f);
      && after == w && resp.Info?
      && (resp.locked <==> w.live.None?) && (resp.exists_ <==> w.file.Some?)
      && resp.shown == if w.live.None? then None else Some(Summaries(w.live.value.entries))
  {}

  /** A new vault is empty and open, and creating never touches one that is there. */
  lemma CreateOpensEmpty(w: State, pw: string, ts: U64, f: Faults)
    ensures w.file.Some? ==> Step(w, Create(pw), ts, f) == (w, Failed(AlreadyExists))
    ensures
      w.file.None? && f.writing.None? ==>
        var (after, resp) := Step(w, Create(pw), ts, f);
        resp == Done && after.file == after.live == Some(Stored(pw, map[]))
    ensures f.writing.Some? ==> Step(w, Create(pw), ts, f).0 == w && Step(w, Create(pw), ts, f).1.Failed?
  {}

  /** Unlocking opens what is stored exactly under its password, lists it, and leaves everything alone otherwise. */
  lemma UnlockIff(w: State, pw: string, ts: U64, f: Faults)
    ensures
      var (after, resp) := Step(w, Unlock(pw), ts, f);
      && (!resp.Failed? <==> w.file.Some? && f.reading.None? && pw == w.file.value.pw)
      && (resp.Failed? ==> after == w)
      && (!resp.Failed? ==> after == State(w.file, w.file) && resp == Listing(Summaries(w.file.value.entries)))
  {}

  /** A rotation that succeeds leaves both copies under the new password with the stored entries; any other changes nothing. */
  lemma RotateIff(w: State, oldPw: string, newPw: string, ts: U64, f: Faults)
    ensures
      var (after, resp) := Step(w, Rotate(oldPw, newPw), ts, f);
      && (resp == Done <==> w.file.Some? && f.reading.None? && oldPw == w.file.value.pw && f.writing.None?)
      && (resp == Done || resp.Failed?)
      && (resp.Failed? ==> after == w)
      && (resp == Done ==> after.file == after.live == Some(Stored(newPw, w.file.value.entries)))
  {}

  /** Reading an open vault. */
  lemma ReadsAnswer(w: State, name: string, wait: bool, ts: U64, f: Faults)
    requires w.live.Some?
    ensures Step(w, List(wait), ts, f) == (w, Listing(Summaries(w.live.value.entries)))
    ensures
      Step(w, Get(name, wait), ts, f)
      == (w, if name in w.live.value.entries then Got(w.live.value.entries[name]) else Failed(NoSuchSecret(name)))
  {}

  /** A generated value is answered, and it is the one stored; under a blank name nothing is stored at all. */
  lemma GenerateAnswersWhatItStores(w: State, name: string, v: string, wait: bool, ts: U64)
    requires w.live.Some?
    ensures
      var (after, resp) := Step(w, Alter(GenerateInto(name, v), wait), ts, NO_FAULT);
      && resp == Drawn(v)
      && (TrimSpace(name) == "" ==> after == w)
      && (TrimSpace(name) != "" ==>
            after.live.Some? && name in after.live.value.entries && after.live.value.entries[name].value == v)
  {
    BlankIffTrimmedEmpty(name);
  }

  /** A change with a blank name is refused whether or not the vault is open, and one on a locked vault answers `Locked`. */
  lemma AlterationsRefused(w: State, c: Change, wait: bool, ts: U64, f: Faults)
    ensures
      Validate(c).Some? ==> Step(w, Alter(c, wait), ts, f) == (w, Failed(Validate(c).value))
    ensures
      Validate(c).None? && !(c.GenerateInto? && TrimSpace(c.name) == "") && w.live.None? ==>
        Step(w, Alter(c, wait), ts, f) == (w, Failed(Locked))
    ensures c.GenerateInto? && TrimSpace(c.name) == "" ==> Step(w, Alter(c, wait), ts, f) == (w, Drawn(c.drawn))
  {
    if c.GenerateInto? {
      BlankIffTrimmedEmpty(c.name);
    }
  }

  // ── well-formed contents over whole runs ──

  predicate GoodStored(o: Option<Stored>, clock: U64)
  {
    o.Some? ==> GoodMap(o.value.entries, clock)
  }

  predicate Good(w: State, clock: U64)
  {
    GoodStored(w.file, clock) && GoodStored(w.live, clock)
  }

  lemma StepKeepsGood(w: State, r: Request, clock: U64, ts: U64, f: Faults)
    requires Good(w, clock) && clock <= ts
    ensures Good(Step(w, r, ts, f).0, ts)
  {
    if r.Alter? && w.live.Some? && Accepted(r.change) && Apply(w.live.value.entries, r.change, ts).Ok? {
      ApplyKeepsGood(w.live.value.entries, r.change, clock, ts);
    }
    assert GoodStored(w.file, ts) && GoodStored(w.live, ts);
  }
}
