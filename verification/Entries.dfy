/**
 Secrets and the operations on the entry map: what each `secret.*` closure does to the decrypted body
 (`native/src/server.rs`), first as functions on maps and then as the in-place methods of `Body`.
 */
module Entries {
  import opened Bytes
  import opened Text
  import opened Wrappers

  datatype Entry = Entry(
    value: string,
    user: Option<string>,
    url: Option<string>,
    notes: Option<string>,
    tags: seq<string>,
    totp: bool,
    created: U64,
    updated: U64)

  type EntryMap = map<string, Entry>

  /** Metadata a `secret.set` may carry; an absent field is left unchanged. */
  datatype MetaIn = MetaIn(
    user: Option<string>,
    url: Option<string>,
    notes: Option<string>,
    tags: Option<seq<string>>,
    totp: Option<bool>)

  datatype Error =
    | Locked
    | NameEmpty
    | NewNameEmpty
    | NeedsValue
    | NoSuchSecret(name: string)
    | NameTaken(name: string)
    | Truncated
    | BadMagic
    | UnsupportedVersion
    | UnsupportedKdf
    | BadParams
    | WrongPassword
    | BadBody
    | AlreadyExists
    | Io

  /** The requests that change the map. `GenerateInto` carries the password the generator drew. */
  datatype Change =
    | Set(name: string, setValue: Option<string>, meta: Option<MetaIn>)
    | Delete(name: string)
    | Rename(from: string, to: string)
    | GenerateInto(name: string, drawn: string)

  /** `Some(s).filter(|s| !s.is_empty())`. */
  function NonEmpty(s: string): Option<string>
  {
    if s == "" then None else Some(s)
  }

  function ApplyMeta(e: Entry, m: MetaIn): Entry
  {
    Entry(
      e.value,
      if m.user.Some? then NonEmpty(m.user.value) else e.user,
      if m.url.Some? then NonEmpty(m.url.value) else e.url,
      if m.notes.Some? then NonEmpty(m.notes.value) else e.notes,
      if m.tags.Some? then m.tags.value else e.tags,
      if m.totp.Some? then m.totp.value else e.totp,
      e.created,
      e.updated)
  }

  function ApplyMetaOpt(e: Entry, m: Option<MetaIn>): Entry
  {
    if m.Some? then ApplyMeta(e, m.value) else e
  }

  function NewEntry(value: string, ts: U64): Entry
  {
    Entry(value, None, None, None, [], false, ts, ts)
  }

  /** The checks made before the session is looked at. */
  function Validate(c: Change): Option<Error>
  {
    match c
    case Set(name, _, _) => if IsBlank(name) then Some(NameEmpty) else None
    case Rename(_, to) => if IsBlank(to) then Some(NewNameEmpty) else None
    case _ => None
  }

  /** `secret.generate` stores only under a non-blank name, so the other changes alone need checking. */
  predicate Accepted(c: Change)
  {
    Validate(c).None? && (c.GenerateInto? ==> !IsBlank(c.name))
  }

  /** What a change makes of the map at time `ts`, or the error it reports. */
  function Apply(m: EntryMap, c: Change, ts: U64): Result<EntryMap, Error>
  {
    match c
    case Set(name, v, meta) =>
      if name in m then
        var e := if v.Some? then m[name].(value := v.value) else m[name];
        Ok(m[name := ApplyMetaOpt(e, meta).(updated := ts)])
      else if v.None? then Err(NeedsValue)
      else Ok(m[name := ApplyMetaOpt(NewEntry(v.value, ts), meta)])
    case Delete(name) =>
      if name in m then Ok(m - {name}) else Err(NoSuchSecret(name))
    case Rename(from, to) =>
      if to in m then Err(NameTaken(to))
      else if from !in m then Err(NoSuchSecret(from))
      else Ok((m - {from})[to := m[from]])
    case GenerateInto(name, v) =>
      if name in m then Ok(m[name := m[name].(value := v, updated := ts)])
      else Ok(m[name := NewEntry(v, ts)])
  }

  /** The names a change may touch. */
  function Touched(c: Change): set<string>
  {
    match c
    case Rename(from, to) => {from, to}
    case other => {other.name}
  }

  lemma ApplyTouchesOnly(m: EntryMap, c: Change, ts: U64, n: string)
    requires Apply(m, c, ts).Ok? && n !in Touched(c)
    ensures n in m <==> n in Apply(m, c, ts).value
    ensures n in m ==> Apply(m, c, ts).value[n] == m[n]
  {}

  // ── what holds of every body the agent can reach ──

  predicate NotSomeEmpty(o: Option<string>)
  {
    o != Some("")
  }

  predicate GoodEntry(e: Entry, clock: U64)
  {
    NotSomeEmpty(e.user) && NotSomeEmpty(e.url) && NotSomeEmpty(e.notes) && e.created <= e.updated <= clock
  }

  predicate GoodMap(m: EntryMap, clock: U64)
  {
    forall n :: n in m ==> !IsBlank(n) && GoodEntry(m[n], clock)
  }

  lemma ApplyKeepsGood(m: EntryMap, c: Change, clock: U64, ts: U64)
    requires GoodMap(m, clock) && clock <= ts && Accepted(c) && Apply(m, c, ts).Ok?
    ensures GoodMap(Apply(m, c, ts).value, ts)
  {
    var r := Apply(m, c, ts).value;
    forall n | n in r ensures !IsBlank(n) && GoodEntry(r[n], ts) {
      if n in m {
        assert GoodEntry(m[n], clock);
      }
    }
  }

  // ── what single operations keep ──

  /** Renaming moves the whole entry, keeps the size of the map, and is undone by the reverse rename. */
  lemma RenameMovesWholeEntry(m: EntryMap, from: string, to: string, ts: U64, later: U64)
    requires Apply(m, Rename(from, to), ts).Ok?
    ensures
      var r := Apply(m, Rename(from, to), ts).value;
      && |r| == |m|
      && from !in r && to in r && r[to] == m[from]
      && Apply(r, Rename(to, from), later) == Ok(m)
  {
    var rest := m - {from};
    var r := rest[to := m[from]];
    assert rest.Keys == m.Keys - {from};
    assert r.Keys == rest.Keys + {to};
    assert |r.Keys| == |m.Keys|;
    var back := (r - {to})[from := r[to]];
    assert back.Keys == m.Keys;
    assert back == m;
  }

  /** Generating into an existing name replaces only the value and the update time. */
  lemma GenerateKeepsMeta(m: EntryMap, name: string, v: string, ts: U64)
    requires name in m
    ensures
      var r := Apply(m, GenerateInto(name, v), ts);
      && r.Ok? && r.value.Keys == m.Keys
      && r.value[name] == m[name].(value := v, updated := ts)
      && forall n :: n in m && n != name ==> r.value[n] == m[n]
  {}

  /** A set without a value keeps the value and creation time; fields the metadata omits stay as they were. */
  lemma MetaOnlySetKeepsValue(m: EntryMap, name: string, meta: MetaIn, ts: U64)
    requires name in m
    ensures
      var r := Apply(m, Set(name, None, Some(meta)), ts);
      && r.Ok? && r.value.Keys == m.Keys
      && r.value[name].value == m[name].value
      && r.value[name].created == m[name].created && r.value[name].updated == ts
      && (meta.user.None? ==> r.value[name].user == m[name].user)
      && (meta.url.None? ==> r.value[name].url == m[name].url)
      && (meta.notes.None? ==> r.value[name].notes == m[name].notes)
      && (meta.tags.None? ==> r.value[name].tags == m[name].tags)
      && (meta.totp.None? ==> r.value[name].totp == m[name].totp)
      && forall n :: n in m && n != name ==> r.value[n] == m[n]
  {}

  /** What an optional text field holds after being given `given`, or left out, having held `before`. */
  predicate TextStored(given: Option<string>, before: Option<string>, after: Option<string>)
  {
    match given
    case None => after == before
    case Some("") => after == None
    case Some(t) => after == Some(t)
  }

  /**
   What a set leaves of its entry, new or old, with a value or without: each thing given is stored as given, an empty user,
   url or notes is cleared, and whatever is left out stays, or is absent from a new entry.
   */
  lemma SetStoresWhatIsGiven(m: EntryMap, name: string, v: Option<string>, meta: MetaIn, ts: U64)
    requires v.Some? || name in m
    ensures
      var r := Apply(m, Set(name, v, Some(meta)), ts);
      && r.Ok? && name in r.value && r.value.Keys == m.Keys + {name}
      && var e, known := r.value[name], name in m;
         && e.value == (if v.Some? then v.value else m[name].value)
         && e.updated == ts && e.created == (if known then m[name].created else ts)
         && TextStored(meta.user, if known then m[name].user else None, e.user)
         && TextStored(meta.url, if known then m[name].url else None, e.url)
         && TextStored(meta.notes, if known then m[name].notes else None, e.notes)
         && e.tags == (if meta.tags.Some? then meta.tags.value else if known then m[name].tags else [])
         && e.totp == (if meta.totp.Some? then meta.totp.value else known && m[name].totp)
  {}

  /** A set without metadata touches the value alone; a new entry then has none. */
  lemma SetWithoutMeta(m: EntryMap, name: string, v: string, ts: U64)
    ensures
      var r := Apply(m, Set(name, Some(v), None), ts);
      && r.Ok? && r.value.Keys == m.Keys + {name}
      && r.value[name] ==
           (if name in m then m[name].(value := v, updated := ts) else Entry(v, None, None, None, [], false, ts, ts))
  {}

  /** Generating into a new name adds a bare entry holding what was drawn. */
  lemma GenerateAddsBareEntry(m: EntryMap, name: string, v: string, ts: U64)
    requires name !in m
    ensures Apply(m, GenerateInto(name, v), ts) == Ok(m[name := Entry(v, None, None, None, [], false, ts, ts)])
  {}

  /** When a change is refused on an open vault, and in which words. */
  lemma RefusedIff(m: EntryMap, c: Change, ts: U64)
    ensures
      Apply(m, c, ts).Err? <==>
      || (c.Set? && c.setValue.None? && c.name !in m)
      || (c.Delete? && c.name !in m)
      || (c.Rename? && (c.to in m || c.from !in m))
    ensures c.Set? && Apply(m, c, ts).Err? ==> Apply(m, c, ts).error == NeedsValue
    ensures c.Delete? && Apply(m, c, ts).Err? ==> Apply(m, c, ts).error == NoSuchSecret(c.name)
    ensures
      c.Rename? && Apply(m, c, ts).Err? ==>
        Apply(m, c, ts).error == if c.to in m then NameTaken(c.to) else NoSuchSecret(c.from)
  {}

  /** Deleting takes just that name out. */
  lemma DeleteRemoves(m: EntryMap, name: string, ts: U64)
    requires name in m
    ensures Apply(m, Delete(name), ts).Ok? && Apply(m, Delete(name), ts).value.Keys == m.Keys - {name}
  {}

  /** Refused before the session is looked at: a name to store under that is nothing but white space. */
  lemma BlankNamesRefused(c: Change)
    ensures Validate(c) == Some(NameEmpty) <==> c.Set? && TrimSpace(c.name) == ""
    ensures Validate(c) == Some(NewNameEmpty) <==> c.Rename? && TrimSpace(c.to) == ""
    ensures Validate(c).None? <==> !(c.Set? && TrimSpace(c.name) == "") && !(c.Rename? && TrimSpace(c.to) == "")
  {
    if c.Set? {
      BlankIffTrimmedEmpty(c.name);
    } else if c.Rename? {
      BlankIffTrimmedEmpty(c.to);
    }
  }

  /** Deleting what was just added restores the map. */
  lemma DeleteUndoesSet(m: EntryMap, name: string, v: string, meta: Option<MetaIn>, ts: U64, later: U64)
    requires name !in m
    ensures
      var added := Apply(m, Set(name, Some(v), meta), ts);
      added.Ok? && Apply(added.value, Delete(name), later) == Ok(m)
  {
    var added := Apply(m, Set(name, Some(v), meta), ts).value;
    assert added - {name} == m;
  }

  // ── the closures, as they change the map in place ──

  class Body {
    var entries: EntryMap

    constructor (initial: EntryMap)
      ensures entries == initial
    {
      entries := initial;
    }

    method SetSecret(name: string, value: Option<string>, meta: Option<MetaIn>, ts: U64) returns (err: Option<Error>)
      modifies this
      ensures Outcome(old(entries), Set(name, value, meta), ts, err)
    {
      if name in entries {
        var e := entries[name];
        if value.Some? {
          e := e.(value := value.value);
        }
        if meta.Some? {
          e := ApplyMeta(e, meta.value);
        }
        e := e.(updated := ts);
        entries := entries[name := e];
        return None;
      }
      if value.None? {
        return Some(NeedsValue);
      }
      var e := NewEntry(value.value, ts);
      if meta.Some? {
        e := ApplyMeta(e, meta.value);
      }
      entries := entries[name := e];
      return None;
    }

    method DeleteSecret(name: string, ts: U64) returns (err: Option<Error>)
      modifies this
      ensures Outcome(old(entries), Delete(name), ts, err)
    {
      if name !in entries {
        return Some(NoSuchSecret(name));
      }
      entries := entries - {name};
      return None;
    }

    method RenameSecret(from: string, to: string, ts: U64) returns (err: Option<Error>)
      modifies this
      ensures Outcome(old(entries), Rename(from, to), ts, err)
    {
      if to in entries {
        return Some(NameTaken(to));
      }
      if from !in entries {
        return Some(NoSuchSecret(from));
      }
      var e := entries[from];
      entries := entries - {from};
      entries := entries[to := e];
      return None;
    }

    method GenerateSecret(name: string, drawn: string, ts: U64) returns (err: Option<Error>)
      modifies this
      ensures Outcome(old(entries), GenerateInto(name, drawn), ts, err)
    {
      if name in entries {
        var e := entries[name];
        e := e.(value := drawn);
        e := e.(updated := ts);
        entries := entries[name := e];
      } else {
        entries := entries[name := NewEntry(drawn, ts)];
      }
      return None;
    }

    /** The map now holds what `Apply` says; a refused change leaves it as it was. */
    ghost predicate Outcome(before: EntryMap, c: Change, ts: U64, err: Option<Error>)
      reads this
    {
      match Apply(before, c, ts)
      case Ok(after) => err == None && entries == after
      case Err(e) => err == Some(e) && entries == before
    }
  }
}
