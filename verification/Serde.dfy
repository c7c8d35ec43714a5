/**
 The JSON shape of the vault body (`native/src/vault.rs`): which fields `Entry` omits when writing and
 which it defaults when reading. JSON is a tree here; its text form is not modelled.
 */
module Serde {
  import opened Bytes
  import opened Entries
  import opened Wrappers

  datatype Json =
    | Null
    | Bool(b: bool)
    | Num(n: nat)
    | Str(s: string)
    | Arr(items: seq<Json>)
    | Obj(fields: map<string, Json>)

  type Fields = map<string, Json>

  // ── writing ──

  function EncodeTags(tags: seq<string>): (r: seq<Json>)
    ensures |r| == |tags|
    ensures forall i :: 0 <= i < |tags| ==> r[i] == Str(tags[i])
  {
    seq(|tags|, i requires 0 <= i < |tags| => Str(tags[i]))
  }

  const KEYS: set<string> := {"value", "user", "url", "notes", "tags", "totp", "created", "updated"}

  /** The JSON a field is written as, or nothing when `skip_serializing_if` drops it. */
  function Field(e: Entry, key: string): Option<Json>
  {
    match key
    case "value" => Some(Str(e.value))
    case "user" => StrField(e.user)
    case "url" => StrField(e.url)
    case "notes" => StrField(e.notes)
    case "tags" => if e.tags == [] then None else Some(Arr(EncodeTags(e.tags)))
    case "totp" => if e.totp then Some(Bool(true)) else None
    case "created" => Some(Num(e.created))
    case "updated" => Some(Num(e.updated))
    case _ => None
  }

  function StrField(o: Option<string>): Option<Json>
  {
    if o.Some? then Some(Str(o.value)) else None
  }

  function EncodeEntry(e: Entry): Json
  {
    Obj(map key | key in KEYS && Field(e, key).Some? :: Field(e, key).value)
  }

  function EncodeBody(m: EntryMap): Json
  {
    Obj(map["entries" := Obj(map name | name in m :: EncodeEntry(m[name]))])
  }

  // ── reading ──

  function DecodeOpt(f: Fields, key: string): Option<Option<string>>
  {
    if key !in f || f[key].Null? then Some(None)
    else if f[key].Str? then Some(Some(f[key].s))
    else None
  }

  predicate AllStrings(items: seq<Json>)
  {
    forall i :: 0 <= i < |items| ==> items[i].Str?
  }

  function DecodeTags(f: Fields): Option<seq<string>>
  {
    if "tags" !in f then Some([])
    else if f["tags"].Arr? && AllStrings(f["tags"].items) then
      var items := f["tags"].items;
      Some(seq(|items|, i requires 0 <= i < |items| => items[i].s))
    else None
  }

  function DecodeFlag(f: Fields): Option<bool>
  {
    if "totp" !in f then Some(false)
    else if f["totp"].Bool? then Some(f["totp"].b)
    else None
  }

  function DecodeTime(f: Fields, key: string): Option<U64>
  {
    if key !in f then Some(0)
    else if f[key].Num? && f[key].n < 0x1_0000_0000_0000_0000 then Some(f[key].n)
    else None
  }

  function DecodeEntry(j: Json): Option<Entry>
  {
    if !j.Obj? || "value" !in j.fields || !j.fields["value"].Str? then None
    else
      var f := j.fields;
      var user, url, notes := DecodeOpt(f, "user"), DecodeOpt(f, "url"), DecodeOpt(f, "notes");
      var tags, totp := DecodeTags(f), DecodeFlag(f);
      var created, updated := DecodeTime(f, "created"), DecodeTime(f, "updated");
      if user.Some? && url.Some? && notes.Some? && tags.Some? && totp.Some? && created.Some? && updated.Some? then
        Some(Entry(f["value"].s, user.value, url.value, notes.value, tags.value, totp.value, created.value, updated.value))
      else None
  }

  function DecodeBody(j: Json): Option<EntryMap>
  {
    if !j.Obj? then None
    else if "entries" !in j.fields then Some(map[])
    else if !j.fields["entries"].Obj? then None
    else
      var f := j.fields["entries"].fields;
      if forall name :: name in f ==> DecodeEntry(f[name]).Some? then
        Some(map name | name in f :: DecodeEntry(f[name]).value)
      else None
  }

  // ── the shape, field by field ──

  predicate TextField(f: Fields, key: string, o: Option<string>)
  {
    if o.Some? then key in f && f[key] == Str(o.value) else key !in f
  }

  /** The object an entry is written as: which keys, holding what, and which are left out. */
  lemma EntryShape(e: Entry)
    ensures EncodeEntry(e).Obj?
    ensures
      var f := EncodeEntry(e).fields;
      && "value" in f && f["value"] == Str(e.value)
      && TextField(f, "user", e.user) && TextField(f, "url", e.url) && TextField(f, "notes", e.notes)
    ensures
      var f := EncodeEntry(e).fields;
      && ("tags" in f <==> e.tags != [])
      && (e.tags != [] ==>
            && f["tags"].Arr? && |f["tags"].items| == |e.tags|
            && forall i :: 0 <= i < |e.tags| ==> f["tags"].items[i] == Str(e.tags[i]))
      && ("totp" in f <==> e.totp) && (e.totp ==> f["totp"] == Bool(true))
    ensures
      var f := EncodeEntry(e).fields;
      "created" in f && f["created"] == Num(e.created) && "updated" in f && f["updated"] == Num(e.updated)
    ensures EncodeEntry(e).fields.Keys <= {"value", "user", "url", "notes", "tags", "totp", "created", "updated"}
  {
    FieldWritten(e, "value");
    FieldWritten(e, "user");
    FieldWritten(e, "url");
    FieldWritten(e, "notes");
    FieldWritten(e, "tags");
    FieldWritten(e, "totp");
    FieldWritten(e, "created");
    FieldWritten(e, "updated");
  }

  /** The body is one object with the entries under their names. */
  lemma BodyShape(m: EntryMap)
    ensures EncodeBody(m).Obj? && EncodeBody(m).fields.Keys == {"entries"} && EncodeBody(m).fields["entries"].Obj?
    ensures
      var f := EncodeBody(m).fields["entries"].fields;
      f.Keys == m.Keys && forall name :: name in m ==> f[name] == EncodeEntry(m[name])
  {}

  /** A body without entries reads as empty; one entry that does not read spoils the whole. */
  lemma BodyReads(f: Fields)
    ensures "entries" !in f ==> DecodeBody(Obj(f)) == Some(map[])
    ensures
      "entries" in f && f["entries"].Obj? ==>
        (DecodeBody(Obj(f)).None? <==>
         exists name :: name in f["entries"].fields && DecodeEntry(f["entries"].fields[name]).None?)
  {}

  /** Fields of unknown names are passed over. */
  lemma UnknownFieldIgnored(f: Fields, key: string, j: Json)
    requires key !in KEYS
    ensures DecodeEntry(Obj(f[key := j])) == DecodeEntry(Obj(f))
  {
    var g := f[key := j];
    assert DecodeOpt(g, "user") == DecodeOpt(f, "user");
    assert DecodeOpt(g, "url") == DecodeOpt(f, "url");
    assert DecodeOpt(g, "notes") == DecodeOpt(f, "notes");
    assert DecodeTags(g) == DecodeTags(f) && DecodeFlag(g) == DecodeFlag(f);
    assert DecodeTime(g, "created") == DecodeTime(f, "created") && DecodeTime(g, "updated") == DecodeTime(f, "updated");
  }

  /** A null text field reads as one left out. */
  lemma NullReadsAsNone(f: Fields, key: string)
    ensures DecodeOpt(f[key := Null], key) == Some(None) && DecodeOpt(f - {key}, key) == Some(None)
  {}

  /** The value must be there and be a string. */
  lemma ValueRequired(f: Fields)
    requires "value" !in f || !f["value"].Str?
    ensures DecodeEntry(Obj(f)).None?
  {}

  // ── the round trip ──

  lemma FieldWritten(e: Entry, key: string)
    requires key in KEYS
    ensures key in EncodeEntry(e).fields <==> Field(e, key).Some?
    ensures key in EncodeEntry(e).fields ==> EncodeEntry(e).fields[key] == Field(e, key).value
  {}

  lemma EntryRoundTrip(e: Entry)
    ensures DecodeEntry(EncodeEntry(e)) == Some(e)
  {
    var f := EncodeEntry(e).fields;
    FieldWritten(e, "value");
    FieldWritten(e, "created");
    FieldWritten(e, "updated");
    OptRoundTrip(e);
    FlagsRoundTrip(e);
  }

  lemma OptRoundTrip(e: Entry)
    ensures DecodeOpt(EncodeEntry(e).fields, "user") == Some(e.user)
    ensures DecodeOpt(EncodeEntry(e).fields, "url") == Some(e.url)
    ensures DecodeOpt(EncodeEntry(e).fields, "notes") == Some(e.notes)
  {
    FieldWritten(e, "user");
    FieldWritten(e, "url");
    FieldWritten(e, "notes");
  }

  lemma FlagsRoundTrip(e: Entry)
    ensures DecodeTags(EncodeEntry(e).fields) == Some(e.tags)
    ensures DecodeFlag(EncodeEntry(e).fields) == Some(e.totp)
  {
    FieldWritten(e, "tags");
    FieldWritten(e, "totp");
    if e.tags != [] {
      assert DecodeTags(EncodeEntry(e).fields).value == e.tags;
    }
  }

  /** Every body reads back as itself. */
  lemma BodyRoundTrip(m: EntryMap)
    ensures DecodeBody(EncodeBody(m)) == Some(m)
  {
    var f := EncodeBody(m).fields["entries"].fields;
    forall name | name in m ensures DecodeEntry(f[name]) == Some(m[name]) {
      EntryRoundTrip(m[name]);
    }
    assert f.Keys == m.Keys;
    assert DecodeBody(EncodeBody(m)).value == m;
  }

  /** An entry holding only a value reads with every other field at its default. */
  lemma MinimalEntryReads(value: string)
    ensures DecodeEntry(Obj(map["value" := Str(value)])) == Some(Entry(value, None, None, None, [], false, 0, 0))
  {
    var f: Fields := map["value" := Str(value)];
    assert f.Keys == {"value"};
  }
}
