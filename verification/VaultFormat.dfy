/**
 The sealed file (`native/src/vault.rs`): a 58-byte header of real bytes followed by a ciphertext.

 Cryptography is symbolic. A key is the term naming the password, salt and parameters it was derived
 from; a ciphertext is the term naming what sealed it; opening succeeds exactly when key, nonce and
 associated data agree with those the box was sealed under.
 */
module VaultFormat {
  import opened Bytes
  import opened Entries
  import opened Serde
  import opened Wrappers

  const AAD_LEN: nat := 34
  const HEADER_LEN: nat := 58
  const MAGIC: seq<Byte> := [0x4C, 0x56, 0x4B, 0x52]
  const VERSION: Byte := 1
  const KDF_ARGON2ID: Byte := 1

  type Salt = s: seq<Byte> | |s| == 16 witness seq(16, _ => 0)

  type Nonce = s: seq<Byte> | |s| == 24 witness seq(24, _ => 0)

  type Password = string

  datatype KdfParams = KdfParams(mCost: U32, tCost: U32, pCost: U32)
  {
    /** The floor `derive_key` insists on before calling Argon2. */
    predicate Valid()
    {
      mCost >= 8 && tCost >= 1 && pCost >= 1
    }
  }

  datatype Key = Derived(pw: Password, salt: Salt, params: KdfParams)

  datatype Box =
    | Sealed(key: Key, nonce: Nonce, aad: seq<Byte>, plain: Json)
    | Junk(bytes: seq<Byte>)

  /** A file: its first bytes, up to 58 of them, and whatever follows the header. */
  datatype File = File(head: seq<Byte>, rest: Box)

  datatype Header = Header(params: KdfParams, salt: Salt, nonce: Nonce)

  datatype Session = Session(body: EntryMap, key: Key, salt: Salt, params: KdfParams)

  // ── primitives ──

  /** `argonOk` is whether the Argon2 call itself succeeds (it may refuse large costs or run out of memory). */
  function DeriveKey(pw: Password, salt: Salt, params: KdfParams, argonOk: bool): Result<Key, Error>
  {
    if params.Valid() && argonOk then Ok(Derived(pw, salt, params)) else Err(BadParams)
  }

  function OpenBox(key: Key, nonce: Nonce, aad: seq<Byte>, box: Box): Result<Json, Error>
  {
    if box.Sealed? && box.key == key && box.nonce == nonce && box.aad == aad then Ok(box.plain) else Err(WrongPassword)
  }

  // ── header ──

  function Aad(params: KdfParams, salt: Salt): (a: seq<Byte>)
    ensures |a| == AAD_LEN
  {
    MAGIC + [VERSION, KDF_ARGON2ID] + LeBytes(params.mCost) + LeBytes(params.tCost) + LeBytes(params.pCost) + salt
  }

  /** `aad`, filling its buffer span by span. */
  method BuildAad(params: KdfParams, salt: Salt) returns (a: array<Byte>)
    ensures fresh(a) && a[..] == Aad(params, salt)
  {
    a := new Byte[AAD_LEN](_ => 0);
    CopyInto(a, 0, MAGIC);
    a[4] := VERSION;
    a[5] := KDF_ARGON2ID;
    CopyInto(a, 6, LeBytes(params.mCost));
    CopyInto(a, 10, LeBytes(params.tCost));
    CopyInto(a, 14, LeBytes(params.pCost));
    CopyInto(a, 18, salt);
    var want := Aad(params, salt);
    assert forall i :: 0 <= i < AAD_LEN ==> a[i] == want[i];
    assert a[..] == want;
  }

  /** `copy_from_slice` onto the span that starts at `at`. */
  method CopyInto(a: array<Byte>, at: nat, src: seq<Byte>)
    requires at + |src| <= a.Length
    modifies a
    ensures forall i :: 0 <= i < a.Length ==> a[i] == if at <= i < at + |src| then src[i - at] else old(a[i])
  {
    for k := 0 to |src|
      invariant forall i :: 0 <= i < a.Length ==> a[i] == if at <= i < at + k then src[i - at] else old(a[i])
    {
      a[at + k] := src[k];
    }
  }

  function Parse(f: File): Result<Header, Error>
  {
    var raw := f.head;
    if |raw| < HEADER_LEN then Err(Truncated)
    else if raw[0..4] != MAGIC then Err(BadMagic)
    else if raw[4] != VERSION then Err(UnsupportedVersion)
    else if raw[5] != KDF_ARGON2ID then Err(UnsupportedKdf)
    else
      var params := KdfParams(FromLe(raw[6..10]), FromLe(raw[10..14]), FromLe(raw[14..18]));
      Ok(Header(params, raw[18..34], raw[AAD_LEN..HEADER_LEN]))
  }

  // ── whole files ──

  /** The bytes `write` puts in the file: header, nonce, ciphertext of the serialised body. */
  function Written(body: EntryMap, key: Key, salt: Salt, params: KdfParams, nonce: Nonce): (f: File)
    ensures |f.head| == HEADER_LEN
  {
    var a := Aad(params, salt);
    File(a + nonce, Sealed(key, nonce, a, EncodeBody(body)))
  }

  function UnlockFile(f: File, pw: Password, argonOk: bool): Result<Session, Error>
  {
    match Parse(f)
    case Err(e) => Err(e)
    case Ok(h) =>
      match DeriveKey(pw, h.salt, h.params, argonOk)
      case Err(e) => Err(e)
      case Ok(key) =>
        match OpenBox(key, h.nonce, Aad(h.params, h.salt), f.rest)
        case Err(e) => Err(e)
        case Ok(plain) =>
          match DecodeBody(plain)
          case None => Err(BadBody)
          case Some(body) => Ok(Session(body, key, h.salt, h.params))
  }

  // ── the layout, byte by byte ──

  /** Where everything is in a written file: `LVKR`, version 1, KDF 1, three little-endian costs, salt and nonce. */
  lemma HeaderLayout(body: EntryMap, key: Key, salt: Salt, params: KdfParams, nonce: Nonce)
    ensures
      var h := Written(body, key, salt, params, nonce).head;
      && |h| == 58 && h[..4] == [76, 86, 75, 82] && h[4] == 1 && h[5] == 1
      && Base256([h[9], h[8], h[7], h[6]]) == params.mCost
      && Base256([h[13], h[12], h[11], h[10]]) == params.tCost
      && Base256([h[17], h[16], h[15], h[14]]) == params.pCost
      && h[18..34] == salt && h[34..] == nonce
    ensures
      var f := Written(body, key, salt, params, nonce);
      f.rest.Sealed? && f.rest.aad == f.head[..34] && f.rest.plain == EncodeBody(body) && f.rest.key == key
  {
    var h := Written(body, key, salt, params, nonce).head;
    LeIsReversedBase256(params.mCost);
    LeIsReversedBase256(params.tCost);
    LeIsReversedBase256(params.pCost);
    assert h[6..10] == LeBytes(params.mCost) && h[10..14] == LeBytes(params.tCost) && h[14..18] == LeBytes(params.pCost);
    assert h[6..10][0] == h[6] && h[10..14][0] == h[10] && h[14..18][0] == h[14];
  }

  /** Which files are refused before any key is derived, and in which words. */
  lemma ParseRefusal(f: File)
    ensures Parse(f) == Err(Truncated) <==> |f.head| < 58
    ensures
      |f.head| >= 58 ==>
        && (Parse(f) == Err(BadMagic) <==> f.head[..4] != [76, 86, 75, 82])
        && (f.head[..4] == [76, 86, 75, 82] ==>
              && (Parse(f) == Err(UnsupportedVersion) <==> f.head[4] != 1)
              && (f.head[4] == 1 ==> (Parse(f) == Err(UnsupportedKdf) <==> f.head[5] != 1))
              && (f.head[4] == 1 && f.head[5] == 1 ==> Parse(f).Ok?))
  {
    assert |f.head| >= 58 ==> f.head[0..4] == f.head[..4];
  }

  /** A key is derived exactly when the costs reach the floor (8 KiB, one pass, one lane) and Argon2 runs. */
  lemma WeakCostsRefused(pw: Password, salt: Salt, params: KdfParams, argonOk: bool)
    ensures
      DeriveKey(pw, salt, params, argonOk)
      == if params.mCost < 8 || params.tCost < 1 || params.pCost < 1 || !argonOk then Err(BadParams)
         else Ok(Derived(pw, salt, params))
  {}

  // ── what the header guarantees ──

  /** Parsing loses nothing: re-encoding the parsed fields gives back all 58 header bytes. */
  lemma ParseLosesNothing(f: File)
    requires Parse(f).Ok?
    ensures
      var h := Parse(f).value;
      Aad(h.params, h.salt) == f.head[..AAD_LEN] && Aad(h.params, h.salt) + h.nonce == f.head[..HEADER_LEN]
  {
    var raw, h := f.head, Parse(f).value;
    LeBytesFromLe(raw[6..10]);
    LeBytesFromLe(raw[10..14]);
    LeBytesFromLe(raw[14..18]);
    assert raw[..AAD_LEN] == raw[0..4] + [raw[4], raw[5]] + raw[6..10] + raw[10..14] + raw[14..18] + raw[18..34];
    assert raw[..HEADER_LEN] == raw[..AAD_LEN] + raw[AAD_LEN..HEADER_LEN];
  }

  lemma ParseWritten(body: EntryMap, key: Key, salt: Salt, params: KdfParams, nonce: Nonce)
    ensures Parse(Written(body, key, salt, params, nonce)) == Ok(Header(params, salt, nonce))
  {
    var raw := Written(body, key, salt, params, nonce).head;
    FromLeLeBytes(params.mCost);
    FromLeLeBytes(params.tCost);
    FromLeLeBytes(params.pCost);
    assert raw[6..10] == LeBytes(params.mCost);
    assert raw[10..14] == LeBytes(params.tCost);
    assert raw[14..18] == LeBytes(params.pCost);
    assert raw[18..34] == salt;
    assert raw[AAD_LEN..HEADER_LEN] == nonce;
  }

  /** An untouched file opens under its own password, with its own parameters, to the body that was written. */
  lemma UnlockWritten(body: EntryMap, pw: Password, salt: Salt, params: KdfParams, nonce: Nonce)
    requires params.Valid()
    ensures
      var key := Derived(pw, salt, params);
      UnlockFile(Written(body, key, salt, params, nonce), pw, true) == Ok(Session(body, key, salt, params))
  {
    ParseWritten(body, Derived(pw, salt, params), salt, params, nonce);
    BodyRoundTrip(body);
  }

  /**
   Header authentication is exact. Keep the ciphertext of a written file and put any header before it:
   unlocking succeeds if and only if all 58 header bytes are the ones written and the password is right.
   */
  lemma TamperedHeaderNeverOpens(
      body: EntryMap, pw: Password, salt: Salt, params: KdfParams, nonce: Nonce, head: seq<Byte>, tried: Password)
    requires params.Valid() && |head| <= HEADER_LEN
    ensures
      var w := Written(body, Derived(pw, salt, params), salt, params, nonce);
      UnlockFile(File(head, w.rest), tried, true).Ok? <==> head == w.head && tried == pw
  {
    var w := Written(body, Derived(pw, salt, params), salt, params, nonce);
    var f := File(head, w.rest);
    if UnlockFile(f, tried, true).Ok? {
      ParseLosesNothing(f);
      assert head == head[..HEADER_LEN];
    }
    if head == w.head && tried == pw {
      UnlockWritten(body, pw, salt, params, nonce);
      assert f == w;
    }
  }

  /** Whatever was not produced by sealing never opens, under any header and any password. */
  lemma JunkNeverOpens(head: seq<Byte>, bytes: seq<Byte>, tried: Password, argonOk: bool)
    ensures UnlockFile(File(head, Junk(bytes)), tried, argonOk).Err?
  {}

  /**
   A file opens under at most one password, and only one that sealed it under parameters stored in its header:
   whatever session comes out carries exactly the key, salt and parameters the file was sealed with.
   */
  lemma OpenedSessionOwnsFile(f: File, pw: Password, argonOk: bool)
    requires UnlockFile(f, pw, argonOk).Ok?
    ensures
      var s := UnlockFile(f, pw, argonOk).value;
      && s.key == Derived(pw, s.salt, s.params) && s.params.Valid()
      && f.rest.Sealed? && f.rest.key == s.key
      && f.head[..HEADER_LEN] == Aad(s.params, s.salt) + f.rest.nonce
      && forall other, ok :: UnlockFile(f, other, ok).Ok? ==> other == pw
  {
    ParseLosesNothing(f);
  }
}
