/** Base32 without padding (section 6 of RFC 4648), strict as the decoder `native/src/totp.rs` calls: by groups of bits. */
module Base32 {
  import opened Bytes
  import opened Wrappers

  type Bits = seq<bool>

  function Pow2(k: nat): (p: nat)
    ensures p > 0
  {
    if k == 0 then 1 else 2 * Pow2(k - 1)
  }

  /** The low `width` bits of `n`, most significant first. */
  function BitsOf(n: nat, width: nat): (b: Bits)
    ensures |b| == width
  {
    if width == 0 then [] else BitsOf(n / 2, width - 1) + [n % 2 == 1]
  }

  function ValueOf(b: Bits): (n: nat)
    ensures n < Pow2(|b|)
  {
    if b == [] then 0 else 2 * ValueOf(b[..|b| - 1]) + (if b[|b| - 1] then 1 else 0)
  }

  lemma {:induction false} ValueOfBitsOf(n: nat, width: nat)
    requires n < Pow2(width)
    ensures ValueOf(BitsOf(n, width)) == n
  {
    if width > 0 {
      ValueOfBitsOf(n / 2, width - 1);
      assert BitsOf(n, width)[..width - 1] == BitsOf(n / 2, width - 1);
    }
  }

  lemma {:induction false} BitsOfValueOf(b: Bits)
    ensures BitsOf(ValueOf(b), |b|) == b
  {
    if b != [] {
      BitsOfValueOf(b[..|b| - 1]);
      assert b == b[..|b| - 1] + [b[|b| - 1]];
    }
  }

  function Zeros(n: nat): (b: Bits)
    ensures |b| == n && forall i :: 0 <= i < n ==> !b[i]
  {
    seq(n, _ => false)
  }

  // ── alphabet ──

  function Digit(v: nat): char
    requires v < 32
  {
    if v < 26 then 'A' + v as char else '2' + (v - 26) as char
  }

  function DigitValue(c: char): (v: Option<nat>)
    ensures v.Some? ==> v.value < 32 && Digit(v.value) == c
  {
    if 'A' <= c <= 'Z' then Some((c as int - 'A' as int) as nat)
    else if '2' <= c <= '7' then Some((c as int - '2' as int + 26) as nat)
    else None
  }

  lemma DigitValueDigit(v: nat)
    requires v < 32
    ensures DigitValue(Digit(v)) == Some(v)
  {}

  // ── encoding ──

  function KeyBits(key: seq<Byte>): (b: Bits)
    ensures |b| == 8 * |key|
  {
    if key == [] then [] else BitsOf(key[0], 8) + KeyBits(key[1..])
  }

  /** Five bits a character, the last group filled up with zero bits. */
  function EncodeBits(b: Bits): string
    decreases |b|
  {
    if b == [] then ""
    else if |b| < 5 then [Digit(ValueOf(b + Zeros(5 - |b|)))]
    else [Digit(ValueOf(b[..5]))] + EncodeBits(b[5..])
  }

  function Encode(key: seq<Byte>): string
  {
    EncodeBits(KeyBits(key))
  }

  // ── decoding ──

  function TextBits(s: string): Option<Bits>
  {
    if s == "" then Some([])
    else
      var v, rest := DigitValue(s[0]), TextBits(s[1..]);
      if v.Some? && rest.Some? then Some(BitsOf(v.value, 5) + rest.value) else None
  }

  function BytesOf(b: Bits): (key: seq<Byte>)
    requires |b| % 8 == 0
    decreases |b|
  {
    if b == [] then []
    else
      assert Pow2(8) == 256;
      [ValueOf(b[..8])] + BytesOf(b[8..])
  }

  predicate AllZero(b: Bits)
  {
    forall i :: 0 <= i < |b| ==> !b[i]
  }

  /** Only whole bytes, fewer than five bits left over, and those all zero. */
  function Decode(s: string): Option<seq<Byte>>
  {
    match TextBits(s)
    case None => None
    case Some(b) =>
      var whole := |b| / 8 * 8;
      if |b| - whole < 5 && AllZero(b[whole..]) then Some(BytesOf(b[..whole])) else None
  }

  // ── decoding undoes encoding, and accepts nothing else ──

  lemma {:induction false} BytesOfKeyBits(key: seq<Byte>)
    ensures BytesOf(KeyBits(key)) == key
  {
    if key != [] {
      assert Pow2(8) == 256;
      ValueOfBitsOf(key[0], 8);
      assert KeyBits(key)[..8] == BitsOf(key[0], 8);
      assert KeyBits(key)[8..] == KeyBits(key[1..]);
      BytesOfKeyBits(key[1..]);
    }
  }

  lemma {:induction false} KeyBitsBytesOf(b: Bits)
    requires |b| % 8 == 0
    ensures KeyBits(BytesOf(b)) == b
    decreases |b|
  {
    if b != [] {
      BitsOfValueOf(b[..8]);
      KeyBitsBytesOf(b[8..]);
      assert BytesOf(b)[1..] == BytesOf(b[8..]);
      assert b == b[..8] + b[8..];
    }
  }

  /** How many zero bits fill up the last group. */
  function Fill(n: nat): (z: nat)
    ensures z < 5 && (n + z) % 5 == 0
  {
    (5 - n % 5) % 5
  }

  /** One character stands for its five bits. */
  lemma GroupRoundTrip(group: Bits)
    requires |group| == 5
    ensures ValueOf(group) < 32 && DigitValue(Digit(ValueOf(group))) == Some(ValueOf(group))
    ensures BitsOf(ValueOf(group), 5) == group
  {
    assert Pow2(5) == 32;
    BitsOfValueOf(group);
    DigitValueDigit(ValueOf(group));
  }

  lemma TextBitsCons(group: Bits, rest: string, b: Bits)
    requires |group| == 5 && ValueOf(group) < 32 && TextBits(rest) == Some(b)
    ensures TextBits([Digit(ValueOf(group))] + rest) == Some(group + b)
  {
    GroupRoundTrip(group);
    assert ([Digit(ValueOf(group))] + rest)[1..] == rest;
  }

  lemma FillOfGroups(n: nat)
    ensures Fill(0) == 0
    ensures 0 < n < 5 ==> Fill(n) == 5 - n
    ensures n >= 5 ==> Fill(n) == Fill(n - 5)
  {}

  lemma SplitFive(b: Bits, z: Bits)
    requires |b| >= 5
    ensures b[..5] + (b[5..] + z) == b + z
  {}

  lemma LongEncoding(b: Bits, rest: string)
    requires |b| >= 5 && rest == EncodeBits(b[5..]) && TextBits(rest) == Some(b[5..] + Zeros(Fill(|b| - 5)))
    ensures TextBits(EncodeBits(b)) == Some(b + Zeros(Fill(|b|)))
  {
    FillOfGroups(|b|);
    GroupRoundTrip(b[..5]);
    TextBitsCons(b[..5], rest, b[5..] + Zeros(Fill(|b|)));
    SplitFive(b, Zeros(Fill(|b|)));
  }

  lemma ShortEncoding(b: Bits)
    requires 0 < |b| < 5
    ensures TextBits(EncodeBits(b)) == Some(b + Zeros(Fill(|b|)))
  {
    FillOfGroups(|b|);
    var group := b + Zeros(5 - |b|);
    GroupRoundTrip(group);
    TextBitsCons(group, "", []);
    assert [Digit(ValueOf(group))] + "" == [Digit(ValueOf(group))];
    assert group + [] == group;
  }

  lemma {:induction false} TextBitsEncodeBits(b: Bits)
    ensures TextBits(EncodeBits(b)) == Some(b + Zeros(Fill(|b|)))
    decreases |b|
  {
    if b == [] {
      FillOfGroups(0);
      assert b + Zeros(0) == [];
    } else if |b| < 5 {
      ShortEncoding(b);
    } else {
      TextBitsEncodeBits(b[5..]);
      LongEncoding(b, EncodeBits(b[5..]));
    }
  }

  lemma WholeBytes(n: nat, z: nat)
    requires z < 5
    ensures (8 * n + z) / 8 * 8 == 8 * n
  {}

  /** Whole bytes followed by fewer than five zero bits decode to those bytes. */
  lemma DecodeText(s: string, key: seq<Byte>, z: nat)
    requires z < 5 && TextBits(s) == Some(KeyBits(key) + Zeros(z))
    ensures Decode(s) == Some(key)
  {
    var b := KeyBits(key);
    var t := b + Zeros(z);
    WholeBytes(|key|, z);
    assert |t| / 8 * 8 == |b|;
    assert t[..|b|] == b && t[|b|..] == Zeros(z);
    BytesOfKeyBits(key);
  }

  /** Every key's encoding decodes to that key. */
  lemma DecodeEncode(key: seq<Byte>)
    ensures Decode(Encode(key)) == Some(key)
  {
    TextBitsEncodeBits(KeyBits(key));
    DecodeText(Encode(key), key, Fill(8 * |key|));
  }

  lemma {:induction false} EncodeTextBits(s: string, b: Bits, z: nat)
    requires TextBits(s) == Some(b + Zeros(z)) && z < 5
    ensures EncodeBits(b) == s
    decreases |s|
  {
    assert Pow2(5) == 32;
    var t := b + Zeros(z);
    if s == "" {
      assert t == [];
    } else {
      var v := DigitValue(s[0]).value;
      var rest := TextBits(s[1..]).value;
      assert t == BitsOf(v, 5) + rest;
      assert t[..5] == BitsOf(v, 5) && t[5..] == rest;
      ValueOfBitsOf(v, 5);
      assert b != [] by {
        assert |t| >= 5;
      }
      if |b| < 5 {
        TextBitsLength(s[1..]);
        assert rest == [] && s[1..] == "";
        assert b + Zeros(5 - |b|) == t[..5];
        assert s == [s[0]];
      } else {
        assert b[..5] == t[..5];
        assert rest == b[5..] + Zeros(z);
        EncodeTextBits(s[1..], b[5..], z);
        assert s == [s[0]] + s[1..];
      }
    }
  }

  lemma {:induction false} TextBitsLength(s: string)
    requires TextBits(s).Some?
    ensures |TextBits(s).value| == 5 * |s|
  {
    if s != "" {
      TextBitsLength(s[1..]);
    }
  }

  lemma DecodedIsEncoding(s: string, key: seq<Byte>)
    requires Decode(s) == Some(key)
    ensures s == Encode(key)
  {
    var b := TextBits(s).value;
    var whole := |b| / 8 * 8;
    var rest := b[whole..];
    assert rest == Zeros(|rest|);
    assert b == b[..whole] + rest;
    KeyBitsBytesOf(b[..whole]);
    EncodeTextBits(s, b[..whole], |rest|);
  }

  /** The decoder accepts exactly the encodings: whatever decodes to a key is that key's encoding, character for character. */
  lemma EncodeDecode(s: string, key: seq<Byte>)
    ensures Decode(s) == Some(key) <==> s == Encode(key)
  {
    if Decode(s) == Some(key) {
      DecodedIsEncoding(s, key);
    } else {
      DecodeEncode(key);
    }
  }

  // ── the encoding as a number ──

  /** The alphabet of section 6 of RFC 4648. */
  const ALPHABET: string := "ABCDEFGHIJKLMNOPQRSTUVWXYZ234567"

  lemma AlphabetTable(v: nat)
    requires v < 32
    ensures |ALPHABET| == 32 && Digit(v) == ALPHABET[v]
  {}

  /** The characters of `s` stand for the digits `d`. */
  predicate Spelt(s: string, d: seq<nat>)
  {
    |s| == |d| && forall i :: 0 <= i < |d| ==> d[i] < 32 && s[i] == ALPHABET[d[i]]
  }

  function Base32Value(d: seq<nat>): nat
  {
    if d == [] then 0 else 32 * Base32Value(d[..|d| - 1]) + d[|d| - 1]
  }

  lemma ValueLast(t: Bits)
    requires t != []
    ensures ValueOf(t) == 2 * ValueOf(t[..|t| - 1]) + (if t[|t| - 1] then 1 else 0)
  {}

  lemma Doubled(x: nat, k: nat)
    requires k > 0
    ensures x * Pow2(k) == 2 * (x * Pow2(k - 1))
  {
    assert Pow2(k) == 2 * Pow2(k - 1);
    assert x * (2 * Pow2(k - 1)) == 2 * (x * Pow2(k - 1));
  }

  lemma {:induction false} ValueAppend(a: Bits, b: Bits)
    ensures ValueOf(a + b) == ValueOf(a) * Pow2(|b|) + ValueOf(b)
    decreases |b|
  {
    if b == [] {
      assert a + b == a;
      assert ValueOf(a) * 1 == ValueOf(a);
    } else {
      var t := a + b;
      assert t[..|t| - 1] == a + b[..|b| - 1] && t[|t| - 1] == b[|b| - 1];
      ValueAppend(a, b[..|b| - 1]);
      ValueLast(t);
      ValueLast(b);
      Doubled(ValueOf(a), |b|);
    }
  }

  lemma {:induction false} KeyBitsLast(key: seq<Byte>)
    requires key != []
    ensures KeyBits(key) == KeyBits(key[..|key| - 1]) + BitsOf(key[|key| - 1], 8)
  {
    if |key| > 1 {
      KeyBitsLast(key[1..]);
      assert key[1..][..|key| - 2] == key[..|key| - 1][1..];
    } else {
      assert KeyBits(key[1..]) == [] && KeyBits(key[..0]) == [];
    }
  }

  /** A key's bits are the number its bytes are in base 256. */
  lemma {:induction false} KeyBitsValue(key: seq<Byte>)
    ensures ValueOf(KeyBits(key)) == Base256(key)
  {
    if key != [] {
      var init := key[..|key| - 1];
      KeyBitsLast(key);
      KeyBitsValue(init);
      assert Pow2(8) == 256;
      ValueOfBitsOf(key[|key| - 1], 8);
      ValueAppend(KeyBits(init), BitsOf(key[|key| - 1], 8));
    }
  }

  lemma {:induction false} TextBitsLast(s: string)
    requires s != "" && TextBits(s).Some?
    ensures
      var init, v := TextBits(s[..|s| - 1]), DigitValue(s[|s| - 1]);
      init.Some? && v.Some? && TextBits(s).value == init.value + BitsOf(v.value, 5)
  {
    if |s| > 1 {
      TextBitsLast(s[1..]);
      assert s[1..][..|s| - 2] == s[..|s| - 1][1..];
    } else {
      assert s[1..] == "" && s[..0] == "";
    }
  }

  /** The bits of a text are the number its characters are in base 32. */
  lemma {:induction false} TextBitsValue(s: string) returns (d: seq<nat>)
    requires TextBits(s).Some?
    ensures Spelt(s, d) && ValueOf(TextBits(s).value) == Base32Value(d)
    decreases |s|
  {
    if s == "" {
      d := [];
    } else {
      TextBitsLast(s);
      var init := TextBitsValue(s[..|s| - 1]);
      var v := DigitValue(s[|s| - 1]).value;
      AlphabetTable(v);
      assert Pow2(5) == 32;
      ValueOfBitsOf(v, 5);
      ValueAppend(TextBits(s[..|s| - 1]).value, BitsOf(v, 5));
      d := init + [v];
      assert d[..|d| - 1] == init;
    }
  }

  lemma {:induction false} ZerosValue(n: nat)
    ensures ValueOf(Zeros(n)) == 0
  {
    if n > 0 {
      assert Zeros(n)[..n - 1] == Zeros(n - 1);
      ZerosValue(n - 1);
    }
  }

  /**
   The encoding as RFC 4648 means it: characters of its alphabet that are, in base 32, the number the key's bytes are in base
   256, shifted left by the zero bits that fill up the last group of five.
   */
  lemma EncodeValue(key: seq<Byte>) returns (d: seq<nat>)
    ensures Spelt(Encode(key), d) && Base32Value(d) == Base256(key) * Pow2(Fill(8 * |key|))
    ensures 5 * |Encode(key)| == 8 * |key| + Fill(8 * |key|)
  {
    var z := Fill(8 * |key|);
    TextBitsEncodeBits(KeyBits(key));
    TextBitsLength(Encode(key));
    d := TextBitsValue(Encode(key));
    ValueAppend(KeyBits(key), Zeros(z));
    KeyBitsValue(key);
    ZerosValue(z);
  }
}
