/**
 Time-based one-time passwords (`native/src/totp.rs` and `secret_totp` of `native/src/server.rs`), against section 4 of
 RFC 6238 and sections 5.3 and 5.4 of RFC 4226. HMAC-SHA1 is any function onto 20 bytes.
 */
module Totp {
  import opened Base32
  import opened Bytes
  import opened Entries
  import opened Text
  import opened Wrappers

  type Mac20 = s: seq<Byte> | |s| == 20 witness seq(20, _ => 0)

  type Hmac = (seq<Byte>, seq<Byte>) -> Mac20

  datatype TotpError = InvalidParameters | InvalidSecret | NoEntry

  // ── u32 bit operations, bit by bit ──

  function BitAnd(x: nat, y: nat): nat
  {
    if x == 0 || y == 0 then 0 else 2 * BitAnd(x / 2, y / 2) + (x % 2) * (y % 2)
  }

  function BitOr(x: nat, y: nat): nat
    decreases x + y
  {
    if x == 0 then y
    else if y == 0 then x
    else 2 * BitOr(x / 2, y / 2) + (if x % 2 == 1 || y % 2 == 1 then 1 else 0)
  }

  /** `x << k` on 32 bits. */
  function Shl(x: nat, k: nat): nat
  {
    x * Pow2(k) % 0x1_0000_0000
  }

  /** The remainder of `x` by `2 * p` from its lowest bit and the rest's remainder by `p`. */
  lemma HalveMod(x: nat, p: nat)
    requires p > 0
    ensures x % (2 * p) == 2 * (x / 2 % p) + x % 2
  {
    var q, r := x / 2 / p, 2 * (x / 2 % p) + x % 2;
    assert x / 2 == p * q + x / 2 % p;
    assert x == (2 * p) * q + r by {
      assert (2 * p) * q == 2 * (p * q);
    }
    Remainder(x, 2 * p, q, r);
  }

  lemma Remainder(x: nat, d: nat, q: nat, r: nat)
    requires x == d * q + r && r < d
    ensures x % d == r
  {
    var k := x / d - q;
    assert x == d * (x / d) + x % d;
    assert d * k == r - x % d by {
      assert d * k == d * (x / d) - d * q;
    }
    NoSmallMultiple(d, k);
  }

  lemma NoSmallMultiple(d: int, k: int)
    requires d > 0
    ensures -d < d * k < d ==> k == 0
  {
    assert k >= 1 ==> d * k >= d;
    assert k <= -1 ==> d * k <= -d;
  }

  /** And-ing with the low `k` bits set takes the remainder. */
  lemma {:induction false} AndMask(x: nat, k: nat)
    ensures BitAnd(x, Pow2(k) - 1) == x % Pow2(k)
    decreases k
  {
    if k > 0 {
      var p := Pow2(k - 1);
      assert (Pow2(k) - 1) / 2 == p - 1 && (Pow2(k) - 1) % 2 == 1;
      AndMask(x / 2, k - 1);
      HalveMod(x, p);
      BitAndOdd(x, Pow2(k) - 1);
    }
  }

  lemma BitAndOdd(x: nat, m: nat)
    requires m % 2 == 1
    ensures BitAnd(x, m) == 2 * BitAnd(x / 2, m / 2) + x % 2
  {
    if x > 0 {
      assert (x % 2) * (m % 2) == x % 2;
    }
  }

  /** Or-ing in a value that fits below the set bits adds it. */
  lemma {:induction false} OrBelow(hi: nat, lo: nat, k: nat)
    requires lo < Pow2(k)
    ensures BitOr(hi * Pow2(k), lo) == hi * Pow2(k) + lo
    decreases k
  {
    if k > 0 && hi > 0 && lo > 0 {
      var half := hi * Pow2(k - 1);
      assert hi * Pow2(k) == 2 * half;
      assert half > 0;
      OrBelow(hi, lo / 2, k - 1);
    }
  }

  lemma Powers()
    ensures Pow2(4) == 16 && Pow2(7) == 128 && Pow2(8) == 0x100 && Pow2(16) == 0x1_0000 && Pow2(24) == 0x100_0000
  {
    assert Pow2(4) == 16;
    assert Pow2(8) == 0x100;
    assert Pow2(12) == 0x1000;
    assert Pow2(16) == 0x1_0000;
    assert Pow2(20) == 0x10_0000;
  }

  // ── dynamic truncation ──

  function Offset(hs: Mac20): nat
  {
    BitAnd(hs[|hs| - 1], 0x0f)
  }

  lemma OffsetInBounds(hs: Mac20)
    ensures Offset(hs) == hs[19] % 16 && Offset(hs) + 3 < |hs|
  {
    Powers();
    AndMask(hs[19], 4);
  }

  /** The shift-and-or expression on the four bytes at the offset. */
  function Bin(hs: Mac20): nat
  {
    OffsetInBounds(hs);
    var o := Offset(hs);
    BitOr(
      BitOr(
        BitOr(Shl(BitAnd(hs[o], 0x7f), 24), Shl(hs[o + 1], 16)),
        Shl(hs[o + 2], 8)),
      hs[o + 3])
  }

  /** DT of section 5.3 of RFC 4226: the last 31 bits of the four bytes that start at the low four bits of the last byte. */
  function DynamicTruncation(hs: Mac20): nat
  {
    OffsetInBounds(hs);
    Base256(hs[hs[19] % 16..hs[19] % 16 + 4]) % 0x8000_0000
  }

  lemma Base256Four(b: seq<Byte>)
    requires |b| == 4
    ensures
      var b0: int, b1: int, b2: int, b3: int := b[0], b[1], b[2], b[3];
      Base256(b) == b0 * 0x100_0000 + b1 * 0x1_0000 + b2 * 0x100 + b3
  {
    assert b[..3][..2] == b[..2] && b[..2][..1] == b[..1] && b[..1][..0] == [];
    assert Base256(b[..1]) == b[0];
    assert Base256(b[..2]) == Base256(b[..1]) * 0x100 + b[1];
    assert Base256(b[..3]) == Base256(b[..2]) * 0x100 + b[2];
  }

  lemma PackBytes(a: nat, b: nat, c: nat, d: nat)
    requires a < 128 && b < 256 && c < 256 && d < 256
    ensures
      BitOr(BitOr(BitOr(Shl(a, 24), Shl(b, 16)), Shl(c, 8)), d)
      == a * 0x100_0000 + b * 0x1_0000 + c * 0x100 + d
  {
    ShiftsFit(a, b, c);
    OrAt24(a, b * 0x1_0000);
    OrAt16(a * 0x100 + b, c * 0x100);
    OrAt8(a * 0x1_0000 + b * 0x100 + c, d);
  }

  lemma ShiftsFit(a: nat, b: nat, c: nat)
    requires a < 128 && b < 256 && c < 256
    ensures Shl(a, 24) == a * 0x100_0000 && Shl(b, 16) == b * 0x1_0000 && Shl(c, 8) == c * 0x100
  {
    Powers();
  }

  lemma OrAt24(hi: nat, lo: nat)
    requires lo < 0x100_0000
    ensures BitOr(hi * 0x100_0000, lo) == hi * 0x100_0000 + lo
  {
    Powers();
    OrBelow(hi, lo, 24);
  }

  lemma OrAt16(hi: nat, lo: nat)
    requires lo < 0x1_0000
    ensures BitOr(hi * 0x1_0000, lo) == hi * 0x1_0000 + lo
  {
    Powers();
    OrBelow(hi, lo, 16);
  }

  lemma OrAt8(hi: nat, lo: nat)
    requires lo < 0x100
    ensures BitOr(hi * 0x100, lo) == hi * 0x100 + lo
  {
    Powers();
    OrBelow(hi, lo, 8);
  }

  /** Dropping the top bit of four bytes is masking the first of them. */
  lemma LastThirtyOneBits(h: nat, rest: nat)
    requires rest < 0x100_0000
    ensures (h * 0x100_0000 + rest) % 0x8000_0000 == h % 128 * 0x100_0000 + rest
  {}

  /** The bit expression is the truncation the standard defines, and fits 31 bits. */
  lemma BinIsDynamicTruncation(hs: Mac20)
    ensures Bin(hs) == DynamicTruncation(hs) < 0x8000_0000
  {
    OffsetInBounds(hs);
    TruncationOfFour(hs[Offset(hs)..Offset(hs) + 4]);
  }

  lemma LowSevenBits(x: nat)
    ensures BitAnd(x, 0x7f) == x % 128
  {
    Powers();
    AndMask(x, 7);
  }

  lemma TruncationOfFour(p: seq<Byte>)
    requires |p| == 4
    ensures
      BitOr(BitOr(BitOr(Shl(BitAnd(p[0], 0x7f), 24), Shl(p[1], 16)), Shl(p[2], 8)), p[3])
      == Base256(p) % 0x8000_0000
  {
    LowSevenBits(p[0]);
    PackBytes(p[0] % 128, p[1], p[2], p[3]);
    Base256Four(p);
    FourBytes(p[0], p[1], p[2], p[3]);
  }

  lemma FourBytes(h: nat, b: nat, c: nat, d: nat)
    requires h < 256 && b < 256 && c < 256 && d < 256
    ensures
      (h * 0x100_0000 + b * 0x1_0000 + c * 0x100 + d) % 0x8000_0000
      == h % 128 * 0x100_0000 + b * 0x1_0000 + c * 0x100 + d
  {
    LastThirtyOneBits(h, b * 0x1_0000 + c * 0x100 + d);
  }

  // ── decimal ──

  function Pow10(k: nat): (p: nat)
    ensures p > 0
  {
    if k == 0 then 1 else 10 * Pow10(k - 1)
  }

  function DecimalDigit(v: nat): char
    requires v < 10
  {
    '0' + v as char
  }

  /** `n` in decimal, without leading zeros. */
  function Decimal(n: nat): string
  {
    if n < 10 then [DecimalDigit(n)] else Decimal(n / 10) + [DecimalDigit(n % 10)]
  }

  function ZeroText(n: nat): (s: string)
    ensures |s| == n && forall i :: 0 <= i < n ==> s[i] == '0'
  {
    seq(n, _ => '0')
  }

  /** `format!("{:0width$}", n)`. */
  function Padded(n: nat, width: nat): string
  {
    var d := Decimal(n);
    if |d| < width then ZeroText(width - |d|) + d else d
  }

  predicate AllDigits(s: string)
  {
    forall i :: 0 <= i < |s| ==> '0' <= s[i] <= '9'
  }

  function ReadDecimal(s: string): nat
    requires AllDigits(s)
  {
    if s == "" then 0 else 10 * ReadDecimal(s[..|s| - 1]) + (s[|s| - 1] as int - '0' as int)
  }

  lemma {:induction false} DecimalReads(n: nat, k: nat)
    requires n < Pow10(k) && k > 0
    ensures AllDigits(Decimal(n)) && ReadDecimal(Decimal(n)) == n && |Decimal(n)| <= k
    decreases n
  {
    if n < 10 {
      assert Decimal(n)[..0] == "";
    } else {
      assert k > 1;
      DecimalReads(n / 10, k - 1);
      assert Decimal(n)[..|Decimal(n)| - 1] == Decimal(n / 10);
    }
  }

  lemma {:induction false} LeadingZeros(z: nat, s: string)
    requires AllDigits(s)
    ensures AllDigits(ZeroText(z) + s) && ReadDecimal(ZeroText(z) + s) == ReadDecimal(s)
    decreases |s|, z
  {
    var t := ZeroText(z) + s;
    if s != "" {
      LeadingZeros(z, s[..|s| - 1]);
      assert t[..|t| - 1] == ZeroText(z) + s[..|s| - 1];
    } else if z > 0 {
      LeadingZeros(z - 1, s);
      assert t[..|t| - 1] == ZeroText(z - 1) + s;
    }
  }

  /** Exactly `k` decimal digits that read back as the number. */
  lemma PaddedReads(n: nat, k: nat)
    requires n < Pow10(k) && k > 0
    ensures |Padded(n, k)| == k && AllDigits(Padded(n, k)) && ReadDecimal(Padded(n, k)) == n
  {
    DecimalReads(n, k);
    if |Decimal(n)| < k {
      LeadingZeros(k - |Decimal(n)|, Decimal(n));
    }
  }

  // ── the secret ──

  /** `char::to_uppercase`; what it makes of non-ASCII characters is left open. */
  function Upper(c: char, other: char -> string): string
  {
    if 'a' <= c <= 'z' then ['A' + (c as int - 'a' as int) as char] else if c as int < 0x80 then [c] else other(c)
  }

  /** White space and padding dropped, the rest in upper case. */
  function Normalise(s: string, other: char -> string): string
  {
    if s == "" then ""
    else (if IsWhitespace(s[0]) || s[0] == '=' then "" else Upper(s[0], other)) + Normalise(s[1..], other)
  }

  /** `s` spells `text` with white space, padding signs and changes of letter case strewn in. */
  predicate Spells(s: string, text: string)
  {
    if s == "" then text == ""
    else if IsFiller(s[0]) then Spells(s[1..], text)
    else text != "" && (s[0] == text[0] || IsLowerOf(s[0], text[0])) && Spells(s[1..], text[1..])
  }

  predicate IsFiller(c: char)
  {
    IsWhitespace(c) || c == '='
  }

  predicate IsLowerOf(c: char, u: char)
  {
    'A' <= u <= 'Z' && c as int == u as int + 32
  }

  predicate Alphabetic32(s: string)
  {
    forall i :: 0 <= i < |s| ==> 'A' <= s[i] <= 'Z' || '2' <= s[i] <= '7'
  }

  lemma LetterKept(c: char, u: char, other: char -> string)
    requires 'A' <= u <= 'Z' || '2' <= u <= '7'
    requires c == u || IsLowerOf(c, u)
    ensures !IsWhitespace(c) && c != '=' && Upper(c, other) == [u]
  {}

  lemma {:induction false} NormaliseSpelling(s: string, text: string, other: char -> string)
    requires Spells(s, text) && Alphabetic32(text)
    ensures Normalise(s, other) == text
  {
    if s == "" {
    } else if IsFiller(s[0]) {
      NormaliseSpelling(s[1..], text, other);
    } else {
      LetterKept(s[0], text[0], other);
      NormaliseSpelling(s[1..], text[1..], other);
    }
  }

  lemma {:induction false} EncodingAlphabetic(b: Bits)
    ensures Alphabetic32(EncodeBits(b))
    decreases |b|
  {
    if |b| >= 5 {
      EncodingAlphabetic(b[5..]);
      assert Pow2(5) == 32;
    }
  }

  // ── codes ──

  function CodeOfKey(key: seq<Byte>, time: U64, period: nat, digits: nat, mac: Hmac): string
    requires period > 0
  {
    Padded(Bin(mac(key, BeBytes(time / period, 8))) % Pow10(digits), digits)
  }

  function Code(secret: string, time: U64, period: U64, digits: U32, mac: Hmac, other: char -> string)
    : Result<string, TotpError>
  {
    if period == 0 || !(1 <= digits <= 9) then Err(InvalidParameters)
    else
      match Decode(Normalise(secret, other))
      case None => Err(InvalidSecret)
      case Some(key) => Ok(CodeOfKey(key, time, period, digits, mac))
  }

  /** HOTP value of section 5.3 of RFC 4226 at the time step of section 4 of RFC 6238. */
  function RfcValue(key: seq<Byte>, time: U64, period: nat, digits: nat, mac: Hmac): nat
    requires period > 0
  {
    DynamicTruncation(mac(key, BeBytes(time / period, 8))) % Pow10(digits)
  }

  lemma Pow10Fits(digits: nat)
    requires 1 <= digits <= 9
    ensures 10 <= Pow10(digits) <= 1_000_000_000 < 0x1_0000_0000
  {
    assert Pow10(3) == 1000;
    assert Pow10(6) == 1_000_000;
    assert Pow10(9) == 1_000_000_000;
    PowMonotonic(digits, 9);
    PowMonotonic(1, digits);
  }

  lemma {:induction false} PowMonotonic(a: nat, b: nat)
    requires a <= b
    ensures Pow10(a) <= Pow10(b)
    decreases b
  {
    if a < b {
      PowMonotonic(a, b - 1);
    }
  }

  /**
   However a key's base32 form is spelled, and for one to nine digits, the code has exactly that many decimal digits and
   reads back as the standard's value; the modulus fits a u32.
   */
  lemma CodeFollowsStandard(
      key: seq<Byte>, secret: string, time: U64, period: U64, digits: U32, mac: Hmac, other: char -> string)
    requires period > 0 && 1 <= digits <= 9 && Spells(secret, Encode(key))
    ensures
      var code := Code(secret, time, period, digits, mac, other);
      && code == Ok(CodeOfKey(key, time, period, digits, mac))
      && |code.value| == digits && AllDigits(code.value)
      && ReadDecimal(code.value) == RfcValue(key, time, period, digits, mac)
      && Pow10(digits) < 0x1_0000_0000
  {
    EncodingAlphabetic(KeyBits(key));
    NormaliseSpelling(secret, Encode(key), other);
    DecodeEncode(key);
    KeyCodeReads(key, time, period, digits, mac);
  }

  lemma KeyCodeReads(key: seq<Byte>, time: U64, period: U64, digits: U32, mac: Hmac)
    requires period > 0 && 1 <= digits <= 9
    ensures
      var code := CodeOfKey(key, time, period, digits, mac);
      && |code| == digits && AllDigits(code)
      && ReadDecimal(code) == RfcValue(key, time, period, digits, mac)
      && Pow10(digits) < 0x1_0000_0000
  {
    BinIsDynamicTruncation(mac(key, BeBytes(time / period, 8)));
    Pow10Fits(digits);
    PaddedReads(RfcValue(key, time, period, digits, mac), digits);
  }

  /** A secret is refused exactly when what remains of it after normalisation is no key's base32 form. */
  lemma RefusedExactlyWhenNotBase32(
      secret: string, time: U64, period: U64, digits: U32, mac: Hmac, other: char -> string)
    requires period > 0 && 1 <= digits <= 9
    ensures
      Code(secret, time, period, digits, mac, other) == Err(InvalidSecret)
      <==> forall key :: Normalise(secret, other) != Encode(key)
  {
    var text := Normalise(secret, other);
    forall key: seq<Byte> ensures Decode(text) == Some(key) <==> text == Encode(key) {
      EncodeDecode(text, key);
    }
    if Decode(text).Some? {
      assert text == Encode(Decode(text).value);
    }
  }

  // ── the step window `secret_totp` reports ──

  const PERIOD: U64 := 30
  const DIGITS: U32 := 6

  datatype Shown = Shown(code: string, remaining: nat)

  function SecretTotp(m: EntryMap, name: string, now: U64, mac: Hmac, other: char -> string): Result<Shown, TotpError>
  {
    if name !in m then Err(NoEntry)
    else
      match Code(m[name].value, now, PERIOD, DIGITS, mac, other)
      case Err(e) => Err(e)
      case Ok(code) => Ok(Shown(code, PERIOD - now % PERIOD))
  }

  /**
   What is shown is the standard's code: for every spelling of a key's base32 form as the entry's value, and every time, six
   decimal digits that read as the standard's value for that key at that time in steps of 30 seconds.
   */
  lemma ShownCodeFollowsStandard(
      m: EntryMap, name: string, key: seq<Byte>, now: U64, mac: Hmac, other: char -> string)
    requires name in m && Spells(m[name].value, Encode(key))
    ensures
      var shown := SecretTotp(m, name, now, mac, other);
      && shown.Ok? && |shown.value.code| == 6 && AllDigits(shown.value.code)
      && ReadDecimal(shown.value.code) == RfcValue(key, now, 30, 6, mac)
      && shown.value.remaining == 30 - now % 30
  {
    CodeFollowsStandard(key, m[name].value, now, 30, 6, mac, other);
  }

  /** The standard's value spelt out: the counter is the number of whole steps, as eight bytes, and the modulus a power of ten. */
  lemma RfcValueSpelt(key: seq<Byte>, now: U64, mac: Hmac, counter: seq<Byte>)
    requires |counter| == 8 && Base256(counter) == now / 30
    ensures RfcValue(key, now, 30, 6, mac) == DynamicTruncation(mac(key, counter)) % 1_000_000
  {
    Pow256Eight();
    Base256BeBytes(now / 30, 8);
    Base256Injective(counter, BeBytes(now / 30, 8));
    assert Pow10(6) == 1_000_000 by {
      assert Pow10(3) == 1000;
    }
  }

  /** Which errors `secret.totp` answers with. */
  lemma TotpRefusals(m: EntryMap, name: string, now: U64, mac: Hmac, other: char -> string)
    ensures SecretTotp(m, name, now, mac, other) == Err(NoEntry) <==> name !in m
    ensures
      name in m ==>
        (SecretTotp(m, name, now, mac, other) == Err(InvalidSecret)
         <==> forall key :: Normalise(m[name].value, other) != Encode(key))
  {
    if name in m {
      RefusedExactlyWhenNotBase32(m[name].value, now, 30, 6, mac, other);
    }
  }

  /** Where a later time falls, counted in steps. */
  lemma TimeSteps(now: nat, later: nat)
    requires now <= later
    ensures
      var left := 30 - now % 30;
      && 1 <= left <= 30
      && (later < now + left ==> later / 30 == now / 30 && later % 30 == now % 30 + (later - now))
      && (later == now + left ==> later / 30 == now / 30 + 1 && later % 30 == 0)
      && (later / 30 == now / 30 <==> later < now + left)
  {
    assert now == 30 * (now / 30) + now % 30 && later == 30 * (later / 30) + later % 30;
  }

  /**
   The countdown is honest: between 1 and 30 seconds, the same code is shown for exactly that long, and the time step
   then goes up by one.
   */
  lemma CountdownIsHonest(m: EntryMap, name: string, now: U64, later: U64, mac: Hmac, other: char -> string)
    requires SecretTotp(m, name, now, mac, other).Ok? && now <= later
    ensures
      var shown := SecretTotp(m, name, now, mac, other).value;
      var then_ := SecretTotp(m, name, later, mac, other);
      && 1 <= shown.remaining <= 30
      && (later < now + shown.remaining ==>
            then_ == Ok(Shown(shown.code, shown.remaining - (later - now))) && later / PERIOD == now / PERIOD)
      && (later == now + shown.remaining ==>
            later / PERIOD == now / PERIOD + 1 && then_.Ok? && then_.value.remaining == 30)
      && (later / PERIOD == now / PERIOD <==> later < now + shown.remaining)
  {
    TimeSteps(now, later);
  }

  /** Consecutive steps feed the MAC different counters, so nothing but the MAC itself can make two steps' codes agree. */
  lemma StepsDiffer(now: U64, later: U64)
    requires now / PERIOD != later / PERIOD
    ensures BeBytes(now / PERIOD, 8) != BeBytes(later / PERIOD, 8)
  {
    if BeBytes(now / PERIOD, 8) == BeBytes(later / PERIOD, 8) {
      BeBytesInjective(now / PERIOD, later / PERIOD);
    }
  }
}
