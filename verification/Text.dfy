/** The character classes the sources rely on: Rust's Unicode white space and Lua's `%s`. */
module Text {

  const CR: char := '\r'
  const LF: char := '\n'

  /** `char::is_whitespace`: the Unicode `White_Space` property. */
  predicate IsWhitespace(c: char)
  {
    var n := c as int;
    || 0x9 <= n <= 0xD || n == 0x20 || n == 0x85 || n == 0xA0 || n == 0x1680
    || 0x2000 <= n <= 0x200A || n == 0x2028 || n == 0x2029 || n == 0x202F || n == 0x205F || n == 0x3000
  }

  /** `s.trim().is_empty()`: nothing but white space. */
  predicate IsBlank(s: string)
  {
    forall i :: 0 <= i < |s| ==> IsWhitespace(s[i])
  }

  function TrimSpaceStart(s: string): string
  {
    if s != [] && IsWhitespace(s[0]) then TrimSpaceStart(s[1..]) else s
  }

  function TrimSpaceEnd(s: string): string
  {
    if s != [] && IsWhitespace(s[|s| - 1]) then TrimSpaceEnd(s[..|s| - 1]) else s
  }

  /** `str::trim`. */
  function TrimSpace(s: string): string
  {
    TrimSpaceEnd(TrimSpaceStart(s))
  }

  /** `s.trim().is_empty()` says that all of `s` is white space. */
  lemma {:induction false} BlankIffTrimmedEmpty(s: string)
    ensures IsBlank(s) <==> TrimSpace(s) == ""
  {
    if s == "" {
    } else if IsWhitespace(s[0]) {
      BlankIffTrimmedEmpty(s[1..]);
      assert s == [s[0]] + s[1..];
    } else {
      KeepsFirst(s);
    }
  }

  lemma {:induction false} KeepsFirst(s: string)
    requires s != "" && !IsWhitespace(s[0])
    ensures TrimSpaceEnd(s) != ""
  {
    if IsWhitespace(s[|s| - 1]) {
      KeepsFirst(s[..|s| - 1]);
    }
  }

  /** The 25 characters that Unicode gives the `White_Space` property. */
  const WHITE_SPACE: set<int> :=
    {0x9, 0xA, 0xB, 0xC, 0xD, 0x20, 0x85, 0xA0, 0x1680, 0x2000, 0x2001, 0x2002, 0x2003, 0x2004, 0x2005, 0x2006, 0x2007,
     0x2008, 0x2009, 0x200A, 0x2028, 0x2029, 0x202F, 0x205F, 0x3000}

  lemma WhitespaceTable(c: char)
    ensures IsWhitespace(c) <==> c as int in WHITE_SPACE
  {}

  /** Lua's `%s` in the C locale, the class `vim.trim` strips. */
  predicate IsLuaSpace(c: char)
  {
    c == ' ' || 0x9 <= c as int <= 0xD
  }

  function TrimLeft(s: string): (r: string)
    ensures r == [] || !IsLuaSpace(r[0])
  {
    if s != [] && IsLuaSpace(s[0]) then TrimLeft(s[1..]) else s
  }

  function TrimRight(s: string): (r: string)
    ensures r <= s
    ensures r == [] || !IsLuaSpace(r[|r| - 1])
  {
    if s != [] && IsLuaSpace(s[|s| - 1]) then TrimRight(s[..|s| - 1]) else s
  }

  /** `vim.trim`. */
  function Trim(s: string): string
  {
    TrimRight(TrimLeft(s))
  }

  /** A line that neither starts nor ends with white space, as every encoded JSON object is. */
  predicate Trimmed(s: string)
  {
    s != [] ==> !IsLuaSpace(s[0]) && !IsLuaSpace(s[|s| - 1])
  }

  predicate AllLuaSpace(s: string)
  {
    forall i :: 0 <= i < |s| ==> IsLuaSpace(s[i])
  }

  lemma {:induction false} TrimLeftDrops(s: string) returns (before: string)
    ensures s == before + TrimLeft(s) && AllLuaSpace(before)
  {
    if s != [] && IsLuaSpace(s[0]) {
      var rest := TrimLeftDrops(s[1..]);
      before := [s[0]] + rest;
      assert s == [s[0]] + s[1..];
    } else {
      before := "";
    }
  }

  lemma {:induction false} TrimRightDrops(s: string) returns (after: string)
    ensures s == TrimRight(s) + after && AllLuaSpace(after)
  {
    if s != [] && IsLuaSpace(s[|s| - 1]) {
      var rest := TrimRightDrops(s[..|s| - 1]);
      after := rest + [s[|s| - 1]];
      assert s == s[..|s| - 1] + [s[|s| - 1]];
    } else {
      after := "";
    }
  }

  /** Trimming takes nothing but white space off the two ends. */
  lemma TrimDropsOnlySpace(s: string) returns (before: string, after: string)
    ensures s == before + Trim(s) + after && AllLuaSpace(before) && AllLuaSpace(after)
  {
    before := TrimLeftDrops(s);
    after := TrimRightDrops(TrimLeft(s));
  }

  lemma {:induction false} TrimLeftPadded(before: string, s: string)
    requires AllLuaSpace(before)
    ensures TrimLeft(before + s) == TrimLeft(s)
  {
    if before == "" {
      assert before + s == s;
    } else {
      assert (before + s)[1..] == before[1..] + s;
      TrimLeftPadded(before[1..], s);
    }
  }

  lemma {:induction false} TrimRightPadded(s: string, after: string)
    requires AllLuaSpace(after)
    ensures TrimRight(s + after) == TrimRight(s)
  {
    if after == "" {
      assert s + after == s;
    } else {
      var n := |after| - 1;
      assert (s + after)[..|s| + n] == s + after[..n];
      TrimRightPadded(s, after[..n]);
    }
  }

  lemma TrimPadded(before: string, s: string, after: string)
    requires AllLuaSpace(before) && AllLuaSpace(after) && Trimmed(s)
    ensures Trim(before + s + after) == s
  {
    assert before + s + after == before + (s + after);
    TrimLeftPadded(before, s + after);
    if s == "" {
      assert s + after == after && after + "" == after;
      TrimLeftPadded(after, "");
    } else {
      assert TrimLeft(s + after) == s + after;
      TrimRightPadded(s, after);
    }
  }

  lemma TrimTrimmed(s: string)
    ensures Trimmed(Trim(s))
    ensures Trimmed(s) ==> Trim(s) == s
  {
    var l := TrimLeft(s);
    var r := TrimRight(l);
    if r != [] {
      assert r[0] == l[0];
    }
  }
}
