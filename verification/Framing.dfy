/**
 Newline framing: `on_read` of `lua/lvim-keyring/daemon.lua`, which reassembles lines across read chunks, and the
 writer task of `native/src/main.rs`, which sends one line and one newline per message.
 */
module Framing {
  import opened Text
  import opened Wrappers

  /** Where `c` first occurs in `s`, or `|s|`. */
  function IndexOf(s: string, c: char): (i: nat)
    ensures i <= |s| && c !in s[..i]
    ensures i < |s| ==> s[i] == c
  {
    if s == [] || s[0] == c then 0
    else
      var i := IndexOf(s[1..], c);
      assert s[..i + 1] == [s[0]] + s[1..][..i];
      i + 1
  }

  lemma {:induction false} IndexOfAppend(a: string, b: string, c: char)
    ensures c in a ==> IndexOf(a + b, c) == IndexOf(a, c) < |a|
    ensures c !in a ==> IndexOf(a + b, c) == |a| + IndexOf(b, c)
    decreases |a|
  {
    if a == [] {
      assert a + b == b;
    } else if a[0] != c {
      assert (a + b)[1..] == a[1..] + b;
      assert a == [a[0]] + a[1..];
      IndexOfAppend(a[1..], b, c);
    }
  }

  /** What a completed line dispatches: nothing if it is blank or does not decode. */
  function Deliver<M>(line: string, decode: string -> Option<M>): Option<M>
  {
    if Trim(line) == "" then None else decode(Trim(line))
  }

  function ToSeq<M>(o: Option<M>): seq<M>
  {
    if o.Some? then [o.value] else []
  }

  predicate TearsDown<M>(o: Option<M>, tears: M -> bool)
  {
    o.Some? && tears(o.value)
  }

  /**
   Messages dispatched from a buffer and the tail left in it. A message whose handler tears the client down empties the
   buffer, whatever was still in it.
   */
  function Consume<M>(buf: string, decode: string -> Option<M>, tears: M -> bool): (seq<M>, string)
    decreases |buf|
  {
    var nl := IndexOf(buf, LF);
    if nl == |buf| then ([], buf)
    else
      var m := Deliver(buf[..nl], decode);
      if TearsDown(m, tears) then (ToSeq(m), "")
      else
        var rest := Consume(buf[nl + 1..], decode, tears);
        (ToSeq(m) + rest.0, rest.1)
  }

  /** The client's end of the stream. */
  class Reader<M> {
    var readTail: string
    var dispatched: seq<M>

    constructor ()
      ensures readTail == "" && dispatched == []
    {
      readTail, dispatched := "", [];
    }

    method OnRead(chunk: string, decode: string -> Option<M>, tears: M -> bool)
      modifies this
      ensures
        (dispatched, readTail) ==
          var r := Consume(old(readTail) + chunk, decode, tears);
          (old(dispatched) + r.0, r.1)
    {
      readTail := readTail + chunk;
      ghost var all := Consume(readTail, decode, tears);
      while true
        invariant old(dispatched) + all.0 == dispatched + Consume(readTail, decode, tears).0
        invariant all.1 == Consume(readTail, decode, tears).1
        decreases |readTail|
      {
        var nl := IndexOf(readTail, LF);
        if nl == |readTail| {
          assert dispatched + [] == dispatched;
          break;
        }
        ConsumeLine(dispatched, readTail, decode, tears);
        var line := readTail[..nl];
        readTail := readTail[nl + 1..];
        if Trim(line) != "" {
          var m := decode(Trim(line));
          if m.Some? {
            dispatched := dispatched + [m.value];
            if tears(m.value) {
              readTail := "";
            }
          }
        }
      }
    }
  }

  /** Taking the first line off a buffer: what it dispatches, then what the rest does. */
  lemma ConsumeLine<M>(done: seq<M>, buf: string, decode: string -> Option<M>, tears: M -> bool)
    requires IndexOf(buf, LF) < |buf|
    ensures
      var nl := IndexOf(buf, LF);
      var m := Deliver(buf[..nl], decode);
      var left := if TearsDown(m, tears) then "" else buf[nl + 1..];
      && done + Consume(buf, decode, tears).0 == (done + ToSeq(m)) + Consume(left, decode, tears).0
      && done + [] == done
      && Consume(buf, decode, tears).1 == Consume(left, decode, tears).1
  {}

  // ── chunks do not matter ──

  function Concat(chunks: seq<string>): string
  {
    if chunks == [] then "" else chunks[0] + Concat(chunks[1..])
  }

  /** Chunk after chunk through `on_read`. */
  function Feed<M>(tail: string, chunks: seq<string>, decode: string -> Option<M>, tears: M -> bool): (seq<M>, string)
    decreases |chunks|
  {
    if chunks == [] then ([], tail)
    else
      var first := Consume(tail + chunks[0], decode, tears);
      var rest := Feed(first.1, chunks[1..], decode, tears);
      (first.0 + rest.0, rest.1)
  }

  /** No complete line of the buffer tears the client down. */
  predicate Calm<M>(buf: string, decode: string -> Option<M>, tears: M -> bool)
    decreases |buf|
  {
    var nl := IndexOf(buf, LF);
    nl == |buf| || (!TearsDown(Deliver(buf[..nl], decode), tears) && Calm(buf[nl + 1..], decode, tears))
  }

  /** Appending to a buffer that has a complete line leaves its first line what it was. */
  lemma FirstLineStays(a: string, b: string)
    requires IndexOf(a, LF) < |a|
    ensures
      var nl := IndexOf(a, LF);
      IndexOf(a + b, LF) == nl && (a + b)[..nl] == a[..nl] && (a + b)[nl + 1..] == a[nl + 1..] + b
  {
    IndexOfAppend(a, b, LF);
  }

  /** A first line that tears nothing down: its message, then what the rest of the buffer does. */
  lemma UnfoldLine<M>(buf: string, nl: nat, decode: string -> Option<M>, tears: M -> bool)
    requires nl == IndexOf(buf, LF) < |buf| && !TearsDown(Deliver(buf[..nl], decode), tears)
    ensures
      var rest := Consume(buf[nl + 1..], decode, tears);
      Consume(buf, decode, tears) == (ToSeq(Deliver(buf[..nl], decode)) + rest.0, rest.1)
    ensures Calm(buf, decode, tears) <==> Calm(buf[nl + 1..], decode, tears)
  {}

  lemma Regroup<M>(m: seq<M>, x: seq<M>, y: seq<M>)
    ensures m + (x + y) == (m + x) + y && [] + y == y
  {}

  lemma {:induction false} ConsumeAppend<M>(a: string, b: string, decode: string -> Option<M>, tears: M -> bool)
    requires Calm(a, decode, tears)
    ensures
      var first := Consume(a, decode, tears);
      var rest := Consume(first.1 + b, decode, tears);
      Consume(a + b, decode, tears) == (first.0 + rest.0, rest.1)
    ensures Calm(a + b, decode, tears) <==> Calm(Consume(a, decode, tears).1 + b, decode, tears)
    decreases |a|
  {
    var nl := IndexOf(a, LF);
    if nl < |a| {
      FirstLineStays(a, b);
      UnfoldLine(a, nl, decode, tears);
      UnfoldLine(a + b, nl, decode, tears);
      ConsumeAppend(a[nl + 1..], b, decode, tears);
      var first := Consume(a[nl + 1..], decode, tears);
      Regroup(ToSeq(Deliver(a[..nl], decode)), first.0, Consume(first.1 + b, decode, tears).0);
    } else {
      Regroup([], [], Consume(a + b, decode, tears).0);
    }
  }

  /** A buffer holding no complete line is kept whole. */
  lemma {:induction false} TailHasNoNewline<M>(buf: string, decode: string -> Option<M>, tears: M -> bool)
    ensures LF !in Consume(buf, decode, tears).1
    decreases |buf|
  {
    var nl := IndexOf(buf, LF);
    if nl < |buf| {
      TailHasNoNewline(buf[nl + 1..], decode, tears);
    } else {
      assert buf[..nl] == buf;
    }
  }

  /**
   Chunk independence: as long as no dispatched message tears the client down, every way of cutting a stream into chunks
   dispatches the same messages and leaves the same tail as the whole stream at once.
   */
  lemma {:induction false} ChunksDoNotMatter<M>(
      tail: string, chunks: seq<string>, decode: string -> Option<M>, tears: M -> bool)
    requires LF !in tail
    requires Calm(tail + Concat(chunks), decode, tears)
    ensures Feed(tail, chunks, decode, tears) == Consume(tail + Concat(chunks), decode, tears)
    decreases |chunks|
  {
    if chunks == [] {
      IndexOfAppend(tail, "", LF);
      assert tail + "" == tail;
    } else {
      var a, b := tail + chunks[0], Concat(chunks[1..]);
      assert tail + Concat(chunks) == a + b;
      PrefixCalm(a, b, decode, tears);
      ConsumeAppend(a, b, decode, tears);
      TailHasNoNewline(a, decode, tears);
      ChunksDoNotMatter(Consume(a, decode, tears).1, chunks[1..], decode, tears);
    }
  }

  lemma {:induction false} PrefixCalm<M>(a: string, b: string, decode: string -> Option<M>, tears: M -> bool)
    requires Calm(a + b, decode, tears)
    ensures Calm(a, decode, tears)
    decreases |a|
  {
    var nl := IndexOf(a, LF);
    if nl < |a| {
      FirstLineStays(a, b);
      PrefixCalm(a[nl + 1..], b, decode, tears);
    }
  }

  // ── writer to reader ──

  /** What the writer task puts on the wire. */
  function Wire(lines: seq<string>): string
  {
    if lines == [] then "" else lines[0] + [LF] + Wire(lines[1..])
  }

  function DeliverAll<M>(lines: seq<string>, decode: string -> Option<M>): seq<M>
  {
    if lines == [] then [] else ToSeq(Deliver(lines[0], decode)) + DeliverAll(lines[1..], decode)
  }

  lemma {:induction false} ConsumeWire<M>(lines: seq<string>, decode: string -> Option<M>, tears: M -> bool)
    requires forall i :: 0 <= i < |lines| ==> LF !in lines[i]
    requires forall i :: 0 <= i < |lines| ==> !TearsDown(Deliver(lines[i], decode), tears)
    ensures Consume(Wire(lines), decode, tears) == (DeliverAll(lines, decode), "")
    ensures Calm(Wire(lines), decode, tears)
    decreases |lines|
  {
    if lines != [] {
      var line, rest := lines[0], lines[1..];
      assert Wire(lines) == line + ([LF] + Wire(rest));
      IndexOfAppend(line, [LF] + Wire(rest), LF);
      assert Wire(lines)[..|line|] == line;
      assert Wire(lines)[|line| + 1..] == Wire(rest);
      ConsumeWire(rest, decode, tears);
    }
  }

  /**
   However the bytes of newline-free lines arrive cut up, the reader dispatches exactly those lines' messages, in order,
   and is left with nothing pending.
   */
  lemma LinesRecovered<M>(lines: seq<string>, chunks: seq<string>, decode: string -> Option<M>, tears: M -> bool)
    requires forall i :: 0 <= i < |lines| ==> LF !in lines[i]
    requires Concat(chunks) == Wire(lines)
    requires forall i :: 0 <= i < |lines| ==> !TearsDown(Deliver(lines[i], decode), tears)
    ensures Feed("", chunks, decode, tears) == (DeliverAll(lines, decode), "")
  {
    ConsumeWire(lines, decode, tears);
    assert "" + Concat(chunks) == Wire(lines);
    ChunksDoNotMatter("", chunks, decode, tears);
  }

  /** A trimmed non-empty line reaches the decoder exactly as sent. */
  lemma LineReachesDecoder<M>(line: string, decode: string -> Option<M>)
    requires Trimmed(line) && line != ""
    ensures Deliver(line, decode) == decode(line)
  {
    TrimTrimmed(line);
  }

  /** Whatever spaces and tabs surround a line, the decoder sees what they surround; a line of nothing else delivers nothing. */
  lemma PaddingIsDropped<M>(before: string, line: string, after: string, decode: string -> Option<M>)
    requires AllLuaSpace(before) && AllLuaSpace(after) && Trimmed(line)
    ensures Deliver(before + line + after, decode) == if line == "" then None else decode(line)
  {
    TrimPadded(before, line, after);
  }

  lemma {:induction false} DeliverAllAt<M>(lines: seq<string>, decode: string -> Option<M>)
    requires forall i :: 0 <= i < |lines| ==> lines[i] != "" && Trimmed(lines[i]) && decode(lines[i]).Some?
    ensures |DeliverAll(lines, decode)| == |lines|
    ensures forall i :: 0 <= i < |lines| ==> DeliverAll(lines, decode)[i] == decode(lines[i]).value
  {
    if lines != [] {
      LineReachesDecoder(lines[0], decode);
      DeliverAllAt(lines[1..], decode);
    }
  }

  /**
   What the agent sends arrives: of lines that decode, without newlines, with nothing to trim, and none of them tearing the
   client down, message `i` is what line `i` decodes to, however the bytes were cut up.
   */
  lemma SentLinesArrive<M>(lines: seq<string>, chunks: seq<string>, decode: string -> Option<M>, tears: M -> bool)
    requires
      forall i :: 0 <= i < |lines| ==>
        && LF !in lines[i] && lines[i] != "" && Trimmed(lines[i])
        && decode(lines[i]).Some? && !tears(decode(lines[i]).value)
    requires Concat(chunks) == Wire(lines)
    ensures
      var (messages, tail) := Feed("", chunks, decode, tears);
      && tail == "" && |messages| == |lines|
      && forall i :: 0 <= i < |lines| ==> messages[i] == decode(lines[i]).value
  {
    forall i | 0 <= i < |lines| ensures !TearsDown(Deliver(lines[i], decode), tears) {
      LineReachesDecoder(lines[i], decode);
    }
    LinesRecovered(lines, chunks, decode, tears);
    DeliverAllAt(lines, decode);
  }

  // ── when chunks matter ──

  /** What follows the first line of a buffer that tears the client down. */
  function AfterTear<M>(buf: string, decode: string -> Option<M>, tears: M -> bool): string
    requires !Calm(buf, decode, tears)
    decreases |buf|
  {
    var nl := IndexOf(buf, LF);
    if TearsDown(Deliver(buf[..nl], decode), tears) then buf[nl + 1..] else AfterTear(buf[nl + 1..], decode, tears)
  }

  /** Bytes that dispatch nothing and leave nothing, wherever one starts reading them. */
  predicate Silent<M>(buf: string, decode: string -> Option<M>, tears: M -> bool)
  {
    forall q :: 0 <= q <= |buf| ==> Consume(buf[q..], decode, tears) == ([], "")
  }

  /** Once a line has torn the client down, what follows it in the buffer makes no difference. */
  lemma {:induction false} TearDropsRest<M>(a: string, b: string, decode: string -> Option<M>, tears: M -> bool)
    requires !Calm(a, decode, tears)
    ensures Consume(a + b, decode, tears) == Consume(a, decode, tears) && Consume(a, decode, tears).1 == ""
    ensures !Calm(a + b, decode, tears) && AfterTear(a + b, decode, tears) == AfterTear(a, decode, tears) + b
    decreases |a|
  {
    FirstLineStays(a, b);
    var nl := IndexOf(a, LF);
    if !TearsDown(Deliver(a[..nl], decode), tears) {
      TearDropsRest(a[nl + 1..], b, decode, tears);
    }
  }

  /** Cutting anywhere after the tearing line leaves that line in the first part. */
  lemma {:induction false} TearInFirst<M>(a: string, b: string, decode: string -> Option<M>, tears: M -> bool)
    requires !Calm(a + b, decode, tears) && |b| <= |AfterTear(a + b, decode, tears)|
    ensures !Calm(a, decode, tears)
    decreases |a|
  {
    var all := a + b;
    var nl := IndexOf(all, LF);
    AfterTearShorter(all, decode, tears);
    assert LF in a by {
      if LF !in a {
        IndexOfAppend(a, b, LF);
      }
    }
    IndexOfAppend(a, b, LF);
    FirstLineStays(a, b);
    if !TearsDown(Deliver(a[..nl], decode), tears) {
      TearInFirst(a[nl + 1..], b, decode, tears);
    }
  }

  lemma {:induction false} AfterTearShorter<M>(buf: string, decode: string -> Option<M>, tears: M -> bool)
    requires !Calm(buf, decode, tears)
    ensures
      var rest := AfterTear(buf, decode, tears);
      |rest| + IndexOf(buf, LF) < |buf| && rest == buf[|buf| - |rest|..]
    decreases |buf|
  {
    var nl := IndexOf(buf, LF);
    if !TearsDown(Deliver(buf[..nl], decode), tears) {
      AfterTearShorter(buf[nl + 1..], decode, tears);
    }
  }

  lemma TornDispatches<M>(buf: string, decode: string -> Option<M>, tears: M -> bool)
    requires IndexOf(buf, LF) < |buf| && TearsDown(Deliver(buf[..IndexOf(buf, LF)], decode), tears)
    ensures Consume(buf, decode, tears).0 != []
  {}

  /** A message that tears down is dispatched, so silent bytes tear nothing down. */
  lemma {:induction false} SilentIsCalm<M>(buf: string, decode: string -> Option<M>, tears: M -> bool)
    requires Consume(buf, decode, tears) == ([], "")
    ensures Calm(buf, decode, tears)
    decreases |buf|
  {
    var nl := IndexOf(buf, LF);
    if nl < |buf| {
      if TearsDown(Deliver(buf[..nl], decode), tears) {
        TornDispatches(buf, decode, tears);
      } else {
        UnfoldLine(buf, nl, decode, tears);
        SilentIsCalm(buf[nl + 1..], decode, tears);
      }
    }
  }

  /** Every cut of `stream`, read after `tail`, dispatches and leaves what the whole does. */
  ghost predicate CutsAgree<M>(tail: string, stream: string, decode: string -> Option<M>, tears: M -> bool)
  {
    forall chunks :: Concat(chunks) == stream ==>
      Feed(tail, chunks, decode, tears) == Consume(tail + stream, decode, tears)
  }

  lemma {:induction false} SilentTailCuts<M>(
      tail: string, chunks: seq<string>, decode: string -> Option<M>, tears: M -> bool)
    requires LF !in tail && !Calm(tail + Concat(chunks), decode, tears)
    requires Silent(AfterTear(tail + Concat(chunks), decode, tears), decode, tears)
    ensures Feed(tail, chunks, decode, tears) == Consume(tail + Concat(chunks), decode, tears)
    decreases |chunks|
  {
    if chunks == [] {
      TailIsCalm(tail, decode, tears);
    } else {
      var a, b := tail + chunks[0], Concat(chunks[1..]);
      assert tail + Concat(chunks) == a + b;
      if Calm(a, decode, tears) {
        var left := Consume(a, decode, tears).1;
        ConsumeAppend(a, b, decode, tears);
        TailHasNoNewline(a, decode, tears);
        AfterTearLater(a, b, decode, tears);
        SilentTailCuts(left, chunks[1..], decode, tears);
      } else {
        TearDropsRest(a, b, decode, tears);
        SilentRest(AfterTear(a, decode, tears), b, chunks[1..], decode, tears);
        var first := Consume(a, decode, tears);
        assert first.0 + [] == first.0;
      }
    }
  }

  /** The bytes after a silent part's beginning, cut anyhow, are silent too. */
  lemma SilentRest<M>(
      before: string, b: string, chunks: seq<string>, decode: string -> Option<M>, tears: M -> bool)
    requires Silent(before + b, decode, tears) && Concat(chunks) == b
    ensures Feed("", chunks, decode, tears) == ([], "")
  {
    assert (before + b)[|before|..] == b;
    SilentIsCalm(b, decode, tears);
    assert "" + b == b;
    ChunksDoNotMatter("", chunks, decode, tears);
  }

  lemma {:induction false} AfterTearLater<M>(a: string, b: string, decode: string -> Option<M>, tears: M -> bool)
    requires Calm(a, decode, tears) && !Calm(a + b, decode, tears)
    ensures
      var left := Consume(a, decode, tears).1;
      !Calm(left + b, decode, tears) && AfterTear(left + b, decode, tears) == AfterTear(a + b, decode, tears)
    decreases |a|
  {
    ConsumeAppend(a, b, decode, tears);
    var nl := IndexOf(a, LF);
    if nl < |a| {
      FirstLineStays(a, b);
      UnfoldLine(a, nl, decode, tears);
      AfterTearLater(a[nl + 1..], b, decode, tears);
    }
  }

  lemma TailIsCalm<M>(tail: string, decode: string -> Option<M>, tears: M -> bool)
    requires LF !in tail
    ensures Calm(tail + "", decode, tears)
  {
    IndexOfAppend(tail, "", LF);
  }

  /** A first chunk with the tearing line, and a second that is not silent: the second is lost when both come as one. */
  lemma TwoChunksDisagree<M>(tail: string, x: string, y: string, decode: string -> Option<M>, tears: M -> bool)
    requires !Calm(tail + x, decode, tears) && Consume(y, decode, tears) != ([], "")
    ensures !CutsAgree(tail, x + y, decode, tears)
  {
    var two: seq<string> := [x, y];
    ConcatTwo(x, y);
    FeedDiffers(tail, x, y, decode, tears);
    assert Concat(two) == x + y && Feed(tail, two, decode, tears) != Consume(tail + (x + y), decode, tears);
  }

  lemma ConcatTwo(x: string, y: string)
    ensures Concat([x, y]) == x + y
  {
    var one: seq<string> := [y];
    var two: seq<string> := [x, y];
    assert one[1..] == [] && two[1..] == one;
    assert Concat(one) == y + "" == y;
    assert Concat(two) == x + Concat(one);
  }

  lemma WholeTorn<M>(a: string, x: string, y: string, decode: string -> Option<M>, tears: M -> bool)
    requires !Calm(a + x, decode, tears)
    ensures Consume(a + (x + y), decode, tears) == Consume(a + x, decode, tears)
    ensures Consume(a + x, decode, tears).1 == ""
  {
    TearDropsRest(a + x, y, decode, tears);
    assert a + (x + y) == a + x + y;
  }

  lemma FeedTorn<M>(tail: string, x: string, y: string, decode: string -> Option<M>, tears: M -> bool)
    requires Consume(tail + x, decode, tears).1 == ""
    ensures
      Feed(tail, [x, y], decode, tears)
      == (Consume(tail + x, decode, tears).0 + Consume(y, decode, tears).0, Consume(y, decode, tears).1)
  {
    FeedTwo(tail, x, y, decode, tears);
  }

  lemma FeedDiffers<M>(tail: string, x: string, y: string, decode: string -> Option<M>, tears: M -> bool)
    requires !Calm(tail + x, decode, tears) && Consume(y, decode, tears) != ([], "")
    ensures Feed(tail, [x, y], decode, tears) != Consume(tail + (x + y), decode, tears)
  {
    WholeTorn(tail, x, y, decode, tears);
    FeedTorn(tail, x, y, decode, tears);
    PairDiffers(Consume(tail + x, decode, tears).0, Consume(y, decode, tears));
  }

  lemma PairDiffers<M>(d: seq<M>, s: (seq<M>, string))
    requires s != ([], "")
    ensures (d + s.0, s.1) != (d, "")
  {
    assert |d + s.0| == |d| + |s.0|;
  }

  /** Cutting so that `q` bytes after the tearing line are lost and the rest arrives afterwards. */
  lemma CutAfterTear<M>(tail: string, stream: string, q: nat, decode: string -> Option<M>, tears: M -> bool)
    requires LF !in tail && !Calm(tail + stream, decode, tears)
    requires
      var rest := AfterTear(tail + stream, decode, tears);
      q <= |rest| && Consume(rest[q..], decode, tears) != ([], "")
    ensures !CutsAgree(tail, stream, decode, tears)
  {
    var rest := AfterTear(tail + stream, decode, tears);
    AfterTearShorter(tail + stream, decode, tears);
    IndexOfAppend(tail, stream, LF);
    var m := |stream| - (|rest| - q);
    assert stream == stream[..m] + stream[m..] && stream[m..] == rest[q..];
    assert tail + stream == (tail + stream[..m]) + stream[m..];
    TearInFirst(tail + stream[..m], stream[m..], decode, tears);
    TwoChunksDisagree(tail, stream[..m], stream[m..], decode, tears);
  }

  lemma FeedTwo<M>(tail: string, x: string, y: string, decode: string -> Option<M>, tears: M -> bool)
    ensures
      var first := Consume(tail + x, decode, tears);
      var second := Consume(first.1 + y, decode, tears);
      Feed(tail, [x, y], decode, tears) == (first.0 + second.0, second.1)
    ensures Consume("" + y, decode, tears) == Consume(y, decode, tears)
  {
    var two: seq<string> := [x, y];
    assert two[1..] == [y];
    FeedOne(Consume(tail + x, decode, tears).1, y, decode, tears);
    assert "" + y == y;
  }

  lemma FeedOne<M>(tail: string, chunk: string, decode: string -> Option<M>, tears: M -> bool)
    ensures Feed(tail, [chunk], decode, tears) == Consume(tail + chunk, decode, tears)
  {
    var one: seq<string> := [chunk];
    assert one[1..] == [];
    var first := Consume(tail + chunk, decode, tears);
    assert first.0 + [] == first.0;
  }

  /**
   Exactly when chunks do not matter: all ways of cutting a stream agree with the whole if and only if no line tears the
   client down, or nothing after the first line that does is ever dispatched or kept, wherever reading resumes.
   */
  lemma ChunksAgreeIff<M>(tail: string, stream: string, decode: string -> Option<M>, tears: M -> bool)
    requires LF !in tail
    ensures
      CutsAgree(tail, stream, decode, tears) <==>
      Calm(tail + stream, decode, tears)
      || Silent(AfterTear(tail + stream, decode, tears), decode, tears)
  {
    if Calm(tail + stream, decode, tears) {
      forall chunks | Concat(chunks) == stream
        ensures Feed(tail, chunks, decode, tears) == Consume(tail + stream, decode, tears)
      {
        ChunksDoNotMatter(tail, chunks, decode, tears);
      }
    } else if Silent(AfterTear(tail + stream, decode, tears), decode, tears) {
      forall chunks | Concat(chunks) == stream
        ensures Feed(tail, chunks, decode, tears) == Consume(tail + stream, decode, tears)
      {
        SilentTailCuts(tail, chunks, decode, tears);
      }
    } else {
      var rest := AfterTear(tail + stream, decode, tears);
      var q :| 0 <= q <= |rest| && Consume(rest[q..], decode, tears) != ([], "");
      CutAfterTear(tail, stream, q, decode, tears);
    }
  }

  /** In particular a message right after a tearing line is lost in the same chunk and dispatched in the next. */
  lemma TearingMakesChunksMatter<M>(
      tail: string, line: string, second: string, after: string, decode: string -> Option<M>, tears: M -> bool)
    requires LF !in tail && LF !in line && LF !in second
    requires TearsDown(Deliver(tail + line, decode), tears) && Deliver(second, decode).Some?
    ensures !CutsAgree(tail, line + [LF] + (second + [LF] + after), decode, tears)
  {
    var rest := second + [LF] + after;
    TearsFirst(tail + line, rest, decode, tears);
    assert tail + (line + [LF] + rest) == tail + line + [LF] + rest;
    FirstDelivers(second, after, decode, tears);
    assert rest[0..] == rest;
    CutAfterTear(tail, line + [LF] + rest, 0, decode, tears);
  }

  lemma TearsFirst<M>(line: string, rest: string, decode: string -> Option<M>, tears: M -> bool)
    requires LF !in line && TearsDown(Deliver(line, decode), tears)
    ensures
      var torn := line + [LF] + rest;
      !Calm(torn, decode, tears) && AfterTear(torn, decode, tears) == rest
  {
    var torn := line + [LF] + rest;
    assert torn == line + ([LF] + rest);
    IndexOfAppend(line, [LF] + rest, LF);
    assert torn[..|line|] == line && torn[|line| + 1..] == rest;
  }

  lemma FirstDelivers<M>(line: string, after: string, decode: string -> Option<M>, tears: M -> bool)
    requires LF !in line && Deliver(line, decode).Some?
    ensures Consume(line + [LF] + after, decode, tears).0 != []
  {
    var buf := line + [LF] + after;
    assert buf == line + ([LF] + after);
    IndexOfAppend(line, [LF] + after, LF);
    assert buf[..|line|] == line;
  }
}
