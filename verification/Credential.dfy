/**
 The `git-credential` helper (`native/src/credential.rs`): git's key=value protocol on one side, a blocking request to
 the agent on the other. Byte streams are strings here; their UTF-8 encoding is not modelled.
 */
module Credential {
  import opened Bytes
  import opened Entries
  import opened Framing
  import opened Text
  import opened Wrappers
  import W = Wallet

  // ── blocking reads ──

  datatype ReadResult = Got(c: char) | End | Failed

  /** A stream read one byte at a time; a broken one ends in an error instead of an end of file. */
  class ByteSource {
    var rest: string
    const broken: bool

    constructor (content: string, broken: bool)
      ensures rest == content && this.broken == broken
    {
      rest, this.broken := content, broken;
    }

    method Read() returns (r: ReadResult)
      modifies this`rest
      ensures
        if old(rest) == "" then rest == "" && r == (if broken then Failed else End)
        else r == ReadResult.Got(old(rest)[0]) && rest == old(rest)[1..]
    {
      if rest == "" {
        return if broken then Failed else End;
      }
      r, rest := ReadResult.Got(rest[0]), rest[1..];
    }
  }

  /** One line: the bytes read counting the newline (0 at end of file, nothing on an error), the line, what is left. */
  function TakeLine(s: string, broken: bool): (Option<nat>, string, string)
  {
    var nl := IndexOf(s, LF);
    if nl < |s| then (Some(nl + 1), s[..nl], s[nl + 1..])
    else (if broken then None else Some(|s|), s, "")
  }

  lemma TakeLineOf(line: string, tail: string, broken: bool)
    requires LF !in line
    ensures TakeLine(line + [LF] + tail, broken) == (Some(|line| + 1), line, tail)
    ensures TakeLine(line, broken) == (if broken then None else Some(|line|), line, "")
  {
    assert line + [LF] + tail == line + ([LF] + tail) && line + "" == line;
    IndexOfAppend(line, [LF] + tail, LF);
    IndexOfAppend(line, "", LF);
    assert (line + ([LF] + tail))[|line| + 1..] == tail;
  }

  method ReadLine(src: ByteSource) returns (n: Option<nat>, buf: string)
    modifies src`rest
    ensures (n, buf, src.rest) == TakeLine(old(src.rest), src.broken)
  {
    buf := "";
    var count := 0;
    while true
      invariant old(src.rest) == buf + src.rest
      invariant LF !in buf && count == |buf|
      decreases |src.rest|
    {
      ghost var left := src.rest;
      var r := src.Read();
      match r {
        case End =>
          assert old(src.rest) == buf;
          TakeLineOf(buf, "", src.broken);
          return Some(count), buf;
        case Failed =>
          assert old(src.rest) == buf;
          TakeLineOf(buf, "", src.broken);
          return None, buf;
        case Got(c) =>
          count := count + 1;
          assert buf + left == buf + [c] + src.rest;
          if c == LF {
            TakeLineOf(buf, src.rest, src.broken);
            return Some(count), buf;
          }
          buf := buf + [c];
      }
    }
  }

  // ── the reply to a request ──

  datatype Message<+B> = Message(id: Option<nat>, body: B)

  /** The message the request loop settles on: the first with id 1, unless the stream or the parser gives out before it. */
  function Select<B>(s: string, broken: bool, parse: string -> Option<Message<B>>): Option<Message<B>>
    decreases |s|
  {
    var (n, line, left) := TakeLine(s, broken);
    if n.None? || n.value == 0 then None
    else if parse(line).None? then None
    else if parse(line).value.id != Some(1) then Select(left, broken, parse)
    else parse(line)
  }

  method ReadReply<B>(src: ByteSource, parse: string -> Option<Message<B>>) returns (reply: Option<Message<B>>)
    modifies src`rest
    ensures reply == Select(old(src.rest), src.broken, parse)
  {
    while true
      invariant Select(src.rest, src.broken, parse) == Select(old(src.rest), src.broken, parse)
      decreases |src.rest|
    {
      var n, buf := ReadLine(src);
      if n.None? || n.value == 0 {
        return None;
      }
      var msg := parse(buf);
      if msg.None? {
        return None;
      }
      if msg.value.id != Some(1) {
        continue;
      }
      return msg;
    }
  }

  predicate Skipped<B>(line: string, parse: string -> Option<Message<B>>)
  {
    parse(line).Some? && parse(line).value.id != Some(1)
  }

  predicate IsReply<B>(line: string, parse: string -> Option<Message<B>>)
  {
    parse(line).Some? && parse(line).value.id == Some(1)
  }

  /** Whatever notifications come first, and whatever follows, the reply read is the reply sent. */
  lemma {:induction false} NotificationsDoNotChangeReply<B>(
      notes: seq<string>, reply: string, after: string, broken: bool, parse: string -> Option<Message<B>>)
    requires LF !in reply && IsReply(reply, parse)
    requires forall i :: 0 <= i < |notes| ==> LF !in notes[i] && Skipped(notes[i], parse)
    ensures Select(Wire(notes) + (reply + [LF] + after), broken, parse) == parse(reply)
  {
    var last := reply + [LF] + after;
    if notes == [] {
      assert Wire(notes) + last == last;
      TakeLineOf(reply, after, broken);
    } else {
      var rest := Wire(notes[1..]) + last;
      assert Wire(notes) + last == notes[0] + [LF] + rest;
      TakeLineOf(notes[0], rest, broken);
      NotificationsDoNotChangeReply(notes[1..], reply, after, broken, parse);
    }
  }

  /** A message is selected from whole lines exactly when a reply comes after nothing but well-formed notifications. */
  lemma {:induction false} ReplySelectedIff<B>(lines: seq<string>, broken: bool, parse: string -> Option<Message<B>>)
    requires forall i :: 0 <= i < |lines| ==> LF !in lines[i]
    ensures
      Select(Wire(lines), broken, parse).Some? <==>
      exists i :: 0 <= i < |lines| && IsReply(lines[i], parse) && forall j :: 0 <= j < i ==> Skipped(lines[j], parse)
  {
    if lines != [] {
      var rest := lines[1..];
      assert Wire(lines) == lines[0] + [LF] + Wire(rest);
      TakeLineOf(lines[0], Wire(rest), broken);
      ReplySelectedIff(rest, broken, parse);
      if Skipped(lines[0], parse) {
        if i :| 0 <= i < |rest| && IsReply(rest[i], parse) && forall j :: 0 <= j < i ==> Skipped(rest[j], parse) {
          assert IsReply(lines[i + 1], parse);
          assert forall j :: 0 <= j < i + 1 ==> Skipped(lines[j], parse);
        }
        if i :| 0 <= i < |lines| && IsReply(lines[i], parse) && forall j :: 0 <= j < i ==> Skipped(lines[j], parse) {
          assert IsReply(rest[i - 1], parse);
          forall j | 0 <= j < i - 1 ensures Skipped(rest[j], parse) {
            assert Skipped(lines[j + 1], parse);
          }
        }
      }
    }
  }

  // ── git's attributes ──

  type Attributes = map<string, string>

  function StripCr(line: string): string
  {
    if line != "" && line[|line| - 1] == CR then line[..|line| - 1] else line
  }

  /** `BufRead::lines`: a line without its `\n` or `\r\n`; an unterminated last line is taken as it is. */
  function NextLine(s: string, broken: bool): Option<(string, string)>
  {
    var (n, line, left) := TakeLine(s, broken);
    if n.None? || n.value == 0 then None
    else if n.value == |line| then Some((line, left))
    else Some((StripCr(line), left))
  }

  function WithLine(attrs: Attributes, line: string): Attributes
  {
    var eq := IndexOf(line, '=');
    if eq < |line| then attrs[line[..eq] := line[eq + 1..]] else attrs
  }

  /** The attributes in a stream, added to those already read, up to a blank line or the end. */
  function Attrs(s: string, broken: bool, seen: Attributes): Attributes
    decreases |s|
  {
    var next := NextLine(s, broken);
    if next.None? || next.value.0 == "" then seen
    else Attrs(next.value.1, broken, WithLine(seen, next.value.0))
  }

  method ReadAttrs(stdin: ByteSource) returns (attrs: Attributes)
    modifies stdin`rest
    ensures attrs == Attrs(old(stdin.rest), stdin.broken, map[])
  {
    attrs := map[];
    while true
      invariant Attrs(stdin.rest, stdin.broken, attrs) == Attrs(old(stdin.rest), stdin.broken, map[])
      decreases |stdin.rest|
    {
      var next := NextLine(stdin.rest, stdin.broken);
      if next.None? {
        break;
      }
      var line := next.value.0;
      stdin.rest := next.value.1;
      if line == "" {
        break;
      }
      var eq := IndexOf(line, '=');
      if eq < |line| {
        attrs := attrs[line[..eq] := line[eq + 1..]];
      }
    }
  }

  function Assign(key: string, value: string): string
  {
    key + "=" + value + [LF]
  }

  /** What `get` prints. */
  function Printed(user: Option<string>, password: string): string
  {
    (if user.Some? then Assign("username", user.value) else "") + Assign("password", password)
  }

  function AsAttrs(user: Option<string>, password: string): Attributes
  {
    if user.Some? then map["username" := user.value, "password" := password] else map["password" := password]
  }

  /** A value one line of the protocol can carry. */
  predicate Plain(v: string)
  {
    LF !in v && StripCr(v) == v
  }

  lemma SplitOnce(key: string, value: string, seen: Attributes)
    requires '=' !in key
    ensures WithLine(seen, key + "=" + value) == seen[key := value]
  {
    var line := key + "=" + value;
    assert line == key + ("=" + value);
    IndexOfAppend(key, "=" + value, '=');
    assert line[..|key|] == key && line[|key| + 1..] == value;
  }

  lemma StripAssigned(key: string, value: string)
    ensures StripCr(key + "=" + value) == key + "=" + StripCr(value)
  {
    var line := key + "=" + value;
    assert value != "" ==> line[|line| - 1] == value[|value| - 1];
  }

  lemma NextAssigned(key: string, value: string, tail: string, broken: bool)
    requires LF !in key && LF !in value
    ensures NextLine(Assign(key, value) + tail, broken) == Some((key + "=" + StripCr(value), tail))
  {
    TakeLineOf(key + "=" + value, tail, broken);
    StripAssigned(key, value);
  }

  lemma AttrLine(key: string, value: string, tail: string, broken: bool, seen: Attributes)
    requires '=' !in key && LF !in key && LF !in value
    ensures Attrs(Assign(key, value) + tail, broken, seen) == Attrs(tail, broken, seen[key := StripCr(value)])
  {
    NextAssigned(key, value, tail, broken);
    SplitOnce(key, StripCr(value), seen);
  }

  lemma {:induction false} AttrsHoldNoNewline(s: string, broken: bool, seen: Attributes, key: string)
    requires key in seen ==> LF !in seen[key]
    requires key in Attrs(s, broken, seen)
    ensures LF !in Attrs(s, broken, seen)[key]
    decreases |s|
  {
    var next := NextLine(s, broken);
    if next.Some? && next.value.0 != "" {
      LineHasNoNewline(s, broken);
      AttrsHoldNoNewline(next.value.1, broken, WithLine(seen, next.value.0), key);
    }
  }

  lemma LineHasNoNewline(s: string, broken: bool)
    requires NextLine(s, broken).Some?
    ensures LF !in NextLine(s, broken).value.0
  {
    var nl := IndexOf(s, LF);
    assert nl == |s| ==> s[..nl] == s;
  }

  lemma PlainOnesPrinted(user: Option<string>, password: string)
    requires LF !in password && (user.Some? ==> LF !in user.value)
    ensures
      Attrs(Printed(user, password), false, map[])
      == AsAttrs(if user.Some? then Some(StripCr(user.value)) else None, StripCr(password))
  {
    var last := Assign("password", password);
    assert last + "" == last;
    if user.Some? {
      AttrLine("username", user.value, last, false, map[]);
      AttrLine("password", password, "", false, map["username" := StripCr(user.value)]);
    } else {
      AttrLine("password", password, "", false, map[]);
      assert "" + last == last;
    }
  }

  /**
   What `get` prints reads back as the same user and password exactly when neither holds a newline or ends in a carriage
   return, whatever else they hold ('=' included).
   */
  lemma PrintedReadsBackIff(user: Option<string>, password: string)
    ensures
      Attrs(Printed(user, password), false, map[]) == AsAttrs(user, password)
      <==> Plain(password) && (user.Some? ==> Plain(user.value))
  {
    var read := Attrs(Printed(user, password), false, map[]);
    if LF in password {
      if read == AsAttrs(user, password) {
        AttrsHoldNoNewline(Printed(user, password), false, map[], "password");
      }
    } else if user.Some? && LF in user.value {
      if read == AsAttrs(user, password) {
        AttrsHoldNoNewline(Printed(user, password), false, map[], "username");
      }
    } else {
      PlainOnesPrinted(user, password);
      var stripped := if user.Some? then Some(StripCr(user.value)) else None;
      if AsAttrs(stripped, StripCr(password)) == AsAttrs(user, password) {
        assert AsAttrs(stripped, StripCr(password))["password"] == AsAttrs(user, password)["password"];
        assert user.Some? ==> AsAttrs(stripped, StripCr(password))["username"] == AsAttrs(user, password)["username"];
      }
    }
  }

  // ── the helper against the wallet ──

  datatype Op = GetOp | StoreOp | EraseOp | OtherOp

  /** What becomes of one request to the agent. */
  datatype Net = Works | Unreachable | ReplyLost

  /** Conditions of one run: the agent's clock and disk, and the fate of the first and second request. */
  datatype Conditions = Conditions(ts: U64, faults: W.Faults, first: Net, second: Net)

  function Git(host: string): string
  {
    "git/" + host
  }

  function Forge(host: string): string
  {
    "forge/" + host
  }

  function StoreChange(host: string, password: string, user: Option<string>): Change
  {
    Set(Git(host), Some(password), if user.Some? then Some(MetaIn(user, None, None, None, None)) else None)
  }

  function Attr(attrs: Attributes, key: string): Option<string>
  {
    if key in attrs then Some(attrs[key]) else None
  }

  /** One request: the wallet afterwards and the reply, if one came. */
  function Rpc(w: W.State, r: W.Request, c: Conditions, net: Net): (W.State, Option<W.Response>)
  {
    if net.Unreachable? then (w, None)
    else
      var (after, reply) := W.Step(w, r, c.ts, c.faults);
      (after, if net.Works? then Some(reply) else None)
  }

  type Credentials = (string, Option<string>)

  /** A wallet entry as an answer, if it is there and the wallet is unlocked. */
  function Held(w: W.State, name: string, net: Net): Option<Credentials>
  {
    if net.Works? && w.live.Some? && name in w.live.value.entries then
      var e := w.live.value.entries[name];
      Some((e.value, e.user))
    else None
  }

  /** `git/<host>`, and `forge/<host>` when that gives nothing. */
  function Found(w: W.State, host: string, c: Conditions): Option<Credentials>
  {
    var own := Held(w, Git(host), c.first);
    if own.Some? then own else Held(w, Forge(host), c.second)
  }

  function Shown(attrs: Attributes, found: Option<Credentials>): string
  {
    if found.None? then ""
    else Printed(if "username" in attrs then Some(attrs["username"]) else found.value.1, found.value.0)
  }

  /** What a run leaves of the wallet and prints. */
  function Effect(w: W.State, op: Op, attrs: Attributes, c: Conditions): (W.State, string)
  {
    if "host" !in attrs then (w, "")
    else
      var host := attrs["host"];
      match op
      case GetOp => (w, Shown(attrs, Found(w, host, c)))
      case StoreOp =>
        if "password" !in attrs then (w, "")
        else
          var change := StoreChange(host, attrs["password"], Attr(attrs, "username"));
          (Rpc(w, W.Alter(change, false), c, c.first).0, "")
      case EraseOp => (Rpc(w, W.Alter(Delete(Git(host)), false), c, c.first).0, "")
      case OtherOp => (w, "")
  }

  /** A request the agent answers at once, even when it is locked: a read, a store or an erase that does not wait. */
  predicate NeverBlocks(r: W.Request)
  {
    (r.Get? || r.Alter?) && r.wait == false
  }

  /** The helper process: short-lived, with the agent's wallet at the other end of its socket. */
  class Helper {
    var wallet: W.State
    var sent: seq<W.Request>    // what it has asked the agent, oldest first

    constructor (w: W.State)
      ensures wallet == w && sent == []
    {
      wallet, sent := w, [];
    }

    method Request(r: W.Request, c: Conditions, net: Net) returns (reply: Option<W.Response>)
      modifies this
      ensures (wallet, reply) == Rpc(old(wallet), r, c, net)
      ensures sent == old(sent) + [r]
    {
      sent := sent + [r];
      if net.Unreachable? {
        return None;
      }
      var out := W.Step(wallet, r, c.ts, c.faults);
      wallet := out.0;
      return if net.Works? then Some(out.1) else None;
    }

    method Lookup(host: string, c: Conditions) returns (found: Option<Credentials>)
      modifies this
      ensures wallet == old(wallet) && found == Found(wallet, host, c)
      ensures
        var own, forge := W.Get("git/" + host, false), W.Get("forge/" + host, false);
        sent == old(sent) + if Held(wallet, "git/" + host, c.first).Some? then [own] else [own, forge]
    {
      var names, nets := [Git(host), Forge(host)], [c.first, c.second];
      for i := 0 to 2
        invariant wallet == old(wallet)
        invariant
          sent == old(sent)
          + [W.Get("git/" + host, false), W.Get("forge/" + host, false)][..i]
        invariant forall j :: 0 <= j < i ==> Held(wallet, names[j], nets[j]).None?
      {
        var msg := Request(W.Get(names[i], false), c, nets[i]);
        assert i == 1 ==> Held(wallet, names[0], nets[0]).None?;
        if msg.Some? && msg.value.Got? {
          return Some((msg.value.entry.value, msg.value.entry.user));
        }
      }
      assert Held(wallet, names[0], nets[0]).None? && Held(wallet, names[1], nets[1]).None?;
      return None;
    }

    method Run(op: Op, stdin: ByteSource, c: Conditions) returns (out: string)
      modifies this, stdin`rest
      ensures (wallet, out) == Effect(old(wallet), op, Attrs(old(stdin.rest), stdin.broken, map[]), c)
      ensures |old(sent)| <= |sent| <= |old(sent)| + 2 && sent[..|old(sent)|] == old(sent)
      ensures forall i :: |old(sent)| <= i < |sent| ==> NeverBlocks(sent[i])
    {
      out := "";
      var attrs := ReadAttrs(stdin);
      if "host" !in attrs {
        return;
      }
      var host := attrs["host"];
      match op {
        case GetOp =>
          var found := Lookup(host, c);
          if found.Some? {
            var user := if "username" in attrs then Some(attrs["username"]) else found.value.1;
            if user.Some? {
              out := Assign("username", user.value);
            }
            out := out + Assign("password", found.value.0);
          }
        case StoreOp =>
          if "password" in attrs {
            var change := StoreChange(host, attrs["password"], Attr(attrs, "username"));
            var _ := Request(W.Alter(change, false), c, c.first);
          }
        case EraseOp =>
          var _ := Request(W.Alter(Delete(Git(host)), false), c, c.first);
        case OtherOp =>
      }
    }
  }

  // ── what git can rely on ──

  /** The user `get` reports after a store: the one stored, or the one the entry had when none was given. */
  function UserAfterStore(w: W.State, host: string, user: Option<string>): Option<string>
    requires w.live.Some?
  {
    if user.Some? then NonEmpty(user.value)
    else if "git/" + host in w.live.value.entries then w.live.value.entries["git/" + host].user
    else None
  }

  lemma NameNotBlank(host: string)
    ensures !IsBlank(Git(host)) && Git(host) != Forge(host)
  {
    assert !IsWhitespace(Git(host)[0]);
    assert Git(host)[0] != Forge(host)[0];
  }

  lemma StoreLeaves(w: W.State, attrs: Attributes, c: Conditions)
    requires w.live.Some? && !c.first.Unreachable? && "host" in attrs && "password" in attrs
    ensures
      var after := Effect(w, StoreOp, attrs, c).0;
      var host := attrs["host"];
      && after.live.Some? && "git/" + host in after.live.value.entries
      && after.live.value.entries["git/" + host].value == attrs["password"]
      && after.live.value.entries["git/" + host].user == UserAfterStore(w, host, Attr(attrs, "username"))
  {
    NameNotBlank(attrs["host"]);
  }

  /**
   Store, then get for the same host: the answer is the password just stored and, unless git names one itself, the user
   stored with it. This holds even when the agent could not save the change to disk, or the reply to the store was lost.
   */
  lemma StoreThenGet(w: W.State, stored: Attributes, asked: Attributes, c: Conditions, d: Conditions)
    requires w.live.Some? && !c.first.Unreachable? && d.first.Works?
    requires "host" in stored && "password" in stored && "host" in asked && asked["host"] == stored["host"]
    ensures
      var after := Effect(w, StoreOp, stored, c).0;
      var user :=
        if "username" in asked then Some(asked["username"])
        else UserAfterStore(w, stored["host"], Attr(stored, "username"));
      var out := Effect(after, GetOp, asked, d).1;
      && out == Printed(user, stored["password"])
      && (Attrs(out, false, map[]) == AsAttrs(user, stored["password"])
          <==> Plain(stored["password"]) && (user.Some? ==> Plain(user.value)))
  {
    StoreLeaves(w, stored, c);
    var user :=
      if "username" in asked then Some(asked["username"])
      else UserAfterStore(w, stored["host"], Attr(stored, "username"));
    PrintedReadsBackIff(user, stored["password"]);
  }

  /** After an erase, `get` answers what `forge/<host>` held before it, or nothing. */
  lemma EraseFallsBack(w: W.State, erased: Attributes, asked: Attributes, c: Conditions, d: Conditions)
    requires w.live.Some? && !c.first.Unreachable?
    requires "host" in erased && "host" in asked && asked["host"] == erased["host"]
    ensures
      var after := Effect(w, EraseOp, erased, c).0;
      var forge := "forge/" + erased["host"];
      Effect(after, GetOp, asked, d).1 ==
      if d.second.Works? && forge in w.live.value.entries then
        var e := w.live.value.entries[forge];
        Printed(if "username" in asked then Some(asked["username"]) else e.user, e.value)
      else ""
  {
    NameNotBlank(erased["host"]);
  }

  /**
   No run changes an entry other than `git/<host>`, locks or unlocks the wallet, or writes anything but the live map to
   disk; and only `store` and `erase` change anything.
   */
  lemma OnlyGitHostChanges(w: W.State, op: Op, attrs: Attributes, c: Conditions, n: string)
    requires "host" in attrs ==> n != "git/" + attrs["host"]
    ensures
      var after := Effect(w, op, attrs, c).0;
      && (after.live.Some? <==> w.live.Some?)
      && (after.file == w.file || after.file == after.live)
      && (w.live.Some? ==>
            && after.live.value.pw == w.live.value.pw
            && (n in after.live.value.entries <==> n in w.live.value.entries)
            && (n in w.live.value.entries ==> after.live.value.entries[n] == w.live.value.entries[n]))
      && (op.GetOp? || op.OtherOp? ==> after == w)
  {}

  /** Against a locked wallet every operation is silent and changes nothing. */
  lemma LockedIsSilent(w: W.State, op: Op, attrs: Attributes, c: Conditions)
    requires w.live.None?
    ensures Effect(w, op, attrs, c) == (w, "")
  {}

  /** `get` prints something exactly when the wallet is unlocked and one of the two names is held and its request works. */
  lemma AnswersIff(w: W.State, attrs: Attributes, c: Conditions)
    ensures
      Effect(w, GetOp, attrs, c).1 != "" <==>
      && "host" in attrs && w.live.Some?
      && (|| ("git/" + attrs["host"] in w.live.value.entries && c.first.Works?)
          || ("forge/" + attrs["host"] in w.live.value.entries && c.second.Works?))
  {}
}
