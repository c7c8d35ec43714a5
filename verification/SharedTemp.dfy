/**
 Two writes of the vault at once (`write` in `native/src/vault.rs`): a save under the session mutex and a rotation or
 creation outside it both go through the one temp path. Files are inodes here, so that a writer keeps the file it opened
 whatever becomes of its name, and every byte is labelled with the write it came from.
 */
module SharedTemp {
  import opened Wrappers

  datatype Who = One | Two

  function Other(w: Who): Who
  {
    if w.One? then Two else One
  }

  /** A byte: of some earlier content, or the `k`-th of a write's image. */
  datatype Cell = Old(k: nat) | By(w: Who, k: nat)

  /** How long the two images are; a header alone is 58 bytes. */
  datatype Sizes = Sizes(one: nat, two: nat)

  function Size(z: Sizes, w: Who): nat
  {
    if w.One? then z.one else z.two
  }

  datatype Pc = Idle | Opened(ino: nat) | Filled(ino: nat) | Ended(ok: bool)

  datatype State = State(files: seq<seq<Cell>>, vault: Option<nat>, tmp: Option<nat>, one: Pc, two: Pc)

  /**
   Opening the temp path truncates what is there. `Write` is `write_all` and the sync: all of the image, or `n` bytes of it
   before an error. A rename may fail, and must when the temp path names nothing.
   */
  datatype Action = Open(w: Who, ok: bool) | Write(w: Who, n: nat, ok: bool) | Rename(w: Who, ok: bool)

  function PcOf(s: State, w: Who): Pc
  {
    if w.One? then s.one else s.two
  }

  function Goto(s: State, w: Who, pc: Pc): State
  {
    if w.One? then s.(one := pc) else s.(two := pc)
  }

  predicate IsOpen(pc: Pc)
  {
    pc.Opened? || pc.Filled?
  }

  predicate FilesOk(s: State)
  {
    && (s.vault.Some? ==> s.vault.value < |s.files|)
    && (s.tmp.Some? ==> s.tmp.value < |s.files| && s.tmp != s.vault)
    && (IsOpen(s.one) ==> s.one.ino < |s.files|) && (IsOpen(s.two) ==> s.two.ino < |s.files|)
  }

  predicate Enabled(z: Sizes, s: State, a: Action)
  {
    && FilesOk(s)
    && match a
       case Open(w, _) => PcOf(s, w).Idle?
       case Write(w, n, ok) => PcOf(s, w).Opened? && n <= Size(z, w) && (ok ==> n == Size(z, w))
       case Rename(w, ok) => PcOf(s, w).Filled? && (ok ==> s.tmp.Some?)
  }

  function Image(w: Who, n: nat): (c: seq<Cell>)
    ensures |c| == n && forall k :: 0 <= k < n ==> c[k] == By(w, k)
  {
    seq(n, k requires 0 <= k < n => By(w, k))
  }

  /** `n` bytes of a write's image laid over the beginning of a file. */
  function Overlay(c: seq<Cell>, w: Who, n: nat): seq<Cell>
  {
    Image(w, n) + if n < |c| then c[n..] else []
  }

  function Step(z: Sizes, s: State, a: Action): State
    requires Enabled(z, s, a)
  {
    match a
    case Open(w, ok) =>
      if !ok then Goto(s, w, Ended(false))
      else if s.tmp.Some? then Goto(s.(files := s.files[s.tmp.value := []]), w, Opened(s.tmp.value))
      else Goto(s.(files := s.files + [[]], tmp := Some(|s.files|)), w, Opened(|s.files|))
    case Write(w, n, ok) =>
      var ino := PcOf(s, w).ino;
      Goto(s.(files := s.files[ino := Overlay(s.files[ino], w, n)]), w, if ok then Filled(ino) else Ended(false))
    case Rename(w, ok) =>
      if ok then Goto(s.(vault := s.tmp, tmp := None), w, Ended(true)) else Goto(s, w, Ended(false))
  }

  /** What the vault path reads as. */
  function PathNow(s: State): Option<seq<Cell>>
    requires FilesOk(s)
  {
    if s.vault.Some? then Some(s.files[s.vault.value]) else None
  }

  /**
   A step is right if it leaves the path alone, or is the successful rename of a write and puts just that write's image
   there.
   */
  predicate Right(z: Sizes, s: State, a: Action)
    requires Enabled(z, s, a)
  {
    var s2 := Step(z, s, a);
    && FilesOk(s2)
    && PathNow(s2) == if a.Rename? && a.ok then Some(Image(a.w, Size(z, a.w))) else PathNow(s)
  }

  // ── the condition, on events alone ──

  /**
   `one`, `two`: since that write filled the file, the other has truncated or written it; or had written more than
   it since the last truncation. `reach`: how far the temp file has been written since that.
   */
  datatype Marks = Marks(one: bool, two: bool, reach: nat)

  const UNMARKED := Marks(false, false, 0)

  predicate Marked(m: Marks, w: Who)
  {
    if w.One? then m.one else m.two
  }

  function SetMark(m: Marks, w: Who, v: bool): Marks
  {
    if w.One? then m.(one := v) else m.(two := v)
  }

  function Mark(z: Sizes, s: State, m: Marks, a: Action): Marks
  {
    match a
    case Open(w, true) =>
      SetMark(SetMark(m, Other(w), Marked(m, Other(w)) || PcOf(s, Other(w)).Filled?), w, false).(reach := 0)
    case Write(w, n, _) =>
      var v := Other(w);
      SetMark(SetMark(m, v, Marked(m, v) || (PcOf(s, v).Filled? && n > 0)), w, m.reach > Size(z, w)).(
        reach := if m.reach < n then n else m.reach)
    case _ => m
  }

  /** No write renames once its mark is up, or writes into the file the other has already put in place. */
  predicate Guarded(s: State, m: Marks, a: Action)
  {
    && (a.Rename? && a.ok ==> !Marked(m, a.w))
    && (a.Write? && a.n > 0 && PcOf(s, a.w).Opened? ==> s.vault != Some(PcOf(s, a.w).ino))
  }

  // ── the invariant ──

  predicate Foreign(c: seq<Cell>, z: Sizes, w: Who)
  {
    c == [] || c[0] == By(Other(w), 0) || |c| > Size(z, w)
  }

  /** Where a write stands with the file it has open. */
  predicate WriterOk(z: Sizes, s: State, m: Marks, w: Who)
    requires FilesOk(s)
  {
    var pc := PcOf(s, w);
    IsOpen(pc) ==>
      var c := s.files[pc.ino];
      || (&& s.tmp == Some(pc.ino)
          && (pc.Opened? ==> c == Image(Other(w), m.reach))
          && (pc.Filled? ==> if Marked(m, w) then Foreign(c, z, w) else c == Image(w, Size(z, w))))
      || (s.tmp.None? && s.vault == Some(pc.ino) && PcOf(s, Other(w)).Ended? && c == Image(Other(w), Size(z, Other(w))))
  }

  predicate Inv(z: Sizes, s: State, m: Marks)
  {
    && z.one > 0 && z.two > 0
    && FilesOk(s) && WriterOk(z, s, m, One) && WriterOk(z, s, m, Two)
  }

  lemma OverlayOwn(w: Who, n: nat, r: nat)
    ensures r <= n ==> Overlay(Image(Other(w), r), w, n) == Image(w, n)
    ensures r > n ==> |Overlay(Image(Other(w), r), w, n)| == r
    ensures n == 0 ==> Overlay(Image(Other(w), r), w, n) == Image(Other(w), r)
  {
    assert n == 0 && r > 0 ==> Image(Other(w), r)[0..] == Image(Other(w), r);
  }

  lemma OverlayNothing(c: seq<Cell>, w: Who)
    ensures Overlay(c, w, 0) == c
  {
    assert |c| > 0 ==> c[0..] == c;
  }

  lemma OpenStep(z: Sizes, s: State, m: Marks, a: Action)
    requires Inv(z, s, m) && Enabled(z, s, a) && a.Open?
    ensures Right(z, s, a) && Guarded(s, m, a) && Inv(z, Step(z, s, a), Mark(z, s, m, a))
  {
    assert Image(Other(a.w), 0) == [];
  }

  lemma RenameStep(z: Sizes, s: State, m: Marks, a: Action)
    requires Inv(z, s, m) && Enabled(z, s, a) && a.Rename?
    ensures Right(z, s, a) <==> Guarded(s, m, a)
    ensures Right(z, s, a) ==> Inv(z, Step(z, s, a), Mark(z, s, m, a))
  {
    var w := a.w;
    var c := s.files[PcOf(s, w).ino];
    if a.ok && Marked(m, w) {
      assert Foreign(c, z, w);
      assert c != Image(w, Size(z, w)) by {
        assert Image(w, Size(z, w))[0] == By(w, 0);
      }
    }
  }

  lemma WriteStep(z: Sizes, s: State, m: Marks, a: Action)
    requires Inv(z, s, m) && Enabled(z, s, a) && a.Write?
    ensures Right(z, s, a) <==> Guarded(s, m, a)
    ensures Right(z, s, a) ==> Inv(z, Step(z, s, a), Mark(z, s, m, a))
  {
    var ino := PcOf(s, a.w).ino;
    if s.tmp == Some(ino) {
      WriteToTemp(z, s, m, a);
    } else {
      WriteToVault(z, s, m, a);
    }
  }

  lemma WriteTempRight(z: Sizes, s: State, m: Marks, a: Action)
    requires Inv(z, s, m) && Enabled(z, s, a) && a.Write? && s.tmp == Some(PcOf(s, a.w).ino)
    ensures Right(z, s, a) && Guarded(s, m, a)
  {}

  lemma WriteTempOwn(z: Sizes, s: State, m: Marks, a: Action)
    requires Inv(z, s, m) && Enabled(z, s, a) && a.Write? && s.tmp == Some(PcOf(s, a.w).ino)
    requires FilesOk(Step(z, s, a))
    ensures WriterOk(z, Step(z, s, a), Mark(z, s, m, a), a.w)
  {
    assert WriterOk(z, s, m, a.w);
    OverlayOwn(a.w, a.n, m.reach);
  }

  lemma WriteTempOther(z: Sizes, s: State, m: Marks, a: Action)
    requires Inv(z, s, m) && Enabled(z, s, a) && a.Write? && s.tmp == Some(PcOf(s, a.w).ino)
    requires FilesOk(Step(z, s, a))
    ensures WriterOk(z, Step(z, s, a), Mark(z, s, m, a), Other(a.w))
  {
    assert WriterOk(z, s, m, a.w) && WriterOk(z, s, m, Other(a.w));
    OverlayOwn(a.w, a.n, m.reach);
    var c := s.files[PcOf(s, a.w).ino];
    if a.n == 0 {
      OverlayNothing(c, a.w);
    } else {
      assert Overlay(c, a.w, a.n)[0] == By(a.w, 0);
    }
  }

  lemma WriteToTemp(z: Sizes, s: State, m: Marks, a: Action)
    requires Inv(z, s, m) && Enabled(z, s, a) && a.Write? && s.tmp == Some(PcOf(s, a.w).ino)
    ensures Right(z, s, a) && Guarded(s, m, a) && Inv(z, Step(z, s, a), Mark(z, s, m, a))
  {
    WriteTempRight(z, s, m, a);
    WriteTempOwn(z, s, m, a);
    WriteTempOther(z, s, m, a);
    assert a.w.One? || a.w.Two?;
  }

  lemma WriteToVault(z: Sizes, s: State, m: Marks, a: Action)
    requires Inv(z, s, m) && Enabled(z, s, a) && a.Write? && s.tmp != Some(PcOf(s, a.w).ino)
    ensures Right(z, s, a) <==> Guarded(s, m, a)
    ensures Right(z, s, a) ==> Inv(z, Step(z, s, a), Mark(z, s, m, a))
  {
    var c := s.files[PcOf(s, a.w).ino];
    if a.n == 0 {
      OverlayNothing(c, a.w);
    } else {
      assert Overlay(c, a.w, a.n)[0] == By(a.w, 0) && c[0] == By(Other(a.w), 0);
    }
  }

  lemma StepRightIff(z: Sizes, s: State, m: Marks, a: Action)
    requires Inv(z, s, m) && Enabled(z, s, a)
    ensures Right(z, s, a) <==> Guarded(s, m, a)
    ensures Right(z, s, a) ==> Inv(z, Step(z, s, a), Mark(z, s, m, a))
  {
    match a
    case Open(_, _) => OpenStep(z, s, m, a);
    case Write(_, _, _) => WriteStep(z, s, m, a);
    case Rename(_, _) => RenameStep(z, s, m, a);
  }

  // ── whole runs ──

  ghost predicate Possible(z: Sizes, s: State, run: seq<Action>)
    decreases |run|
  {
    run == [] || (Enabled(z, s, run[0]) && Possible(z, Step(z, s, run[0]), run[1..]))
  }

  ghost function Run(z: Sizes, s: State, run: seq<Action>): State
    requires Possible(z, s, run)
    decreases |run|
  {
    if run == [] then s else Run(z, Step(z, s, run[0]), run[1..])
  }

  ghost predicate AllRight(z: Sizes, s: State, run: seq<Action>)
    requires Possible(z, s, run)
    decreases |run|
  {
    run == [] || (Right(z, s, run[0]) && AllRight(z, Step(z, s, run[0]), run[1..]))
  }

  ghost predicate AllGuarded(z: Sizes, s: State, m: Marks, run: seq<Action>)
    requires Possible(z, s, run)
    decreases |run|
  {
    run == []
    || (Guarded(s, m, run[0]) && AllGuarded(z, Step(z, s, run[0]), Mark(z, s, m, run[0]), run[1..]))
  }

  /** Two writes yet to begin; the temp path may still name a file some earlier write gave up. */
  predicate Before(z: Sizes, s: State)
  {
    z.one > 0 && z.two > 0 && s.one.Idle? && s.two.Idle? && FilesOk(s)
  }

  lemma {:induction false} RunRightIff(z: Sizes, s: State, m: Marks, run: seq<Action>)
    requires Inv(z, s, m) && Possible(z, s, run)
    ensures AllRight(z, s, run) <==> AllGuarded(z, s, m, run)
    decreases |run|
  {
    if run != [] {
      StepRightIff(z, s, m, run[0]);
      if Right(z, s, run[0]) {
        RunRightIff(z, Step(z, s, run[0]), Mark(z, s, m, run[0]), run[1..]);
      }
    }
  }

  /**
   Exactly when two writes at once do no harm. However the two interleave, fail or stop, each step leaves the path alone or
   puts the image of a write there that reports success, if and only if
   - no write renames after the other has truncated or written the file it had filled, or had put more bytes there than it
     has itself, and
   - none writes on into a file the other has renamed since it opened it.
   */
  lemma HarmlessIff(z: Sizes, s: State, run: seq<Action>)
    requires Before(z, s) && Possible(z, s, run)
    ensures AllRight(z, s, run) <==> AllGuarded(z, s, UNMARKED, run)
  {
    RunRightIff(z, s, UNMARKED, run);
  }

  /** Whose image the path may read as: of writes that have reported success. */
  predicate Accounted(z: Sizes, start: Option<seq<Cell>>, s: State)
    requires FilesOk(s)
  {
    || PathNow(s) == start
    || (s.one == Ended(true) && PathNow(s) == Some(Image(One, z.one)))
    || (s.two == Ended(true) && PathNow(s) == Some(Image(Two, z.two)))
  }

  /** In such a run the path is complete at every moment, and a write that reports an error has left it alone. */
  lemma {:induction false} HarmlessPath(z: Sizes, start: Option<seq<Cell>>, s: State, run: seq<Action>)
    requires FilesOk(s) && Possible(z, s, run) && AllRight(z, s, run) && Accounted(z, start, s)
    ensures FilesOk(Run(z, s, run)) && Accounted(z, start, Run(z, s, run))
    decreases |run|
  {
    if run != [] {
      HarmlessPath(z, start, Step(z, s, run[0]), run[1..]);
    }
  }

  // ── one after the other ──

  /** Neither write opens or writes the file while the other is between its open and its end. */
  ghost predicate Apart(z: Sizes, s: State, run: seq<Action>)
    requires Possible(z, s, run)
    decreases |run|
  {
    run == []
    || (&& (run[0].Rename? || !IsOpen(PcOf(s, Other(run[0].w))))
        && Apart(z, Step(z, s, run[0]), run[1..]))
  }

  predicate Alone(s: State, m: Marks)
  {
    && !(IsOpen(s.one) && IsOpen(s.two)) && !m.one && !m.two
    && (s.one.Opened? || s.two.Opened? ==> m.reach == 0)
    && (IsOpen(s.one) ==> s.tmp == Some(s.one.ino)) && (IsOpen(s.two) ==> s.tmp == Some(s.two.ino))
  }

  lemma ApartStep(z: Sizes, s: State, m: Marks, a: Action)
    requires Inv(z, s, m) && Enabled(z, s, a) && Alone(s, m) && (a.Rename? || !IsOpen(PcOf(s, Other(a.w))))
    ensures Guarded(s, m, a) && Alone(Step(z, s, a), Mark(z, s, m, a))
  {}

  lemma {:induction false} ApartGuarded(z: Sizes, s: State, m: Marks, run: seq<Action>)
    requires Inv(z, s, m) && Alone(s, m) && Possible(z, s, run) && Apart(z, s, run)
    ensures AllGuarded(z, s, m, run)
    decreases |run|
  {
    if run != [] {
      ApartStep(z, s, m, run[0]);
      StepRightIff(z, s, m, run[0]);
      ApartGuarded(z, Step(z, s, run[0]), Mark(z, s, m, run[0]), run[1..]);
    }
  }

  /** In particular: with no truncation or write of one between the other's open and its end, nothing goes wrong. */
  lemma ApartIsHarmless(z: Sizes, s: State, run: seq<Action>)
    requires Before(z, s) && Possible(z, s, run) && Apart(z, s, run)
    ensures AllRight(z, s, run)
  {
    ApartGuarded(z, s, UNMARKED, run);
    HarmlessIff(z, s, run);
  }

  // ── what goes wrong otherwise ──

  lemma RunFirst(z: Sizes, s: State, a: Action, rest: seq<Action>)
    requires Enabled(z, s, a) && Possible(z, Step(z, s, a), rest)
    ensures Possible(z, s, [a] + rest) && Run(z, s, [a] + rest) == Run(z, Step(z, s, a), rest)
  {
    assert ([a] + rest)[1..] == rest;
  }

  /** A rotation fills the temp file, a save opens it, the rotation renames it; then the save writes and cannot rename. */
  function Collision(z: Sizes): (r: (seq<Action>, seq<Action>))
  {
    ([Open(One, true)] + ([Write(One, z.one, true)] + ([Open(Two, true)] + ([Rename(One, true)] + []))),
     [Write(Two, z.two, true)] + ([Rename(Two, false)] + []))
  }

  /**
   From every state with two writes to begin: the first reports success while the path reads as an empty file, and in the
   end the path holds the image of the second, which reports an error.
   */
  lemma FailedWriteReplacesVault(z: Sizes, s: State)
    requires Before(z, s)
    ensures
      var (first, second) := Collision(z);
      && Possible(z, s, first)
      && var m := Run(z, s, first);
         && FilesOk(m) && m.one == Ended(true) && PathNow(m) == Some([])
         && Possible(z, m, second)
         && var e := Run(z, m, second);
            FilesOk(e) && e.one == Ended(true) && e.two == Ended(false) && PathNow(e) == Some(Image(Two, z.two))
  {
    var s1 := Step(z, s, Open(One, true));
    var s2 := Step(z, s1, Write(One, z.one, true));
    var s3 := Step(z, s2, Open(Two, true));
    var m := Step(z, s3, Rename(One, true));
    RunFirst(z, s3, Rename(One, true), []);
    RunFirst(z, s2, Open(Two, true), [Rename(One, true)] + []);
    RunFirst(z, s1, Write(One, z.one, true), [Open(Two, true)] + ([Rename(One, true)] + []));
    RunFirst(z, s, Open(One, true), [Write(One, z.one, true)] + ([Open(Two, true)] + ([Rename(One, true)] + [])));
    CollisionEnds(z, m);
  }

  lemma CollisionEnds(z: Sizes, m: State)
    requires FilesOk(m) && m.one == Ended(true) && m.two.Opened? && m.vault == Some(m.two.ino) && m.tmp.None?
    requires m.files[m.two.ino] == []
    ensures
      var second := Collision(z).1;
      && Possible(z, m, second)
      && var e := Run(z, m, second);
         FilesOk(e) && e.one == Ended(true) && e.two == Ended(false) && PathNow(e) == Some(Image(Two, z.two))
  {
    var m1 := Step(z, m, Write(Two, z.two, true));
    assert Overlay([], Two, z.two) == Image(Two, z.two);
    RunFirst(z, m1, Rename(Two, false), []);
    RunFirst(z, m, Write(Two, z.two, true), [Rename(Two, false)] + []);
  }
}
