/**
 Moving plaintext secrets into the wallet without clobbering: `M.migrate` of `lua/lvim-keyring/init.lua` and `M.run` of
 `lua/lvim-keyring/import.lua`, whose replies come back in any order, some even while the loop that sends is running.
 */
module Migration {
  import opened Bytes
  import opened Entries
  import opened Text
  import opened Wrappers
  import W = Wallet

  datatype Candidate = Candidate(name: string, value: string, meta: Option<MetaIn>)

  datatype Fate = Stored | Skipped | Failed

  /** The loop's position, the requests still unanswered, and what became of the others, in the order it was learnt. */
  datatype Book = Book(next: nat, waiting: set<nat>, log: seq<(nat, Fate)>)

  const BLANK := Book(0, {}, [])

  /** The loop body for the next candidate. */
  function Visit(b: Book, skip: bool): Book
  {
    if skip then Book(b.next + 1, b.waiting, b.log + [(b.next, Skipped)])
    else Book(b.next + 1, b.waiting + {b.next}, b.log)
  }

  /** A request's callback. */
  function Resolve(b: Book, k: nat, ok: bool): Book
  {
    Book(b.next, b.waiting - {k}, b.log + [(k, if ok then Stored else Failed)])
  }

  /** How often candidate `k` has been reported. */
  function Times(log: seq<(nat, Fate)>, k: nat): nat
  {
    if log == [] then 0 else Times(log[..|log| - 1], k) + if log[|log| - 1].0 == k then 1 else 0
  }

  /** Every candidate visited is either unanswered or reported, and never both or twice. */
  ghost predicate BookOk(b: Book, n: nat)
  {
    && b.next <= n
    && |b.log| + |b.waiting| == b.next
    && forall k: nat :: Times(b.log, k) + (if k in b.waiting then 1 else 0) == if k < b.next then 1 else 0
  }

  predicate Complete(b: Book, n: nat)
  {
    b.next == n && b.waiting == {}
  }

  lemma TimesAppend(log: seq<(nat, Fate)>, x: (nat, Fate), k: nat)
    ensures Times(log + [x], k) == Times(log, k) + if x.0 == k then 1 else 0
  {
    assert (log + [x])[..|log|] == log;
  }

  lemma VisitKeepsOk(b: Book, skip: bool, n: nat)
    requires BookOk(b, n) && b.next < n
    ensures BookOk(Visit(b, skip), n)
  {
    forall k: nat
      ensures Times(Visit(b, skip).log, k) + (if k in Visit(b, skip).waiting then 1 else 0) == if k <= b.next then 1 else 0
    {
      TimesAppend(b.log, (b.next, Skipped), k);
      assert Times(b.log, b.next) + (if b.next in b.waiting then 1 else 0) == 0;
    }
    assert b.next !in b.waiting;
  }

  lemma ResolveKeepsOk(b: Book, k: nat, ok: bool, n: nat)
    requires BookOk(b, n) && k in b.waiting
    ensures BookOk(Resolve(b, k, ok), n)
  {
    var after := Resolve(b, k, ok);
    forall j: nat
      ensures Times(after.log, j) + (if j in after.waiting then 1 else 0) == if j < b.next then 1 else 0
    {
      TimesAppend(b.log, (k, if ok then Stored else Failed), j);
    }
  }

  /** The whole list has been reported exactly when the loop is over and nothing is unanswered. */
  lemma CompleteIff(b: Book, n: nat)
    requires BookOk(b, n)
    ensures |b.log| == n <==> Complete(b, n)
  {}

  /** At the end each candidate has been reported once: stored, skipped or failed. */
  lemma ReportedOnce(b: Book, n: nat, k: nat)
    requires BookOk(b, n) && Complete(b, n)
    ensures Times(b.log, k) == if k < n then 1 else 0
  {
    assert Times(b.log, k) + (if k in b.waiting then 1 else 0) == if k < b.next then 1 else 0;
  }

  // ── what the two callers keep of the book ──

  /** The names reported with one fate, in order. */
  function Named(log: seq<(nat, Fate)>, fate: Fate, cands: seq<Candidate>): seq<string>
  {
    if log == [] then []
    else
      var (k, f) := log[|log| - 1];
      Named(log[..|log| - 1], fate, cands) + if f == fate && k < |cands| then [cands[k].name] else []
  }

  function Tally(log: seq<(nat, Fate)>, fate: Fate): nat
  {
    if log == [] then 0 else Tally(log[..|log| - 1], fate) + if log[|log| - 1].1 == fate then 1 else 0
  }

  lemma {:induction false} TalliesAddUp(log: seq<(nat, Fate)>)
    ensures Tally(log, Stored) + Tally(log, Skipped) + Tally(log, Failed) == |log|
  {
    if log != [] {
      TalliesAddUp(log[..|log| - 1]);
    }
  }

  /** Reporting one more changes one list and one count. */
  lemma LogOne(log: seq<(nat, Fate)>, k: nat, fate: Fate, cands: seq<Candidate>)
    requires k < |cands|
    ensures
      forall f :: Named(log + [(k, fate)], f, cands) == Named(log, f, cands) + if f == fate then [cands[k].name] else []
    ensures forall f :: Tally(log + [(k, fate)], f) == Tally(log, f) + if f == fate then 1 else 0
  {
    assert (log + [(k, fate)])[..|log|] == log;
  }

  /** The list `ipairs` walks, with the answer each request got before `set` returned, if it got one then. */
  function Loop(b: Book, cands: seq<Candidate>, present: set<string>, early: seq<Option<bool>>): Book
    requires |early| == |cands|
    decreases |cands| - b.next
  {
    if b.next >= |cands| then b
    else
      var k := b.next;
      var skip := cands[k].name in present;
      var sent := Visit(b, skip);
      Loop(if !skip && early[k].Some? then Resolve(sent, k, early[k].value) else sent, cands, present, early)
  }

  datatype Outcome = Outcome(stored: seq<string>, skipped: seq<string>, failed: seq<string>)

  function OutcomeOf(log: seq<(nat, Fate)>, cands: seq<Candidate>): Outcome
  {
    Outcome(Named(log, Stored, cands), Named(log, Skipped, cands), Named(log, Failed, cands))
  }

  /** `M.migrate` from the moment the list of present names has arrived. */
  class Migrate {
    const candidates: seq<Candidate>
    const present: set<string>
    var outcome: Outcome
    var pending: int
    var calls: seq<Outcome>     // what `cb` was called with
    ghost var book: Book

    ghost predicate Valid()
      reads this
    {
      && BookOk(book, |candidates|)
      && candidates != []
      && outcome == OutcomeOf(book.log, candidates)
      && pending == |candidates| - |book.log|
      && calls == (if Complete(book, |candidates|) then [outcome] else [])
    }

    constructor (candidates: seq<Candidate>, present: set<string>)
      requires candidates != []
      ensures Valid() && book == BLANK && this.candidates == candidates && this.present == present
    {
      this.candidates, this.present := candidates, present;
      outcome, pending, calls, book := Outcome([], [], []), |candidates|, [], BLANK;
    }

    method Step()
      modifies this`pending, this`calls
      ensures pending == old(pending) - 1
      ensures calls == if pending == 0 then old(calls) + [outcome] else old(calls)
    {
      pending := pending - 1;
      if pending == 0 {
        calls := calls + [outcome];
      }
    }

    method Skip(name: string)
      requires Valid() && book.next < |candidates| && name == candidates[book.next].name
      modifies this
      ensures Valid() && book == Visit(old(book), true)
    {
      VisitKeepsOk(book, true, |candidates|);
      LogOne(book.log, book.next, Skipped, candidates);
      CompleteIff(book, |candidates|);
      outcome := outcome.(skipped := outcome.skipped + [name]);
      book := Visit(book, true);
      CompleteIff(book, |candidates|);
      Step();
    }

    /** The callback given to `M.set`. */
    method Reply(k: nat, ok: bool)
      requires Valid() && k in book.waiting
      modifies this
      ensures Valid() && book == Resolve(old(book), k, ok)
    {
      WaitingIsCandidate(book, k, |candidates|);
      ResolveKeepsOk(book, k, ok, |candidates|);
      LogOne(book.log, k, if ok then Stored else Failed, candidates);
      CompleteIff(book, |candidates|);
      if ok {
        outcome := outcome.(stored := outcome.stored + [candidates[k].name]);
      } else {
        outcome := outcome.(failed := outcome.failed + [candidates[k].name]);
      }
      book := Resolve(book, k, ok);
      CompleteIff(book, |candidates|);
      Step();
    }

    /** The loop over the candidates; `early` tells which requests were answered before `set` returned. */
    method Send(early: seq<Option<bool>>)
      requires Valid() && book == BLANK && |early| == |candidates|
      modifies this
      ensures Valid() && book == Loop(BLANK, candidates, present, early) && book.next == |candidates|
    {
      for i := 0 to |candidates|
        invariant Valid() && book.next == i
        invariant Loop(book, candidates, present, early) == Loop(BLANK, candidates, present, early)
      {
        if candidates[i].name in present {
          Skip(candidates[i].name);
        } else {
          VisitKeepsOk(book, false, |candidates|);
          CompleteIff(book, |candidates|);
          book := Visit(book, false);
          if early[i].Some? {
            Reply(i, early[i].value);
          }
        }
      }
    }
  }

  lemma WaitingIsCandidate(b: Book, k: nat, n: nat)
    requires BookOk(b, n) && k in b.waiting
    ensures k < b.next <= n && !Complete(b, n)
  {
    assert Times(b.log, k) + 1 == if k < b.next then 1 else 0;
  }

  datatype Report = Report(done: nat, total: nat, skipped: nat, failed: nat)

  /** The import wizard's counters. */
  class Import {
    const entries: seq<Candidate>
    const present: set<string>
    var done: nat
    var skipped: nat
    var failed: nat
    var reports: seq<Report>    // the notifications shown
    ghost var book: Book

    ghost predicate Valid()
      reads this
    {
      && BookOk(book, |entries|)
      && entries != []
      && done == Tally(book.log, Stored) && skipped == Tally(book.log, Skipped) && failed == Tally(book.log, Failed)
      && reports == (if Complete(book, |entries|) then [Report(done, |entries|, skipped, failed)] else [])
    }

    constructor (entries: seq<Candidate>, present: set<string>)
      requires entries != []
      ensures Valid() && book == BLANK && this.entries == entries && this.present == present
    {
      this.entries, this.present := entries, present;
      done, skipped, failed, reports, book := 0, 0, 0, [], BLANK;
    }

    method ReportAll()
      modifies this`reports
      ensures
        reports ==
          if done + skipped + failed == |entries| then old(reports) + [Report(done, |entries|, skipped, failed)]
          else old(reports)
    {
      if done + skipped + failed != |entries| {
        return;
      }
      reports := reports + [Report(done, |entries|, skipped, failed)];
    }

    method Skip()
      requires Valid() && book.next < |entries|
      modifies this
      ensures Valid() && book == Visit(old(book), true)
    {
      VisitKeepsOk(book, true, |entries|);
      LogOne(book.log, book.next, Skipped, entries);
      CompleteIff(book, |entries|);
      skipped := skipped + 1;
      book := Visit(book, true);
      CompleteIff(book, |entries|);
      TalliesAddUp(book.log);
      ReportAll();
    }

    method Reply(k: nat, ok: bool)
      requires Valid() && k in book.waiting
      modifies this
      ensures Valid() && book == Resolve(old(book), k, ok)
    {
      WaitingIsCandidate(book, k, |entries|);
      ResolveKeepsOk(book, k, ok, |entries|);
      LogOne(book.log, k, if ok then Stored else Failed, entries);
      CompleteIff(book, |entries|);
      if ok {
        done := done + 1;
      } else {
        failed := failed + 1;
      }
      book := Resolve(book, k, ok);
      CompleteIff(book, |entries|);
      TalliesAddUp(book.log);
      ReportAll();
    }

    method Send(early: seq<Option<bool>>)
      requires Valid() && book == BLANK && |early| == |entries|
      modifies this
      ensures Valid() && book == Loop(BLANK, entries, present, early) && book.next == |entries|
    {
      for i := 0 to |entries|
        invariant Valid() && book.next == i
        invariant Loop(book, entries, present, early) == Loop(BLANK, entries, present, early)
      {
        if entries[i].name in present {
          Skip();
        } else {
          VisitKeepsOk(book, false, |entries|);
          CompleteIff(book, |entries|);
          book := Visit(book, false);
          if early[i].Some? {
            Reply(i, early[i].value);
          }
        }
      }
    }
  }

  // ── together with the wallet ──

  /** A migration into a wallet: the candidates, the wallet at the time of the list, and whether the list came back. */
  datatype Setup = Setup(cands: seq<Candidate>, start: W.State, listed: bool)

  /** `answers`: what the agent said to the requests it carried out; `applied`: those it put in its map, and when. */
  datatype World = World(book: Book, wallet: W.State, answers: map<nat, bool>, applied: map<nat, U64>)

  datatype Event =
    | Next                                            // the loop comes to its next candidate
    | Execute(k: nat, ts: U64, faults: W.Faults)      // the agent carries out a request
    | Answer(k: nat)                                  // its reply arrives
    | GiveUp(k: nat)                                  // the client is torn down first; the agent may still act later

  /** The names the caller takes for present. A failed list leaves none. */
  function Present(s: Setup): set<string>
    requires s.start.live.Some?
  {
    if s.listed then s.start.live.value.entries.Keys else {}
  }

  function Opening(s: Setup): World
  {
    World(BLANK, s.start, map[], map[])
  }

  predicate Enabled(s: Setup, w: World, e: Event)
    requires s.start.live.Some?
  {
    match e
    case Next => w.book.next < |s.cands|
    case Execute(k, _, _) => k < w.book.next <= |s.cands| && s.cands[k].name !in Present(s) && k !in w.answers
    case Answer(k) => k in w.book.waiting && k in w.answers
    case GiveUp(k) => k in w.book.waiting
  }

  function SetOf(c: Candidate): Change
  {
    Set(c.name, Some(c.value), c.meta)
  }

  /** The entry a candidate becomes when its name is new. */
  function Fresh(c: Candidate, ts: U64): Entry
  {
    ApplyMetaOpt(NewEntry(c.value, ts), c.meta)
  }

  function After(s: Setup, w: World, e: Event): World
    requires s.start.live.Some? && Enabled(s, w, e)
  {
    match e
    case Next => w.(book := Visit(w.book, s.cands[w.book.next].name in Present(s)))
    case Execute(k, ts, faults) =>
      var (wallet, reply) := W.Step(w.wallet, W.Alter(SetOf(s.cands[k]), true), ts, faults);
      World(
        w.book,
        wallet,
        w.answers[k := !reply.Failed?],
        if IsBlank(s.cands[k].name) then w.applied else w.applied[k := ts])
    case Answer(k) => w.(book := Resolve(w.book, k, w.answers[k]))
    case GiveUp(k) => w.(book := Resolve(w.book, k, false))
  }

  predicate Distinct(cands: seq<Candidate>)
  {
    forall i, j :: 0 <= i < j < |cands| ==> cands[i].name != cands[j].name
  }

  /** A log whose entries say what happened. */
  predicate LogOk(s: Setup, log: seq<(nat, Fate)>, next: nat, answers: map<nat, bool>)
    requires s.start.live.Some?
  {
    forall i :: 0 <= i < |log| ==>
      var (k, fate) := log[i];
      && k < next <= |s.cands|
      && (fate.Skipped? <==> s.cands[k].name in Present(s))
      && (fate.Stored? ==> k in answers && answers[k])
  }

  /** `m` holds every candidate in `ks` as it was applied. */
  predicate Holds(cands: seq<Candidate>, ks: set<nat>, applied: map<nat, U64>, m: EntryMap)
  {
    forall k :: k in ks ==>
      k < |cands| && k in applied && cands[k].name in m && m[cands[k].name] == Fresh(cands[k], applied[k])
  }

  /** Names that belong to applied candidates. */
  function NamesOf(cands: seq<Candidate>, ks: set<nat>): set<string>
  {
    set k | k in ks && k < |cands| :: cands[k].name
  }

  function Confirmed(answers: map<nat, bool>): set<nat>
  {
    set k | k in answers && answers[k]
  }

  predicate Sent(s: Setup, w: World)
    requires s.start.live.Some?
  {
    && (forall k :: k in w.applied ==> k in w.answers)
    && (forall k :: k in w.answers ==> k < w.book.next <= |s.cands| && s.cands[k].name !in Present(s))
    && LogOk(s, w.book.log, w.book.next, w.answers)
    && forall k :: k in w.book.waiting ==> k < w.book.next <= |s.cands| && s.cands[k].name !in Present(s)
  }

  /** The map is the starting one plus exactly the applied candidates. */
  predicate MapOk(cands: seq<Candidate>, applied: map<nat, U64>, start: EntryMap, m: EntryMap)
  {
    && Holds(cands, applied.Keys, applied, m)
    && m.Keys == start.Keys + NamesOf(cands, applied.Keys)
    && forall n :: n in start ==> m[n] == start[n]
  }

  predicate LiveOk(s: Setup, w: World)
    requires s.start.live.Some?
  {
    w.wallet.live.Some? && MapOk(s.cands, w.applied, s.start.live.value.entries, w.wallet.live.value.entries)
  }

  /** The saved file holds every candidate the agent confirmed. */
  predicate FileOk(s: Setup, w: World)
  {
    var ks := Confirmed(w.answers);
    ks != {} ==> w.wallet.file.Some? && Holds(s.cands, ks, w.applied, w.wallet.file.value.entries)
  }

  ghost predicate Inv(s: Setup, w: World)
    requires s.start.live.Some?
  {
    BookOk(w.book, |s.cands|) && Sent(s, w) && LiveOk(s, w) && FileOk(s, w)
  }

  /** What carrying out the request of a candidate whose name is new does. */
  predicate Executed(s: Setup, w: World, k: nat, ts: U64, after: World)
    requires k < |s.cands|
  {
    var c := s.cands[k];
    && w.wallet.live.Some? && after.wallet.live.Some? && k in after.answers
    && after.book == w.book
    && after.answers == w.answers[k := after.answers[k]]
    && after.applied == (if IsBlank(c.name) then w.applied else w.applied[k := ts])
    && after.wallet.live.value.entries ==
         (if IsBlank(c.name) then w.wallet.live.value.entries else w.wallet.live.value.entries[c.name := Fresh(c, ts)])
    && (after.answers[k] ==> !IsBlank(c.name) && after.wallet.file == after.wallet.live)
    && (!after.answers[k] ==> after.wallet.file == w.wallet.file)
  }

  lemma ExecuteShape(s: Setup, w: World, k: nat, ts: U64, faults: W.Faults)
    requires s.start.live.Some? && Enabled(s, w, Execute(k, ts, faults))
    requires w.wallet.live.Some? && s.cands[k].name !in w.wallet.live.value.entries
    ensures
      var after := After(s, w, Execute(k, ts, faults));
      && Executed(s, w, k, ts, after)
      && (!IsBlank(s.cands[k].name) ==> (after.answers[k] <==> faults.writing.None?))
  {}

  /** With the list in hand and distinct names, a candidate being carried out is new to the map. */
  lemma NameIsNew(s: Setup, w: World, k: nat)
    requires s.start.live.Some? && s.listed && Distinct(s.cands) && Sent(s, w) && LiveOk(s, w)
    requires k < |s.cands| && k !in w.answers && s.cands[k].name !in Present(s)
    ensures s.cands[k].name !in w.wallet.live.value.entries
  {
    forall j | j in w.applied && j < |s.cands| ensures s.cands[j].name != s.cands[k].name {
      assert j != k;
    }
  }

  lemma MapGrows(cands: seq<Candidate>, applied: map<nat, U64>, start: EntryMap, m: EntryMap, k: nat, ts: U64)
    requires MapOk(cands, applied, start, m) && k < |cands| && cands[k].name !in m && k !in applied
    ensures MapOk(cands, applied[k := ts], start, m[cands[k].name := Fresh(cands[k], ts)])
  {
    var more, grown := applied[k := ts], m[cands[k].name := Fresh(cands[k], ts)];
    assert more.Keys == applied.Keys + {k};
    assert NamesOf(cands, more.Keys) == NamesOf(cands, applied.Keys) + {cands[k].name};
    forall j | j in more ensures j < |cands| && cands[j].name in grown && grown[cands[j].name] == Fresh(cands[j], more[j]) {
      assert j != k ==> j in applied.Keys;
    }
  }

  lemma ExecutedKeepsLive(s: Setup, w: World, k: nat, ts: U64, after: World)
    requires s.start.live.Some? && Sent(s, w) && LiveOk(s, w)
    requires k < |s.cands| && k !in w.answers && s.cands[k].name !in w.wallet.live.value.entries
    requires Executed(s, w, k, ts, after)
    ensures LiveOk(s, after)
  {
    if !IsBlank(s.cands[k].name) {
      MapGrows(s.cands, w.applied, s.start.live.value.entries, w.wallet.live.value.entries, k, ts);
    }
  }

  lemma ConfirmedOneMore(answers: map<nat, bool>, k: nat, ok: bool)
    requires k !in answers
    ensures Confirmed(answers[k := ok]) == if ok then Confirmed(answers) + {k} else Confirmed(answers)
  {}

  lemma ConfirmedApplied(s: Setup, w: World)
    requires FileOk(s, w)
    ensures Confirmed(w.answers) <= w.applied.Keys
  {
    if Confirmed(w.answers) != {} {
      assert Holds(s.cands, Confirmed(w.answers), w.applied, w.wallet.file.value.entries);
    }
  }

  lemma ExecutedKeepsFile(s: Setup, w: World, k: nat, ts: U64, after: World)
    requires s.start.live.Some? && FileOk(s, w) && LiveOk(s, after)
    requires k < |s.cands| && k !in w.answers && k !in w.applied && Executed(s, w, k, ts, after)
    ensures FileOk(s, after)
  {
    ConfirmedOneMore(w.answers, k, after.answers[k]);
    ConfirmedApplied(s, w);
    if after.answers[k] {
      assert Confirmed(after.answers) <= after.applied.Keys;
      assert Holds(s.cands, after.applied.Keys, after.applied, after.wallet.live.value.entries);
    }
  }

  lemma ExecutedKeepsSent(s: Setup, w: World, k: nat, ts: U64, after: World)
    requires s.start.live.Some? && Sent(s, w) && k < w.book.next <= |s.cands| && s.cands[k].name !in Present(s)
    requires k !in w.answers && Executed(s, w, k, ts, after)
    ensures Sent(s, after)
  {
    assert after.answers.Keys == w.answers.Keys + {k};
    assert LogOk(s, after.book.log, after.book.next, after.answers);
  }

  lemma LogGrows(
      s: Setup, log: seq<(nat, Fate)>, next: nat, answers: map<nat, bool>, later: nat, k: nat, fate: Fate)
    requires s.start.live.Some? && LogOk(s, log, next, answers) && k < later <= |s.cands| && next <= later
    requires fate.Skipped? <==> s.cands[k].name in Present(s)
    requires fate.Stored? ==> k in answers && answers[k]
    ensures LogOk(s, log + [(k, fate)], later, answers)
  {}

  lemma NextKeepsInv(s: Setup, w: World)
    requires s.start.live.Some? && Inv(s, w) && w.book.next < |s.cands|
    ensures Inv(s, After(s, w, Next))
  {
    var skip := s.cands[w.book.next].name in Present(s);
    VisitKeepsOk(w.book, skip, |s.cands|);
    if skip {
      LogGrows(s, w.book.log, w.book.next, w.answers, w.book.next + 1, w.book.next, Skipped);
    }
    assert LogOk(s, Visit(w.book, skip).log, w.book.next + 1, w.answers);
  }

  lemma ResolveKeepsInv(s: Setup, w: World, k: nat, ok: bool)
    requires s.start.live.Some? && Inv(s, w) && k in w.book.waiting && (ok ==> k in w.answers && w.answers[k])
    ensures Inv(s, w.(book := Resolve(w.book, k, ok)))
  {
    ResolveKeepsOk(w.book, k, ok, |s.cands|);
    LogGrows(s, w.book.log, w.book.next, w.answers, w.book.next, k, if ok then Stored else Failed);
  }

  lemma ExecuteKeepsInv(s: Setup, w: World, k: nat, ts: U64, faults: W.Faults)
    requires s.start.live.Some? && s.listed && Distinct(s.cands)
    requires Inv(s, w) && Enabled(s, w, Execute(k, ts, faults))
    ensures Inv(s, After(s, w, Execute(k, ts, faults)))
  {
    NameIsNew(s, w, k);
    ExecuteShape(s, w, k, ts, faults);
    ExecuteAny(s, w, k, ts, After(s, w, Execute(k, ts, faults)));
  }

  lemma ExecuteAny(s: Setup, w: World, k: nat, ts: U64, after: World)
    requires s.start.live.Some? && Inv(s, w) && k < w.book.next <= |s.cands| && s.cands[k].name !in Present(s)
    requires k !in w.answers && s.cands[k].name !in w.wallet.live.value.entries && Executed(s, w, k, ts, after)
    ensures Inv(s, after)
  {
    ExecutedKeepsLive(s, w, k, ts, after);
    ExecutedKeepsFile(s, w, k, ts, after);
    ExecutedKeepsSent(s, w, k, ts, after);
  }

  lemma StepKeepsInv(s: Setup, w: World, e: Event)
    requires s.start.live.Some? && s.listed && Distinct(s.cands)
    requires Inv(s, w) && Enabled(s, w, e)
    ensures Inv(s, After(s, w, e))
  {
    match e {
      case Next => NextKeepsInv(s, w);
      case Execute(k, ts, faults) => ExecuteKeepsInv(s, w, k, ts, faults);
      case Answer(k) => ResolveKeepsInv(s, w, k, w.answers[k]);
      case GiveUp(k) => ResolveKeepsInv(s, w, k, false);
    }
  }

  // ── whole runs ──

  predicate CanRun(s: Setup, w: World, run: seq<Event>)
    requires s.start.live.Some?
    decreases |run|
  {
    run == [] || (Enabled(s, w, run[0]) && CanRun(s, After(s, w, run[0]), run[1..]))
  }

  function Final(s: Setup, w: World, run: seq<Event>): World
    requires s.start.live.Some? && CanRun(s, w, run)
    decreases |run|
  {
    if run == [] then w else Final(s, After(s, w, run[0]), run[1..])
  }

  lemma {:induction false} RunKeepsInv(s: Setup, w: World, run: seq<Event>)
    requires s.start.live.Some? && s.listed && Distinct(s.cands)
    requires Inv(s, w) && CanRun(s, w, run)
    ensures Inv(s, Final(s, w, run))
    decreases |run|
  {
    if run != [] {
      StepKeepsInv(s, w, run[0]);
      RunKeepsInv(s, After(s, w, run[0]), run[1..]);
    }
  }

  lemma OpeningInv(s: Setup)
    requires s.start.live.Some?
    ensures Inv(s, Opening(s))
  {
    assert NamesOf(s.cands, {}) == {};
    assert Confirmed(map[]) == {};
  }

  predicate Reported(w: World, k: nat, fate: Fate)
  {
    (k, fate) in w.book.log
  }

  /**
   No clobbering, over every run: with the list in hand and distinct names, entries the wallet had are as they were, it
   has gained exactly the candidates the agent applied, and what is reported stored is both live and saved.
   */
  lemma NothingClobbered(s: Setup, run: seq<Event>)
    requires s.start.live.Some? && s.listed && Distinct(s.cands) && CanRun(s, Opening(s), run)
    ensures
      var w := Final(s, Opening(s), run);
      && LiveOk(s, w)
      && forall k :: Reported(w, k, Stored) ==>
           && k in w.applied && w.wallet.file.Some?
           && Holds(s.cands, {k}, w.applied, w.wallet.live.value.entries)
           && Holds(s.cands, {k}, w.applied, w.wallet.file.value.entries)
  {
    OpeningInv(s);
    RunKeepsInv(s, Opening(s), run);
    var w := Final(s, Opening(s), run);
    ConfirmedApplied(s, w);
    forall k | Reported(w, k, Stored)
      ensures k in w.applied && w.wallet.file.Some?
      ensures Holds(s.cands, {k}, w.applied, w.wallet.file.value.entries)
    {
      assert k in Confirmed(w.answers);
    }
  }

  /** What the wallet has that it had not. */
  function Gained(s: Setup, w: World): set<string>
    requires s.start.live.Some? && w.wallet.live.Some?
  {
    w.wallet.live.value.entries.Keys - s.start.live.value.entries.Keys
  }

  function StoredNames(s: Setup, w: World): set<string>
  {
    set k | 0 <= k < |s.cands| && (k, Stored) in w.book.log :: s.cands[k].name
  }

  lemma GainedIff(s: Setup, w: World)
    requires s.start.live.Some? && s.listed && Distinct(s.cands) && Inv(s, w) && Complete(w.book, |s.cands|)
    ensures Gained(s, w) == StoredNames(s, w) <==> forall k :: k in w.applied ==> !Reported(w, k, Failed)
  {
    GainedIsApplied(s, w);
    ConfirmedApplied(s, w);
    forall n | n in StoredNames(s, w) ensures n in NamesOf(s.cands, w.applied.Keys) {
      var k: nat :| k < |s.cands| && Reported(w, k, Stored) && s.cands[k].name == n;
      StoredIsApplied(s, w, k);
    }
    forall k | k in w.applied
      ensures k < |s.cands| && (s.cands[k].name in StoredNames(s, w) <==> !Reported(w, k, Failed))
    {
      AppliedFate(s, w, k);
    }
    forall k | k in w.applied ensures s.cands[k].name in NamesOf(s.cands, w.applied.Keys) {}
  }

  lemma StoredIsApplied(s: Setup, w: World, k: nat)
    requires s.start.live.Some? && Sent(s, w) && Confirmed(w.answers) <= w.applied.Keys && Reported(w, k, Stored)
    ensures k in w.applied
  {
    assert k in Confirmed(w.answers);
  }

  /** An applied candidate ends up reported stored or failed, not both; only in the first case its name is among the stored. */
  lemma AppliedFate(s: Setup, w: World, k: nat)
    requires s.start.live.Some? && Distinct(s.cands)
    requires BookOk(w.book, |s.cands|) && Sent(s, w) && Complete(w.book, |s.cands|) && k in w.applied
    ensures k < |s.cands| && (s.cands[k].name in StoredNames(s, w) <==> !Reported(w, k, Failed))
  {
    ReportedOnce(w.book, |s.cands|, k);
    TimesPositive(w.book.log, k);
    assert !Reported(w, k, Skipped);
    if s.cands[k].name in StoredNames(s, w) {
      var j: nat :| j < |s.cands| && Reported(w, j, Stored) && s.cands[j].name == s.cands[k].name;
      assert j == k;
      if Reported(w, k, Failed) {
        TwiceLogged(w.book.log, k, Stored, Failed);
      }
    }
  }

  lemma GainedIsApplied(s: Setup, w: World)
    requires s.start.live.Some? && s.listed && Sent(s, w) && LiveOk(s, w)
    ensures Gained(s, w) == NamesOf(s.cands, w.applied.Keys)
  {
    forall n | n in NamesOf(s.cands, w.applied.Keys) ensures n !in s.start.live.value.entries {
      var k :| k in w.applied && k < |s.cands| && s.cands[k].name == n;
    }
  }

  lemma {:induction false} TimesPositive(log: seq<(nat, Fate)>, k: nat)
    requires Times(log, k) > 0
    ensures (k, Stored) in log || (k, Skipped) in log || (k, Failed) in log
  {
    var last := log[|log| - 1];
    if last.0 != k {
      TimesPositive(log[..|log| - 1], k);
    } else {
      assert last in log;
      match last.1 {
        case Stored =>
        case Skipped =>
        case Failed =>
      }
    }
  }

  lemma {:induction false} LoggedCounts(log: seq<(nat, Fate)>, k: nat, f: Fate)
    requires (k, f) in log
    ensures Times(log, k) > 0
  {
    if log[|log| - 1] != (k, f) {
      assert log == log[..|log| - 1] + [log[|log| - 1]];
      LoggedCounts(log[..|log| - 1], k, f);
    }
  }

  lemma {:induction false} TwiceLogged(log: seq<(nat, Fate)>, k: nat, f: Fate, g: Fate)
    requires (k, f) in log && (k, g) in log && f != g
    ensures Times(log, k) > 1
  {
    var rest, last := log[..|log| - 1], log[|log| - 1];
    assert log == rest + [last];
    if last == (k, f) {
      LoggedCounts(rest, k, g);
    } else if last == (k, g) {
      LoggedCounts(rest, k, f);
    } else {
      TwiceLogged(rest, k, f, g);
    }
  }

  // ── which runs gain exactly what they report ──

  /** The agent carries out candidate `k`'s request, and its name is one the agent accepts. */
  predicate Takes(s: Setup, run: seq<Event>, k: nat)
  {
    exists i :: 0 <= i < |run| && run[i].Execute? && run[i].k == k && k < |s.cands| && !IsBlank(s.cands[k].name)
  }

  /** The save of candidate `k` fails. */
  predicate SaveFails(run: seq<Event>, k: nat)
  {
    exists i :: 0 <= i < |run| && run[i].Execute? && run[i].k == k && run[i].faults.writing.Some?
  }

  /** The client is torn down before candidate `k` is answered. */
  predicate ReplyLost(run: seq<Event>, k: nat)
  {
    GiveUp(k) in run
  }

  predicate Refused(w: World, k: nat)
  {
    k in w.answers && !w.answers[k]
  }

  lemma TraceStep(s: Setup, w: World, e: Event, k: nat)
    requires s.start.live.Some? && s.listed && Distinct(s.cands) && Inv(s, w) && Enabled(s, w, e)
    requires k < |s.cands| && !IsBlank(s.cands[k].name)
    ensures
      var after := After(s, w, e);
      && (k in after.applied <==> k in w.applied || (e.Execute? && e.k == k))
      && (Refused(after, k) <==> Refused(w, k) || (e.Execute? && e.k == k && e.faults.writing.Some?))
      && (Reported(w, k, Failed) ==> Reported(after, k, Failed))
      && (e == GiveUp(k) ==> Reported(after, k, Failed))
      && (Reported(after, k, Failed) ==> Reported(w, k, Failed) || e == GiveUp(k) || Refused(after, k))
  {
    if e.Execute? {
      NameIsNew(s, w, e.k);
      ExecuteShape(s, w, e.k, e.ts, e.faults);
      TraceExecuted(s, w, e, k, After(s, w, e));
    }
  }

  lemma TraceExecuted(s: Setup, w: World, e: Event, k: nat, after: World)
    requires e.Execute? && e.k < |s.cands| && e.k !in w.answers && Executed(s, w, e.k, e.ts, after)
    requires !IsBlank(s.cands[e.k].name) ==> (after.answers[e.k] <==> e.faults.writing.None?)
    requires k < |s.cands| && !IsBlank(s.cands[k].name)
    ensures k in after.applied <==> k in w.applied || e.k == k
    ensures Refused(after, k) <==> Refused(w, k) || (e.k == k && e.faults.writing.Some?)
  {}

  /** What the events of a run say of candidate `k`'s end. */
  lemma {:induction false} Trace(s: Setup, w: World, run: seq<Event>, k: nat)
    requires s.start.live.Some? && s.listed && Distinct(s.cands) && Inv(s, w) && CanRun(s, w, run)
    requires k < |s.cands| && !IsBlank(s.cands[k].name)
    ensures
      var end := Final(s, w, run);
      && (k in end.applied <==> k in w.applied || Takes(s, run, k))
      && (Refused(end, k) <==> Refused(w, k) || SaveFails(run, k))
      && (Reported(w, k, Failed) || ReplyLost(run, k) ==> Reported(end, k, Failed))
      && (Reported(end, k, Failed) ==> Reported(w, k, Failed) || ReplyLost(run, k) || Refused(end, k))
    decreases |run|
  {
    if run != [] {
      TraceStep(s, w, run[0], k);
      StepKeepsInv(s, w, run[0]);
      Trace(s, After(s, w, run[0]), run[1..], k);
      TraceCons(s, run, k);
    }
  }

  lemma TraceCons(s: Setup, run: seq<Event>, k: nat)
    requires run != [] && k < |s.cands| && !IsBlank(s.cands[k].name)
    ensures Takes(s, run, k) <==> (run[0].Execute? && run[0].k == k) || Takes(s, run[1..], k)
    ensures
      SaveFails(run, k) <==> (run[0].Execute? && run[0].k == k && run[0].faults.writing.Some?) || SaveFails(run[1..], k)
    ensures ReplyLost(run, k) <==> run[0] == GiveUp(k) || ReplyLost(run[1..], k)
  {
    var rest := run[1..];
    assert forall i :: 0 <= i < |rest| ==> rest[i] == run[i + 1];
    assert forall i :: 0 < i < |run| ==> run[i] == rest[i - 1];
  }

  /** A candidate taken by the agent although its save failed or nobody heard the answer. */
  predicate KeptUnsaid(s: Setup, run: seq<Event>, k: nat)
  {
    Takes(s, run, k) && (SaveFails(run, k) || ReplyLost(run, k))
  }

  lemma KeptUnsaidIff(s: Setup, run: seq<Event>, k: nat)
    requires s.start.live.Some? && s.listed && Distinct(s.cands) && CanRun(s, Opening(s), run)
    requires Complete(Final(s, Opening(s), run).book, |s.cands|) && k < |s.cands|
    ensures
      var w := Final(s, Opening(s), run);
      k in w.applied && Reported(w, k, Failed) <==> KeptUnsaid(s, run, k)
  {
    OpeningInv(s);
    RunKeepsInv(s, Opening(s), run);
    var w := Final(s, Opening(s), run);
    if IsBlank(s.cands[k].name) {
      BlankNeverApplied(s, Opening(s), run, k);
    } else {
      Trace(s, Opening(s), run, k);
      if k in w.applied && Refused(w, k) {
        AppliedFate(s, w, k);
        ReportedOnce(w.book, |s.cands|, k);
        TimesPositive(w.book.log, k);
      }
    }
  }

  lemma {:induction false} BlankNeverApplied(s: Setup, w: World, run: seq<Event>, k: nat)
    requires s.start.live.Some? && CanRun(s, w, run) && k < |s.cands| && IsBlank(s.cands[k].name) && k !in w.applied
    ensures k !in Final(s, w, run).applied
    decreases |run|
  {
    if run != [] {
      BlankNeverApplied(s, After(s, w, run[0]), run[1..], k);
    }
  }

  /**
   Once every candidate is reported, the wallet has gained exactly those reported stored if and only if, for every
   candidate the agent took, the save succeeded and the client stayed up for its answer.
   */
  lemma GainedExactlyStoredIff(s: Setup, run: seq<Event>)
    requires s.start.live.Some? && s.listed && Distinct(s.cands) && CanRun(s, Opening(s), run)
    requires Complete(Final(s, Opening(s), run).book, |s.cands|)
    ensures
      var w := Final(s, Opening(s), run);
      && w.wallet.live.Some?
      && (Gained(s, w) == StoredNames(s, w) <==> forall k: nat :: k < |s.cands| ==> !KeptUnsaid(s, run, k))
  {
    OpeningInv(s);
    RunKeepsInv(s, Opening(s), run);
    var w := Final(s, Opening(s), run);
    GainedIff(s, w);
    forall k: nat | k < |s.cands| ensures k in w.applied && Reported(w, k, Failed) <==> KeptUnsaid(s, run, k) {
      KeptUnsaidIff(s, run, k);
    }
    assert forall k :: k in w.applied ==> k < |s.cands|;
  }

  // ── what the caller is told ──

  predicate NamedAt(log: seq<(nat, Fate)>, fate: Fate, cands: seq<Candidate>, name: string, k: nat)
  {
    k < |cands| && (k, fate) in log && cands[k].name == name
  }

  lemma {:induction false} NamedHas(log: seq<(nat, Fate)>, fate: Fate, cands: seq<Candidate>, name: string)
    ensures name in Named(log, fate, cands) <==> exists k: nat :: NamedAt(log, fate, cands, name, k)
  {
    if log != [] {
      var init, last := log[..|log| - 1], log[|log| - 1];
      NamedHas(init, fate, cands, name);
      assert log == init + [last];
      forall k: nat
        ensures NamedAt(log, fate, cands, name, k)
          <==> NamedAt(init, fate, cands, name, k) || ((k, fate) == last && k < |cands| && cands[k].name == name)
      {
        assert (k, fate) in log <==> (k, fate) in init || (k, fate) == last;
      }
      if last.1 == fate && last.0 < |cands| && cands[last.0].name == name {
        assert NamedAt(log, fate, cands, name, last.0);
      }
    }
  }

  /** The agent's answer to a request is given once. */
  lemma {:induction false} AnswersStay(s: Setup, w: World, run: seq<Event>, k: nat)
    requires s.start.live.Some? && CanRun(s, w, run) && k in w.answers
    ensures k in Final(s, w, run).answers && Final(s, w, run).answers[k] == w.answers[k]
    decreases |run|
  {
    if run != [] {
      AnswersStay(s, After(s, w, run[0]), run[1..], k);
    }
  }

  /** The agent answered `k`'s request, well or badly. */
  predicate AnsweredAs(w: World, k: nat, ok: bool)
  {
    k in w.answers && w.answers[k] == ok
  }

  /** How candidate `k` came to be reported, from the events. */
  lemma {:induction false} ReportedBy(s: Setup, w: World, run: seq<Event>, k: nat)
    requires s.start.live.Some? && CanRun(s, w, run)
    ensures
      var end := Final(s, w, run);
      && (Reported(end, k, Stored) <==>
            Reported(w, k, Stored) || (Answer(k) in run && AnsweredAs(end, k, true)))
      && (Reported(end, k, Failed) <==>
            Reported(w, k, Failed) || GiveUp(k) in run || (Answer(k) in run && AnsweredAs(end, k, false)))
    decreases |run|
  {
    if run != [] {
      var e, rest := run[0], run[1..];
      assert forall x :: x in run <==> x == e || x in rest by {
        assert run == [e] + rest;
      }
      ReportedByStep(s, w, e, k);
      ReportedBy(s, After(s, w, e), rest, k);
      if e == Answer(k) {
        AnswersStay(s, After(s, w, e), rest, k);
      }
    }
  }

  lemma ReportedByStep(s: Setup, w: World, e: Event, k: nat)
    requires s.start.live.Some? && Enabled(s, w, e)
    ensures
      var after := After(s, w, e);
      && (Reported(after, k, Stored) <==> Reported(w, k, Stored) || (e == Answer(k) && AnsweredAs(w, k, true)))
      && (Reported(after, k, Failed) <==>
            Reported(w, k, Failed) || e == GiveUp(k) || (e == Answer(k) && AnsweredAs(w, k, false)))
      && (e.Answer? ==> after.answers == w.answers)
  {}

  /** Once complete, the skipped ones are those whose names were present. */
  lemma SkippedIff(s: Setup, w: World, k: nat)
    requires s.start.live.Some? && BookOk(w.book, |s.cands|) && Sent(s, w) && Complete(w.book, |s.cands|) && k < |s.cands|
    ensures Reported(w, k, Skipped) <==> s.cands[k].name in Present(s)
  {
    ReportedOnce(w.book, |s.cands|, k);
    TimesPositive(w.book.log, k);
  }

  /** The name of one candidate of a list without repetitions is in a list of the outcome just if that fate is its own. */
  lemma NamedIff(cands: seq<Candidate>, log: seq<(nat, Fate)>, fate: Fate, k: nat)
    requires Distinct(cands) && k < |cands|
    ensures cands[k].name in Named(log, fate, cands) <==> (k, fate) in log
  {
    NamedHas(log, fate, cands, cands[k].name);
    if j: nat :| j < |cands| && (j, fate) in log && cands[j].name == cands[k].name {
      assert j == k;
    }
  }

  /** What the run says becomes of candidate `k`. */
  predicate OutcomeSays(s: Setup, run: seq<Event>, w: World, o: Outcome, k: nat)
    requires s.start.live.Some? && k < |s.cands|
  {
    var name := s.cands[k].name;
    && (name in o.stored <==> Answer(k) in run && AnsweredAs(w, k, true))
    && (name in o.skipped <==> name in Present(s))
    && (name in o.failed <==> GiveUp(k) in run || (Answer(k) in run && AnsweredAs(w, k, false)))
  }

  /**
   What `migrate` calls back with, once, when all is known: a candidate is among the stored if and only if its request was
   answered well, among the skipped if and only if its name was present, and among the failed if and only if its request was
   answered badly or given up; and no list holds anything else.
   */
  lemma MigrateReports(g: Migrate, s: Setup, run: seq<Event>)
    requires s.start.live.Some? && s.listed && Distinct(s.cands) && CanRun(s, Opening(s), run)
    requires g.Valid() && g.candidates == s.cands && g.book == Final(s, Opening(s), run).book
    requires Complete(g.book, |s.cands|)
    ensures |g.calls| == 1
    ensures forall k: nat :: k < |s.cands| ==> OutcomeSays(s, run, Final(s, Opening(s), run), g.calls[0], k)
    ensures
      forall name :: name in g.calls[0].stored + g.calls[0].skipped + g.calls[0].failed ==>
        exists k: nat :: k < |s.cands| && s.cands[k].name == name
  {
    OpeningInv(s);
    RunKeepsInv(s, Opening(s), run);
    var w := Final(s, Opening(s), run);
    forall k: nat | k < |s.cands| ensures OutcomeSays(s, run, w, g.calls[0], k) {
      ReportedBy(s, Opening(s), run, k);
      SkippedIff(s, w, k);
      NamedIff(s.cands, w.book.log, Stored, k);
      NamedIff(s.cands, w.book.log, Skipped, k);
      NamedIff(s.cands, w.book.log, Failed, k);
    }
    forall name | name in g.calls[0].stored + g.calls[0].skipped + g.calls[0].failed
      ensures exists k: nat :: k < |s.cands| && s.cands[k].name == name
    {
      NamedHas(w.book.log, Stored, s.cands, name);
      NamedHas(w.book.log, Skipped, s.cands, name);
      NamedHas(w.book.log, Failed, s.cands, name);
    }
  }

  /** What it reports as stored is in the live wallet and in the saved file, with the candidate's value. */
  lemma StoredIsSaved(g: Migrate, s: Setup, run: seq<Event>, k: nat)
    requires s.start.live.Some? && s.listed && Distinct(s.cands) && CanRun(s, Opening(s), run)
    requires g.Valid() && g.candidates == s.cands && g.book == Final(s, Opening(s), run).book
    requires Complete(g.book, |s.cands|) && k < |s.cands|
    ensures |g.calls| == 1
    ensures
      s.cands[k].name in g.calls[0].stored ==>
        var w := Final(s, Opening(s), run).wallet;
        var name := s.cands[k].name;
        && w.live.Some? && name in w.live.value.entries && w.live.value.entries[name].value == s.cands[k].value
        && w.file.Some? && name in w.file.value.entries && w.file.value.entries[name].value == s.cands[k].value
  {
    NamedIff(s.cands, g.book.log, Stored, k);
    if s.cands[k].name in g.calls[0].stored {
      NothingClobbered(s, run);
      assert Reported(Final(s, Opening(s), run), k, Stored);
    }
  }

  /** The candidates reported with one fate. */
  function Those(log: seq<(nat, Fate)>, fate: Fate): set<nat>
  {
    set i | 0 <= i < |log| && log[i].1 == fate :: log[i].0
  }

  lemma ThoseLast(log: seq<(nat, Fate)>, fate: Fate)
    requires log != []
    ensures
      var init, last := log[..|log| - 1], log[|log| - 1];
      Those(log, fate) == Those(init, fate) + if last.1 == fate then {last.0} else {}
  {
    var init, last := log[..|log| - 1], log[|log| - 1];
    forall k | k in Those(log, fate) ensures k in Those(init, fate) || (last.1 == fate && k == last.0) {
      var i :| 0 <= i < |log| && log[i].1 == fate && log[i].0 == k;
      assert i < |init| ==> init[i] == log[i];
    }
    forall k | k in Those(init, fate) ensures k in Those(log, fate) {
      var i :| 0 <= i < |init| && init[i].1 == fate && init[i].0 == k;
      assert log[i] == init[i];
    }
    assert last.1 == fate ==> last.0 in Those(log, fate);
  }

  lemma {:induction false} TallyCounts(log: seq<(nat, Fate)>, fate: Fate)
    requires forall k: nat :: Times(log, k) <= 1
    ensures Tally(log, fate) == |Those(log, fate)|
  {
    if log != [] {
      var init, last := log[..|log| - 1], log[|log| - 1];
      forall k: nat ensures Times(init, k) <= 1 {
        assert Times(log, k) <= 1;
      }
      TallyCounts(init, fate);
      ThoseLast(log, fate);
      if last.1 == fate && last.0 in Those(init, fate) {
        var i :| 0 <= i < |init| && init[i].1 == fate && init[i].0 == last.0;
        assert (last.0, fate) in init by {
          assert init[i] == (last.0, fate);
        }
        LoggedCounts(init, last.0, fate);
        assert Times(log, last.0) == 2;
      }
    } else {
      assert Those(log, fate) == {};
    }
  }

  /** A complete log has no candidate twice, and the tally of a fate is the number of its candidates. */
  lemma LogSets(b: Book, n: nat)
    requires BookOk(b, n) && Complete(b, n)
    ensures forall f: Fate :: Tally(b.log, f) == |Those(b.log, f)|
    ensures forall k: nat, f: Fate :: (k in Those(b.log, f) <==> (k, f) in b.log) && ((k, f) in b.log ==> k < n)
  {
    forall k: nat ensures Times(b.log, k) <= 1 {
      ReportedOnce(b, n, k);
    }
    forall k: nat, f: Fate | (k, f) in b.log ensures k < n {
      LoggedCounts(b.log, k, f);
      ReportedOnce(b, n, k);
    }
    forall f: Fate ensures Tally(b.log, f) == |Those(b.log, f)| {
      TallyCounts(b.log, f);
    }
    forall k: nat, f: Fate ensures k in Those(b.log, f) <==> (k, f) in b.log {
      if k in Those(b.log, f) {
        var i :| 0 <= i < |b.log| && b.log[i].1 == f && b.log[i].0 == k;
        assert b.log[i] == (k, f);
      }
    }
  }

  /**
   The import's one report counts the entries whose requests were answered well, those whose names were present, and those
   answered badly or given up.
   */
  lemma ImportReports(g: Import, s: Setup, run: seq<Event>)
    requires s.start.live.Some? && s.listed && Distinct(s.cands) && CanRun(s, Opening(s), run)
    requires g.Valid() && g.entries == s.cands && g.book == Final(s, Opening(s), run).book
    requires Complete(g.book, |s.cands|)
    ensures
      var w, n := Final(s, Opening(s), run), |s.cands|;
      g.reports == [Report(
        |set k: nat | k < n && Answer(k) in run && AnsweredAs(w, k, true)|,
        n,
        |set k: nat | k < n && s.cands[k].name in Present(s)|,
        |set k: nat | k < n && (GiveUp(k) in run || (Answer(k) in run && AnsweredAs(w, k, false)))|)]
  {
    OpeningInv(s);
    RunKeepsInv(s, Opening(s), run);
    var w, n := Final(s, Opening(s), run), |s.cands|;
    LogSets(w.book, n);
    forall k: nat | k < n
      ensures Reported(w, k, Stored) <==> Answer(k) in run && AnsweredAs(w, k, true)
      ensures Reported(w, k, Skipped) <==> s.cands[k].name in Present(s)
      ensures Reported(w, k, Failed) <==> GiveUp(k) in run || (Answer(k) in run && AnsweredAs(w, k, false))
    {
      ReportedBy(s, Opening(s), run, k);
      SkippedIff(s, w, k);
    }
    assert Those(w.book.log, Stored) == set k: nat | k < n && Answer(k) in run && AnsweredAs(w, k, true);
    assert Those(w.book.log, Skipped) == set k: nat | k < n && s.cands[k].name in Present(s);
    assert Those(w.book.log, Failed)
        == set k: nat | k < n && (GiveUp(k) in run || (Answer(k) in run && AnsweredAs(w, k, false)));
  }

  /** A failed save makes the difference: the candidate is reported failed and the live wallet has it all the same. */
  lemma FailedSaveIsKept(c: Candidate, start: W.State, ts: U64, err: Error)
    requires start.live.Some? && c.name !in start.live.value.entries && !IsBlank(c.name)
    ensures
      var s := Setup([c], start, true);
      var run := [Next, Execute(0, ts, W.Faults(None, Some(err))), Answer(0)];
      && CanRun(s, Opening(s), run)
      && var w := Final(s, Opening(s), run);
      && w.book == Book(1, {}, [(0, Failed)])
      && w.wallet.live.Some? && Gained(s, w) == {c.name}
  {
    var s := Setup([c], start, true);
    ThreeSteps(s, ts, W.Faults(None, Some(err)));
  }

  /** One candidate, sent, carried out and answered. */
  lemma ThreeSteps(s: Setup, ts: U64, faults: W.Faults)
    requires s.start.live.Some? && |s.cands| == 1 && s.cands[0].name !in Present(s) && !IsBlank(s.cands[0].name)
    ensures
      var run := [Next, Execute(0, ts, faults), Answer(0)];
      && CanRun(s, Opening(s), run)
      && var (wallet, reply) := W.Step(s.start, W.Alter(SetOf(s.cands[0]), true), ts, faults);
      Final(s, Opening(s), run)
      == World(Book(1, {}, [(0, if reply.Failed? then Failed else Stored)]), wallet, map[0 := !reply.Failed?], map[0 := ts])
  {
    var w1 := After(s, Opening(s), Next);
    assert w1.book == Book(1, {0}, []);
    var w2 := After(s, w1, Execute(0, ts, faults));
    var w3 := After(s, w2, Answer(0));
    assert w3.book == Book(1, {}, [(0, if w2.answers[0] then Stored else Failed)]);
    RunFirst(s, w2, Answer(0), []);
    RunFirst(s, w1, Execute(0, ts, faults), [Answer(0)]);
    RunFirst(s, Opening(s), Next, [Execute(0, ts, faults), Answer(0)]);
  }

  lemma RunFirst(s: Setup, w: World, e: Event, rest: seq<Event>)
    requires s.start.live.Some? && Enabled(s, w, e) && CanRun(s, After(s, w, e), rest)
    ensures CanRun(s, w, [e] + rest) && Final(s, w, [e] + rest) == Final(s, After(s, w, e), rest)
  {
    assert ([e] + rest)[1..] == rest;
  }

  // ── when the list fails ──

  predicate Untouched(s: Setup, w: World)
    requires s.start.live.Some?
  {
    && w.wallet.live.Some?
    && forall n :: n in s.start.live.value.entries ==>
         n in w.wallet.live.value.entries && w.wallet.live.value.entries[n] == s.start.live.value.entries[n]
  }

  predicate AllNew(s: Setup)
    requires s.start.live.Some?
  {
    forall i :: 0 <= i < |s.cands| ==> s.cands[i].name !in s.start.live.value.entries
  }

  ghost predicate NeverClobbers(s: Setup)
    requires s.start.live.Some?
  {
    forall run :: CanRun(s, Opening(s), run) ==> Untouched(s, Final(s, Opening(s), run))
  }

  lemma {:induction false} SafeRun(s: Setup, w: World, run: seq<Event>)
    requires s.start.live.Some? && (s.listed || AllNew(s))
    requires Untouched(s, w) && CanRun(s, w, run)
    ensures Untouched(s, Final(s, w, run))
    decreases |run|
  {
    if run != [] {
      var e := run[0];
      if e.Execute? {
        assert s.cands[e.k].name !in s.start.live.value.entries;
      }
      assert Untouched(s, After(s, w, e));
      SafeRun(s, After(s, w, e), run[1..]);
    }
  }

  /** The first clobbered candidate: the loop reaches it and the agent carries its request out. */
  lemma {:induction false} Visits(s: Setup, w: World, k: nat) returns (run: seq<Event>)
    requires s.start.live.Some? && w.book.next <= k <= |s.cands|
    ensures CanRun(s, w, run)
    ensures
      var after := Final(s, w, run);
      after.book.next == k && after.wallet == w.wallet && after.answers == w.answers
    decreases k - w.book.next
  {
    if w.book.next == k {
      run := [];
    } else {
      var rest := Visits(s, After(s, w, Next), k);
      run := [Next] + rest;
      assert run[1..] == rest;
    }
  }

  lemma {:induction false} RunThen(s: Setup, w: World, run: seq<Event>, e: Event)
    requires s.start.live.Some? && CanRun(s, w, run) && Enabled(s, Final(s, w, run), e)
    ensures CanRun(s, w, run + [e]) && Final(s, w, run + [e]) == After(s, Final(s, w, run), e)
    decreases |run|
  {
    if run == [] {
      assert run + [e] == [e] && [e][1..] == [];
    } else {
      assert (run + [e])[1..] == run[1..] + [e];
      RunThen(s, After(s, w, run[0]), run[1..], e);
    }
  }

  /**
   The code ignores the list's error and goes on with nothing present, so no run clobbers an existing entry if and only if
   the list succeeded or no candidate's name is taken (a blank name is refused by the agent, and is never taken).
   */
  lemma NeverClobbersIff(s: Setup, clock: U64)
    requires s.start.live.Some? && GoodMap(s.start.live.value.entries, clock)
    ensures NeverClobbers(s) <==> s.listed || AllNew(s)
  {
    if s.listed || AllNew(s) {
      forall run | CanRun(s, Opening(s), run) ensures Untouched(s, Final(s, Opening(s), run)) {
        SafeRun(s, Opening(s), run);
      }
    } else {
      var k: nat :| k < |s.cands| && s.cands[k].name in s.start.live.value.entries;
      var name := s.cands[k].name;
      var visits := Visits(s, Opening(s), k + 1);
      var ts: U64 := if s.start.live.value.entries[name].updated == 0 then 1 else 0;
      var e := Execute(k, ts, W.NO_FAULT);
      RunThen(s, Opening(s), visits, e);
      var w := Final(s, Opening(s), visits + [e]);
      assert w.wallet.live.value.entries[name].updated == ts;
      assert !Untouched(s, w);
    }
  }
}
