/**
  Concurrent writers: appends of new lines to one quote, in any order the database happens to run them.
*/
module Writers {
  import opened Wrappers
  import opened Domain
  import opened Money
  import opened QuoteLog
  import opened Tables
  import opened Appending
  import opened Service
  import opened Delivery

  /** The requests add lines to quote q, each once and under a key of its own that is not bound yet. */
  ghost predicate NewLines(t: Tables, q: QuoteId, rs: multiset<Request>) {
    && (forall r :: r in rs ==>
          && rs[r] == 1 && r.quoteId == q && AddsLine(r)
          && r.clientCommandId !in BookOf(t, q).keys)
    && (forall r, r' :: r in rs && r' in rs && r.clientCommandId == r'.clientCommandId ==> r == r')
  }

  predicate AddsLine(r: Request) {
    r.command.Some? && r.command.value.AddLineItem?
  }

  predicate AllAddLines(rs: seq<Request>) {
    forall i :: 0 <= i < |rs| ==> AddsLine(rs[i])
  }

  function LineIn(r: Request): LineItem
    requires AddsLine(r)
  {
    r.command.value.line
  }

  function LinesIn(rs: seq<Request>): seq<LineItem>
    requires AllAddLines(rs)
  {
    seq(|rs|, i requires 0 <= i < |rs| => LineIn(rs[i]))
  }

  lemma NewLinesAddLines(t: Tables, q: QuoteId, rs: seq<Request>)
    requires NewLines(t, q, multiset(rs))
    ensures AllAddLines(rs)
  {
    forall i | 0 <= i < |rs|
      ensures AddsLine(rs[i])
    {
      assert rs[i] in multiset(rs);
    }
  }

  /** The last request's key is still unbound after the others. */
  lemma NewLinesInit(t: Tables, q: QuoteId, rs: seq<Request>)
    requires rs != [] && NewLines(t, q, multiset(rs))
    ensures
      var n := |rs| - 1;
      && NewLines(t, q, multiset(rs[..n]))
      && rs[n].quoteId == q && AddsLine(rs[n]) && rs[n].clientCommandId !in BookOf(t, q).keys
      && forall i :: 0 <= i < n ==> rs[i].clientCommandId != rs[n].clientCommandId
  {
    hide BookOf;
    var n := |rs| - 1;
    assert rs == rs[..n] + [rs[n]];
    assert multiset(rs) == multiset(rs[..n]) + multiset{rs[n]};
    assert rs[n] in multiset(rs);
    forall i | 0 <= i < n
      ensures rs[i].clientCommandId != rs[n].clientCommandId
    {
      assert rs[..n][i] in multiset(rs[..n]);
      assert rs[i] in multiset(rs);
    }
  }

  lemma KeysAfterOne(t: Tables, r: Request, q: QuoteId, cid: CommandId)
    requires Ledger(t) && cid in BookOf(AppendOne(t, r).0, q).keys
    ensures cid in BookOf(t, q).keys || cid == r.clientCommandId
  {
    hide Commit, Ledger, GoodBook, LogOf, KeyMap, CommandToEvents, StateOf;
    if r.command.Some? {
      CommitRefinesBook(t, r.quoteId, r.clientCommandId, r.command.value);
      if r.quoteId != q {
        assert BookOf(AppendOne(t, r).0, q) == BookOf(t, q);
      }
    }
  }

  lemma {:induction false} KeysAfterAll(t: Tables, rs: seq<Request>, q: QuoteId, cid: CommandId)
    requires Ledger(t) && cid in BookOf(RunAll(t, rs), q).keys
    ensures cid in BookOf(t, q).keys || exists i :: 0 <= i < |rs| && rs[i].clientCommandId == cid
  {
    hide AppendOne, Ledger, BookOf;
    if rs != [] {
      var n := |rs| - 1;
      RunAllKeepsLedger(t, rs[..n]);
      KeysAfterOne(RunAll(t, rs[..n]), rs[n], q, cid);
      if cid != rs[n].clientCommandId {
        KeysAfterAll(t, rs[..n], q, cid);
      }
    }
  }

  /** One line more, on a quote that is open. */
  lemma AppendOneLine(t: Tables, q: QuoteId, r: Request)
    requires Ledger(t) && r.quoteId == q && AddsLine(r) && r.clientCommandId !in BookOf(t, q).keys
    requires OpenQuote(StateOf(LogOf(t, q)))
    ensures
      var s, t' := StateOf(LogOf(t, q)), AppendOne(t, r).0;
      && (AppendOne(t, r).1.Ok? <==> CommandToEvents(s, r.command.value).Ok?)
      && (AppendOne(t, r).1.Ok? ==> StateOf(LogOf(t', q)) == s.(lines := s.lines + [r.command.value.line]))
  {
    hide AppendOne, Ledger, LogOf, KeyMap, SoundLines, CommandToEvents, Settled;
    var log := LogOf(t, q);
    LedgerLogIsProduced(t, q);
    FreshKeyIsDecidedOnTheLog(t, r);
    if AppendOne(t, r).1.Ok? {
      OpenLogPlusOne(log, r.command.value.line);
    }
  }

  lemma OpenLogPlusOne(log: Log, line: LineItem)
    requires Produced(log) && OpenQuote(StateOf(log))
    ensures StateOf(log + [LineItemAdded(line)]) == StateOf(log).(lines := StateOf(log).lines + [line])
  {
    hide SoundLines, Produced, LinesOf;
    ProducedIffWellFormed(log);
    OpenStatePlusLine(log, LineItemAdded(line));
  }

  /** Appending a batch of new lines over the ledger is adding the lines to the quote one by one. */
  lemma {:induction false} BatchIsAddAll(t: Tables, q: QuoteId, rs: seq<Request>)
    requires Ledger(t) && OpenQuote(StateOf(LogOf(t, q))) && NewLines(t, q, multiset(rs))
    ensures AllAddLines(rs)
    ensures AllSucceed(t, rs) <==> AddAll(StateOf(LogOf(t, q)), LinesIn(rs)).Ok?
    ensures AllSucceed(t, rs) ==> Ok(StateOf(LogOf(RunAll(t, rs), q))) == AddAll(StateOf(LogOf(t, q)), LinesIn(rs))
  {
    hide AppendOne, Ledger, LogOf, KeyMap, StateOf, SoundLines, CommandToEvents, NewLines, AllSucceed, ReplayFrom;
    NewLinesAddLines(t, q, rs);
    if rs == [] {
      NoneFail(t);
    } else {
      var n := |rs| - 1;
      var s, lines := StateOf(LogOf(t, q)), LinesIn(rs);
      NewLinesInit(t, q, rs);
      AllSucceedPlusOne(t, rs);
      BatchIsAddAll(t, q, rs[..n]);
      assert LinesIn(rs[..n]) == lines[..n];
      if AllSucceed(t, rs[..n]) {
        AddAllIffSound(s, lines[..n]);
        RunAllKeepsLedger(t, rs[..n]);
        if rs[n].clientCommandId in BookOf(RunAll(t, rs[..n]), q).keys {
          KeysAfterAll(t, rs[..n], q, rs[n].clientCommandId);
        }
        AppendOneLine(RunAll(t, rs[..n]), q, rs[n]);
        AddOneIffSound(AddAll(s, lines[..n]).value, lines[n]);
      }
    }
  }

  function Rest<T>(s: seq<T>, k: nat): seq<T>
    requires k < |s|
  {
    s[..k] + s[k + 1..]
  }

  lemma RestAndOne<T>(s: seq<T>, k: nat)
    requires k < |s|
    ensures multiset(s) == multiset(Rest(s, k)) + multiset{s[k]}
  {
    assert s == s[..k] + [s[k]] + s[k + 1..];
  }

  lemma LinesOfRest(rs: seq<Request>, k: nat)
    requires k < |rs| && AllAddLines(rs)
    ensures AllAddLines(Rest(rs, k)) && LinesIn(Rest(rs, k)) == Rest(LinesIn(rs), k)
  {
    hide AddsLine;
    assert forall i :: 0 <= i < |Rest(rs, k)| ==> Rest(rs, k)[i] == rs[if i < k then i else i + 1];
  }

  lemma {:induction false} LinesOfPermutation(a: seq<Request>, b: seq<Request>)
    requires multiset(a) == multiset(b) && AllAddLines(a) && AllAddLines(b)
    ensures multiset(LinesIn(a)) == multiset(LinesIn(b))
    decreases |a|
  {
    hide AddsLine, AllAddLines, Rest, LinesIn;
    if a == [] {
      assert |multiset(b)| == 0;
      assert b == [];
    } else {
      var n := |a| - 1;
      assert a[n] in multiset(b);
      var k :| 0 <= k < |b| && b[k] == a[n];
      RestIsShorter(a, n);
      RestAndOne(a, n);
      RestAndOne(b, k);
      assert multiset(Rest(a, n)) == multiset(a) - multiset{a[n]};
      assert multiset(Rest(b, k)) == multiset(b) - multiset{b[k]};
      LinesOfRest(a, n);
      LinesOfRest(b, k);
      LinesOfPermutation(Rest(a, n), Rest(b, k));
      LineAt(a, n);
      LineAt(b, k);
      RestAndOne(LinesIn(a), n);
      RestAndOne(LinesIn(b), k);
    }
  }

  lemma RestIsShorter<T>(s: seq<T>, k: nat)
    requires k < |s|
    ensures |Rest(s, k)| == |s| - 1
  {
  }

  lemma LineAt(rs: seq<Request>, k: nat)
    requires k < |rs| && AllAddLines(rs)
    ensures AddsLine(rs[k]) && |LinesIn(rs)| == |rs| && LinesIn(rs)[k] == LineIn(rs[k])
  {
  }

  /**
    The outcome of concurrent writers does not depend on who comes first. In every reachable state, for a
    quote that is created and not finalized, if a set of requests adding new lines succeeds in full in one
    order then it does in every order, and the quotes that result have the same lines up to order and the
    same subtotal, tax and total.
  */
  lemma WritersInAnyOrder(steps: seq<Step>, q: QuoteId, a: seq<Request>, b: seq<Request>)
    requires
      var log := LogOf(Run(steps).tables, q);
      log != [] && !log[|log| - 1].QuoteFinalized?
    requires multiset(a) == multiset(b) && NewLines(Run(steps).tables, q, multiset(a))
    ensures
      var t := Run(steps).tables;
      && (AllSucceed(t, a) <==> AllSucceed(t, b))
      && (AllSucceed(t, a) ==>
            var logA, logB := LogOf(RunAll(t, a), q), LogOf(RunAll(t, b), q);
            && Replay(logA).Ok? && Replay(logB).Ok?
            && var x, y := Replay(logA).value, Replay(logB).value;
            && multiset(x.lines) == multiset(y.lines)
            && x.(lines := []) == y.(lines := [])
            && SameTotals(x, y))
  {
    hide Run, Inv, Ledger, LogOf, NewLines, AllSucceed, RunAll, OpenQuote, SameTotals, AddAll, AppendOne;
    hide Replay, StateOf;
    EveryRunKeepsInv(steps);
    InvIsLedger(Run(steps));
    var t := Run(steps).tables;
    LedgerLogIsProduced(t, q);
    ProducedQuoteIsOpen(LogOf(t, q));
    BatchIsAddAll(t, q, a);
    BatchIsAddAll(t, q, b);
    LinesOfPermutation(a, b);
    OrderDoesNotMatter(StateOf(LogOf(t, q)), LinesIn(a), LinesIn(b));
    LedgerReplays(t, a, q);
    LedgerReplays(t, b, q);
  }

  lemma LedgerReplays(t: Tables, rs: seq<Request>, q: QuoteId)
    requires Ledger(t)
    ensures Replay(LogOf(RunAll(t, rs), q)) == Ok(StateOf(LogOf(RunAll(t, rs), q)))
  {
    hide Ledger, LogOf, RunAll, Produced, WellFormed, StateOf, Replay;
    RunAllKeepsLedger(t, rs);
    LedgerLogIsProduced(RunAll(t, rs), q);
    ProducedIffWellFormed(LogOf(RunAll(t, rs), q));
  }
}
