/**
  The event log of one quote: replay (src/domain/mod.rs, src/mapping.rs), the logs that commands can
  produce, a closed description of exactly those logs, and what a reader may rely on.
*/
module QuoteLog {
  import opened Wrappers
  import opened Domain
  import opened Money

  type Log = seq<Event>

  // ---------------------------------------------------------------- replay

  function ReplayFrom(s: QuoteState, log: Log): Result<QuoteState, DomainError> {
    if log == [] then Ok(s)
    else
      var before :- ReplayFrom(s, log[..|log| - 1]);
      Reduce(before, log[|log| - 1])
  }

  function Replay(log: Log): Result<QuoteState, DomainError> {
    ReplayFrom(EMPTY_QUOTE, log)
  }

  /** The replay loop: it stops at the first event the reducer rejects. */
  method ReplayEvents(log: Log) returns (r: Result<QuoteState, DomainError>)
    ensures r == Replay(log)
  {
    var state := EMPTY_QUOTE;
    for i := 0 to |log|
      invariant Replay(log[..i]) == Ok(state)
    {
      assert log[..i + 1][..i] == log[..i];
      var next := Reduce(state, log[i]);
      if next.Err? {
        ReplayErrorSticks(log, i + 1);
        return next;
      }
      state := next.value;
    }
    assert log[..|log|] == log;
    r := Ok(state);
  }

  lemma {:induction false} ReplayErrorSticks(log: Log, k: nat)
    requires k <= |log| && Replay(log[..k]).Err?
    ensures Replay(log) == Replay(log[..k])
    decreases |log|
  {
    if k == |log| {
      assert log[..k] == log;
    } else {
      var n := |log| - 1;
      assert log[..n][..k] == log[..k];
      ReplayErrorSticks(log[..n], k);
    }
  }

  /** Replaying in two parts, the second from the state the first part reached, is replaying it all. */
  lemma {:induction false} ReplayInParts(s: QuoteState, a: Log, b: Log)
    requires ReplayFrom(s, a).Ok?
    ensures ReplayFrom(s, a + b) == ReplayFrom(ReplayFrom(s, a).value, b)
    decreases |b|
  {
    if b == [] {
      assert a + b == a;
    } else {
      var n := |b| - 1;
      assert (a + b)[..|a| + n] == a + b[..n];
      ReplayInParts(s, a, b[..n]);
    }
  }

  // ---------------------------------------------------------------- logs that commands produce

  /** Every event was emitted by some command accepted in the replay of the events before it. */
  ghost predicate Produced(log: Log) {
    log != [] ==>
      var n := |log| - 1;
      && Produced(log[..n])
      && Replay(log[..n]).Ok?
      && exists c: Command :: CommandToEvents(Replay(log[..n]).value, c) == Ok([log[n]])
  }

  function LinesOf(log: Log): seq<LineItem> {
    if log == [] then []
    else
      var before := LinesOf(log[..|log| - 1]);
      var e := log[|log| - 1];
      if e.LineItemAdded? then before + [e.line] else before
  }

  /** The state read off the log without running the reducer. */
  function StateOf(log: Log): QuoteState {
    if log == [] || !log[0].QuoteCreated? then EMPTY_QUOTE
    else QuoteState(
        Some(log[0].currencyCode), Some(log[0].jurisdictionId), log[|log| - 1].QuoteFinalized?, LinesOf(log))
  }

  /**
    `QuoteCreated LineItemAdded* [QuoteFinalized]`, with non-blank header fields and at least one line
    before the finalize; or the empty log.
  */
  predicate Grammar(log: Log) {
    log != [] ==>
      && log[0].QuoteCreated?
      && HasText(log[0].currencyCode)
      && HasText(log[0].jurisdictionId)
      && (forall i :: 1 <= i < |log| ==> !log[i].QuoteCreated?)
      && (forall i :: 1 <= i < |log| && log[i].QuoteFinalized? ==> 2 <= i == |log| - 1)
  }

  /** The grammar, with lines that are valid, have distinct ids and whose total fits the money range. */
  predicate WellFormed(log: Log) {
    Grammar(log) && SoundLines(LinesOf(log), TaxRateBps(StateOf(log)))
  }

  lemma SoundLinesPrefix(lines: seq<LineItem>, k: nat, bps: int)
    requires SoundLines(lines, bps) && k <= |lines| && TaxRate(bps)
    ensures SoundLines(lines[..k], bps)
  {
    PrefixCostsNoMore(lines, k, bps);
  }

  lemma WellFormedPrefix(log: Log)
    requires WellFormed(log) && log != []
    ensures WellFormed(log[..|log| - 1])
  {
    var init := log[..|log| - 1];
    if init != [] {
      assert init[0] == log[0];
      var lines := LinesOf(log);
      assert LinesOf(init) == lines[..|LinesOf(init)|];
      SoundLinesPrefix(lines, |LinesOf(init)|, TaxRateBps(StateOf(log)));
    }
  }

  lemma {:induction false} LineCount(log: Log)
    requires WellFormed(log)
    ensures log != [] ==> |log| == 1 + |LinesOf(log)| + (if log[|log| - 1].QuoteFinalized? then 1 else 0)
    ensures log == [] ==> LinesOf(log) == []
  {
    if log != [] {
      var init := log[..|log| - 1];
      WellFormedPrefix(log);
      LineCount(init);
      if init != [] {
        assert init[|init| - 1] == log[|log| - 2];
      }
    }
  }

  lemma AppendedLog(log: Log, e: Event)
    ensures (log + [e])[..|log|] == log && (log + [e])[|log|] == e
    ensures LinesOf(log + [e]) == if e.LineItemAdded? then LinesOf(log) + [e.line] else LinesOf(log)
  {
    assert (log + [e])[..|log|] == log;
  }

  lemma CreateIffWellFormed(log: Log, e: Event)
    requires WellFormed(log) && e.QuoteCreated?
    ensures CommandToEvents(StateOf(log), CommandOf(e)).Ok? <==> WellFormed(log + [e])
    ensures WellFormed(log + [e]) ==> Reduce(StateOf(log), e) == Ok(StateOf(log + [e]))
  {
    hide SoundLines, Blank, HasText, LinesOf;
    AppendedLog(log, e);
    BlankHasNoText(e.currencyCode);
    BlankHasNoText(e.jurisdictionId);
    if log != [] {
      assert (log + [e])[|log|].QuoteCreated?;
    } else {
      assert log + [e] == [e];
      NoLines(TaxRateBps(StateOf([e])));
      assert LinesOf([e]) == LinesOf([]);
    }
  }

  lemma NoLines(bps: int)
    requires TaxRate(bps)
    ensures LinesOf([]) == [] && SoundLines([], bps)
  {
  }

  lemma OpenGrammarPlusLine(log: Log, e: Event)
    requires Grammar(log) && log != [] && !log[|log| - 1].QuoteFinalized? && e.LineItemAdded?
    ensures Grammar(log + [e])
  {
  }

  lemma OpenStatePlusLine(log: Log, e: Event)
    requires Grammar(log) && log != [] && !log[|log| - 1].QuoteFinalized? && e.LineItemAdded?
    ensures StateOf(log + [e]) == StateOf(log).(lines := LinesOf(log) + [e.line])
  {
    AppendedLog(log, e);
  }

  /** Appending a line to an open log keeps it well formed exactly when its lines stay sound. */
  lemma OpenLogPlusLine(log: Log, e: Event)
    requires WellFormed(log) && log != [] && !log[|log| - 1].QuoteFinalized? && e.LineItemAdded?
    ensures WellFormed(log + [e]) <==> SoundLines(LinesOf(log) + [e.line], TaxRateBps(StateOf(log)))
  {
    OpenGrammarPlusLine(log, e);
    OpenStatePlusLine(log, e);
    AppendedLog(log, e);
  }

  lemma AddLineIffWellFormed(log: Log, e: Event)
    requires WellFormed(log) && e.LineItemAdded?
    ensures CommandToEvents(StateOf(log), CommandOf(e)).Ok? <==> WellFormed(log + [e])
    ensures WellFormed(log + [e]) ==> Reduce(StateOf(log), e) == Ok(StateOf(log + [e]))
  {
    if log == [] {
      assert (log + [e])[0] == e;
    } else if log[|log| - 1].QuoteFinalized? {
      assert (log + [e])[|log| - 1].QuoteFinalized?;
    } else {
      OpenLogPlusLine(log, e);
      OpenStatePlusLine(log, e);
      AddLineAcceptedIffSound(StateOf(log), e.line);
      if CommandToEvents(StateOf(log), CommandOf(e)).Ok? {
        AcceptedEventReduces(StateOf(log), CommandOf(e));
      }
    }
  }

  lemma FinalizeIffWellFormed(log: Log, e: Event)
    requires WellFormed(log) && e.QuoteFinalized?
    ensures CommandToEvents(StateOf(log), CommandOf(e)).Ok? <==> WellFormed(log + [e])
    ensures WellFormed(log + [e]) ==> Reduce(StateOf(log), e) == Ok(StateOf(log + [e]))
  {
    hide SoundLines, HasText, LinesOf;
    var log' := log + [e];
    AppendedLog(log, e);
    LineCount(log);
    if log == [] {
      assert log'[0] == e;
    } else {
      assert log'[|log| - 1] == log[|log| - 1];
      assert forall i :: 1 <= i < |log'| ==> log'[i] == if i < |log| then log[i] else e;
    }
  }

  /** On a well-formed log, the handler accepts a command exactly when its event keeps the log well formed. */
  lemma AcceptedIffWellFormed(log: Log, e: Event)
    requires WellFormed(log)
    ensures CommandToEvents(StateOf(log), CommandOf(e)).Ok? <==> WellFormed(log + [e])
    ensures WellFormed(log + [e]) ==> Reduce(StateOf(log), e) == Ok(StateOf(log + [e]))
  {
    match e
    case QuoteCreated(_, _) => CreateIffWellFormed(log, e);
    case LineItemAdded(_) => AddLineIffWellFormed(log, e);
    case QuoteFinalized => FinalizeIffWellFormed(log, e);
  }

  lemma EmptyIsWellFormed()
    ensures WellFormed([]) && StateOf([]) == EMPTY_QUOTE
  {
  }

  /**
    The commands produce exactly the well-formed logs, and replaying one yields the state that can be
    read off it.
  */
  lemma {:induction false} ProducedIffWellFormed(log: Log)
    ensures Produced(log) <==> WellFormed(log)
    ensures WellFormed(log) ==> Replay(log) == Ok(StateOf(log))
  {
    hide CommandToEvents, WellFormed, StateOf, Reduce;
    EmptyIsWellFormed();
    if log != [] {
      var n := |log| - 1;
      var init, e := log[..n], log[n];
      assert log == init + [e];
      ProducedIffWellFormed(init);
      if WellFormed(init) {
        AcceptedIffWellFormed(init, e);
        AcceptedCommandIsItsEvent(StateOf(init), CommandOf(e));
        forall c: Command
          ensures CommandToEvents(StateOf(init), c) == Ok([e]) ==> c == CommandOf(e)
        {
          AcceptedCommandIsItsEvent(StateOf(init), c);
        }
      }
      if WellFormed(log) {
        WellFormedPrefix(log);
      }
    }
  }

  // ---------------------------------------------------------------- replay of any log

  /** One event on any state: when the reducer refuses it and why, and what it does otherwise. */
  lemma ReduceRefusesIff(s: QuoteState, e: Event)
    ensures e.QuoteCreated? ==>
              if s.currencyCode != None then Reduce(s, e) == Err(QuoteAlreadyCreated)
              else Reduce(s, e) == Ok(QuoteState(Some(e.currencyCode), Some(e.jurisdictionId), s.finalized, []))
    ensures !e.QuoteCreated? && s.currencyCode == None ==> Reduce(s, e) == Err(QuoteNotCreated)
    ensures !e.QuoteCreated? && s.currencyCode != None && s.finalized ==> Reduce(s, e) == Err(QuoteAlreadyFinalized)
    ensures s.currencyCode != None && !s.finalized && e.QuoteFinalized? ==> Reduce(s, e) == Ok(s.(finalized := true))
    ensures s.currencyCode != None && !s.finalized && e.LineItemAdded? ==>
              if exists i :: 0 <= i < |s.lines| && s.lines[i].lineId == e.line.lineId
              then Reduce(s, e) == Err(DuplicateLineId)
              else Reduce(s, e) == Ok(s.(lines := s.lines + [e.line]))
  {
  }

  /** Created first and only once, finalized last if at all, line ids distinct. */
  predicate Replayable(log: Log) {
    && DistinctIds(LinesOf(log))
    && (log != [] ==>
          && log[0].QuoteCreated?
          && (forall i :: 1 <= i < |log| ==> !log[i].QuoteCreated?)
          && (forall i :: 0 <= i < |log| - 1 ==> !log[i].QuoteFinalized?))
  }

  lemma DistinctPlusOne(lines: seq<LineItem>, l: LineItem)
    ensures DistinctIds(lines + [l]) <==> DistinctIds(lines) && !HasLineId(lines, l.lineId)
  {
    var all := lines + [l];
    assert forall i :: 0 <= i < |lines| ==> all[i] == lines[i];
    if DistinctIds(all) {
      assert forall i :: 0 <= i < |lines| ==> all[i].lineId != all[|lines|].lineId;
    }
  }

  lemma ReplayableInit(log: Log)
    requires log != [] && Replayable(log)
    ensures Replayable(log[..|log| - 1])
  {
    var init, e := log[..|log| - 1], log[|log| - 1];
    if e.LineItemAdded? {
      DistinctPlusOne(LinesOf(init), e.line);
    }
  }

  lemma ReplayableStep(init: Log, e: Event)
    requires Replayable(init)
    ensures Replayable(init + [e]) <==> Reduce(StateOf(init), e).Ok?
    ensures Reduce(StateOf(init), e).Ok? ==> Reduce(StateOf(init), e) == Ok(StateOf(init + [e]))
  {
    hide LinesOf, DistinctIds;
    var log := init + [e];
    AppendedLog(init, e);
    NoLines(0);
    if e.LineItemAdded? {
      DistinctPlusOne(LinesOf(init), e.line);
    }
    assert forall i :: 0 <= i < |init| ==> log[i] == init[i];
    if init == [] {
      assert log == [e];
    } else {
      assert log[0] == init[0] && log[|init| - 1] == init[|init| - 1];
    }
  }

  /**
    The reducer alone is weaker than the handler: any log at all, whoever wrote it, replays if and only if it is
    created first and only once, finalized last if at all, and has distinct line ids. The result is the
    state that can be read off it.
  */
  lemma {:induction false} ReplaysIff(log: Log)
    ensures Replay(log).Ok? <==> Replayable(log)
    ensures Replay(log).Ok? ==> Replay(log) == Ok(StateOf(log))
  {
    hide Replayable, StateOf, Reduce;
    if log == [] {
      EmptyReplays();
    } else {
      var n := |log| - 1;
      assert log == log[..n] + [log[n]];
      ReplaysIff(log[..n]);
      if Replayable(log) {
        ReplayableInit(log);
      }
      if Replayable(log[..n]) {
        ReplayableStep(log[..n], log[n]);
      }
    }
  }

  lemma EmptyReplays()
    ensures Replayable([]) && StateOf([]) == EMPTY_QUOTE
  {
  }

  // ---------------------------------------------------------------- consequences for every produced log

  lemma {:induction false} ProducedPrefix(log: Log, k: nat)
    requires Produced(log) && k <= |log|
    ensures Produced(log[..k])
    decreases |log|
  {
    if k == |log| {
      assert log[..k] == log;
    } else {
      var n := |log| - 1;
      assert log[..n][..k] == log[..k];
      ProducedPrefix(log[..n], k);
    }
  }

  /** Every prefix replays, to the state that can be read off it. */
  lemma PrefixReplays(log: Log, k: nat)
    requires Produced(log) && k <= |log|
    ensures WellFormed(log[..k]) && Replay(log[..k]) == Ok(StateOf(log[..k]))
  {
    ProducedPrefix(log, k);
    ProducedIffWellFormed(log[..k]);
  }

  /**
    The state before entry k determines which command produced it: deciding a command again in that
    state emits entry k if and only if it is that same command.
  */
  lemma DecidedByItsCommandOnly(log: Log, k: nat, c: Command)
    requires Produced(log) && k < |log|
    ensures CommandToEvents(StateOf(log[..k]), c) == Ok([log[k]]) <==> c == CommandOf(log[k])
    ensures CommandToEvents(StateOf(log[..k]), c).Ok? ==> CommandToEvents(StateOf(log[..k]), c).value == [EventOf(c)]
  {
    hide CommandToEvents, Produced, StateOf;
    ProducedPrefix(log, k + 1);
    assert log[..k + 1] == log[..k] + [log[k]];
    LastDecidedByItsCommandOnly(log[..k], log[k], c);
  }

  lemma LastDecidedByItsCommandOnly(init: Log, e: Event, c: Command)
    requires Produced(init + [e])
    ensures CommandToEvents(StateOf(init), c) == Ok([e]) <==> c == CommandOf(e)
    ensures CommandToEvents(StateOf(init), c).Ok? ==> CommandToEvents(StateOf(init), c).value == [EventOf(c)]
  {
    hide CommandToEvents, StateOf, SoundLines, Grammar, Reduce, ReplayFrom;
    assert (init + [e])[..|init|] == init;
    ProducedIffWellFormed(init);
    ProducedIffWellFormed(init + [e]);
    AcceptedIffWellFormed(init, e);
    AcceptedCommandIsItsEvent(StateOf(init), c);
    AcceptedCommandIsItsEvent(StateOf(init), CommandOf(e));
  }

  /** A finalized quote is frozen: no command extends its log. */
  lemma FinalizedIsFrozen(log: Log, c: Command)
    requires Produced(log) && log != [] && log[|log| - 1].QuoteFinalized?
    ensures CommandToEvents(StateOf(log), c).Err?
    ensures forall e: Event :: !Produced(log + [e])
  {
    ProducedIffWellFormed(log);
    forall e: Event
      ensures !Produced(log + [e])
    {
      ProducedIffWellFormed(log + [e]);
      assert (log + [e])[|log| - 1].QuoteFinalized?;
    }
  }

  predicate NoLessThan(after: QuoteState, before: QuoteState) {
    && Subtotal(before).Ok? && Subtotal(after).Ok? && Subtotal(before).value <= Subtotal(after).value
    && Tax(before).Ok? && Tax(after).Ok? && Tax(before).value <= Tax(after).value
    && Total(before).Ok? && Total(after).Ok? && Total(before).value <= Total(after).value
  }

  lemma MoreLinesCostNoLess(before: QuoteState, after: QuoteState)
    requires ValidLines(after.lines) && ExactTotal(after.lines, TaxRateBps(after)) <= I64_MAX
    requires |before.lines| <= |after.lines| && before.lines == after.lines[..|before.lines|]
    requires before.jurisdictionId == after.jurisdictionId || before.lines == []
    ensures NoLessThan(after, before)
  {
    var bps := TaxRateBps(after);
    PrefixCostsNoMore(after.lines, |before.lines|, bps);
    if before.lines == [] {
      assert ExactTotal(before.lines, TaxRateBps(before)) == 0;
    }
    TotalIsExact(before);
    TotalIsExact(after);
  }

  /** Subtotal, tax and total never decrease along a log. */
  lemma TotalsNeverDecrease(log: Log, k: nat)
    requires Produced(log) && k <= |log|
    ensures NoLessThan(StateOf(log), StateOf(log[..k]))
  {
    PrefixReplays(log, k);
    ProducedIffWellFormed(log);
    LinesOfPrefix(log, k);
    MoreLinesCostNoLess(StateOf(log[..k]), StateOf(log));
  }

  lemma {:induction false} LinesOfPrefix(log: Log, k: nat)
    requires k <= |log|
    ensures |LinesOf(log[..k])| <= |LinesOf(log)|
    ensures LinesOf(log[..k]) == LinesOf(log)[..|LinesOf(log[..k])|]
    decreases |log|
  {
    if k == |log| {
      assert log[..k] == log;
    } else {
      var n := |log| - 1;
      assert log[..n][..k] == log[..k];
      LinesOfPrefix(log[..n], k);
    }
  }

  lemma FrontierOfState(s: QuoteState, line: LineItem)
    requires s.IsCreated() && !s.finalized && SoundLines(s.lines, TaxRateBps(s))
    requires ValidLine(line) && !HasLineId(s.lines, line.lineId)
    ensures
      var lines := s.lines + [line];
      var sub := ProductSum(lines);
      if sub + TaxOwed(JurisdictionOf(s), sub) <= 9_223_372_036_854_775_807
      then CommandToEvents(s, AddLineItem(line)) == Ok([LineItemAdded(line)]) && EveryLineFits(lines)
      else CommandToEvents(s, AddLineItem(line)) == Err(IntegerOverflow)
  {
    hide CommandToEvents, ExactTotal, ValidLine, EveryLineFits, HasLineId, ProductSum, TaxOwed, DistinctIds;
    var s' := s.(lines := s.lines + [line]);
    AddLineFrontier(s, line);
    TotalOwed(s');
    SubtotalIsProductSum(s'.lines);
    if ExactTotal(s'.lines, TaxRateBps(s)) <= I64_MAX {
      FittingTotalFitsEveryLine(s, line);
    }
  }

  lemma OpenLogFacts(log: Log)
    requires Produced(log) && log != [] && !log[|log| - 1].QuoteFinalized?
    ensures log[0].QuoteCreated?
    ensures
      var s := StateOf(log);
      && s.IsCreated() && !s.finalized && SoundLines(s.lines, TaxRateBps(s)) && s.lines == LinesOf(log)
      && JurisdictionOf(s) == log[0].jurisdictionId
  {
    hide Produced, SoundLines, LinesOf, Replay;
    ProducedIffWellFormed(log);
  }

  /** The jurisdiction a log was created with. */
  function LogJurisdiction(log: Log): string {
    if log != [] && log[0].QuoteCreated? then log[0].jurisdictionId else ""
  }

  /**
    The overflow frontier in every reachable open quote: a valid line with a fresh id is accepted if and only
    if subtotal plus floored tax, computed exactly with the line included, is at most 2^63 - 1; otherwise
    the error is IntegerOverflow. After acceptance every line, old and new, still fits on its own.
  */
  lemma OverflowFrontier(log: Log, line: LineItem)
    requires Produced(log) && log != [] && !log[|log| - 1].QuoteFinalized?
    requires ValidLine(line) && !HasLineId(LinesOf(log), line.lineId)
    ensures
      var s := StateOf(log);
      var lines := LinesOf(log) + [line];
      var sub := ProductSum(lines);
      if sub + TaxOwed(LogJurisdiction(log), sub) <= 9_223_372_036_854_775_807
      then CommandToEvents(s, AddLineItem(line)) == Ok([LineItemAdded(line)]) && EveryLineFits(lines)
      else CommandToEvents(s, AddLineItem(line)) == Err(IntegerOverflow)
  {
    hide CommandToEvents, Produced, ValidLine, EveryLineFits, HasLineId, ProductSum, TaxOwed, StateOf, SoundLines;
    OpenLogFacts(log);
    FrontierOfState(StateOf(log), line);
  }

  lemma FittingTotalFitsEveryLine(s: QuoteState, line: LineItem)
    requires ValidLines(s.lines) && ValidLine(line) && ExactTotal(s.lines + [line], TaxRateBps(s)) <= I64_MAX
    ensures EveryLineFits(s.lines + [line])
  {
    hide ExactTotal, Amount, ValidLine;
    TotalIsExact(s.(lines := s.lines + [line]));
  }

  // ---------------------------------------------------------------- concurrent writers

  /** AddLineItem commands issued one after the other, each decided on the state the previous one left. */
  function AddAll(s: QuoteState, lines: seq<LineItem>): Result<QuoteState, DomainError> {
    if lines == [] then Ok(s)
    else
      var before :- AddAll(s, lines[..|lines| - 1]);
      var events :- CommandToEvents(before, AddLineItem(lines[|lines| - 1]));
      ReplayFrom(before, events)
  }

  ghost predicate OpenQuote(s: QuoteState) {
    s.IsCreated() && !s.finalized && SoundLines(s.lines, TaxRateBps(s))
  }

  /** One more line on a state that has accepted the lines before it. */
  lemma AddOneIffSound(before: QuoteState, l: LineItem)
    requires OpenQuote(before)
    ensures CommandToEvents(before, AddLineItem(l)).Ok? <==> SoundLines(before.lines + [l], TaxRateBps(before))
    ensures CommandToEvents(before, AddLineItem(l)).Ok? ==>
              && CommandToEvents(before, AddLineItem(l)).value == [LineItemAdded(l)]
              && ReplayFrom(before, [LineItemAdded(l)]) == Ok(before.(lines := before.lines + [l]))
  {
    hide CommandToEvents, SoundLines, ReplayFrom, HasLineId;
    AddLineAcceptedIffSound(before, l);
    if CommandToEvents(before, AddLineItem(l)).Ok? {
      AcceptedCommandIsItsEvent(before, AddLineItem(l));
      AcceptedEventReduces(before, AddLineItem(l));
      ReplayOne(before, LineItemAdded(l));
    }
  }

  lemma SoundPrefixOfBatch(lines: seq<LineItem>, batch: seq<LineItem>, n: nat, bps: int)
    requires n <= |batch| && SoundLines(lines + batch, bps) && TaxRate(bps)
    ensures SoundLines(lines + batch[..n], bps)
  {
    hide SoundLines;
    assert (lines + batch)[..|lines| + n] == lines + batch[..n];
    SoundLinesPrefix(lines + batch, |lines| + n, bps);
  }

  /** A batch is accepted in full exactly when the resulting list of lines is sound. */
  lemma {:induction false} AddAllIffSound(s: QuoteState, lines: seq<LineItem>)
    requires OpenQuote(s)
    ensures AddAll(s, lines).Ok? <==> SoundLines(s.lines + lines, TaxRateBps(s))
    ensures AddAll(s, lines).Ok? ==> AddAll(s, lines).value == s.(lines := s.lines + lines)
  {
    hide SoundLines, CommandToEvents, ReplayFrom;
    if lines == [] {
      assert s.lines + lines == s.lines;
    } else {
      var n := |lines| - 1;
      AddAllIffSound(s, lines[..n]);
      assert s.lines + lines == (s.lines + lines[..n]) + [lines[n]];
      if AddAll(s, lines[..n]).Ok? {
        AddOneIffSound(AddAll(s, lines[..n]).value, lines[n]);
      } else if SoundLines(s.lines + lines, TaxRateBps(s)) {
        SoundPrefixOfBatch(s.lines, lines, n, TaxRateBps(s));
      }
    }
  }

  lemma ReplayOne(s: QuoteState, e: Event)
    ensures ReplayFrom(s, [e]) == Reduce(s, e)
  {
    assert [e][..0] == [];
    assert ReplayFrom(s, []) == Ok(s);
  }

  predicate SameTotals(x: QuoteState, y: QuoteState) {
    && Subtotal(x).Ok? && Subtotal(x) == Subtotal(y)
    && Tax(x).Ok? && Tax(x) == Tax(y)
    && Total(x).Ok? && Total(x) == Total(y)
  }

  lemma TotalsIgnoreOrder(x: QuoteState, y: QuoteState)
    requires multiset(x.lines) == multiset(y.lines) && x.jurisdictionId == y.jurisdictionId
    requires SoundLines(x.lines, TaxRateBps(x)) && SoundLines(y.lines, TaxRateBps(x))
    ensures SameTotals(x, y)
  {
    SubtotalIgnoresOrder(x.lines, y.lines);
    TotalIsExact(x);
    TotalIsExact(y);
  }

  /**
    If a set of AddLineItem commands is accepted in full in one order, it is accepted in full in every
    order, and the quotes that result have the same lines up to order and the same totals.
  */
  lemma OrderDoesNotMatter(s: QuoteState, a: seq<LineItem>, b: seq<LineItem>)
    requires OpenQuote(s) && multiset(a) == multiset(b)
    ensures AddAll(s, a).Ok? <==> AddAll(s, b).Ok?
    ensures AddAll(s, a).Ok? ==>
              var x, y := AddAll(s, a).value, AddAll(s, b).value;
              && multiset(x.lines) == multiset(y.lines)
              && x.(lines := []) == y.(lines := [])
              && SameTotals(x, y)
  {
    AddAllIffSound(s, a);
    AddAllIffSound(s, b);
    assert multiset(s.lines + a) == multiset(s.lines + b);
    SoundLinesIgnoreOrder(s.lines + a, s.lines + b, TaxRateBps(s));
    if AddAll(s, a).Ok? {
      TotalsIgnoreOrder(s.(lines := s.lines + a), s.(lines := s.lines + b));
    }
  }

  /** The quote of a produced log that is created and not finalized is open in the sense above. */
  lemma ProducedQuoteIsOpen(log: Log)
    requires Produced(log) && log != [] && !log[|log| - 1].QuoteFinalized?
    ensures OpenQuote(StateOf(log)) && Replay(log) == Ok(StateOf(log))
  {
    ProducedIffWellFormed(log);
  }

  // ---------------------------------------------------------------- views

  datatype LineView = LineView(line: LineItem, lineTotalMinor: I64)

  datatype QuoteView = QuoteView(
    quoteId: string, currencyCode: string, jurisdictionId: string, finalized: bool,
    subtotalMinor: I64, taxMinor: I64, totalMinor: I64, lineItems: seq<LineView>)

  function LineViews(lines: seq<LineItem>): Result<seq<LineView>, DomainError> {
    if EveryLineFits(lines)
    then Ok(seq(|lines|, i requires 0 <= i < |lines| => LineView(lines[i], Amount(lines[i]))))
    else Err(IntegerOverflow)
  }

  function ViewOf(quoteId: string, s: QuoteState): Result<QuoteView, DomainError> {
    var subtotal :- Subtotal(s);
    var tax :- Tax(s);
    var total :- Total(s);
    var lineItems :- LineViews(s.lines);
    Ok(QuoteView(
        quoteId,
        if s.currencyCode.Some? then s.currencyCode.value else "",
        if s.jurisdictionId.Some? then s.jurisdictionId.value else "",
        s.finalized, subtotal, tax, total, lineItems))
  }

  /** Field by field, what a view takes from the state and from its totals. */
  predicate Displays(v: QuoteView, quoteId: string, s: QuoteState) {
    && v.quoteId == quoteId && v.finalized == s.finalized
    && Some(v.currencyCode) == (if s.currencyCode.Some? then s.currencyCode else Some(""))
    && Some(v.jurisdictionId) == (if s.jurisdictionId.Some? then s.jurisdictionId else Some(""))
    && Subtotal(s) == Ok(v.subtotalMinor) && Tax(s) == Ok(v.taxMinor) && Total(s) == Ok(v.totalMinor)
    && |v.lineItems| == |s.lines|
    && forall i :: 0 <= i < |s.lines| ==>
         && v.lineItems[i].line == s.lines[i]
         && v.lineItems[i].lineTotalMinor == s.lines[i].quantity * s.lines[i].unitMinor
  }

  /** The view-building loop. */
  method QuoteStateToView(quoteId: string, s: QuoteState) returns (r: Result<QuoteView, DomainError>)
    ensures r == ViewOf(quoteId, s)
    ensures r.Ok? <==> Subtotal(s).Ok? && Tax(s).Ok? && Total(s).Ok?
    ensures r.Ok? ==> Displays(r.value, quoteId, s)
  {
    var subtotal := SubtotalMinor(s);
    if subtotal.Err? {
      return Err(subtotal.error);
    }
    var tax, total := Tax(s), Total(s);
    if tax.Err? {
      return Err(tax.error);
    }
    if total.Err? {
      return Err(total.error);
    }
    var lineItems: seq<LineView> := [];
    for i := 0 to |s.lines|
      invariant |lineItems| == i
      invariant forall j :: 0 <= j < i ==> FitsI64(Amount(s.lines[j]))
      invariant forall j :: 0 <= j < i ==> lineItems[j] == LineView(s.lines[j], Amount(s.lines[j]))
    {
      var lineTotal := LineTotal(s.lines[i]);
      // the subtotal above has already summed this line, so its own total cannot overflow here
      assert lineTotal.Ok?;
      lineItems := lineItems + [LineView(s.lines[i], lineTotal.value)];
    }
    assert EveryLineFits(s.lines);
    assert lineItems == LineViews(s.lines).value;
    r := Ok(QuoteView(
        quoteId,
        if s.currencyCode.Some? then s.currencyCode.value else "",
        if s.jurisdictionId.Some? then s.jurisdictionId.value else "",
        s.finalized, subtotal.value, tax.value, total.value, lineItems));
  }

  function SumOfLineTotals(views: seq<LineView>): int {
    if views == [] then 0
    else SumOfLineTotals(views[..|views| - 1]) + views[|views| - 1].lineTotalMinor
  }

  lemma {:induction false} LineTotalsSumToSubtotal(lines: seq<LineItem>)
    requires EveryLineFits(lines)
    ensures SumOfLineTotals(LineViews(lines).value) == ExactSubtotal(lines)
  {
    if lines != [] {
      var n := |lines| - 1;
      assert EveryLineFits(lines[..n]);
      LineTotalsSumToSubtotal(lines[..n]);
      assert LineViews(lines).value[..n] == LineViews(lines[..n]).value;
    }
  }

  /** A view whose line totals sum to the subtotal, and whose total is subtotal plus tax. */
  predicate Balanced(v: QuoteView) {
    && SumOfLineTotals(v.lineItems) == v.subtotalMinor
    && v.taxMinor == TaxOwed(v.jurisdictionId, v.subtotalMinor)
    && v.totalMinor == v.subtotalMinor + v.taxMinor
  }

  /**
    A view of the quote that shows the header, the finalized flag and the lines of the log, each line with its
    own total. The empty log has an empty header.
  */
  predicate Shows(v: QuoteView, quoteId: string, log: Log) {
    && v.quoteId == quoteId
    && |v.lineItems| == |LinesOf(log)|
    && (forall i :: 0 <= i < |v.lineItems| ==>
          && v.lineItems[i].line == LinesOf(log)[i]
          && v.lineItems[i].lineTotalMinor == v.lineItems[i].line.quantity * v.lineItems[i].line.unitMinor)
    && (log == [] ==> v.currencyCode == "" && v.jurisdictionId == "" && !v.finalized)
    && (log != [] && log[0].QuoteCreated? ==>
          && v.currencyCode == log[0].currencyCode
          && v.jurisdictionId == log[0].jurisdictionId
          && (v.finalized <==> log[|log| - 1].QuoteFinalized?))
  }

  lemma SoundQuoteHasView(quoteId: string, s: QuoteState)
    requires SoundLines(s.lines, TaxRateBps(s))
    ensures ViewOf(quoteId, s).Ok? && Balanced(ViewOf(quoteId, s).value)
    ensures ViewOf(quoteId, s).value.lineItems == LineViews(s.lines).value
  {
    TotalIsExact(s);
    SubtotalBounds(s.lines);
    assert TaxOn(ExactSubtotal(s.lines), TaxRateBps(s)) >= 0;
    assert EveryLineFits(s.lines);
    LineTotalsSumToSubtotal(s.lines);
  }

  lemma LogHasView(quoteId: string, log: Log)
    requires WellFormed(log)
    ensures ViewOf(quoteId, StateOf(log)).Ok?
    ensures Balanced(ViewOf(quoteId, StateOf(log)).value) && Shows(ViewOf(quoteId, StateOf(log)).value, quoteId, log)
  {
    SoundQuoteHasView(quoteId, StateOf(log));
  }

  /**
    Every prefix of every produced log has a view. It shows that prefix, its line totals sum to the
    subtotal, and its total is subtotal plus tax.
  */
  lemma ViewNeverFails(quoteId: string, log: Log, k: nat)
    requires Produced(log) && k <= |log|
    ensures Replay(log[..k]).Ok? && ViewOf(quoteId, Replay(log[..k]).value).Ok?
    ensures Balanced(ViewOf(quoteId, Replay(log[..k]).value).value)
    ensures Shows(ViewOf(quoteId, Replay(log[..k]).value).value, quoteId, log[..k])
  {
    PrefixReplays(log, k);
    LogHasView(quoteId, log[..k]);
  }
}
