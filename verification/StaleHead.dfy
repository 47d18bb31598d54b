/**
  Why delivery is not eventual. The published head may go backwards, and when a stale head is the last one
  published, a parked subscriber stays behind the log although nothing is in flight. This module gives a
  run that ends there; Pump.LaterPublishRepairs says exactly what one more publish does about it.
*/
module StaleHead {
  import opened Wrappers
  import opened Domain
  import opened Money
  import opened QuoteLog
  import opened Tables
  import opened Appending
  import opened Service
  import opened Delivery
  import opened Guarantees
  import opened Pump
  import History

  /**
    Two tasks publish in the opposite order of their commits: in every reachable state where a subscriber is
    parked below both, it ends parked at the lower head, with the version seen, below the head of the log.
  */
  lemma OutOfOrderPublishLeavesBehind(steps: seq<Step>, id: nat, first: nat, second: nat)
    requires
      var m := Run(steps);
      && id in m.subscribers && m.subscribers[id].phase.Parked?
      && first in m.appends && second in m.appends && first != second
      && m.appends[first].Committed? && m.appends[second].Committed?
      && m.appends[first].quoteId == m.appends[second].quoteId == m.subscribers[id].quoteId
      && m.subscribers[id].watermark < m.appends[first].last < m.appends[second].last
    ensures
      var m := Run(steps);
      var m' := Run(steps + [PublishAppend(second)]
                    + [PublishAppend(first), Wake(id), ReadHead(id), Load(id), EmitTail(id)]);
      id in m'.subscribers &&
      var s' := m'.subscribers[id];
      && m'.tables == m.tables && s'.quoteId == m.subscribers[id].quoteId
      && s'.phase.Parked? && UpToDate(m', s')
      && s'.watermark == m.appends[first].last < |LogOf(m'.tables, s'.quoteId)|
      && m'.appends == m.appends[second := Published][first := Published]
      && m'.cancelled == m.cancelled
  {
    hide Run, Inv, LogOf;
    EveryRunKeepsInv(steps);
    HeldEntryInLog(Run(steps), first);
    HeldEntryInLog(Run(steps), second);
    RunIsRunFrom(steps, [PublishAppend(second)]);
    OneStep(Run(steps), PublishAppend(second));
    PublishIsLocal(Run(steps), second);
    LaterPublishRepairs(steps + [PublishAppend(second)], id, first);
    TurnIsLocal(steps + [PublishAppend(second)], id, first);
  }

  lemma OneStep(m: Machine, step: Step)
    ensures RunFrom(m, [step]) == Do(m, step)
  {
    assert [step][..0] == [];
    assert RunFrom(m, []) == m;
  }

  lemma PublishIsLocal(m: Machine, task: nat)
    requires task in m.appends && m.appends[task].Committed?
    ensures
      var m' := Do(m, PublishAppend(task));
      && m'.tables == m.tables && m'.subscribers == m.subscribers && m'.cancelled == m.cancelled
      && m'.appends == m.appends[task := Published]
  {
  }

  lemma TurnIsLocal(steps: seq<Step>, id: nat, task: nat)
    requires id in Run(steps).subscribers && Run(steps).subscribers[id].phase.Parked?
    requires task in Run(steps).appends && Run(steps).appends[task].Committed?
    requires Run(steps).appends[task].quoteId == Run(steps).subscribers[id].quoteId
    ensures
      var m := Run(steps);
      var m' := Run(steps + [PublishAppend(task), Wake(id), ReadHead(id), Load(id), EmitTail(id)]);
      && id in m'.subscribers && m'.subscribers[id].quoteId == m.subscribers[id].quoteId
      && m'.appends == m.appends[task := Published] && m'.cancelled == m.cancelled
  {
    hide Run, Inv, LogOf, Do, RunFrom;
    EveryRunKeepsInv(steps);
    var m := Run(steps);
    PublishStep(m, task, id);
    PublishIsLocal(m, task);
    var m' := LoopTurn(Do(m, PublishAppend(task)), id);
    RunIsRunFrom(steps, [PublishAppend(task), Wake(id), ReadHead(id), Load(id), EmitTail(id)]);
    FiveSteps(m, PublishAppend(task), Wake(id), ReadHead(id), Load(id), EmitTail(id));
  }

  // ---------------------------------------------------------------- a concrete run

  const QUOTE: QuoteId := "q"
  const LINE := LineItem("l", "s", "d", 1, 100)
  const CREATE := Request(QUOTE, "a", Some(CreateQuote("EUR", "DE")))
  const ADD := Request(QUOTE, "b", Some(AddLineItem(LINE)))

  /** The subscriber has caught up on the still empty quote. */
  function Listening(): seq<Step> {
    [Subscribe(0, QUOTE, 0)] + PumpSteps(0)
  }

  /** Two appends commit, in this order, and neither has published yet. */
  function TwoCommits(): seq<Step> {
    [BeginAppend(0, CREATE), CommitAppend(0), BeginAppend(1, ADD), CommitAppend(1)]
  }

  lemma ListeningState()
    ensures
      var m := Run(Listening());
      && m.tables == EMPTY_TABLES && m.appends == map[] && m.detached == map[] && !m.cancelled
      && 0 in m.subscribers && m.subscribers[0].quoteId == QUOTE
      && m.subscribers[0].phase.Parked? && m.subscribers[0].watermark == 0
  {
    hide Do, PumpSteps, UpToDate, LogOf, Received, Slice;
    OneStep(INITIAL, Subscribe(0, QUOTE, 0));
    assert Run([Subscribe(0, QUOTE, 0)]) == Do(INITIAL, Subscribe(0, QUOTE, 0));
    FirstSubscription();
    PumpCatchesUp([Subscribe(0, QUOTE, 0)], 0);
    NoEntries();
  }

  lemma NoEntries()
    ensures LogOf(EMPTY_TABLES, QUOTE) == []
  {
  }

  lemma FirstSubscription()
    ensures
      var m := Do(INITIAL, Subscribe(0, QUOTE, 0));
      && m == INITIAL.(subscribers := m.subscribers)
      && 0 in m.subscribers && m.subscribers[0].quoteId == QUOTE && m.subscribers[0].phase.Loaded?
  {
    hide Open, Ledger, LogOf;
    EmptyTablesAreALedger();
    OpenOnLedger(EMPTY_TABLES, QUOTE, 0);
  }

  /** Both commands are accepted, one after the other. */
  lemma BothAccepted()
    ensures
      var (t1, r1) := AppendOne(EMPTY_TABLES, CREATE);
      var (t2, r2) := AppendOne(t1, ADD);
      && r1 == Ok([StoredEvent(1, QUOTE, QuoteCreated("EUR", "DE"))])
      && r2 == Ok([StoredEvent(2, QUOTE, LineItemAdded(LINE))])
      && |LogOf(t2, QUOTE)| == 2
  {
    hide AppendOne, Ledger, Settled, CommandToEvents, LogOf, KeyMap, StateOf;
    var e1, e2 := QuoteCreated("EUR", "DE"), LineItemAdded(LINE);
    AcceptedInTurn(e1, e2);
    EmptyTablesAreALedger();
    NoEntries();
    FreshKeyIsDecidedOnTheLog(EMPTY_TABLES, CREATE);
    var t1 := AppendOne(EMPTY_TABLES, CREATE).0;
    assert LogOf(t1, QUOTE) == [e1];
    AppendOneKeepsLedger(EMPTY_TABLES, CREATE);
    SecondKeyIsFresh(t1);
    FreshKeyIsDecidedOnTheLog(t1, ADD);
  }

  lemma SecondKeyIsFresh(t1: Tables)
    requires t1 == AppendOne(EMPTY_TABLES, CREATE).0
    ensures ADD.clientCommandId !in BookOf(t1, QUOTE).keys
  {
    hide Commit, Ledger, CommandToEvents, LogOf;
    EmptyTablesAreALedger();
    CommitRefinesBook(EMPTY_TABLES, QUOTE, "a", CREATE.command.value);
  }

  lemma AcceptedInTurn(e1: Event, e2: Event)
    requires e1 == QuoteCreated("EUR", "DE") && e2 == LineItemAdded(LINE)
    ensures CommandToEvents(StateOf([]), CommandOf(e1)).Ok? && CommandToEvents(StateOf([e1]), CommandOf(e2)).Ok?
  {
    SomeText("EUR");
    SomeText("DE");
    SomeText("l");
    SomeText("s");
    SomeText("d");
    var s := StateOf([e1]);
    assert [e1][..0] == [];
    assert LinesOf([]) == [];
    assert LinesOf([e1]) == [];
    assert [] + [LINE] == [LINE];
    SubtotalSnoc([], LINE);
    AddLineFrontier(s, LINE);
  }

  lemma SomeText(s: string)
    requires s != [] && !IsWhitespace(s[0])
    ensures HasText(s) && !Blank(s)
  {
  }

  lemma TwoCommitsState()
    ensures
      var m, m' := Run(Listening()), Run(Listening() + TwoCommits());
      && m'.subscribers == m.subscribers && !m'.cancelled
      && m'.appends == map[0 := Committed(QUOTE, 1), 1 := Committed(QUOTE, 2)]
      && |LogOf(m'.tables, QUOTE)| == 2
  {
    hide Run, LogOf, PumpSteps, AppendOne, Do;
    ListeningState();
    BothAccepted();
    var m := Run(Listening());
    RunIsRunFrom(Listening(), TwoCommits());
    CommitPair(m, 0, CREATE);
    var m2 := Do(Do(m, BeginAppend(0, CREATE)), CommitAppend(0));
    CommitPair(m2, 1, ADD);
    FourSteps(m, BeginAppend(0, CREATE), CommitAppend(0), BeginAppend(1, ADD), CommitAppend(1));
  }

  lemma CommitPair(m: Machine, id: nat, r: Request)
    requires id !in m.appends && id !in m.detached
    requires AppendOne(m.tables, r).1.Ok? && |AppendOne(m.tables, r).1.value| == 1
    ensures
      var m' := Do(Do(m, BeginAppend(id, r)), CommitAppend(id));
      var (t, result) := AppendOne(m.tables, r);
      && m'.tables == t && m'.subscribers == m.subscribers && m'.detached == m.detached
      && m'.cancelled == m.cancelled
      && m'.appends == m.appends[id := Committed(r.quoteId, result.value[0].seqNo)]
  {
    hide AppendOne;
  }

  lemma FourSteps(m: Machine, a: Step, b: Step, c: Step, d: Step)
    ensures RunFrom(m, [a, b, c, d]) == Do(Do(Do(Do(m, a), b), c), d)
  {
    hide Do;
    RunTwo(m, [], a, b);
    assert [] + [a, b] == [a, b];
    RunTwo(m, [a, b], c, d);
    assert [a, b] + [c, d] == [a, b, c, d];
  }

  /**
    A run without any cancellation or failure that ends with every append finished and the subscriber
    parked, nothing unseen, one entry short of the log.
  */
  lemma QuiescentSubscriberMayBeBehind() returns (steps: seq<Step>)
    ensures
      var m := Run(steps);
      && m.inFlight == 0 && m.appends == map[] && !m.cancelled
      && 0 in m.subscribers
      && var s := m.subscribers[0];
      && s.phase.Parked? && UpToDate(m, s)
      && s.watermark == 1 && |LogOf(m.tables, s.quoteId)| == 2
  {
    hide Run, LogOf, PumpSteps, Do, Inv;
    ListeningState();
    TwoCommitsState();
    var committed := Listening() + TwoCommits();
    OutOfOrderPublishLeavesBehind(committed, 0, 0, 1);
    var published := committed + [PublishAppend(1)]
                     + [PublishAppend(0), Wake(0), ReadHead(0), Load(0), EmitTail(0)];
    steps := published + [EndAppend(0), EndAppend(1)];
    RunIsRunFrom(published, [EndAppend(0), EndAppend(1)]);
    RunTwo(Run(published), [], EndAppend(0), EndAppend(1));
    assert [] + [EndAppend(0), EndAppend(1)] == [EndAppend(0), EndAppend(1)];
    EndBoth(Run(published));
    History.InFlightCountsGuards(steps);
  }

  lemma EndBoth(m: Machine)
    requires m.appends == map[0 := Published, 1 := Published]
    ensures
      var m' := Do(Do(m, EndAppend(0)), EndAppend(1));
      && m' == m.(appends := map[], inFlight := m.inFlight - 2)
      && RunFrom(m, []) == m
  {
    hide Do;
    EndIsLeave(m, 0);
    EndIsLeave(Do(m, EndAppend(0)), 1);
  }

  lemma EndIsLeave(m: Machine, id: nat)
    requires id in m.appends && m.appends[id].Published?
    ensures Do(m, EndAppend(id)) == Leave(m, id)
  {
    hide Leave, DoCommit, DoPublish, DoCancel, RunClosure, DoSubscriber;
  }
}
