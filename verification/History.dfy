/**
  Two accounts of a run: the order in which appends took effect (linearizability), and what the in-flight
  counter and the bus have seen of them.
*/
module History {
  import opened Wrappers
  import opened Domain
  import opened QuoteLog
  import opened Tables
  import opened Appending
  import opened Service
  import opened Delivery

  // ---------------------------------------------------------------- linearizability

  function RequestsIn(history: seq<Op>): seq<Request> {
    seq(|history|, i requires 0 <= i < |history| => history[i].request)
  }

  function TablesAfter(history: seq<Op>): Tables {
    RunAll(EMPTY_TABLES, RequestsIn(history))
  }

  lemma OneMoreRequest(history: seq<Op>)
    requires history != []
    ensures
      var n := |history| - 1;
      TablesAfter(history) == AppendOne(TablesAfter(history[..n]), history[n].request).0
  {
    hide AppendOne;
    assert RequestsIn(history)[..|history| - 1] == RequestsIn(history[..|history| - 1]);
  }

  /** Every result is the one the request gets when the operations run one after the other in this order. */
  ghost predicate Serial(history: seq<Op>) {
    forall i :: 0 <= i < |history| ==>
      history[i].result == AppendOne(TablesAfter(history[..i]), history[i].request).1
  }

  lemma TablesAfterIsLedger(history: seq<Op>)
    ensures Ledger(TablesAfter(history))
  {
    hide Ledger, RunAll;
    EmptyTablesAreALedger();
    RunAllKeepsLedger(EMPTY_TABLES, RequestsIn(history));
  }

  ghost predicate HistoryOk(m: Machine) {
    m.tables == TablesAfter(m.history) && Serial(m.history)
  }

  lemma RunClosureRecords(m: Machine, r: Request)
    requires HistoryOk(m)
    ensures HistoryOk(RunClosure(m, r)) && m.history <= RunClosure(m, r).history
  {
    hide AppendOne, TablesAfter;
    var history := RunClosure(m, r).history;
    assert history[..|m.history|] == m.history;
    OneMoreRequest(history);
    assert forall i :: 0 <= i < |m.history| ==> history[..i] == m.history[..i];
  }

  lemma DoRecords(m: Machine, step: Step)
    requires HistoryOk(m)
    ensures HistoryOk(Do(m, step)) && m.history <= Do(m, step).history
  {
    hide AppendOne, Open, SubscriberStep, RunClosure, HistoryOk;
    if step.CommitAppend? && step.id in m.appends && m.appends[step.id].Running? {
      RunClosureRecords(m, m.appends[step.id].request);
      SameHistory(RunClosure(m, m.appends[step.id].request), Do(m, step));
    } else if step.CommitDetached? && step.id in m.detached {
      RunClosureRecords(m, m.detached[step.id]);
      SameHistory(RunClosure(m, m.detached[step.id]), Do(m, step));
    } else {
      SameHistory(m, Do(m, step));
    }
  }

  lemma SameHistory(m: Machine, m': Machine)
    requires HistoryOk(m) && m'.tables == m.tables && m'.history == m.history
    ensures HistoryOk(m')
  {
  }

  lemma {:induction false} RunRecords(m: Machine, steps: seq<Step>)
    requires HistoryOk(m)
    ensures HistoryOk(RunFrom(m, steps)) && m.history <= RunFrom(m, steps).history
  {
    hide HistoryOk, Do;
    if steps != [] {
      RunRecords(m, steps[..|steps| - 1]);
      DoRecords(RunFrom(m, steps[..|steps| - 1]), steps[|steps| - 1]);
    }
  }

  /** One quote's book after the operations on it, run serially on nothing but the book. */
  ghost function SerialBook(q: QuoteId, history: seq<Op>): (b: Book)
    ensures GoodBook(b)
  {
    if history == [] then Book([], map[])
    else
      var before := SerialBook(q, history[..|history| - 1]);
      var r := history[|history| - 1].request;
      if r.quoteId != q || r.command.None? then before
      else
        BookCommandKeepsGood(before, q, r.clientCommandId, r.command.value);
        BookCommand(before, q, r.clientCommandId, r.command.value).0
  }

  lemma BookCommandKeepsGood(b: Book, q: QuoteId, cid: CommandId, c: Command)
    requires GoodBook(b)
    ensures GoodBook(BookCommand(b, q, cid, c).0)
  {
    if cid !in b.keys && CommandToEvents(StateOf(b.log), c).Ok? {
      ProducedByCommand(b.log, c);
    }
  }

  /** The answer the book gives to a request, as the service words it. */
  ghost predicate AnsweredBy(b: Book, op: Op) {
    GoodBook(b) &&
    match op.request.command
    case None => op.result == Err(InvalidArgument)
    case Some(c) =>
      var (b', spec) := BookCommand(b, op.request.quoteId, op.request.clientCommandId, c);
      match spec
      case Err(e) => op.result == Err(StoreFailure(e))
      case Ok(k) => op.result == Ok([StoredEvent(k, op.request.quoteId, EventOf(c))])
  }

  lemma AppendOneIsAnswered(t: Tables, r: Request)
    requires Ledger(t)
    ensures AnsweredBy(BookOf(t, r.quoteId), Op(r, AppendOne(t, r).1))
  {
    hide Commit, Ledger, GoodBook, BookOf, BookCommand, BoundTo;
    LedgerBook(t, r.quoteId);
    if r.command.Some? {
      var q, cid, c := r.quoteId, r.clientCommandId, r.command.value;
      CommitRefinesBook(t, q, cid, c);
      BookCommandBinds(BookOf(t, q), q, cid, c);
      var spec := BookCommand(BookOf(t, q), q, cid, c);
      BookLog(AppendOne(t, r).0, q);
      if spec.1.Ok? {
        EntryOf(spec.0, cid, c, spec.1.value);
      }
    }
  }

  lemma BookLog(t: Tables, q: QuoteId)
    ensures BookOf(t, q).log == LogOf(t, q)
  {
  }

  lemma AppendOneMovesBooks(t: Tables, r: Request)
    requires Ledger(t)
    ensures GoodBook(BookOf(t, r.quoteId))
    ensures forall q :: q != r.quoteId || r.command.None? ==> BookOf(AppendOne(t, r).0, q) == BookOf(t, q)
    ensures r.command.Some? ==>
              BookOf(AppendOne(t, r).0, r.quoteId)
              == BookCommand(BookOf(t, r.quoteId), r.quoteId, r.clientCommandId, r.command.value).0
  {
    hide Commit, Ledger, GoodBook, BookOf, BookCommand;
    LedgerBook(t, r.quoteId);
    if r.command.Some? {
      CommitRefinesBook(t, r.quoteId, r.clientCommandId, r.command.value);
    }
  }

  lemma {:induction false} BookIsSerial(q: QuoteId, history: seq<Op>)
    ensures BookOf(TablesAfter(history), q) == SerialBook(q, history)
  {
    if history != [] {
      var n := |history| - 1;
      hide AppendOne, Ledger, BookCommand, BookOf, TablesAfter;
      OneMoreRequest(history);
      TablesAfterIsLedger(history[..n]);
      BookIsSerial(q, history[..n]);
      AppendOneMovesBooks(TablesAfter(history[..n]), history[n].request);
    } else {
      EmptyTablesAreALedger();
    }
  }

  /**
    Linearizability. In every interleaving the append closures have a serial order, the order they ran in,
    such that each quote's book is the one the serial execution of its commands gives, and every request
    got the answer it gets at its place in that order, decided on exactly the entries before it.
  */
  lemma AppendsAreLinearizable(steps: seq<Step>)
    ensures
      var m := Run(steps);
      && (forall q :: BookOf(m.tables, q) == SerialBook(q, m.history))
      && (forall i :: 0 <= i < |m.history| ==>
            AnsweredBy(SerialBook(m.history[i].request.quoteId, m.history[..i]), m.history[i]))
  {
    hide Do, AppendOne, Ledger, BookCommand, BookOf, AnsweredBy, SerialBook;
    RunRecords(INITIAL, steps);
    var history := Run(steps).history;
    forall q
      ensures BookOf(Run(steps).tables, q) == SerialBook(q, history)
    {
      BookIsSerial(q, history);
    }
    forall i | 0 <= i < |history|
      ensures AnsweredBy(SerialBook(history[i].request.quoteId, history[..i]), history[i])
    {
      TablesAfterIsLedger(history[..i]);
      BookIsSerial(history[i].request.quoteId, history[..i]);
      AppendOneIsAnswered(TablesAfter(history[..i]), history[i].request);
    }
  }

  lemma InitialHistory()
    ensures HistoryOk(INITIAL)
  {
  }

  lemma EveryRunRecords(steps: seq<Step>, later: seq<Step>)
    ensures HistoryOk(Run(steps)) && Run(steps).history <= Run(steps + later).history
  {
    hide HistoryOk, RunFrom;
    InitialHistory();
    RunRecords(INITIAL, steps);
    RunInParts(INITIAL, steps, later);
    RunRecords(Run(steps), later);
  }

  /** The step runs the closure of this request, for a task that waits for it or for one that was cancelled. */
  predicate RunsClosureOf(m: Machine, step: Step, r: Request) {
    || (step.CommitAppend? && step.id in m.appends && m.appends[step.id] == Running(r))
    || (step.CommitDetached? && step.id in m.detached && m.detached[step.id] == r)
  }

  lemma ClosureRecordsItsRequest(m: Machine, step: Step, r: Request)
    requires RunsClosureOf(m, step, r)
    ensures Do(m, step).history == m.history + [Op(r, AppendOne(m.tables, r).1)]
  {
    hide AppendOne;
  }

  lemma ClosureInRun(steps: seq<Step>, step: Step, r: Request, later: seq<Step>)
    requires RunsClosureOf(Run(steps), step, r)
    ensures
      var history := Run(steps + [step] + later).history;
      && |Run(steps).history| < |history|
      && Run(steps).history <= history
      && history[|Run(steps).history|] == Op(r, AppendOne(Run(steps).tables, r).1)
      && Run(steps + [step]).history == history[..|Run(steps).history| + 1]
  {
    hide Do, HistoryOk, AppendOne, RunsClosureOf;
    assert (steps + [step])[..|steps|] == steps;
    ClosureRecordsItsRequest(Run(steps), step, r);
    EveryRunRecords(steps + [step], later);
  }

  /**
    The order respects real time. If the closure of one append has run before another append begins, then in
    every later state both are in the serial order, the first before the second. This is so whether the
    second append is waited for or was cancelled and runs detached.
  */
  lemma OrderRespectsRealTime(
    before: seq<Step>, first: Step, r1: Request,
    between: seq<Step>, id: nat, r2: Request, after: seq<Step>, second: Step, later: seq<Step>)
    requires RunsClosureOf(Run(before), first, r1)
    requires second.id == id
    requires
      var upto := before + [first] + between;
      && id !in Run(upto).appends && id !in Run(upto).detached
      && RunsClosureOf(Run(upto + [BeginAppend(id, r2)] + after), second, r2)
    ensures
      var s3 := before + [first] + between + [BeginAppend(id, r2)] + after;
      var history := Run(s3 + [second] + later).history;
      var i, j := |Run(before).history|, |Run(s3).history|;
      && i < j < |history|
      && history[i] == Op(r1, AppendOne(Run(before).tables, r1).1)
      && history[j] == Op(r2, AppendOne(Run(s3).tables, r2).1)
  {
    hide Run, HistoryOk, AppendOne, RunsClosureOf;
    var s3 := before + [first] + between + [BeginAppend(id, r2)] + after;
    var rest := between + [BeginAppend(id, r2)] + after;
    assert s3 == before + [first] + rest;
    ClosureInRun(before, first, r1, rest);
    ClosureInRun(s3, second, r2, later);
  }

  // ---------------------------------------------------------------- retries, in any run of the service

  /**
    In every run, once a request has succeeded, every later one equal to it gets exactly the same answer
    and changes no table, whatever ran in between and on behalf of whom.
  */
  lemma RetriesGetTheFirstAnswer(steps: seq<Step>, i: nat, j: nat)
    requires
      var history := Run(steps).history;
      i < j < |history| && history[i].request == history[j].request && history[i].result.Ok?
    ensures
      var history := Run(steps).history;
      && history[j].result == history[i].result
      && TablesAfter(history[..j + 1]) == TablesAfter(history[..j])
  {
    hide Run, Ledger, AppendOne, RunAll;
    EveryRunRecords(steps, []);
    var history := Run(steps).history;
    var rs := RequestsIn(history);
    var t, between := TablesAfter(history[..i]), rs[i + 1..j];
    TablesAfterIsLedger(history[..i]);
    OneMoreOf(history, i);
    OneMoreOf(history, j);
    RetryIsStable(t, history[i].request, between);
    assert RequestsIn(history[..j]) == RequestsIn(history[..i + 1]) + between;
    RunAllInParts(EMPTY_TABLES, RequestsIn(history[..i + 1]), between);
  }

  lemma OneMoreOf(history: seq<Op>, i: nat)
    requires i < |history|
    ensures TablesAfter(history[..i + 1]) == AppendOne(TablesAfter(history[..i]), history[i].request).0
  {
    hide TablesAfter, AppendOne;
    assert history[..i + 1][..i] == history[..i];
    OneMoreRequest(history[..i + 1]);
  }

  /** In every run, of all requests under one key only the first successful one ever changes the tables. */
  lemma KeyCommitsOnce(steps: seq<Step>, i: nat, j: nat)
    requires
      var history := Run(steps).history;
      && i < j < |history| && history[i].result.Ok?
      && history[i].request.quoteId == history[j].request.quoteId
      && history[i].request.clientCommandId == history[j].request.clientCommandId
    ensures
      var history := Run(steps).history;
      TablesAfter(history[..j + 1]) == TablesAfter(history[..j])
  {
    hide Run, Ledger, AppendOne, RunAll;
    EveryRunRecords(steps, []);
    var history := Run(steps).history;
    var rs := RequestsIn(history);
    assert forall k :: 0 <= k <= |history| ==> RequestsIn(history[..k]) == rs[..k];
    EmptyTablesAreALedger();
    CommittedAtMostOnce(EMPTY_TABLES, rs, i, j);
  }

  // ---------------------------------------------------------------- the in-flight counter

  ghost predicate HeldBy(appends: map<nat, AppendTask>, q: QuoteId, k: nat) {
    exists id :: id in appends && appends[id] == Committed(q, k)
  }

  /** The entry has been published at least once, or the task that committed it is still to publish it. */
  ghost predicate Accounted(m: Machine, q: QuoteId, k: nat) {
    (q, k) in m.published || HeldBy(m.appends, q, k)
  }

  ghost predicate CountOk(m: Machine) {
    && m.inFlight == |m.appends|
    && (m.detached != map[] ==> m.cancelled)
    && (!m.cancelled ==> forall q, k :: 1 <= k <= |LogOf(m.tables, q)| ==> Accounted(m, q, k))
  }

  lemma DroppedGuard(appends: map<nat, AppendTask>, id: nat)
    requires id in appends
    ensures |appends - {id}| == |appends| - 1
  {
    assert appends == (appends - {id})[id := appends[id]];
  }

  lemma StillHeld(appends: map<nat, AppendTask>, appends': map<nat, AppendTask>, q: QuoteId, k: nat)
    requires HeldBy(appends, q, k)
    requires forall id :: id in appends && appends[id] == Committed(q, k) ==>
               id in appends' && appends'[id] == appends[id]
    ensures HeldBy(appends', q, k)
  {
  }

  /** Where a commit leaves the logs: either nowhere new, or one entry on, and that entry is the answer. */
  lemma CommitAddsItsAnswer(t: Tables, r: Request)
    requires Ledger(t)
    ensures
      var (t', result) := AppendOne(t, r);
      || (forall q :: LogOf(t', q) == LogOf(t, q))
      || (&& result.Ok? && |result.value| == 1
          && result.value[0].seqNo == |LogOf(t, r.quoteId)| + 1 == |LogOf(t', r.quoteId)|
          && forall q :: q != r.quoteId ==> LogOf(t', q) == LogOf(t, q))
  {
    hide Ledger, LogOf, KeyMap, Commit, GoodBook, CommandToEvents, StateOf;
    if r.command.Some? {
      var t' := AppendOne(t, r).0;
      CommitRefinesBook(t, r.quoteId, r.clientCommandId, r.command.value);
      if t' != t {
        forall q | q != r.quoteId
          ensures LogOf(t', q) == LogOf(t, q)
        {
          assert BookOf(t', q) == BookOf(t, q);
        }
      }
    }
  }

  /** What a commit does to the tables, the tasks and the counter. */
  lemma CommitIs(m: Machine, id: nat, r: Request)
    requires id in m.appends
    ensures
      var m' := DoCommit(m, id, r);
      var result := AppendOne(m.tables, r).1;
      && m'.tables == AppendOne(m.tables, r).0
      && m'.published == m.published && m'.cancelled == m.cancelled && m'.detached == m.detached
      && (forall other :: other in m.appends && other != id ==>
            other in m'.appends && m'.appends[other] == m.appends[other])
      && (result.Err? ==> m'.appends == m.appends - {id} && m'.inFlight == m.inFlight - 1)
      && (result.Ok? ==> m'.appends.Keys == m.appends.Keys && m'.inFlight == m.inFlight)
      && (result.Ok? && |result.value| == 1 ==> m'.appends[id] == Committed(r.quoteId, result.value[0].seqNo))
  {
    hide AppendOne;
  }

  lemma SameCount(a: map<nat, AppendTask>, b: map<nat, AppendTask>)
    requires a.Keys == b.Keys
    ensures |a| == |b|
  {
    assert |a| == |a.Keys| && |b| == |b.Keys|;
  }

  /** Entries accounted for before a commit still are. */
  lemma OldEntryStaysAccounted(m: Machine, id: nat, r: Request, q: QuoteId, k: nat)
    requires id in m.appends && m.appends[id] == Running(r) && Accounted(m, q, k)
    ensures Accounted(DoCommit(m, id, r), q, k)
  {
    hide AppendOne, DoCommit;
    CommitIs(m, id, r);
    if HeldBy(m.appends, q, k) {
      var m' := DoCommit(m, id, r);
      forall other | other in m.appends && m.appends[other] == Committed(q, k)
        ensures other in m'.appends && m'.appends[other] == m.appends[other]
      {
        assert other != id;
      }
      StillHeld(m.appends, m'.appends, q, k);
    }
  }

  lemma CommitCountsTasks(m: Machine, id: nat, r: Request)
    requires id in m.appends && m.inFlight == |m.appends|
    ensures DoCommit(m, id, r).inFlight == |DoCommit(m, id, r).appends|
  {
    hide AppendOne, DoCommit;
    CommitIs(m, id, r);
    if AppendOne(m.tables, r).1.Err? {
      DroppedGuard(m.appends, id);
    } else {
      SameCount(m.appends, DoCommit(m, id, r).appends);
    }
  }

  lemma CommitAccounts(m: Machine, id: nat, r: Request, q: QuoteId, k: nat)
    requires Ledger(m.tables) && id in m.appends && m.appends[id] == Running(r)
    requires 1 <= k <= |LogOf(DoCommit(m, id, r).tables, q)|
    requires k <= |LogOf(m.tables, q)| ==> Accounted(m, q, k)
    ensures Accounted(DoCommit(m, id, r), q, k)
  {
    hide AppendOne, DoCommit, Ledger, LogOf, Accounted;
    CommitIs(m, id, r);
    if k <= |LogOf(m.tables, q)| {
      OldEntryStaysAccounted(m, id, r, q, k);
    } else {
      CommitAddsItsAnswer(m.tables, r);
      HeldByItsTask(DoCommit(m, id, r), id, q, k);
    }
  }

  lemma CommitCounts(m: Machine, id: nat, r: Request)
    requires Ledger(m.tables) && CountOk(m) && id in m.appends && m.appends[id] == Running(r)
    ensures CountOk(DoCommit(m, id, r))
  {
    hide AppendOne, DoCommit, Ledger, LogOf, Accounted;
    CommitIs(m, id, r);
    CommitCountsTasks(m, id, r);
    var m' := DoCommit(m, id, r);
    if !m.cancelled {
      forall q, k | 1 <= k <= |LogOf(m'.tables, q)|
        ensures Accounted(m', q, k)
      {
        CommitAccounts(m, id, r, q, k);
      }
    }
  }

  lemma HeldByItsTask(m: Machine, id: nat, q: QuoteId, k: nat)
    requires id in m.appends && m.appends[id] == Committed(q, k)
    ensures Accounted(m, q, k)
  {
  }

  /** Any other step that keeps the tables and still accounts for the same tasks. */
  lemma SameLogsCount(m: Machine, m': Machine)
    requires CountOk(m) && m'.tables == m.tables && m.published <= m'.published
    requires m'.inFlight == |m'.appends| && (m'.detached != map[] ==> m'.cancelled)
    requires m.cancelled ==> m'.cancelled
    requires !m'.cancelled ==>
               forall id :: id in m.appends && m.appends[id].Committed? ==>
                 || (id in m'.appends && m'.appends[id] == m.appends[id])
                 || (m.appends[id].quoteId, m.appends[id].last) in m'.published
    ensures CountOk(m')
  {
    hide LogOf;
    if !m'.cancelled {
      forall q, k | 1 <= k <= |LogOf(m'.tables, q)|
        ensures Accounted(m', q, k)
      {
        assert Accounted(m, q, k);
        if HeldBy(m.appends, q, k) {
          var id :| id in m.appends && m.appends[id] == Committed(q, k);
        }
      }
    }
  }

  lemma CancelledCounts(m: Machine)
    requires m.cancelled && m.inFlight == |m.appends|
    ensures CountOk(m)
  {
  }

  lemma LeaveCounts(m: Machine, id: nat)
    requires CountOk(m) && id in m.appends && !m.appends[id].Committed?
    ensures CountOk(Leave(m, id))
  {
    hide LogOf, CountOk, Accounted;
    CountFacts(m);
    DroppedGuard(m.appends, id);
    SameLogsCount(m, Leave(m, id));
  }

  lemma PublishCounts(m: Machine, id: nat)
    requires CountOk(m) && id in m.appends && m.appends[id].Committed?
    ensures CountOk(DoPublish(m, id, m.appends[id].quoteId, m.appends[id].last))
  {
    hide LogOf, CountOk, Accounted, Publish;
    CountFacts(m);
    SameLogsCount(m, DoPublish(m, id, m.appends[id].quoteId, m.appends[id].last));
  }

  lemma CancelCounts(m: Machine, id: nat)
    requires CountOk(m) && id in m.appends
    ensures CountOk(DoCancel(m, id, m.appends[id]))
  {
    hide LogOf, CountOk, Accounted;
    CountFacts(m);
    DroppedGuard(m.appends, id);
    CancelledCounts(DoCancel(m, id, m.appends[id]));
  }

  lemma AppendStepCounts(m: Machine, step: Step)
    requires Ledger(m.tables) && CountOk(m) && IsAppendStep(step)
    ensures CountOk(DoAppend(m, step))
  {
    hide Ledger, LogOf, AppendOne, Accounted, HeldBy, DoCommit, CountOk, RunClosure, DoPublish, DoCancel, Leave;
    CountFacts(m);
    match step
    case BeginAppend(_, _) => SameLogsCount(m, DoAppend(m, step));
    case DropDetached(_) => SameLogsCount(m, DoAppend(m, step));
    case CommitAppend(id) =>
      if id in m.appends && m.appends[id].Running? { CommitCounts(m, id, m.appends[id].request); }
    case PublishAppend(id) =>
      if id in m.appends && m.appends[id].Committed? { PublishCounts(m, id); }
    case CancelAppend(id) =>
      if id in m.appends { CancelCounts(m, id); }
    case CommitDetached(id) =>
      if id in m.detached {
        ClosureTouchesNoTask(m, m.detached[id]);
        CancelledCounts(DoAppend(m, step));
      }
    case FailAppend(id) =>
      if id in m.appends && m.appends[id].Running? { LeaveCounts(m, id); }
    case EndAppend(id) =>
      if id in m.appends && m.appends[id].Published? { LeaveCounts(m, id); }
    case _ =>
  }

  lemma ClosureTouchesNoTask(m: Machine, r: Request)
    ensures
      var m' := RunClosure(m, r);
      m'.appends == m.appends && m'.inFlight == m.inFlight && m'.cancelled == m.cancelled
  {
    hide AppendOne;
  }

  lemma CountFacts(m: Machine)
    requires CountOk(m)
    ensures m.inFlight == |m.appends| && (m.detached != map[] ==> m.cancelled)
  {
  }

  lemma SubscriberStepCounts(m: Machine, step: Step)
    requires CountOk(m) && !IsAppendStep(step)
    ensures CountOk(DoSubscriber(m, step))
  {
    hide LogOf, Open, SubscriberStep, Accounted, CountOk;
    CountFacts(m);
    SameLogsCount(m, DoSubscriber(m, step));
  }

  lemma {:induction false} RunCounts(steps: seq<Step>)
    ensures CountOk(Run(steps))
  {
    hide Inv, Ledger, LogOf, DoAppend, DoSubscriber, CountOk, Accounted;
    if steps == [] {
      InitialCount();
    } else {
      var n := |steps| - 1;
      RunCounts(steps[..n]);
      EveryRunKeepsInv(steps[..n]);
      InvIsLedger(Run(steps[..n]));
      if IsAppendStep(steps[n]) {
        AppendStepCounts(Run(steps[..n]), steps[n]);
      } else {
        SubscriberStepCounts(Run(steps[..n]), steps[n]);
      }
    }
  }

  lemma InitialCount()
    ensures CountOk(INITIAL)
  {
  }

  /**
    In every run the in-flight counter is the number of live append guards, so it never underflows; and in
    a run without cancellation a zero counter means that every committed entry has been published.
  */
  lemma InFlightCountsGuards(steps: seq<Step>)
    ensures
      var m := Run(steps);
      && m.inFlight == |m.appends| >= 0
      && (!m.cancelled && m.inFlight == 0 ==>
            forall q, k :: 1 <= k <= |LogOf(m.tables, q)| ==> (q, k) in m.published)
  {
    hide Run, LogOf;
    RunCounts(steps);
    var m := Run(steps);
    if !m.cancelled && m.inFlight == 0 {
      forall q, k | 1 <= k <= |LogOf(m.tables, q)|
        ensures (q, k) in m.published
      {
        assert Accounted(m, q, k);
        assert m.appends == map[];
      }
    }
  }

  /**
    The restriction to runs without cancellation is needed: an append that is cancelled while its closure is
    queued commits all the same, and then nothing is in flight although its entry was never published.
  */
  lemma CancelledAppendMayStayUnpublished() returns (steps: seq<Step>)
    ensures
      var m := Run(steps);
      && m.cancelled && m.inFlight == 0 && m.appends == map[] && m.detached == map[]
      && |LogOf(m.tables, KEY_OWNER.quoteId)| == 1
      && (KEY_OWNER.quoteId, 1) !in m.published
  {
    hide Do, AppendOne, LogOf, Ledger;
    var begin, cancel, commit := BeginAppend(0, KEY_OWNER), CancelAppend(0), CommitDetached(0);
    steps := [] + [begin] + [cancel] + [commit];
    RunOneMore(INITIAL, [], begin);
    RunOneMore(INITIAL, [] + [begin], cancel);
    RunOneMore(INITIAL, [] + [begin] + [cancel], commit);
    BegunCancelledCommitted();
    OwnerCommitsFirst();
  }

  lemma BegunCancelledCommitted()
    ensures
      var m := Do(Do(Do(INITIAL, BeginAppend(0, KEY_OWNER)), CancelAppend(0)), CommitDetached(0));
      && m.tables == AppendOne(EMPTY_TABLES, KEY_OWNER).0 && m.published == {}
      && m.cancelled && m.inFlight == 0 && m.appends == map[] && m.detached == map[]
  {
    hide AppendOne, DoSubscriber;
    var begun := Do(INITIAL, BeginAppend(0, KEY_OWNER));
    assert begun == INITIAL.(appends := map[0 := Running(KEY_OWNER)], inFlight := 1);
    var gone := Do(begun, CancelAppend(0));
    assert gone == INITIAL.(detached := map[0 := KEY_OWNER], cancelled := true);
  }

  lemma OwnerCommitsFirst()
    ensures |LogOf(AppendOne(EMPTY_TABLES, KEY_OWNER).0, KEY_OWNER.quoteId)| == 1
  {
    hide AppendOne, Ledger, LogOf, KeyMap, CommandToEvents;
    EmptyTablesAreALedger();
    OwnerIsAccepted();
    assert BookOf(EMPTY_TABLES, KEY_OWNER.quoteId).log == LogOf(EMPTY_TABLES, KEY_OWNER.quoteId);
    FreshKeyIsDecidedOnTheLog(EMPTY_TABLES, KEY_OWNER);
  }

  lemma OwnerIsAccepted()
    ensures CommandToEvents(StateOf([]), CreateQuote("EUR", "DE")).Ok?
  {
    assert !IsWhitespace("EUR"[0]) && !IsWhitespace("DE"[0]);
  }
}
