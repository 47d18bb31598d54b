/**
  One append as its database closure runs it (src/ledger.rs, append_one): look the key up, replay, decide,
  store. The closure refines a command on the quote's book, and that gives the retry guarantees.
*/
module Appending {
  import opened Wrappers
  import opened Domain
  import opened QuoteLog
  import opened Tables

  datatype Request = Request(quoteId: QuoteId, clientCommandId: CommandId, command: Option<Command>)

  datatype Status =
    | InvalidArgument
    | ResourceExhausted
    | DeadlineExceeded
    | TransportFailure
    | StoreFailure(error: StoreError)

  function EventsOf(stored: seq<StoredEvent>): Log {
    seq(|stored|, i requires 0 <= i < |stored| => stored[i].event)
  }

  /** Replay the stored events, then decide the command on the state they lead to. */
  function Decide(before: seq<StoredEvent>, c: Command): Result<seq<Event>, StoreError> {
    match Replay(EventsOf(before))
    case Err(e) => Err(DomainFailure(e))
    case Ok(state) =>
      match CommandToEvents(state, c)
      case Err(e) => Err(DomainFailure(e))
      case Ok(events) => Ok(events)
  }

  /** The closure when no statement fails: a bound key is decided on the entries before its first one. */
  function Commit(t: Tables, q: QuoteId, cid: CommandId, c: Command): (Tables, Result<seq<StoredEvent>, StoreError>) {
    var before :=
      match Lookup(t.keys, q, cid)
      case Some(key) => LoadBetween(t, q, 0, if key.firstSeq == 0 then 0 else key.firstSeq - 1)
      case None => LoadAll(t, q);
    match Decide(before, c)
    case Err(e) => (t, Err(e))
    case Ok(events) => Append(t, q, cid, events)
  }

  function AppendOne(t: Tables, r: Request): (Tables, Result<seq<StoredEvent>, Status>) {
    match r.command
    case None => (t, Err(InvalidArgument))
    case Some(c) =>
      var (t', result) := Commit(t, r.quoteId, r.clientCommandId, c);
      (t', match result case Ok(stored) => Ok(stored) case Err(e) => Err(StoreFailure(e)))
  }

  // ---------------------------------------------------------------- what holds of the ledger's tables

  ghost predicate Ledger(t: Tables) {
    && Consistent(t)
    && (forall q :: Produced(LogOf(t, q)))
    && (forall i :: 0 <= i < |t.keys| ==> t.keys[i].firstSeq == t.keys[i].lastSeq)
  }

  /** Every bound key names one entry of a log that commands produced. */
  ghost predicate GoodBook(b: Book) {
    && Produced(b.log)
    && forall cid :: cid in b.keys ==> 1 <= b.keys[cid].first == b.keys[cid].last <= |b.log|
  }

  /**
    A command on the book. An unbound key is decided on the whole log. A bound key answers only the
    command that produced its entry, and never changes the book.
  */
  ghost function BookCommand(b: Book, q: QuoteId, cid: CommandId, c: Command): (Book, Result<nat, StoreError>)
    requires GoodBook(b)
  {
    if cid in b.keys then
      var k := b.keys[cid].first;
      if c == CommandOf(b.log[k - 1]) then (b, Ok(k))
      else
        (b, match CommandToEvents(StateOf(b.log[..k - 1]), c)
            case Err(e) => Err(DomainFailure(e))
            case Ok(_) => Err(IdempotencyConflict(q, cid)))
    else
      match CommandToEvents(StateOf(b.log), c)
      case Err(e) => (b, Err(DomainFailure(e)))
      case Ok(_) =>
        var k := |b.log| + 1;
        (Book(b.log + [EventOf(c)], b.keys[cid := Span(k, k)]), Ok(k))
  }

  /** The closure's answer read as a sequence number: one stored event, the one at that place in the log. */
  predicate Answers(stored: Result<seq<StoredEvent>, StoreError>, q: QuoteId, log: Log, spec: Result<nat, StoreError>) {
    match spec
    case Err(e) => stored == Err(e)
    case Ok(k) => 1 <= k <= |log| && stored == Ok([StoredEvent(k, q, log[k - 1])])
  }

  lemma {:induction false} SingletonKeys(keys: seq<KeyRow>, q: QuoteId)
    requires forall i :: 0 <= i < |keys| ==> keys[i].firstSeq == keys[i].lastSeq
    ensures forall cid :: cid in KeyMap(keys, q) ==> KeyMap(keys, q)[cid].first == KeyMap(keys, q)[cid].last
  {
    if keys != [] {
      SingletonKeys(keys[..|keys| - 1], q);
    }
  }

  lemma LedgerBook(t: Tables, q: QuoteId)
    requires Ledger(t)
    ensures GoodBook(BookOf(t, q))
  {
    SingletonKeys(t.keys, q);
    forall cid | cid in KeyMap(t.keys, q)
      ensures 1 <= KeyMap(t.keys, q)[cid].first <= |LogOf(t, q)|
    {
      KeysInBounds(t, q, cid);
    }
  }

  lemma DecideOnSlice(q: QuoteId, log: Log, k: nat, c: Command)
    requires Produced(log) && k <= |log|
    ensures Decide(Slice(q, log, 0, k), c) ==
            match CommandToEvents(StateOf(log[..k]), c)
            case Err(e) => Err(DomainFailure(e))
            case Ok(_) => Ok([EventOf(c)])
  {
    hide EventsOf, Slice, Produced, WellFormed, Replay, StateOf, CommandToEvents;
    PayloadsOfPrefix(q, log, k);
    PrefixReplays(log, k);
    AcceptedCommandIsItsEvent(StateOf(log[..k]), c);
  }

  lemma PayloadsOfPrefix(q: QuoteId, log: Log, k: nat)
    requires k <= |log|
    ensures EventsOf(Slice(q, log, 0, k)) == log[..k]
  {
  }

  lemma OneEntrySlice(q: QuoteId, log: Log, k: nat)
    requires 1 <= k <= |log|
    ensures Slice(q, log, k - 1, k) == [StoredEvent(k, q, log[k - 1])]
    ensures log[k - 1..k] == [log[k - 1]]
  {
  }

  /** With the key bound to entry k, storing the event again answers with entry k or with a conflict. */
  lemma BoundAppend(t: Tables, q: QuoteId, cid: CommandId, e: Event, k: nat)
    requires Consistent(t) && cid in BookOf(t, q).keys && BookOf(t, q).keys[cid] == Span(k, k)
    ensures 1 <= k <= |LogOf(t, q)|
    ensures Append(t, q, cid, [e])
         == (t, if LogOf(t, q)[k - 1] == e then Ok([StoredEvent(k, q, e)]) else Err(IdempotencyConflict(q, cid)))
  {
    AppendRefinesBook(t, q, cid, [e]);
    OneEntrySlice(q, LogOf(t, q), k);
  }

  lemma BoundDecide(t: Tables, q: QuoteId, cid: CommandId, c: Command, k: nat)
    requires Consistent(t) && Produced(LogOf(t, q)) && 1 <= k <= |LogOf(t, q)|
    ensures Decide(LoadBetween(t, q, 0, k - 1), c) ==
            match CommandToEvents(StateOf(LogOf(t, q)[..k - 1]), c)
            case Err(e) => Err(DomainFailure(e))
            case Ok(_) => Ok([EventOf(c)])
  {
    hide Consistent, Produced, Decide, LoadBetween, Slice, LogOf, StateOf, CommandToEvents;
    LoadBetweenIsSlice(t, q, 0, k - 1);
    DecideOnSlice(q, LogOf(t, q), k - 1, c);
  }

  lemma BoundCommitIs(t: Tables, q: QuoteId, cid: CommandId, c: Command, k: nat)
    requires Consistent(t) && Produced(LogOf(t, q)) && cid in BookOf(t, q).keys && BookOf(t, q).keys[cid] == Span(k, k)
    ensures 1 <= k <= |LogOf(t, q)|
    ensures Commit(t, q, cid, c) ==
            match CommandToEvents(StateOf(LogOf(t, q)[..k - 1]), c)
            case Err(e) => (t, Err(DomainFailure(e)))
            case Ok(_) =>
              (t, if LogOf(t, q)[k - 1] == EventOf(c) then Ok([StoredEvent(k, q, EventOf(c))])
                  else Err(IdempotencyConflict(q, cid)))
  {
    hide Consistent, CommandToEvents, Decide, LoadBetween, Append, StateOf, LogOf, KeyMap, Produced, Lookup;
    LookupIsKeyMap(t.keys, q, cid);
    BoundAppend(t, q, cid, EventOf(c), k);
    BoundDecide(t, q, cid, c, k);
  }

  lemma BoundCommitRefines(t: Tables, q: QuoteId, cid: CommandId, c: Command)
    requires Consistent(t) && GoodBook(BookOf(t, q)) && cid in BookOf(t, q).keys
    ensures Commit(t, q, cid, c).0 == t
    ensures Answers(Commit(t, q, cid, c).1, q, LogOf(t, q), BookCommand(BookOf(t, q), q, cid, c).1)
  {
    hide Consistent, CommandToEvents, Commit, StateOf, LogOf, KeyMap, Produced, EventOf, CommandOf;
    var b := BookOf(t, q);
    var k := b.keys[cid].first;
    assert b.keys[cid] == Span(k, k);
    BoundCommitIs(t, q, cid, c, k);
    DecidedByItsCommandOnly(b.log, k - 1, c);
    AcceptedCommandIsItsEvent(StateOf(b.log[..k - 1]), c);
  }

  lemma GoodBookIsProduced(b: Book)
    requires GoodBook(b)
    ensures Produced(b.log)
  {
  }

  lemma FreshCommitRefines(t: Tables, q: QuoteId, cid: CommandId, c: Command)
    requires Consistent(t) && GoodBook(BookOf(t, q)) && cid !in BookOf(t, q).keys
    ensures BookOf(Commit(t, q, cid, c).0, q) == BookCommand(BookOf(t, q), q, cid, c).0
    ensures Answers(
              Commit(t, q, cid, c).1, q, LogOf(Commit(t, q, cid, c).0, q), BookCommand(BookOf(t, q), q, cid, c).1)
    ensures Commit(t, q, cid, c).1.Err? ==> Commit(t, q, cid, c).0 == t
    ensures Commit(t, q, cid, c).0 == t || Commit(t, q, cid, c) == Append(t, q, cid, [EventOf(c)])
  {
    hide Consistent, GoodBook, CommandToEvents, Decide, LoadAll, Slice, Append, StateOf, LogOf, KeyMap, Produced;
    hide Lookup;
    var b := BookOf(t, q);
    LookupIsKeyMap(t.keys, q, cid);
    LoadAllIsLog(t, q);
    GoodBookIsProduced(b);
    assert b.log[..|b.log|] == b.log;
    DecideOnSlice(q, b.log, |b.log|, c);
    AppendRefinesBook(t, q, cid, [EventOf(c)]);
    OneEntrySlice(q, b.log + [EventOf(c)], |b.log| + 1);
  }

  lemma OneKeyMore(t: Tables, q: QuoteId, cid: CommandId, e: Event)
    requires forall i :: 0 <= i < |t.keys| ==> t.keys[i].firstSeq == t.keys[i].lastSeq
    ensures
      var keys := Append(t, q, cid, [e]).0.keys;
      forall i :: 0 <= i < |keys| ==> keys[i].firstSeq == keys[i].lastSeq
  {
    hide RowsOf, MaxSeq, Lookup, LoadRange;
  }

  lemma FreshCommitKeepsLedger(t: Tables, q: QuoteId, cid: CommandId, c: Command)
    requires Ledger(t) && GoodBook(BookOf(t, q)) && cid !in BookOf(t, q).keys
    requires Commit(t, q, cid, c) == Append(t, q, cid, [EventOf(c)]) && Commit(t, q, cid, c).0 != t
    ensures Ledger(Commit(t, q, cid, c).0)
  {
    hide Produced, Consistent, Commit, Append, LogOf, KeyMap, CommandToEvents, StateOf;
    var b, t' := BookOf(t, q), Append(t, q, cid, [EventOf(c)]).0;
    FreshCommitRefines(t, q, cid, c);
    AppendRefinesBook(t, q, cid, [EventOf(c)]);
    assert CommandToEvents(StateOf(b.log), c).Ok?;
    ProducedByCommand(b.log, c);
    forall p
      ensures Produced(LogOf(t', p))
    {
      assert p != q ==> BookOf(t', p) == BookOf(t, p);
      assert Produced(LogOf(t, p));
    }
    OneKeyMore(t, q, cid, EventOf(c));
  }

  lemma CommitKeepsLedger(t: Tables, q: QuoteId, cid: CommandId, c: Command)
    requires Ledger(t)
    ensures Ledger(Commit(t, q, cid, c).0)
    ensures forall other :: other != q ==> BookOf(Commit(t, q, cid, c).0, other) == BookOf(t, other)
  {
    LedgerBook(t, q);
    AppendRefinesBook(t, q, cid, [EventOf(c)]);
    if cid in BookOf(t, q).keys {
      BoundCommitRefines(t, q, cid, c);
    } else {
      FreshCommitRefines(t, q, cid, c);
      if Commit(t, q, cid, c).0 != t {
        FreshCommitKeepsLedger(t, q, cid, c);
      }
    }
  }

  lemma ProducedByCommand(log: Log, c: Command)
    requires Produced(log) && CommandToEvents(StateOf(log), c).Ok?
    ensures Produced(log + [EventOf(c)])
  {
    ProducedIffWellFormed(log);
    AcceptedCommandIsItsEvent(StateOf(log), c);
    assert (log + [EventOf(c)])[..|log|] == log;
  }

  /**
    The closure refines the command on the book: same book afterwards, same answer, other quotes
    untouched, nothing changed on an error, and the ledger's invariant kept.
  */
  lemma CommitRefinesBook(t: Tables, q: QuoteId, cid: CommandId, c: Command)
    requires Ledger(t)
    ensures GoodBook(BookOf(t, q))
    ensures BookOf(Commit(t, q, cid, c).0, q) == BookCommand(BookOf(t, q), q, cid, c).0
    ensures Answers(
              Commit(t, q, cid, c).1, q, LogOf(Commit(t, q, cid, c).0, q), BookCommand(BookOf(t, q), q, cid, c).1)
    ensures forall other :: other != q ==> BookOf(Commit(t, q, cid, c).0, other) == BookOf(t, other)
    ensures cid in BookOf(t, q).keys || Commit(t, q, cid, c).1.Err? ==> Commit(t, q, cid, c).0 == t
    ensures Ledger(Commit(t, q, cid, c).0)
  {
    LedgerBook(t, q);
    CommitKeepsLedger(t, q, cid, c);
    if cid in BookOf(t, q).keys {
      BoundCommitRefines(t, q, cid, c);
    } else {
      FreshCommitRefines(t, q, cid, c);
    }
  }

  // ---------------------------------------------------------------- retries, on the book

  /** The key is bound to entry k, and the command that produced that entry is c. */
  ghost predicate BoundTo(b: Book, cid: CommandId, c: Command, k: nat) {
    && cid in b.keys && b.keys[cid].first == k
    && 1 <= k <= |b.log| && CommandOf(b.log[k - 1]) == c
  }

  lemma BookCommandBinds(b: Book, q: QuoteId, cid: CommandId, c: Command)
    requires GoodBook(b)
    ensures
      var (b', result) := BookCommand(b, q, cid, c);
      && b.log <= b'.log
      && (result.Ok? ==> BoundTo(b', cid, c, result.value))
      && (forall cid', c', k :: BoundTo(b, cid', c', k) ==> BoundTo(b', cid', c', k))
      && (forall k: nat :: BoundTo(b, cid, c, k) ==> b' == b && result == Ok(k))
      && (cid in b.keys && result.Ok? ==> BoundTo(b, cid, c, result.value))
  {
    AcceptedCommandIsItsEvent(StateOf(b.log), c);
  }

  // ---------------------------------------------------------------- retries, on the tables

  /** The request has committed: its key is bound, to its own command, at entry k of its quote. */
  ghost predicate Settled(t: Tables, r: Request, k: nat) {
    r.command.Some? && BoundTo(BookOf(t, r.quoteId), r.clientCommandId, r.command.value, k)
  }

  /** What one append keeps: errors change nothing, logs only grow, and what is settled stays settled. */
  lemma AppendOneKeepsLedger(t: Tables, r: Request)
    requires Ledger(t)
    ensures Ledger(AppendOne(t, r).0)
    ensures AppendOne(t, r).1.Err? ==> AppendOne(t, r).0 == t
    ensures forall q :: LogOf(t, q) <= LogOf(AppendOne(t, r).0, q)
    ensures forall r': Request, k :: Settled(t, r', k) ==> Settled(AppendOne(t, r).0, r', k)
    ensures AppendOne(t, r).1.Ok? ==> r.command.Some?
    ensures AppendOne(t, r).1.Ok? ==>
              exists k :: && Settled(AppendOne(t, r).0, r, k)
                          && AppendOne(t, r).1 == Ok([StoredEvent(k, r.quoteId, EventOf(r.command.value))])
  {
    hide Commit, Ledger, GoodBook, LogOf, KeyMap;
    if r.command.Some? {
      var q, cid, c := r.quoteId, r.clientCommandId, r.command.value;
      CommitRefinesBook(t, q, cid, c);
      BookCommandBinds(BookOf(t, q), q, cid, c);
      var t' := AppendOne(t, r).0;
      hide BoundTo, BookCommand;
      forall p
        ensures LogOf(t, p) <= LogOf(t', p)
      {
        assert p != q ==> BookOf(t', p) == BookOf(t, p);
      }
      forall r': Request, k | Settled(t, r', k)
        ensures Settled(t', r', k)
      {
        assert r'.quoteId != q ==> BookOf(t', r'.quoteId) == BookOf(t, r'.quoteId);
      }
      if AppendOne(t, r).1.Ok? {
        var k := BookCommand(BookOf(t, q), q, cid, c).1.value;
        assert Settled(t', r, k);
        EntryOf(BookOf(t', q), cid, c, k);
      }
    }
  }

  lemma EntryOf(b: Book, cid: CommandId, c: Command, k: nat)
    requires BoundTo(b, cid, c, k)
    ensures 1 <= k <= |b.log| && b.log[k - 1] == EventOf(c)
  {
  }

  /**
    A request whose key is already bound changes no table. It succeeds if and only if it carries the
    command originally committed under that key, and then returns that command's event.
  */
  lemma BoundKeyAnswersItsCommandOnly(t: Tables, r: Request)
    requires Ledger(t) && r.clientCommandId in BookOf(t, r.quoteId).keys
    ensures AppendOne(t, r).0 == t
    ensures AppendOne(t, r).1.Ok? <==> exists k :: Settled(t, r, k)
    ensures forall k :: Settled(t, r, k) ==>
              AppendOne(t, r).1 == Ok([StoredEvent(k, r.quoteId, EventOf(r.command.value))])
  {
    hide Commit, Ledger, GoodBook, LogOf, KeyMap;
    if r.command.Some? {
      var q, cid, c := r.quoteId, r.clientCommandId, r.command.value;
      CommitRefinesBook(t, q, cid, c);
      BookCommandBinds(BookOf(t, q), q, cid, c);
      hide BookCommand;
      if AppendOne(t, r).1.Ok? {
        assert Settled(t, r, BookCommand(BookOf(t, q), q, cid, c).1.value);
      }
    }
  }

  /**
    What a reused key answers. A different command under a bound key is a conflict if and only if it would
    have been accepted in the state before the key's entry; otherwise the answer is the error the handler
    gives there. No table changes either way.
  */
  lemma ReusedKeyConflictsIff(t: Tables, r: Request, k: nat)
    requires Ledger(t) && r.command.Some?
    requires r.clientCommandId in BookOf(t, r.quoteId).keys && BookOf(t, r.quoteId).keys[r.clientCommandId].first == k
    ensures 1 <= k <= |LogOf(t, r.quoteId)|
    ensures
      var log := LogOf(t, r.quoteId);
      var decision := CommandToEvents(StateOf(log[..k - 1]), r.command.value);
      var conflict := IdempotencyConflict(r.quoteId, r.clientCommandId);
      r.command.value != CommandOf(log[k - 1]) ==>
        && AppendOne(t, r).0 == t
        && (AppendOne(t, r).1 == Err(StoreFailure(conflict)) <==> decision.Ok?)
        && (decision.Err? ==> AppendOne(t, r).1 == Err(StoreFailure(DomainFailure(decision.error))))
  {
    hide Commit, Ledger, LogOf, KeyMap, StateOf, CommandToEvents;
    CommitRefinesBook(t, r.quoteId, r.clientCommandId, r.command.value);
  }

  /**
    So a reused key is not always a conflict: under the key of the command that created the quote, every
    AddLineItem and every FinalizeQuote is refused because the quote had not been created before that.
  */
  lemma ReusedCreateKeyIsNoConflict(t: Tables, r: Request)
    requires Ledger(t) && r.command.Some? && !r.command.value.CreateQuote?
    requires r.clientCommandId in BookOf(t, r.quoteId).keys && BookOf(t, r.quoteId).keys[r.clientCommandId].first == 1
    ensures AppendOne(t, r) == (t, Err(StoreFailure(DomainFailure(QuoteNotCreated))))
  {
    hide AppendOne, Ledger, LogOf, KeyMap;
    LedgerBook(t, r.quoteId);
    var log := LogOf(t, r.quoteId);
    assert log[..0] == [];
    FirstEntryCreates(log);
    ReusedKeyConflictsIff(t, r, 1);
  }

  lemma FirstEntryCreates(log: Log)
    requires Produced(log) && log != []
    ensures CommandOf(log[0]).CreateQuote?
  {
    ProducedIffWellFormed(log);
  }

  /** An unbound request succeeds exactly when the handler accepts it on the quote's whole log. */
  lemma FreshKeyIsDecidedOnTheLog(t: Tables, r: Request)
    requires Ledger(t) && r.clientCommandId !in BookOf(t, r.quoteId).keys && r.command.Some?
    ensures
      var log := LogOf(t, r.quoteId);
      var (t', result) := AppendOne(t, r);
      match CommandToEvents(StateOf(log), r.command.value)
      case Err(e) => t' == t && result == Err(StoreFailure(DomainFailure(e)))
      case Ok(_) =>
        && LogOf(t', r.quoteId) == log + [EventOf(r.command.value)]
        && result == Ok([StoredEvent(|log| + 1, r.quoteId, EventOf(r.command.value))])
        && Settled(t', r, |log| + 1)
  {
    hide Commit, Ledger, LogOf, KeyMap, StateOf, CommandToEvents;
    CommitRefinesBook(t, r.quoteId, r.clientCommandId, r.command.value);
    AcceptedCommandIsItsEvent(StateOf(LogOf(t, r.quoteId)), r.command.value);
  }

  const KEY_OWNER := Request("q", "a", Some(CreateQuote("EUR", "DE")))
  const KEY_REUSE := Request("q", "a", Some(AddLineItem(LineItem("l", "s", "d", 1, 100))))

  /** At a concrete input: the key of an accepted CreateQuote, reused with an AddLineItem. */
  lemma ReusedKeyWitness()
    ensures
      var (t, created) := AppendOne(EMPTY_TABLES, KEY_OWNER);
      && created.Ok?
      && AppendOne(t, KEY_REUSE) == (t, Err(StoreFailure(DomainFailure(QuoteNotCreated))))
  {
    hide AppendOne, Ledger, LogOf, KeyMap;
    EmptyTablesAreALedger();
    assert BookOf(EMPTY_TABLES, "q").log == LogOf(EMPTY_TABLES, "q");
    assert !IsWhitespace("EUR"[0]) && !IsWhitespace("DE"[0]);
    FreshKeyIsDecidedOnTheLog(EMPTY_TABLES, KEY_OWNER);
    AppendOneKeepsLedger(EMPTY_TABLES, KEY_OWNER);
    ReusedCreateKeyIsNoConflict(AppendOne(EMPTY_TABLES, KEY_OWNER).0, KEY_REUSE);
  }

  /** Requests run one after the other. */
  function RunAll(t: Tables, rs: seq<Request>): Tables {
    if rs == [] then t else AppendOne(RunAll(t, rs[..|rs| - 1]), rs[|rs| - 1]).0
  }

  /** Run one after the other, every request succeeds. */
  ghost predicate AllSucceed(t: Tables, rs: seq<Request>) {
    forall i :: 0 <= i < |rs| ==> AppendOne(RunAll(t, rs[..i]), rs[i]).1.Ok?
  }

  lemma NoneFail(t: Tables)
    ensures AllSucceed(t, [])
  {
  }

  lemma AllSucceedPlusOne(t: Tables, rs: seq<Request>)
    requires rs != []
    ensures
      var n := |rs| - 1;
      AllSucceed(t, rs) <==> AllSucceed(t, rs[..n]) && AppendOne(RunAll(t, rs[..n]), rs[n]).1.Ok?
  {
    hide AppendOne, RunAll;
    var n := |rs| - 1;
    assert forall i :: 0 <= i < n ==> rs[..n][..i] == rs[..i] && rs[..n][i] == rs[i];
  }

  lemma {:induction false} RunAllKeepsLedger(t: Tables, rs: seq<Request>)
    requires Ledger(t)
    ensures Ledger(RunAll(t, rs))
    ensures forall q :: LogOf(t, q) <= LogOf(RunAll(t, rs), q)
    ensures forall r: Request, k :: Settled(t, r, k) ==> Settled(RunAll(t, rs), r, k)
  {
    hide AppendOne, Ledger, LogOf, Settled;
    if rs != [] {
      RunAllKeepsLedger(t, rs[..|rs| - 1]);
      AppendOneKeepsLedger(RunAll(t, rs[..|rs| - 1]), rs[|rs| - 1]);
    }
  }

  lemma SettledIsBound(t: Tables, r: Request, k: nat)
    requires Settled(t, r, k)
    ensures r.clientCommandId in BookOf(t, r.quoteId).keys
  {
  }

  /**
    Idempotent retry is stable forever: once a request has committed, and whatever requests ran since,
    the same request returns exactly the events it returned first and changes no table.
  */
  lemma RetryIsStable(t: Tables, r: Request, later: seq<Request>)
    requires Ledger(t) && AppendOne(t, r).1.Ok?
    ensures
      var t' := RunAll(AppendOne(t, r).0, later);
      AppendOne(t', r) == (t', AppendOne(t, r).1)
  {
    assert r.command.Some?;
    hide AppendOne, Ledger, BookOf, Settled, RunAll;
    var t1 := AppendOne(t, r).0;
    var t' := RunAll(t1, later);
    AppendOneKeepsLedger(t, r);
    RunAllKeepsLedger(t1, later);
    var k :| && Settled(t1, r, k)
             && AppendOne(t, r).1 == Ok([StoredEvent(k, r.quoteId, EventOf(r.command.value))]);
    SettledIsBound(t', r, k);
    BoundKeyAnswersItsCommandOnly(t', r);
  }

  /**
    At most once: of all requests that ever run under one key, in any interleaving with others, only the
    first successful one changes the tables.
  */
  lemma CommittedAtMostOnce(t: Tables, rs: seq<Request>, i: nat, j: nat)
    requires Ledger(t) && i < j < |rs|
    requires rs[i].quoteId == rs[j].quoteId && rs[i].clientCommandId == rs[j].clientCommandId
    requires AppendOne(RunAll(t, rs[..i]), rs[i]).1.Ok?
    ensures RunAll(t, rs[..j + 1]) == RunAll(t, rs[..j])
  {
    hide AppendOne, Ledger, BookOf, Settled;
    var before := RunAll(t, rs[..i]);
    RunAllKeepsLedger(t, rs[..i]);
    AppendOneKeepsLedger(before, rs[i]);
    var after := AppendOne(before, rs[i]).0;
    var k :| Settled(after, rs[i], k);
    RunAllKeepsLedger(after, rs[i + 1..j]);
    assert rs[..i + 1][..i] == rs[..i];
    assert rs[..j] == rs[..i + 1] + rs[i + 1..j];
    RunAllInParts(t, rs[..i + 1], rs[i + 1..j]);
    assert rs[..j + 1][..j] == rs[..j];
    SettledIsBound(RunAll(t, rs[..j]), rs[i], k);
    BoundKeyAnswersItsCommandOnly(RunAll(t, rs[..j]), rs[j]);
  }

  lemma {:induction false} RunAllInParts(t: Tables, a: seq<Request>, b: seq<Request>)
    ensures RunAll(t, a + b) == RunAll(RunAll(t, a), b)
    decreases |b|
  {
    if b == [] {
      assert a + b == a;
    } else {
      hide AppendOne;
      var n := |b| - 1;
      assert (a + b)[..|a| + n] == a + b[..n];
      RunAllInParts(t, a, b[..n]);
    }
  }

  lemma EmptyTablesAreALedger()
    ensures Ledger(EMPTY_TABLES)
    ensures forall q :: BookOf(EMPTY_TABLES, q) == Book([], map[])
  {
  }
}
