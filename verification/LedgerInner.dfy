/**
  src/ledger.rs in its own form: the shared object with its store, bus and counter, the append call and its
  stream loop, and the subscriber's read-retry and pump loops. Each method is tied to the function the step
  machine uses for it, so what is proved of the machine's runs is about these methods.
*/
module LedgerInner {
  import opened Wrappers
  import opened Domain
  import opened QuoteLog
  import opened Tables
  import opened Appending
  import opened Stream
  import opened Service
  import opened Delivery
  import opened Guarantees
  import Store

  /** Which database call of one append closure fails, if any. */
  datatype Faults = Faults(lookup: bool, load: bool, append: Option<nat>)

  const NO_FAULTS := Faults(false, false, None)

  class LedgerInner {
    const store: Store.Store
    var bus: Bus
    var inFlight: nat

    ghost predicate Valid()
      reads this, store
    {
      store.Valid() && Ledger(store.View())
    }

    constructor ()
      ensures Valid() && fresh(store)
      ensures store.View() == EMPTY_TABLES && bus == map[] && inFlight == 0
    {
      store := new Store.Store();
      bus := map[];
      inFlight := 0;
      new;
      EmptyTablesAreALedger();
    }

    /** Look the channel up, create it if it is missing, replace its value. */
    method PublishHead(q: QuoteId, head: nat)
      modifies this`bus
      ensures bus == Publish(old(bus), q, head)
    {
      if q !in bus {
        bus := bus[q := Watch(head, 0)];
      }
      bus := bus[q := Watch(head, bus[q].version + 1)];
    }

    /** The database closure of append_one. */
    method RunClosure(q: QuoteId, cid: CommandId, c: Command, faults: Faults)
      returns (r: Result<seq<StoredEvent>, StoreError>)
      requires Valid()
      modifies store
      ensures Valid()
      ensures faults == NO_FAULTS ==> (store.View(), r) == Commit(old(store.View()), q, cid, c)
      ensures
        || (store.View(), r) == Commit(old(store.View()), q, cid, c)
        || (r == Err(Sqlite) && store.View() == old(store.View()))
      ensures r.Err? ==> store.View() == old(store.View())
      ensures faults.lookup ==> r == Err(Sqlite)
    {
      hide Ledger, Lookup, LoadAll, LoadRange, Replay, CommandToEvents, Slice, LogOf;
      CommitKeepsLedger(store.View(), q, cid, c);
      var found := store.IdempotencyLookup(q, cid, faults.lookup);
      if found.Err? {
        return Err(Sqlite);
      }
      var before: Result<seq<StoredEvent>, StoreError>;
      if found.value.Some? {
        var first := found.value.value.firstSeq;
        before := store.LoadStoredEventsBetween(q, 0, if first == 0 then 0 else first - 1, faults.load);
      } else {
        before := store.LoadStoredEvents(q, faults.load);
      }
      if before.Err? {
        return Err(Sqlite);
      }
      var state := ReplayEvents(EventsOf(before.value));
      if state.Err? {
        return Err(DomainFailure(state.error));
      }
      var events := CommandToEvents(state.value, c);
      if events.Err? {
        return Err(DomainFailure(events.error));
      }
      var failAt :=
        match faults.append
        case Some(n) => n
        case None => Store.Statements(store.View(), q, cid, events.value);
      r := store.AppendCommandEvents(q, cid, events.value, failAt);
    }

    /**
      append_one, run without interleaving: the guard is entered and left on every path, and the head is
      published exactly when the append succeeded, with the last sequence number of the answer.
    */
    method AppendOne(r: Request, faults: Faults) returns (result: Result<seq<StoredEvent>, Status>)
      requires Valid()
      modifies this, store
      ensures Valid() && inFlight == old(inFlight)
      ensures faults == NO_FAULTS ==> (store.View(), result) == Appending.AppendOne(old(store.View()), r)
      ensures
        || (store.View(), result) == Appending.AppendOne(old(store.View()), r)
        || (result == Err(StoreFailure(Sqlite)) && store.View() == old(store.View()))
      ensures result.Err? ==> bus == old(bus) && store.View() == old(store.View())
      ensures faults.lookup ==> result.Err?
      ensures result.Ok? ==>
                && result.value != []
                && bus == Publish(old(bus), r.quoteId, result.value[|result.value| - 1].seqNo)
    {
      hide Ledger, Commit;
      inFlight := inFlight + 1;
      if r.command.None? {
        inFlight := inFlight - 1;
        return Err(InvalidArgument);
      }
      ghost var before := store.View();
      var committed := RunClosure(r.quoteId, r.clientCommandId, r.command.value, faults);
      if committed.Err? {
        inFlight := inFlight - 1;
        return Err(StoreFailure(committed.error));
      }
      AppendOneKeepsLedger(before, r);
      if |committed.value| > 0 {
        PublishHead(r.quoteId, committed.value[|committed.value| - 1].seqNo);
      }
      inFlight := inFlight - 1;
      result := Ok(committed.value);
    }

    /**
      The append_commands loop, where the database may fail at any statement of any frame's closure. Without a
      failure it is exactly RunStream. If it is stopped by a failure, that is at some frame k with a
      fault, the call fails, and the tables are those after the first k frames, which is what a later
      resend of the whole stream starts from.
    */
    method AppendCommands(frames: seq<Frame>, maxCommands: nat, faults: seq<Faults>)
      returns (r: Result<Response, Status>)
      requires Valid() && |faults| == |frames|
      modifies this, store
      ensures Valid() && inFlight == old(inFlight)
      ensures (forall i :: 0 <= i < |faults| ==> faults[i] == NO_FAULTS) ==>
                Finished(old(store.View()), frames, maxCommands, store.View(), r)
      ensures
        || Finished(old(store.View()), frames, maxCommands, store.View(), r)
        || exists k :: StoppedAt(old(store.View()), frames, maxCommands, faults, k, store.View(), r)
      ensures r.Ok? ==> forall i :: 0 <= i < |faults| ==> !faults[i].lookup
      ensures r.Ok? ==> Receipts(store.View(), frames, r.value)
    {
      hide Ledger, Appending.AppendOne, ValidIdentifier, RunStream, Receipts;
      var quoteId: Option<QuoteId> := None;
      var lastCommittedSeq: nat := 0;
      var allCommitted: seq<StoredEvent> := [];
      var commandCount: nat := 0;
      ghost var start := store.View();
      StreamStarts(start, frames, maxCommands);

      for i := 0 to |frames|
        invariant Valid() && inFlight == old(inFlight)
        invariant forall j :: 0 <= j < i ==> !faults[j].lookup
        invariant RunStream(start, frames[..i], maxCommands)
               == Progress(store.View(), quoteId, commandCount, lastCommittedSeq, allCommitted, None)
      {
        ghost var before := RunStream(start, frames[..i], maxCommands);
        StreamReceives(start, frames, maxCommands, i);
        assert RunStream(start, frames[..i + 1], maxCommands) == Receive(before, frames[i], maxCommands);

        match frames[i] {
          case TransportError =>
            FailedStream(start, frames, maxCommands, i + 1);
            return Err(TransportFailure);
          case IdleTimeout =>
            FailedStream(start, frames, maxCommands, i + 1);
            return Err(DeadlineExceeded);
          case Message(q, cid, command) =>
            commandCount := commandCount + 1;
            if commandCount > maxCommands {
              FailedStream(start, frames, maxCommands, i + 1);
              return Err(ResourceExhausted);
            }
            if !ValidIdentifier(cid) || !ValidIdentifier(q) || (quoteId.Some? && quoteId.value != q) {
              FailedStream(start, frames, maxCommands, i + 1);
              return Err(InvalidArgument);
            }
            quoteId := Some(q);
            var stored := AppendOne(Request(q, cid, command), faults[i]);
            if stored.Err? {
              if (store.View(), stored) == Appending.AppendOne(before.tables, Request(q, cid, command)) {
                FailedStream(start, frames, maxCommands, i + 1);
              } else {
                assert StoppedAt(start, frames, maxCommands, faults, i, store.View(), Err(stored.error));
              }
              return Err(stored.error);
            }
            if |stored.value| > 0 {
              lastCommittedSeq := stored.value[|stored.value| - 1].seqNo;
            }
            allCommitted := allCommitted + stored.value;
        }
      }
      assert frames[..|frames|] == frames;
      r := if quoteId.None? then Err(InvalidArgument) else Ok(Response(lastCommittedSeq, allCommitted));
      if r.Ok? {
        ReplyHasOneReceiptPerCommand(start, frames, maxCommands);
      }
    }

    /** The initial database closure of subscribe_quote; either of its two reads may fail. */
    method OpenSubscription(q: QuoteId, after: nat, loadFails: bool, catchupFails: bool)
      returns (r: Result<Subscriber, StoreError>)
      requires Valid()
      ensures !loadFails && !catchupFails ==> r == Open(store.View(), q, after)
      ensures r == Open(store.View(), q, after) || r == Err(Sqlite)
      ensures loadFails ==> r == Err(Sqlite)
      ensures catchupFails && !loadFails && after < |LogOf(store.View(), q)| ==> r.Err?
    {
      InitialLast(store.View(), q);
      hide Ledger, Replay, ViewOf, Slice, LogOf, LoadAll, LoadRange;
      if loadFails {
        return Err(Sqlite);
      }
      var all := store.LoadStoredEvents(q, false);
      var last := if all.value == [] then 0 else all.value[|all.value| - 1].seqNo;
      if after > last {
        return Err(InvalidAfterSeq(after, last));
      }
      var state := ReplayEvents(EventsOf(all.value));
      if state.Err? {
        return Err(DomainFailure(state.error));
      }
      var view := QuoteStateToView(q, state.value);
      if view.Err? {
        return Err(DomainFailure(view.error));
      }
      var catchup: Result<seq<StoredEvent>, StoreError> := Ok([]);
      if after < last {
        catchup := store.LoadStoredEventsBetween(q, after, last, catchupFails);
        if catchup.Err? {
          return Err(Sqlite);
        }
      }
      r := Ok(Subscriber(q, after, last, view.value, catchup.value, Loaded, after, 0, []));
    }

    /**
      The bus-lock section of subscribe_quote: overwrite the head, then subscribe at the new version. It is
      the machine's registration step. The new receiver has missed nothing; whatever head was overwritten,
      no other receiver misses it, because the version has moved; other channels are not touched.
    */
    method Register(s: Subscriber) returns (s': Subscriber)
      requires s.phase.Loaded?
      modifies this`bus
      ensures forall m: Machine, id: nat {:trigger DoRegister(m, id, s)} :: m.bus == old(bus) ==>
                DoRegister(m, id, s) == m.(bus := bus, subscribers := m.subscribers[id := s'])
      ensures s.quoteId in bus && WakeOk(bus, s') && s'.phase.CatchupDue? && s'.seen == bus[s.quoteId].version
      ensures bus[s.quoteId].value == s.lastSeq
      ensures s.quoteId in old(bus) ==> bus[s.quoteId].version > old(bus)[s.quoteId].version
      ensures forall other: Subscriber :: WakeOk(old(bus), other) ==> WakeOk(bus, other)
      ensures forall q :: q in old(bus) && q != s.quoteId ==> q in bus && bus[q] == old(bus)[q]
      ensures forall q :: q in bus ==> q in old(bus) || q == s.quoteId
    {
      PublishHead(s.quoteId, s.lastSeq);
      s' := s.(phase := CatchupDue, seen := bus[s.quoteId].version);
    }
  }

  /** The whole stream has been processed, or has failed for a reason of its own. */
  ghost predicate Finished(t: Tables, frames: seq<Frame>, maxCommands: nat, t': Tables, r: Result<Response, Status>) {
    var p := RunStream(t, frames, maxCommands);
    t' == p.tables && r == Reply(p)
  }

  /** The database has failed in the closure of frame k. */
  ghost predicate StoppedAt(
    t: Tables, frames: seq<Frame>, maxCommands: nat, faults: seq<Faults>, k: nat,
    t': Tables, r: Result<Response, Status>)
  {
    && k < |frames| == |faults| && faults[k] != NO_FAULTS
    && var p := RunStream(t, frames[..k], maxCommands);
    p.failure.None? && t' == p.tables && r == Err(StoreFailure(Sqlite))
  }

  lemma InitialLast(t: Tables, q: QuoteId)
    requires Ledger(t)
    ensures
      var all := LoadAll(t, q);
      |all| == |LogOf(t, q)| && (all != [] ==> all[|all| - 1].seqNo == |LogOf(t, q)|)
  {
    hide Ledger, LoadBetween;
    InitialQueries(t, q, 0);
  }

  lemma StreamStarts(t: Tables, frames: seq<Frame>, maxCommands: nat)
    ensures RunStream(t, frames[..0], maxCommands) == Start(t)
  {
  }

  lemma StreamReceives(t: Tables, frames: seq<Frame>, maxCommands: nat, i: nat)
    requires i < |frames|
    ensures RunStream(t, frames[..i + 1], maxCommands)
         == Receive(RunStream(t, frames[..i], maxCommands), frames[i], maxCommands)
  {
    hide Receive;
    assert frames[..i + 1][..i] == frames[..i];
  }

  /** A stream that has failed by frame j ends in that failure, with the tables as they were then. */
  lemma FailedStream(t: Tables, frames: seq<Frame>, maxCommands: nat, j: nat)
    requires Ledger(t) && j <= |frames| && RunStream(t, frames[..j], maxCommands).failure.Some?
    ensures RunStream(t, frames, maxCommands) == RunStream(t, frames[..j], maxCommands)
  {
    hide Ledger, Receive;
    StreamKeepsLedger(t, frames, maxCommands, j, |frames|);
    assert frames[..|frames|] == frames;
  }

  // ---------------------------------------------------------------- the subscriber's loops

  const BACKOFF_START_MS := 10
  const BACKOFF_CAP_MS := 500

  /** One attempt at a read: it fails, or it runs on the tables of that moment. */
  type Attempt = Option<Tables>

  predicate AllFail(attempts: seq<Attempt>) {
    forall i :: 0 <= i < |attempts| ==> attempts[i].None?
  }

  /**
    subscribe_load_between: the first attempt that does not fail decides; after eight failures the read has
    failed for good. The waits double from 10 milliseconds up to a cap of 500.
  */
  method SubscribeLoadBetween(q: QuoteId, afterExclusive: nat, uptoInclusive: nat, attempts: seq<Attempt>)
    returns (r: Result<seq<StoredEvent>, Status>, used: nat, waitedMs: nat)
    requires |attempts| == 8
    ensures 1 <= used <= 8 && AllFail(attempts[..used - 1])
    ensures waitedMs == [0, 10, 30, 70, 150, 310, 630, 1130][used - 1]
    ensures r.Err? <==> forall i :: 0 <= i < 8 ==> attempts[i].None?
    ensures r.Err? ==> used == 8 && r == Err(StoreFailure(Sqlite))
    ensures r.Ok? ==>
              && attempts[used - 1].Some?
              && r == Ok(LoadBetween(attempts[used - 1].value, q, afterExclusive, uptoInclusive))
  {
    var backoffMs: nat := BACKOFF_START_MS;
    waitedMs := 0;
    for attempt := 0 to SUBSCRIBE_DB_MAX_ATTEMPTS
      invariant AllFail(attempts[..attempt])
      invariant backoffMs == [10, 10, 20, 40, 80, 160, 320, 500, 500][attempt]
      invariant waitedMs == [0, 0, 10, 30, 70, 150, 310, 630, 1130][attempt]
    {
      if attempt > 0 {
        waitedMs := waitedMs + backoffMs;
        backoffMs := if backoffMs * 2 <= BACKOFF_CAP_MS then backoffMs * 2 else BACKOFF_CAP_MS;
      }
      if attempts[attempt].Some? {
        return Ok(LoadBetween(attempts[attempt].value, q, afterExclusive, uptoInclusive)), attempt + 1, waitedMs;
      }
      assert attempts[..attempt + 1] == attempts[..attempt] + [attempts[attempt]];
    }
    assert attempts[..SUBSCRIBE_DB_MAX_ATTEMPTS] == attempts;
    return Err(StoreFailure(Sqlite)), SUBSCRIBE_DB_MAX_ATTEMPTS, waitedMs;
  }

  /** What one pass of the pump meets: the head it reads, and how its attempts at the read go. */
  datatype Turn = Turn(head: nat, attempts: seq<Attempt>)

  /** The attempts of one read as steps of the machine. */
  function Attempts(s: Subscriber, attempts: seq<Attempt>): Subscriber
    decreases |attempts|
  {
    if attempts == [] || !s.phase.Loading? then s
    else
      match attempts[0]
      case None => Attempts(LoadFailed(s), attempts[1..])
      case Some(t) => Attempts(LoadChunk(s, t), attempts[1..])
  }

  /** One pass of the pump as steps of the machine: read the head, load if it is ahead, send what was loaded. */
  function TurnSteps(s: Subscriber, turn: Turn): Subscriber {
    if s.phase.Closed? then s
    else
      var s' := Attempts(HeadRead(s, turn.head), turn.attempts);
      if s'.phase.Sending? then SendTail(s') else s'
  }

  function PumpSoFar(s: Subscriber, turns: seq<Turn>): Subscriber {
    if turns == [] then s else TurnSteps(PumpSoFar(s, turns[..|turns| - 1]), turns[|turns| - 1])
  }

  lemma {:induction false} AttemptsDecidedByFirstSuccess(s: Subscriber, attempts: seq<Attempt>, used: nat)
    requires s.phase.Loading? && 1 <= used <= |attempts| && AllFail(attempts[..used - 1])
    requires s.phase.attempt + |attempts| == 8
    ensures attempts[used - 1].Some? ==>
              Attempts(s, attempts)
              == LoadChunk(s.(phase := Loading(s.phase.head, s.phase.attempt + used - 1)), attempts[used - 1].value)
    ensures AllFail(attempts) ==> Attempts(s, attempts) == s.(phase := Closed(true))
    decreases |attempts|
  {
    hide LoadBetween;
    if used > 1 {
      assert attempts[0] == attempts[..used - 1][0];
      assert attempts[1..][..used - 2] == attempts[..used - 1][1..];
      AttemptsDecidedByFirstSuccess(LoadFailed(s), attempts[1..], used - 1);
    } else if |attempts| > 1 {
      if attempts[0].None? && AllFail(attempts) {
        assert attempts[1..][..0] == [];
        AttemptsDecidedByFirstSuccess(LoadFailed(s), attempts[1..], 1);
      }
    }
  }

  lemma {:induction false} ClosedPumpStays(s: Subscriber, turns: seq<Turn>, k: nat)
    requires k <= |turns| && PumpSoFar(s, turns[..k]).phase.Closed?
    ensures PumpSoFar(s, turns) == PumpSoFar(s, turns[..k])
    decreases |turns|
  {
    if k == |turns| {
      assert turns[..k] == turns;
    } else {
      var n := |turns| - 1;
      assert turns[..n][..k] == turns[..k];
      ClosedPumpStays(s, turns[..n], k);
    }
  }

  lemma PumpStarts(s: Subscriber, turns: seq<Turn>)
    ensures PumpSoFar(s, turns[..0]) == s
  {
  }

  lemma PumpTurns(s: Subscriber, turns: seq<Turn>, i: nat)
    requires i < |turns|
    ensures
      var now, next := PumpSoFar(s, turns[..i]), PumpSoFar(s, turns[..i + 1]);
      && next == TurnSteps(now, turns[i])
      && (!HeadRead(now, turns[i].head).phase.Loading? && !now.phase.Closed? ==> next == HeadRead(now, turns[i].head))
  {
    hide TurnSteps;
    assert turns[..i + 1][..i] == turns[..i];
    var now := PumpSoFar(s, turns[..i]);
    if !HeadRead(now, turns[i].head).phase.Loading? && !now.phase.Closed? {
      TurnWithoutRead(now, turns[i]);
    }
  }

  lemma TurnWithoutRead(s: Subscriber, turn: Turn)
    requires !HeadRead(s, turn.head).phase.Loading? && !s.phase.Closed?
    ensures TurnSteps(s, turn) == HeadRead(s, turn.head)
  {
  }

  /** The largest of the watermark and the heads of the passes. */
  function MaxHead(watermark: nat, turns: seq<Turn>): nat {
    if turns == [] then watermark
    else
      var before := MaxHead(watermark, turns[..|turns| - 1]);
      if turns[|turns| - 1].head > before then turns[|turns| - 1].head else before
  }

  /** Pass i has something to load, and every one of its eight attempts fails. */
  predicate FailsForGood(watermark: nat, turns: seq<Turn>, i: nat)
    requires i < |turns|
  {
    turns[i].head > MaxHead(watermark, turns[..i]) && AllFail(turns[i].attempts)
  }

  lemma AttemptsEnd(s: Subscriber, attempts: seq<Attempt>)
    requires s.phase.Loading? && s.phase.attempt == 0 && |attempts| == 8
    ensures AllFail(attempts) ==> Attempts(s, attempts) == s.(phase := Closed(true))
    ensures !AllFail(attempts) ==>
              var s' := Attempts(s, attempts);
              || s' == s.(phase := Parked, watermark := s.phase.head)
              || (s'.phase.Sending? && s'.phase.target == s.phase.head && s' == s.(phase := s'.phase))
  {
    hide LoadBetween, Attempts;
    if AllFail(attempts) {
      AttemptsDecidedByFirstSuccess(s, attempts, 1);
    } else {
      var used := FirstSuccess(attempts);
      AttemptsDecidedByFirstSuccess(s, attempts, used);
    }
  }

  lemma {:induction false} FirstSuccess(attempts: seq<Attempt>) returns (used: nat)
    requires !AllFail(attempts)
    ensures 1 <= used <= |attempts| && AllFail(attempts[..used - 1]) && attempts[used - 1].Some?
  {
    var n := |attempts| - 1;
    if AllFail(attempts[..n]) {
      used := n + 1;
      assert attempts == attempts[..n] + [attempts[n]];
    } else {
      used := FirstSuccess(attempts[..n]);
      assert attempts[..n][..used - 1] == attempts[..used - 1];
    }
  }

  /** One pass of an open pump: closed by a read that fails for good, or idle at the larger of watermark and head. */
  lemma TurnEnds(s: Subscriber, turn: Turn)
    requires s.phase.HeadCheckDue? || s.phase.Parked?
    requires |turn.attempts| == 8
    ensures
      var s' := TurnSteps(s, turn);
      if turn.head > s.watermark && AllFail(turn.attempts) then s'.phase == Closed(true)
      else s'.phase.Parked? && s'.watermark == if turn.head > s.watermark then turn.head else s.watermark
  {
    hide LoadBetween, Attempts, AllFail;
    if turn.head > s.watermark {
      AttemptsEnd(HeadRead(s, turn.head), turn.attempts);
    } else {
      TurnWithoutRead(s, turn);
    }
  }

  /** The pump closes its stream with an error exactly when some pass that has something to load fails for good. */
  lemma {:induction false} ClosedIffReadFailed(s: Subscriber, turns: seq<Turn>)
    requires s.phase.HeadCheckDue? || s.phase.Parked?
    requires forall i :: 0 <= i < |turns| ==> |turns[i].attempts| == 8
    ensures
      var s' := PumpSoFar(s, turns);
      && (s'.phase == Closed(true) <==> exists i :: 0 <= i < |turns| && FailsForGood(s.watermark, turns, i))
      && (s'.phase != Closed(true) ==>
            (s'.phase.Parked? || s' == s) && s'.watermark == MaxHead(s.watermark, turns))
  {
    if turns != [] {
      hide Attempts, LoadBetween, AllFail;
      var n := |turns| - 1;
      ClosedIffReadFailed(s, turns[..n]);
      assert forall i :: 0 <= i < n ==> turns[..n][i] == turns[i] && turns[..n][..i] == turns[..i];
      assert forall i :: 0 <= i < n ==> FailsForGood(s.watermark, turns[..n], i) == FailsForGood(s.watermark, turns, i);
      var now := PumpSoFar(s, turns[..n]);
      if now.phase == Closed(true) {
        var i :| 0 <= i < n && FailsForGood(s.watermark, turns[..n], i);
        assert FailsForGood(s.watermark, turns, i);
      } else {
        TurnEnds(now, turns[n]);
        assert FailsForGood(s.watermark, turns, n)
               <==> turns[n].head > MaxHead(s.watermark, turns[..n]) && AllFail(turns[n].attempts);
        assert forall i :: 0 <= i < n ==> !FailsForGood(s.watermark, turns, i);
      }
    }
  }

  /**
    The spawned pump after its snapshot, with the client listening throughout. Whatever heads it reads and
    however its reads go, it does what the machine's steps do: the same updates, the same watermark, and the
    stream closed with an error exactly when some read failed eight times.
  */
  method Pump(s: Subscriber, turns: seq<Turn>) returns (s': Subscriber)
    requires s.phase.HeadCheckDue? || s.phase.Parked?
    requires forall i :: 0 <= i < |turns| ==> |turns[i].attempts| == 8
    ensures s' == PumpSoFar(s, turns)
    ensures s'.phase == Closed(true) <==> exists i :: 0 <= i < |turns| && FailsForGood(s.watermark, turns, i)
  {
    hide LoadBetween, PumpSoFar, Attempts, FailsForGood;
    PumpStarts(s, turns);
    ClosedIffReadFailed(s, turns);
    var watermark, out := s.watermark, s.out;
    for i := 0 to |turns|
      invariant PumpSoFar(s, turns[..i])
             == s.(watermark := watermark, out := out, phase := if i == 0 then s.phase else Parked)
    {
      PumpTurns(s, turns, i);
      ghost var now := PumpSoFar(s, turns[..i]);
      var head := turns[i].head;
      if head > watermark {
        var chunk, used, _ := SubscribeLoadBetween(s.quoteId, watermark, head, turns[i].attempts);
        AttemptsDecidedByFirstSuccess(now.(phase := Loading(head, 0)), turns[i].attempts, used);
        if chunk.Err? {
          ClosedPumpStays(s, turns, i + 1);
          return s.(watermark := watermark, out := out, phase := Closed(true));
        }
        if chunk.value != [] {
          var to := chunk.value[|chunk.value| - 1].seqNo;
          out := out + [Tail(watermark, to, chunk.value)];
        }
        watermark := head;
      }
    }
    assert turns[..|turns|] == turns;
    s' := s.(watermark := watermark, out := out, phase := if turns == [] then s.phase else Parked);
  }

  // ---------------------------------------------------------------- what the pump delivers

  /** What a pass may rely on: the head is in the log, and a read that works sees the log at least up to it. */
  ghost predicate TurnInLog(q: QuoteId, log: Log, turn: Turn) {
    && turn.head <= |log|
    && forall i :: 0 <= i < |turn.attempts| && turn.attempts[i].Some? ==>
         var t := turn.attempts[i].value;
         Ledger(t) && turn.head <= |LogOf(t, q)| && LogOf(t, q) <= log
  }

  /** A read on older tables that already hold everything up to the head keeps the subscriber correct. */
  lemma LoadOnOlderTables(log: Log, s: Subscriber, t: Tables)
    requires SubscriberOk(log, s) && s.phase.Loading?
    requires Ledger(t) && s.phase.head <= |LogOf(t, s.quoteId)| && LogOf(t, s.quoteId) <= log
    ensures SubscriberOk(log, LoadChunk(s, t)) && LoadChunk(s, t).phase.Sending?
    ensures LoadChunk(s, t).phase.target == s.phase.head
  {
    hide Ledger, LogOf, LoadBetween, Slice, Chain, SnapshotOf;
    LoadBetweenOnLedger(t, s.quoteId, s.watermark, s.phase.head);
    SliceOfExtension(s.quoteId, LogOf(t, s.quoteId), log, s.watermark, s.phase.head);
    SliceEnds(s.quoteId, log, s.watermark, s.phase.head);
  }

  lemma LoadBetweenOnLedger(t: Tables, q: QuoteId, a: nat, b: nat)
    requires Ledger(t) && a <= b <= |LogOf(t, q)|
    ensures LoadBetween(t, q, a, b) == Slice(q, LogOf(t, q), a, b)
  {
    LoadBetweenIsSlice(t, q, a, b);
  }

  lemma {:induction false} AttemptsKeep(log: Log, s: Subscriber, head: nat, attempts: seq<Attempt>)
    requires SubscriberOk(log, s) && s.phase.Loading? && s.phase.head == head
    requires TurnInLog(s.quoteId, log, Turn(head, attempts))
    requires s.phase.attempt + |attempts| == 8
    ensures
      var s' := Attempts(s, attempts);
      && SubscriberOk(log, s') && s'.quoteId == s.quoteId && s'.watermark == s.watermark
      && (s'.phase == Closed(true) || (s'.phase.Sending? && s'.phase.target == head))
    decreases |attempts|
  {
    hide SubscriberOk, LoadBetween, Ledger, LogOf;
    AttemptInRange(log, s);
    match attempts[0]
    case Some(t) =>
      LoadOnOlderTables(log, s, t);
      assert !LoadChunk(s, t).phase.Loading?;
    case None =>
      FailedAttemptKeeps(log, s);
      if LoadFailed(s).phase.Loading? {
        AttemptsKeep(log, LoadFailed(s), head, attempts[1..]);
      }
  }

  lemma AttemptInRange(log: Log, s: Subscriber)
    requires SubscriberOk(log, s) && s.phase.Loading?
    ensures s.phase.attempt < 8
  {
  }

  lemma FailedAttemptKeeps(log: Log, s: Subscriber)
    requires SubscriberOk(log, s) && s.phase.Loading?
    ensures SubscriberOk(log, LoadFailed(s))
  {
    hide Chain, Slice, SnapshotOf;
  }

  lemma ReadingKeeps(log: Log, s: Subscriber, head: nat)
    requires SubscriberOk(log, s) && (s.phase.HeadCheckDue? || s.phase.Parked?) && head <= |log|
    ensures SubscriberOk(log, HeadRead(s, head))
  {
    hide Chain, Slice, SnapshotOf;
  }

  lemma SendingKeeps(log: Log, s: Subscriber)
    requires SubscriberOk(log, s) && s.phase.Sending?
    ensures SubscriberOk(log, SendTail(s)) && SendTail(s).watermark == s.phase.target
  {
    hide Slice, SnapshotOf;
    SliceEnds(s.quoteId, log, s.watermark, s.phase.target);
    ChainPlusTail(s.quoteId, log, s.out, s.after, s.watermark, s.phase.target);
    SnapshotSentPlusTail(s, SendTail(s));
  }

  /**
    Whatever heads the pump reads, in whatever order, and whichever of its reads fail, it stays correct: what
    it has sent is one slice of the log up to its watermark, and unless the stream was closed the watermark
    is the largest head it has read.
  */
  lemma {:induction false} PumpDelivers(log: Log, s: Subscriber, turns: seq<Turn>)
    requires SubscriberOk(log, s) && (s.phase.HeadCheckDue? || s.phase.Parked?)
    requires forall i :: 0 <= i < |turns| ==>
               |turns[i].attempts| == 8 && TurnInLog(s.quoteId, log, turns[i])
    ensures
      var s' := PumpSoFar(s, turns);
      && s'.quoteId == s.quoteId && s'.after == s.after
      && SubscriberOk(log, s')
      && s.after <= s'.watermark <= |log|
      && Received(s'.out) == Slice(s.quoteId, log, s.after, s'.watermark)
      && (s'.phase == Closed(true) || ((s'.phase.Parked? || s' == s) && s'.watermark == MaxHead(s.watermark, turns)))
  {
    hide SubscriberOk, TurnInLog, Received, Slice, LoadBetween, TurnSteps;
    if turns != [] {
      var n := |turns| - 1;
      PumpDelivers(log, s, turns[..n]);
      TurnKeeps(log, PumpSoFar(s, turns[..n]), turns[n]);
    }
    SubscriberReceives(log, PumpSoFar(s, turns));
  }

  lemma {:induction false} MaxHeadReaches(watermark: nat, turns: seq<Turn>, n: nat)
    requires watermark <= n && forall i :: 0 <= i < |turns| ==> turns[i].head <= n
    ensures MaxHead(watermark, turns) <= n
    ensures MaxHead(watermark, turns) == n <==> watermark == n || exists i :: 0 <= i < |turns| && turns[i].head == n
  {
    if turns != [] {
      var k := |turns| - 1;
      MaxHeadReaches(watermark, turns[..k], n);
      assert forall i :: 0 <= i < k ==> turns[..k][i] == turns[i];
    }
  }

  /**
    Exactly when delivery is complete: a pump whose stream is still open has sent the whole log if and only if
    its snapshot already covered it or one of the heads it read was the head of the log.
  */
  lemma CompleteIffItsHeadIsRead(log: Log, s: Subscriber, turns: seq<Turn>)
    requires SubscriberOk(log, s) && (s.phase.HeadCheckDue? || s.phase.Parked?)
    requires forall i :: 0 <= i < |turns| ==>
               |turns[i].attempts| == 8 && TurnInLog(s.quoteId, log, turns[i])
    requires PumpSoFar(s, turns).phase != Closed(true)
    ensures Received(PumpSoFar(s, turns).out) == Slice(s.quoteId, log, s.after, |log|)
         <==> s.watermark == |log| || exists i :: 0 <= i < |turns| && turns[i].head == |log|
  {
    hide SubscriberOk, Received, Slice, PumpSoFar, LogOf, Ledger;
    PumpDelivers(log, s, turns);
    SubscriberReceives(log, s);
    MaxHeadReaches(s.watermark, turns, |log|);
    SliceLengths(s.quoteId, log, s.after, PumpSoFar(s, turns).watermark);
    SliceLengths(s.quoteId, log, s.after, |log|);
  }

  lemma SubscriberReceives(log: Log, s: Subscriber)
    requires SubscriberOk(log, s)
    ensures s.after <= s.watermark <= |log| && Received(s.out) == Slice(s.quoteId, log, s.after, s.watermark)
  {
    hide Slice, SnapshotOf, Chain;
    ChainReceives(s.quoteId, log, s.out, s.after, s.watermark);
  }

  lemma TurnKeeps(log: Log, s: Subscriber, turn: Turn)
    requires SubscriberOk(log, s) && (s.phase.HeadCheckDue? || s.phase.Parked? || s.phase == Closed(true))
    requires |turn.attempts| == 8 && TurnInLog(s.quoteId, log, turn)
    ensures
      var s' := TurnSteps(s, turn);
      && SubscriberOk(log, s') && s'.quoteId == s.quoteId && s'.after == s.after
      && (s'.phase == Closed(true) || s'.phase.Parked?)
      && (s'.phase.Parked? ==>
            !s.phase.Closed? && s'.watermark == if turn.head > s.watermark then turn.head else s.watermark)
      && (s.phase.Closed? ==> s' == s)
  {
    hide SubscriberOk, LoadBetween, Ledger, LogOf, Attempts;
    if !s.phase.Closed? {
      ReadingKeeps(log, s, turn.head);
      var read := HeadRead(s, turn.head);
      AttemptsChangeNoField(read, turn.attempts);
      if read.phase.Loading? {
        AttemptsKeep(log, read, turn.head, turn.attempts);
        var loaded := Attempts(read, turn.attempts);
        if loaded.phase.Sending? {
          SendingKeeps(log, loaded);
        }
      }
    }
  }

  lemma {:induction false} AttemptsChangeNoField(s: Subscriber, attempts: seq<Attempt>)
    ensures Attempts(s, attempts).after == s.after
    ensures !s.phase.Loading? ==> Attempts(s, attempts) == s
    decreases |attempts|
  {
    hide LoadBetween;
    if attempts != [] && s.phase.Loading? {
      match attempts[0]
      case None => AttemptsChangeNoField(LoadFailed(s), attempts[1..]);
      case Some(t) => AttemptsChangeNoField(LoadChunk(s, t), attempts[1..]);
    }
  }
}
