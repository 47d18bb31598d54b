/**
  src/store.rs as a class over the two mutable tables. Every method takes the point at which SQLite
  fails as a parameter: a flag for a single query, a statement number for the append transaction.
*/
module Store {
  import opened Wrappers
  import opened Domain
  import opened QuoteLog
  import opened Tables

  /** How many SQL statements the append runs when none of them fails, the lookup included. */
  function Statements(t: Tables, q: QuoteId, cid: CommandId, events: seq<Event>): nat {
    if Lookup(t.keys, q, cid).Some? then 2
    else if events == [] then 1
    else |events| + 5  // lookup, begin, max, one insert an event, key insert, commit
  }

  class Store {
    var events: seq<EventRow>
    var keys: seq<KeyRow>

    function View(): Tables
      reads this
    {
      Tables(events, keys)
    }

    ghost predicate Valid()
      reads this
    {
      Consistent(View())
    }

    constructor ()
      ensures View() == EMPTY_TABLES && Valid()
    {
      events, keys := [], [];
    }

    // ---------------------------------------------------------------- queries

    /** Drains a query's cursor into stored events. */
    static method Collect(cursor: seq<EventRow>) returns (out: seq<StoredEvent>)
      ensures out == ToStored(cursor)
    {
      out := [];
      for i := 0 to |cursor|
        invariant out == ToStored(cursor[..i])
      {
        out := out + [StoredEvent(cursor[i].seqNo, cursor[i].quoteId, cursor[i].payload)];
      }
      assert cursor[..|cursor|] == cursor;
    }

    method LoadStoredEvents(q: QuoteId, fails: bool) returns (r: Result<seq<StoredEvent>, StoreError>)
      requires Valid()
      ensures fails ==> r == Err(Sqlite)
      ensures !fails ==> r == Ok(LoadAll(View(), q)) == Ok(Slice(q, LogOf(View(), q), 0, |LogOf(View(), q)|))
    {
      if fails {
        return Err(Sqlite);
      }
      var out := Collect(OrderBySeq(RowsOf(events, q)));
      LoadAllIsLog(View(), q);
      r := Ok(out);
    }

    method LoadEventsInSeqRange(q: QuoteId, first: nat, last: nat, fails: bool)
      returns (r: Result<seq<StoredEvent>, StoreError>)
      ensures r == if fails then Err(Sqlite) else Ok(LoadRange(View(), q, first, last))
    {
      if fails {
        return Err(Sqlite);
      }
      var out := Collect(OrderBySeq(InRange(RowsOf(events, q), first, last)));
      r := Ok(out);
    }

    /** An empty range returns before any statement runs, so it cannot fail. */
    method LoadStoredEventsBetween(q: QuoteId, afterExclusive: nat, uptoInclusive: nat, fails: bool)
      returns (r: Result<seq<StoredEvent>, StoreError>)
      requires Valid()
      ensures uptoInclusive <= afterExclusive ==> r == Ok([])
      ensures afterExclusive < uptoInclusive && fails ==> r == Err(Sqlite)
      ensures afterExclusive < uptoInclusive && !fails ==>
                var log := LogOf(View(), q);
                && r == Ok(LoadBetween(View(), q, afterExclusive, uptoInclusive))
                && r == Ok(Slice(q, log, Min(afterExclusive, |log|), Min(uptoInclusive, |log|)))
    {
      if uptoInclusive <= afterExclusive {
        return Ok([]);
      }
      LoadBetweenIsSlice(View(), q, afterExclusive, uptoInclusive);
      r := LoadEventsInSeqRange(q, afterExclusive + 1, uptoInclusive, fails);
    }

    /**
      Scans the key table. A row found is the only one under its key, and it spans entries the quote's log
      really has; if none is found, no row has the key.
    */
    method IdempotencyLookup(q: QuoteId, cid: CommandId, fails: bool) returns (r: Result<Option<KeyRow>, StoreError>)
      requires Valid()
      ensures fails <==> r.Err?
      ensures r.Err? ==> r == Err(Sqlite)
      ensures r.Ok? && r.value.None? ==> forall row :: row in keys ==> !HasKey(row, q, cid)
      ensures r.Ok? && r.value.Some? ==>
                var found := r.value.value;
                && found in keys && HasKey(found, q, cid)
                && (forall row :: row in keys && HasKey(row, q, cid) ==> row == found)
                && 1 <= found.firstSeq <= found.lastSeq <= |LogOf(View(), q)|
      ensures r.Ok? ==> r.value == Lookup(keys, q, cid)
    {
      hide Consistent, LogOf;
      if fails {
        return Err(Sqlite);
      }
      for i := 0 to |keys|
        invariant forall k :: 0 <= k < i ==> !HasKey(keys[k], q, cid)
      {
        if HasKey(keys[i], q, cid) {
          FoundKey(View(), q, cid, i);
          return Ok(Some(keys[i]));
        }
      }
      LookupFinds(keys, q, cid);
      r := Ok(None);
    }

    static method SameCommandPayloads(existing: seq<StoredEvent>, incoming: seq<Event>) returns (same: bool)
      ensures same <==> SamePayloads(existing, incoming)
    {
      if |existing| != |incoming| {
        return false;
      }
      for i := 0 to |existing|
        invariant forall j :: 0 <= j < i ==> existing[j].event == incoming[j]
      {
        if existing[i].event != incoming[i] {
          return false;
        }
      }
      same := true;
    }

    // ---------------------------------------------------------------- the append transaction

    /** INSERT INTO events: refused when the primary key (quote_id, seq) is taken. */
    method InsertEvent(row: EventRow) returns (inserted: bool)
      modifies this`events
      ensures inserted <==> forall r :: r in old(events) ==> r.quoteId != row.quoteId || r.seqNo != row.seqNo
      ensures events == if inserted then old(events) + [row] else old(events)
    {
      inserted := forall r :: r in events ==> r.quoteId != row.quoteId || r.seqNo != row.seqNo;
      if inserted {
        events := events + [row];
      }
    }

    /** INSERT INTO idempotency_keys: refused when the primary key (quote_id, client_command_id) is taken. */
    method InsertKey(row: KeyRow) returns (inserted: bool)
      modifies this`keys
      ensures inserted <==>
              forall r :: r in old(keys) ==> r.quoteId != row.quoteId || r.clientCommandId != row.clientCommandId
      ensures keys == if inserted then old(keys) + [row] else old(keys)
    {
      inserted := forall r :: r in keys ==> r.quoteId != row.quoteId || r.clientCommandId != row.clientCommandId;
      if inserted {
        keys := keys + [row];
      }
    }

    /** Dropping an uncommitted transaction puts both tables back. */
    method Rollback(savedEvents: seq<EventRow>, savedKeys: seq<KeyRow>)
      modifies this
      ensures View() == Tables(savedEvents, savedKeys)
    {
      events, keys := savedEvents, savedKeys;
    }

    /** The insert loop of the transaction; failAt is the index of the insert that fails, if there is one. */
    method InsertEvents(q: QuoteId, firstSeq: nat, evs: seq<Event>, failAt: int)
      returns (r: Result<seq<StoredEvent>, StoreError>)
      requires forall row :: row in events && row.quoteId == q ==> row.seqNo < firstSeq
      modifies this`events
      ensures 0 <= failAt < |evs| ==> r == Err(Sqlite)
      ensures !(0 <= failAt < |evs|) ==>
                var rows := NewRows(q, firstSeq, evs);
                r == Ok(ToStored(rows)) && events == old(events) + rows
    {
      var seqCursor := firstSeq;
      var stored: seq<StoredEvent> := [];
      for i := 0 to |evs|
        invariant seqCursor == firstSeq + i
        invariant events == old(events) + NewRows(q, firstSeq, evs[..i])
        invariant stored == ToStored(NewRows(q, firstSeq, evs[..i]))
        invariant !(0 <= failAt < i)
      {
        if failAt == i {
          return Err(Sqlite);
        }
        var row := EventRow(q, seqCursor, evs[i]);
        var inserted := InsertEvent(row);
        assert inserted;
        assert NewRows(q, firstSeq, evs[..i + 1]) == NewRows(q, firstSeq, evs[..i]) + [row];
        stored := stored + [StoredEvent(seqCursor, q, evs[i])];
        seqCursor := seqCursor + 1;
      }
      assert evs[..|evs|] == evs;
      r := Ok(stored);
    }

    /** The whole transaction, for a key that is not bound yet. */
    method AppendTransaction(q: QuoteId, cid: CommandId, evs: seq<Event>, failAt: nat)
      returns (r: Result<seq<StoredEvent>, StoreError>)
      requires Valid() && Lookup(keys, q, cid).None? && evs != []
      modifies this
      ensures failAt < |evs| + 5 ==> r == Err(Sqlite) && View() == old(View())
      ensures failAt >= |evs| + 5 ==> (View(), r) == Append(old(View()), q, cid, evs)
    {
      hide Consistent, RowsOf, MaxSeq, Lookup, KeyMap, KeysOf, NewRows, ToStored, Append;
      if failAt <= 2 {  // the lookup already ran; BEGIN IMMEDIATE, SELECT MAX(seq)
        return Err(Sqlite);
      }
      var savedEvents, savedKeys := events, keys;
      var firstSeq := MaxSeq(RowsOf(events, q)) + 1;
      FreshSeqs(View(), q);
      FreshAppendIs(View(), q, cid, evs);
      LookupIsKeyMap(keys, q, cid);
      var stored := InsertEvents(q, firstSeq, evs, failAt - 3);
      if stored.Err? || failAt == 3 + |evs| {
        Rollback(savedEvents, savedKeys);
        return Err(Sqlite);
      }
      var inserted := InsertKey(KeyRow(q, cid, firstSeq, firstSeq + |evs| - 1));
      assert inserted;
      if failAt == 4 + |evs| {  // COMMIT
        Rollback(savedEvents, savedKeys);
        return Err(Sqlite);
      }
      r := stored;
    }

    /**
      append_command_events. When statement number failAt exists, the call fails there and both tables are
      as they were; otherwise the call does exactly what Append says, and in particular no insert ever
      hits a primary key.
    */
    method AppendCommandEvents(q: QuoteId, cid: CommandId, evs: seq<Event>, failAt: nat)
      returns (r: Result<seq<StoredEvent>, StoreError>)
      requires Valid()
      modifies this
      ensures Valid()
      ensures failAt < Statements(old(View()), q, cid, evs) ==> r == Err(Sqlite) && View() == old(View())
      ensures failAt >= Statements(old(View()), q, cid, evs) ==> (View(), r) == Append(old(View()), q, cid, evs)
      ensures r.Err? ==> View() == old(View())
      ensures evs == [] && failAt > 0 && (forall row :: row in old(keys) ==> !HasKey(row, q, cid)) ==>
                r == Err(EmptyAppend)
      ensures failAt > 1 ==>
                forall row :: row in old(keys) && HasKey(row, q, cid) ==> AnsweredFromSpan(old(View()), row, evs, r)
    {
      AppendKeepsConsistent(View(), q, cid, evs);
      var found := IdempotencyLookup(q, cid, failAt == 0);
      if found.Err? {
        return Err(Sqlite);
      }
      if found.value.Some? {
        var key := found.value.value;
        var existing := LoadEventsInSeqRange(q, key.firstSeq, key.lastSeq, failAt == 1);
        if existing.Err? {
          return Err(Sqlite);
        }
        LoadRangeIsSlice(View(), q, key.firstSeq, key.lastSeq);
        SamePayloadsOfSlice(q, LogOf(View(), q), key.firstSeq - 1, key.lastSeq, evs);
        var same := SameCommandPayloads(existing.value, evs);
        return if same then Ok(existing.value) else Err(IdempotencyConflict(q, cid));
      }
      if evs == [] {
        return Err(EmptyAppend);
      }
      r := AppendTransaction(q, cid, evs, failAt);
    }
  }

  predicate HasKey(row: KeyRow, q: QuoteId, cid: CommandId) {
    row.quoteId == q && row.clientCommandId == cid
  }

  /** The events stored under the key are returned if they are the ones given, and otherwise it is a conflict. */
  ghost predicate AnsweredFromSpan(t: Tables, row: KeyRow, evs: seq<Event>, r: Result<seq<StoredEvent>, StoreError>) {
    var log := LogOf(t, row.quoteId);
    && 1 <= row.firstSeq <= row.lastSeq <= |log|
    && r == if log[row.firstSeq - 1..row.lastSeq] == evs
            then Ok(Slice(row.quoteId, log, row.firstSeq - 1, row.lastSeq))
            else Err(IdempotencyConflict(row.quoteId, row.clientCommandId))
  }

  lemma SamePayloadsOfSlice(q: QuoteId, log: Log, a: nat, b: nat, evs: seq<Event>)
    requires a <= b <= |log|
    ensures SamePayloads(Slice(q, log, a, b), evs) <==> log[a..b] == evs
  {
    var stored := Slice(q, log, a, b);
    assert forall i :: 0 <= i < b - a ==> stored[i].event == log[a..b][i];
  }

  lemma FoundKey(t: Tables, q: QuoteId, cid: CommandId, i: nat)
    requires Consistent(t) && i < |t.keys| && HasKey(t.keys[i], q, cid)
    ensures Lookup(t.keys, q, cid) == Some(t.keys[i])
    ensures forall row :: row in t.keys && HasKey(row, q, cid) ==> row == t.keys[i]
    ensures 1 <= t.keys[i].firstSeq <= t.keys[i].lastSeq <= |LogOf(t, q)|
  {
    hide Tiles, DenseSeqs, LogOf, Lookup, KeyMap;
    LookupIsKeyMap(t.keys, q, cid);
    LookupFinds(t.keys, q, cid);
    KeysInBounds(t, q, cid);
  }

  lemma {:induction false} LookupFinds(keys: seq<KeyRow>, q: QuoteId, cid: CommandId)
    ensures Lookup(keys, q, cid).Some? ==>
              Lookup(keys, q, cid).value in keys && HasKey(Lookup(keys, q, cid).value, q, cid)
  {
    if keys != [] {
      LookupFinds(keys[..|keys| - 1], q, cid);
    }
  }

  lemma FreshAppendIs(t: Tables, q: QuoteId, cid: CommandId, evs: seq<Event>)
    requires Lookup(t.keys, q, cid).None? && evs != []
    ensures
      var first := MaxSeq(RowsOf(t.events, q)) + 1;
      var rows := NewRows(q, first, evs);
      Append(t, q, cid, evs)
      == (Tables(t.events + rows, t.keys + [KeyRow(q, cid, first, first + |evs| - 1)]), Ok(ToStored(rows)))
  {
  }

  /** MAX(seq) bounds every row of the quote, so the numbers after it are free. */
  lemma FreshSeqs(t: Tables, q: QuoteId)
    requires Consistent(t)
    ensures forall r :: r in t.events && r.quoteId == q ==> r.seqNo <= MaxSeq(RowsOf(t.events, q))
  {
    var rows := RowsOf(t.events, q);
    assert DenseSeqs(rows);
    DenseMax(rows);
    RowsOfMembers(t.events, q);
  }
}
