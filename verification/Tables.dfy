/**
  The two tables of migrations/001_initial.sql, what each SQL statement of src/store.rs means on
  them, and a simple per-quote book that the tables refine.
*/
module Tables {
  import opened Wrappers
  import opened Domain
  import opened QuoteLog

  type QuoteId = string
  type CommandId = string

  datatype EventRow = EventRow(quoteId: QuoteId, seqNo: nat, payload: Event)

  datatype KeyRow = KeyRow(quoteId: QuoteId, clientCommandId: CommandId, firstSeq: nat, lastSeq: nat)

  /** Both tables hold the rows of all quotes mixed together, in insertion order. */
  datatype Tables = Tables(events: seq<EventRow>, keys: seq<KeyRow>)

  const EMPTY_TABLES := Tables([], [])

  datatype StoredEvent = StoredEvent(seqNo: nat, quoteId: QuoteId, event: Event)

  datatype StoreError =
    | Sqlite
    | DomainFailure(error: DomainError)
    | EmptyAppend
    | InvalidAfterSeq(afterSeq: nat, lastSeq: nat)
    | IdempotencyConflict(quoteId: QuoteId, clientCommandId: CommandId)

  // ---------------------------------------------------------------- what the statements mean

  /** `WHERE quote_id = ?1` on events. */
  function RowsOf(rows: seq<EventRow>, q: QuoteId): seq<EventRow> {
    if rows == [] then []
    else
      var before, r := RowsOf(rows[..|rows| - 1], q), rows[|rows| - 1];
      if r.quoteId == q then before + [r] else before
  }

  /** `AND seq BETWEEN lo AND hi`. */
  function InRange(rows: seq<EventRow>, lo: nat, hi: nat): seq<EventRow> {
    if rows == [] then []
    else
      var before, r := InRange(rows[..|rows| - 1], lo, hi), rows[|rows| - 1];
      if lo <= r.seqNo <= hi then before + [r] else before
  }

  function InsertBySeq(sorted: seq<EventRow>, r: EventRow): seq<EventRow> {
    if sorted == [] || sorted[|sorted| - 1].seqNo <= r.seqNo then sorted + [r]
    else InsertBySeq(sorted[..|sorted| - 1], r) + [sorted[|sorted| - 1]]
  }

  /** `ORDER BY seq ASC`. */
  function OrderBySeq(rows: seq<EventRow>): seq<EventRow> {
    if rows == [] then [] else InsertBySeq(OrderBySeq(rows[..|rows| - 1]), rows[|rows| - 1])
  }

  /** `COALESCE(MAX(seq), 0)`. */
  function MaxSeq(rows: seq<EventRow>): nat {
    if rows == [] then 0
    else
      var before, r := MaxSeq(rows[..|rows| - 1]), rows[|rows| - 1];
      if r.seqNo > before then r.seqNo else before
  }

  /** `SELECT first_seq, last_seq FROM idempotency_keys WHERE quote_id = ?1 AND client_command_id = ?2`. */
  function Lookup(keys: seq<KeyRow>, q: QuoteId, cid: CommandId): Option<KeyRow> {
    if keys == [] then None
    else
      var r := keys[|keys| - 1];
      if r.quoteId == q && r.clientCommandId == cid then Some(r) else Lookup(keys[..|keys| - 1], q, cid)
  }

  function KeysOf(keys: seq<KeyRow>, q: QuoteId): seq<KeyRow> {
    if keys == [] then []
    else
      var before, r := KeysOf(keys[..|keys| - 1], q), keys[|keys| - 1];
      if r.quoteId == q then before + [r] else before
  }

  function ToStored(rows: seq<EventRow>): seq<StoredEvent> {
    seq(|rows|, i requires 0 <= i < |rows| => StoredEvent(rows[i].seqNo, rows[i].quoteId, rows[i].payload))
  }

  function LoadAll(t: Tables, q: QuoteId): seq<StoredEvent> {
    ToStored(OrderBySeq(RowsOf(t.events, q)))
  }

  function LoadRange(t: Tables, q: QuoteId, first: nat, last: nat): seq<StoredEvent> {
    ToStored(OrderBySeq(InRange(RowsOf(t.events, q), first, last)))
  }

  function LoadBetween(t: Tables, q: QuoteId, afterExclusive: nat, uptoInclusive: nat): seq<StoredEvent> {
    if uptoInclusive <= afterExclusive then [] else LoadRange(t, q, afterExclusive + 1, uptoInclusive)
  }

  predicate SamePayloads(existing: seq<StoredEvent>, incoming: seq<Event>) {
    |existing| == |incoming| && forall i :: 0 <= i < |existing| ==> existing[i].event == incoming[i]
  }

  function NewRows(q: QuoteId, first: nat, events: seq<Event>): seq<EventRow> {
    seq(|events|, i requires 0 <= i < |events| => EventRow(q, first + i, events[i]))
  }

  /** The append transaction when no statement fails. */
  function Append(t: Tables, q: QuoteId, cid: CommandId, events: seq<Event>)
    : (Tables, Result<seq<StoredEvent>, StoreError>)
  {
    match Lookup(t.keys, q, cid)
    case Some(key) =>
      var existing := LoadRange(t, q, key.firstSeq, key.lastSeq);
      (t, if SamePayloads(existing, events) then Ok(existing) else Err(IdempotencyConflict(q, cid)))
    case None =>
      if events == [] then (t, Err(EmptyAppend))
      else
        var first := MaxSeq(RowsOf(t.events, q)) + 1;
        var rows := NewRows(q, first, events);
        (Tables(t.events + rows, t.keys + [KeyRow(q, cid, first, first + |events| - 1)]), Ok(ToStored(rows)))
  }

  // ---------------------------------------------------------------- the table invariant

  predicate DenseSeqs(rows: seq<EventRow>) {
    forall k :: 0 <= k < |rows| ==> rows[k].seqNo == k + 1
  }

  /** Key ranges, in insertion order, are non-empty and cover 1..n one after the other. */
  predicate Tiles(ks: seq<KeyRow>, n: nat) {
    if ks == [] then n == 0
    else
      var r := ks[|ks| - 1];
      1 <= r.firstSeq <= r.lastSeq == n && Tiles(ks[..|ks| - 1], r.firstSeq - 1)
  }

  predicate UniqueKeys(keys: seq<KeyRow>) {
    forall i, j :: 0 <= i < j < |keys| ==>
      keys[i].quoteId != keys[j].quoteId || keys[i].clientCommandId != keys[j].clientCommandId
  }

  predicate UniqueSeqs(rows: seq<EventRow>) {
    forall i, j :: 0 <= i < j < |rows| ==> rows[i].quoteId != rows[j].quoteId || rows[i].seqNo != rows[j].seqNo
  }

  ghost predicate Consistent(t: Tables) {
    && UniqueKeys(t.keys)
    && (forall q :: DenseSeqs(RowsOf(t.events, q)))
    && (forall q :: Tiles(KeysOf(t.keys, q), |RowsOf(t.events, q)|))
  }

  /** The log of a quote, read off the flat table. */
  function LogOf(t: Tables, q: QuoteId): (log: Log)
    ensures |log| == |RowsOf(t.events, q)|
  {
    var rows := RowsOf(t.events, q);
    seq(|rows|, i requires 0 <= i < |rows| => rows[i].payload)
  }

  /** Entries a+1 .. b of a log as stored events. */
  function Slice(q: QuoteId, log: Log, a: nat, b: nat): (s: seq<StoredEvent>)
    requires a <= b <= |log|
    ensures |s| == b - a
    ensures forall i :: 0 <= i < b - a ==> s[i] == StoredEvent(a + i + 1, q, log[a + i])
  {
    seq(b - a, i requires 0 <= i < b - a => StoredEvent(a + i + 1, q, log[a + i]))
  }

  lemma SlicesJoin(q: QuoteId, log: Log, a: nat, b: nat, c: nat)
    requires a <= b <= c <= |log|
    ensures Slice(q, log, a, b) + Slice(q, log, b, c) == Slice(q, log, a, c)
  {
  }

  lemma SliceOfExtension(q: QuoteId, log: Log, log': Log, a: nat, b: nat)
    requires a <= b <= |log| && log <= log'
    ensures Slice(q, log', a, b) == Slice(q, log, a, b)
  {
  }

  // ---------------------------------------------------------------- filters and order

  lemma {:induction false} RowsOfConcat(a: seq<EventRow>, b: seq<EventRow>, q: QuoteId)
    ensures RowsOf(a + b, q) == RowsOf(a, q) + RowsOf(b, q)
    decreases |b|
  {
    if b == [] {
      assert a + b == a;
    } else {
      assert (a + b)[..|a| + |b| - 1] == a + b[..|b| - 1];
      RowsOfConcat(a, b[..|b| - 1], q);
    }
  }

  lemma {:induction false} RowsOfUniform(rows: seq<EventRow>, q: QuoteId, q': QuoteId)
    requires forall i :: 0 <= i < |rows| ==> rows[i].quoteId == q
    ensures RowsOf(rows, q') == if q' == q then rows else []
  {
    if rows != [] {
      RowsOfUniform(rows[..|rows| - 1], q, q');
    }
  }

  lemma {:induction false} RowsOfMembers(rows: seq<EventRow>, q: QuoteId)
    ensures forall i :: 0 <= i < |RowsOf(rows, q)| ==> RowsOf(rows, q)[i].quoteId == q
    ensures forall i :: 0 <= i < |rows| && rows[i].quoteId == q ==> rows[i] in RowsOf(rows, q)
  {
    if rows != [] {
      RowsOfMembers(rows[..|rows| - 1], q);
    }
  }

  lemma {:induction false} DenseMax(rows: seq<EventRow>)
    requires DenseSeqs(rows)
    ensures MaxSeq(rows) == |rows|
  {
    if rows != [] {
      DenseMax(rows[..|rows| - 1]);
    }
  }

  predicate Ascending(rows: seq<EventRow>) {
    forall i, j :: 0 <= i < j < |rows| ==> rows[i].seqNo <= rows[j].seqNo
  }

  predicate AtMost(rows: seq<EventRow>, bound: nat) {
    forall i :: 0 <= i < |rows| ==> rows[i].seqNo <= bound
  }

  lemma {:induction false} InsertSorts(sorted: seq<EventRow>, r: EventRow, bound: nat)
    requires Ascending(sorted)
    ensures Ascending(InsertBySeq(sorted, r))
    ensures AtMost(sorted, bound) && r.seqNo <= bound ==> AtMost(InsertBySeq(sorted, r), bound)
  {
    if sorted != [] {
      var n := |sorted| - 1;
      InsertSorts(sorted[..n], r, sorted[n].seqNo);
      InsertSorts(sorted[..n], r, bound);
    }
  }

  lemma {:induction false} InsertKeepsRows(sorted: seq<EventRow>, r: EventRow)
    ensures multiset(InsertBySeq(sorted, r)) == multiset(sorted) + multiset{r}
  {
    if sorted != [] {
      var n := |sorted| - 1;
      InsertKeepsRows(sorted[..n], r);
      assert sorted == sorted[..n] + [sorted[n]];
    }
  }

  /** ORDER BY returns the same rows, in ascending order, whatever the table's order was. */
  lemma {:induction false} OrderBySorts(rows: seq<EventRow>)
    ensures Ascending(OrderBySeq(rows)) && multiset(OrderBySeq(rows)) == multiset(rows)
  {
    if rows != [] {
      var n := |rows| - 1;
      OrderBySorts(rows[..n]);
      hide Ascending, InsertBySeq;
      InsertSorts(OrderBySeq(rows[..n]), rows[n], 0);
      InsertKeepsRows(OrderBySeq(rows[..n]), rows[n]);
      assert rows == rows[..n] + [rows[n]];
    }
  }

  lemma {:induction false} AlreadyOrdered(rows: seq<EventRow>)
    requires Ascending(rows)
    ensures OrderBySeq(rows) == rows
  {
    if rows != [] {
      AlreadyOrdered(rows[..|rows| - 1]);
    }
  }

  function Min(a: nat, b: nat): nat {
    if a <= b then a else b
  }

  lemma {:induction false} RangeOfDense(rows: seq<EventRow>, lo: nat, hi: nat)
    requires DenseSeqs(rows) && 1 <= lo <= hi + 1
    ensures InRange(rows, lo, hi) == rows[Min(lo - 1, |rows|)..Min(hi, |rows|)]
  {
    if rows != [] {
      var n := |rows| - 1;
      var init := rows[..n];
      RangeOfDense(init, lo, hi);
      SliceOfInit(rows, Min(lo - 1, |rows|), Min(hi, |rows|));
    }
  }

  lemma SliceOfInit(rows: seq<EventRow>, a: nat, b: nat)
    requires rows != [] && a <= b <= |rows|
    ensures rows[a..b] == if a < b == |rows| then rows[..|rows| - 1][a..b - 1] + [rows[b - 1]]
                          else if b == |rows| then []
                          else rows[..|rows| - 1][a..b]
  {
  }

  lemma StoredRowsAreSlice(rows: seq<EventRow>, q: QuoteId, log: Log, a: nat, b: nat)
    requires DenseSeqs(rows) && a <= b <= |rows| == |log|
    requires forall i :: 0 <= i < |rows| ==> rows[i].quoteId == q && rows[i].payload == log[i]
    ensures ToStored(rows[a..b]) == Slice(q, log, a, b)
  {
  }

  /** On consistent tables a range query returns exactly the matching slice of the quote's log. */
  lemma LoadRangeIsSlice(t: Tables, q: QuoteId, lo: nat, hi: nat)
    requires Consistent(t) && 1 <= lo <= hi + 1
    ensures LoadRange(t, q, lo, hi) == Slice(q, LogOf(t, q), Min(lo - 1, |LogOf(t, q)|), Min(hi, |LogOf(t, q)|))
  {
    var rows := RowsOf(t.events, q);
    RangeOfDense(rows, lo, hi);
    RowsOfMembers(t.events, q);
    AlreadyOrdered(InRange(rows, lo, hi));
    StoredRowsAreSlice(rows, q, LogOf(t, q), Min(lo - 1, |rows|), Min(hi, |rows|));
  }

  lemma LoadBetweenIsSlice(t: Tables, q: QuoteId, a: nat, b: nat)
    requires Consistent(t) && a <= b
    ensures LoadBetween(t, q, a, b) == Slice(q, LogOf(t, q), Min(a, |LogOf(t, q)|), Min(b, |LogOf(t, q)|))
  {
    if a < b {
      LoadRangeIsSlice(t, q, a + 1, b);
    }
  }

  lemma LoadAllIsLog(t: Tables, q: QuoteId)
    requires Consistent(t)
    ensures LoadAll(t, q) == Slice(q, LogOf(t, q), 0, |LogOf(t, q)|)
  {
    RowsOfMembers(t.events, q);
    assert DenseSeqs(RowsOf(t.events, q));
    AlreadyOrdered(RowsOf(t.events, q));
  }

  // ---------------------------------------------------------------- the book of one quote

  datatype Span = Span(first: nat, last: nat)

  /** One quote without tables: its log, and the span of the log each command id is bound to. */
  datatype Book = Book(log: Log, keys: map<CommandId, Span>)

  function KeyMap(keys: seq<KeyRow>, q: QuoteId): map<CommandId, Span> {
    if keys == [] then map[]
    else
      var before, r := KeyMap(keys[..|keys| - 1], q), keys[|keys| - 1];
      if r.quoteId == q then before[r.clientCommandId := Span(r.firstSeq, r.lastSeq)] else before
  }

  function BookOf(t: Tables, q: QuoteId): Book {
    Book(LogOf(t, q), KeyMap(t.keys, q))
  }

  /** What an append means for the book. */
  function BookAppend(b: Book, q: QuoteId, cid: CommandId, events: seq<Event>)
    : (Book, Result<seq<StoredEvent>, StoreError>)
    requires SpanInLog(b, cid)
  {
    if cid in b.keys then
      var span := b.keys[cid];
      if b.log[span.first - 1..span.last] == events
      then (b, Ok(Slice(q, b.log, span.first - 1, span.last)))
      else (b, Err(IdempotencyConflict(q, cid)))
    else if events == [] then (b, Err(EmptyAppend))
    else
      var log := b.log + events;
      (Book(log, b.keys[cid := Span(|b.log| + 1, |log|)]), Ok(Slice(q, log, |b.log|, |log|)))
  }

  lemma {:induction false} LookupIsKeyMap(keys: seq<KeyRow>, q: QuoteId, cid: CommandId)
    ensures cid in KeyMap(keys, q) <==> Lookup(keys, q, cid).Some?
    ensures cid in KeyMap(keys, q) ==>
              Lookup(keys, q, cid).value == KeyRow(q, cid, KeyMap(keys, q)[cid].first, KeyMap(keys, q)[cid].last)
    ensures Lookup(keys, q, cid).Some? ==> Lookup(keys, q, cid).value in KeysOf(keys, q)
    ensures Lookup(keys, q, cid).None? ==> forall r :: r in keys ==> r.quoteId != q || r.clientCommandId != cid
  {
    if keys != [] {
      LookupIsKeyMap(keys[..|keys| - 1], q, cid);
    }
  }

  lemma {:induction false} TileBounds(ks: seq<KeyRow>, n: nat)
    requires Tiles(ks, n)
    ensures forall i :: 0 <= i < |ks| ==> 1 <= ks[i].firstSeq <= ks[i].lastSeq <= n
  {
    if ks != [] {
      var m := |ks| - 1;
      TileBounds(ks[..m], ks[m].firstSeq - 1);
      assert forall i :: 0 <= i < m ==> ks[..m][i] == ks[i];
    }
  }

  lemma KeysInBounds(t: Tables, q: QuoteId, cid: CommandId)
    requires Consistent(t)
    ensures cid in KeyMap(t.keys, q) ==>
              1 <= KeyMap(t.keys, q)[cid].first <= KeyMap(t.keys, q)[cid].last <= |LogOf(t, q)|
  {
    LookupIsKeyMap(t.keys, q, cid);
    TileBounds(KeysOf(t.keys, q), |RowsOf(t.events, q)|);
  }

  lemma AppendExtendsRows(t: Tables, q: QuoteId, cid: CommandId, events: seq<Event>, q': QuoteId)
    requires DenseSeqs(RowsOf(t.events, q)) && Lookup(t.keys, q, cid).None? && events != []
    ensures
      var block := NewRows(q, |RowsOf(t.events, q)| + 1, events);
      RowsOf(Append(t, q, cid, events).0.events, q') == RowsOf(t.events, q') + (if q' == q then block else [])
  {
    DenseMax(RowsOf(t.events, q));
    var block := NewRows(q, |RowsOf(t.events, q)| + 1, events);
    RowsOfConcat(t.events, block, q');
    RowsOfUniform(block, q, q');
  }

  lemma AppendExtendsKeys(t: Tables, q: QuoteId, cid: CommandId, events: seq<Event>, q': QuoteId)
    requires DenseSeqs(RowsOf(t.events, q)) && Lookup(t.keys, q, cid).None? && events != []
    ensures
      var n := |RowsOf(t.events, q)|;
      var t' := Append(t, q, cid, events).0;
      && t'.keys == t.keys + [KeyRow(q, cid, n + 1, n + |events|)]
      && t'.keys[..|t.keys|] == t.keys
      && KeysOf(t'.keys, q') == KeysOf(t.keys, q') + (if q' == q then [KeyRow(q, cid, n + 1, n + |events|)] else [])
  {
    DenseMax(RowsOf(t.events, q));
    assert Append(t, q, cid, events).0.keys[..|t.keys|] == t.keys;
  }

  lemma AppendKeepsDense(t: Tables, q: QuoteId, cid: CommandId, events: seq<Event>, q': QuoteId)
    requires Consistent(t) && Lookup(t.keys, q, cid).None? && events != []
    ensures DenseSeqs(RowsOf(Append(t, q, cid, events).0.events, q'))
  {
    assert DenseSeqs(RowsOf(t.events, q)) && DenseSeqs(RowsOf(t.events, q'));
    AppendExtendsRows(t, q, cid, events, q');
  }

  lemma AppendKeepsTiles(t: Tables, q: QuoteId, cid: CommandId, events: seq<Event>, q': QuoteId)
    requires Consistent(t) && Lookup(t.keys, q, cid).None? && events != []
    ensures
      var t' := Append(t, q, cid, events).0;
      Tiles(KeysOf(t'.keys, q'), |RowsOf(t'.events, q')|)
  {
    assert DenseSeqs(RowsOf(t.events, q));
    AppendExtendsRows(t, q, cid, events, q');
    AppendExtendsKeys(t, q, cid, events, q');
    var ks := KeysOf(t.keys, q');
    assert Tiles(ks, |RowsOf(t.events, q')|);
    if q' == q {
      assert KeysOf(Append(t, q, cid, events).0.keys, q)[..|ks|] == ks;
    }
  }

  lemma AppendKeepsConsistent(t: Tables, q: QuoteId, cid: CommandId, events: seq<Event>)
    requires Consistent(t)
    ensures Consistent(Append(t, q, cid, events).0)
  {
    if Lookup(t.keys, q, cid).None? && events != [] {
      var t' := Append(t, q, cid, events).0;
      forall q'
        ensures DenseSeqs(RowsOf(t'.events, q')) && Tiles(KeysOf(t'.keys, q'), |RowsOf(t'.events, q')|)
      {
        AppendKeepsDense(t, q, cid, events, q');
        AppendKeepsTiles(t, q, cid, events, q');
      }
      LookupIsKeyMap(t.keys, q, cid);
    }
  }

  predicate SpanInLog(b: Book, cid: CommandId) {
    cid in b.keys ==> 1 <= b.keys[cid].first <= b.keys[cid].last <= |b.log|
  }

  lemma BoundAppendRefines(t: Tables, q: QuoteId, cid: CommandId, events: seq<Event>)
    requires Consistent(t) && cid in BookOf(t, q).keys && SpanInLog(BookOf(t, q), cid)
    ensures (BookOf(Append(t, q, cid, events).0, q), Append(t, q, cid, events).1)
         == BookAppend(BookOf(t, q), q, cid, events)
  {
    LookupIsKeyMap(t.keys, q, cid);
    var b := BookOf(t, q);
    var span := b.keys[cid];
    LoadRangeIsSlice(t, q, span.first, span.last);
    var existing := LoadRange(t, q, span.first, span.last);
    var payloads := b.log[span.first - 1..span.last];
    assert |existing| == |payloads| && forall i :: 0 <= i < |existing| ==> existing[i].event == payloads[i];
    assert SamePayloads(existing, events) <==> payloads == events;
  }

  lemma FreshAppendRefines(t: Tables, q: QuoteId, cid: CommandId, events: seq<Event>)
    requires Consistent(t) && cid !in BookOf(t, q).keys && events != []
    ensures (BookOf(Append(t, q, cid, events).0, q), Append(t, q, cid, events).1)
         == BookAppend(BookOf(t, q), q, cid, events)
  {
    hide RowsOf, KeysOf, Lookup, MaxSeq, Tiles, UniqueKeys;
    LookupIsKeyMap(t.keys, q, cid);
    assert DenseSeqs(RowsOf(t.events, q));
    AppendExtendsRows(t, q, cid, events, q);
    AppendExtendsKeys(t, q, cid, events, q);
    DenseMax(RowsOf(t.events, q));
    var t', b := Append(t, q, cid, events).0, BookOf(t, q);
    var n := |b.log|;
    assert LogOf(t', q) == b.log + events;
    assert ToStored(NewRows(q, n + 1, events)) == Slice(q, b.log + events, n, n + |events|);
  }

  lemma OtherBooksUntouched(t: Tables, q: QuoteId, cid: CommandId, events: seq<Event>, other: QuoteId)
    requires Consistent(t) && other != q
    ensures BookOf(Append(t, q, cid, events).0, other) == BookOf(t, other)
  {
    if Lookup(t.keys, q, cid).None? && events != [] {
      assert DenseSeqs(RowsOf(t.events, q));
      AppendExtendsRows(t, q, cid, events, other);
      AppendExtendsKeys(t, q, cid, events, other);
      var t' := Append(t, q, cid, events).0;
      assert LogOf(t', other) == LogOf(t, other);
    }
  }

  /**
    The tables refine the books: an append changes the book of its own quote as BookAppend says, returns
    what BookAppend returns, and leaves every other book alone.
  */
  lemma AppendRefinesBook(t: Tables, q: QuoteId, cid: CommandId, events: seq<Event>)
    requires Consistent(t)
    ensures SpanInLog(BookOf(t, q), cid)
    ensures (BookOf(Append(t, q, cid, events).0, q), Append(t, q, cid, events).1)
         == BookAppend(BookOf(t, q), q, cid, events)
    ensures forall other :: other != q ==> BookOf(Append(t, q, cid, events).0, other) == BookOf(t, other)
    ensures cid in BookOf(t, q).keys || Append(t, q, cid, events).1.Err? ==> Append(t, q, cid, events).0 == t
    ensures Consistent(Append(t, q, cid, events).0)
  {
    AppendKeepsConsistent(t, q, cid, events);
    KeysInBounds(t, q, cid);
    LookupIsKeyMap(t.keys, q, cid);
    if cid in BookOf(t, q).keys {
      BoundAppendRefines(t, q, cid, events);
    } else if events != [] {
      FreshAppendRefines(t, q, cid, events);
    }
    forall other | other != q {
      OtherBooksUntouched(t, q, cid, events, other);
    }
  }

  // ---------------------------------------------------------------- keys tile the log

  function SpanTotal(ks: seq<KeyRow>): int {
    if ks == [] then 0
    else SpanTotal(ks[..|ks| - 1]) + ks[|ks| - 1].lastSeq - ks[|ks| - 1].firstSeq + 1
  }

  predicate Covers(r: KeyRow, k: nat) {
    r.firstSeq <= k <= r.lastSeq
  }

  ghost predicate OwnedBy(ks: seq<KeyRow>, k: nat, owner: nat) {
    owner < |ks| && forall i :: 0 <= i < |ks| ==> (Covers(ks[i], k) <==> i == owner)
  }

  ghost predicate OwnedOnce(ks: seq<KeyRow>, k: nat) {
    exists owner :: OwnedBy(ks, k, owner)
  }

  lemma {:induction false} TilesCoverOnce(ks: seq<KeyRow>, n: nat, k: nat) returns (owner: nat)
    requires Tiles(ks, n) && 1 <= k <= n
    ensures OwnedBy(ks, k, owner)
  {
    var m := |ks| - 1;
    assert forall i :: 0 <= i < m ==> ks[..m][i] == ks[i];
    TileBounds(ks[..m], ks[m].firstSeq - 1);
    if k < ks[m].firstSeq {
      owner := TilesCoverOnce(ks[..m], ks[m].firstSeq - 1, k);
    } else {
      owner := m;
    }
  }

  lemma {:induction false} SpansSum(ks: seq<KeyRow>, n: nat)
    requires Tiles(ks, n)
    ensures SpanTotal(ks) == n
  {
    if ks != [] {
      SpansSum(ks[..|ks| - 1], ks[|ks| - 1].firstSeq - 1);
    }
  }

  /**
    In consistent tables every committed entry of a quote lies in the span of exactly one of the quote's
    keys, and the spans' lengths add up to the length of the log.
  */
  lemma KeysTileTheLog(t: Tables, q: QuoteId)
    requires Consistent(t)
    ensures forall k :: 1 <= k <= |LogOf(t, q)| ==> OwnedOnce(KeysOf(t.keys, q), k)
    ensures SpanTotal(KeysOf(t.keys, q)) == |LogOf(t, q)|
  {
    var ks, n := KeysOf(t.keys, q), |RowsOf(t.events, q)|;
    assert Tiles(ks, n);
    forall k | 1 <= k <= n
      ensures OwnedOnce(ks, k)
    {
      var owner := TilesCoverOnce(ks, n, k);
    }
    SpansSum(ks, n);
  }

  /** In consistent tables the primary key (quote_id, seq) is never violated. */
  lemma PrimaryKeyHolds(t: Tables)
    requires Consistent(t)
    ensures UniqueSeqs(t.events)
  {
    forall i, j | 0 <= i < j < |t.events| && t.events[i].quoteId == t.events[j].quoteId
      ensures t.events[i].seqNo != t.events[j].seqNo
    {
      var q := t.events[i].quoteId;
      var a, b, c := t.events[..j], t.events[j], t.events[j + 1..];
      assert t.events == (a + [b]) + c;
      RowsOfConcat(a + [b], c, q);
      RowsOfConcat(a, [b], q);
      RowsOfUniform([b], q, q);
      RowsOfMembers(a, q);
      assert a[i] in RowsOf(a, q);
      var k :| 0 <= k < |RowsOf(a, q)| && RowsOf(a, q)[k] == a[i];
      var rows := RowsOf(t.events, q);
      assert DenseSeqs(rows);
      assert rows[k] == a[i] && rows[|RowsOf(a, q)|] == b;
    }
  }

  // ---------------------------------------------------------------- any sequence of appends

  /** An append call as the store meets it: it runs, or some statement of it fails. */
  datatype Call = Call(quoteId: QuoteId, clientCommandId: CommandId, events: seq<Event>, fails: bool)

  function AfterCalls(calls: seq<Call>): Tables {
    if calls == [] then EMPTY_TABLES
    else
      var before, c := AfterCalls(calls[..|calls| - 1]), calls[|calls| - 1];
      if c.fails then before else Append(before, c.quoteId, c.clientCommandId, c.events).0
  }

  ghost predicate BookInBounds(b: Book) {
    forall cid :: SpanInLog(b, cid)
  }

  /** The calls on one quote, run on its book alone. */
  ghost function BookAfterCalls(q: QuoteId, calls: seq<Call>): (b: Book)
    ensures BookInBounds(b)
  {
    if calls == [] then Book([], map[])
    else
      var before, c := BookAfterCalls(q, calls[..|calls| - 1]), calls[|calls| - 1];
      if c.fails || c.quoteId != q then before
      else
        assert SpanInLog(before, c.clientCommandId);
        BookAppendInBounds(before, q, c.clientCommandId, c.events);
        BookAppend(before, q, c.clientCommandId, c.events).0
  }

  lemma BookAppendInBounds(b: Book, q: QuoteId, cid: CommandId, events: seq<Event>)
    requires BookInBounds(b) && SpanInLog(b, cid)
    ensures BookInBounds(BookAppend(b, q, cid, events).0)
  {
    var b' := BookAppend(b, q, cid, events).0;
    forall id
      ensures SpanInLog(b', id)
    {
      assert SpanInLog(b, id);
    }
  }

  /**
    Store refinement. After any sequence of append calls over any mix of quotes, with failures anywhere, the
    tables are consistent, the primary key of events was never violated, and the book of every quote is
    the one its own calls produce on their own.
  */
  lemma {:induction false} StoreRefinesBooks(calls: seq<Call>, q: QuoteId)
    ensures Consistent(AfterCalls(calls)) && UniqueSeqs(AfterCalls(calls).events)
    ensures BookOf(AfterCalls(calls), q) == BookAfterCalls(q, calls)
  {
    hide Append, UniqueSeqs, UniqueKeys, Tiles, DenseSeqs, BookAppend;
    if calls == [] {
      EmptyTablesAreConsistent(q);
    } else {
      var n := |calls| - 1;
      StoreRefinesBooks(calls[..n], q);
      var before, c := AfterCalls(calls[..n]), calls[n];
      AppendRefinesBook(before, c.quoteId, c.clientCommandId, c.events);
    }
    PrimaryKeyHolds(AfterCalls(calls));
  }

  lemma EmptyTablesAreConsistent(q: QuoteId)
    ensures Consistent(EMPTY_TABLES) && BookOf(EMPTY_TABLES, q) == Book([], map[])
  {
  }
}
