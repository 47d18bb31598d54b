/**
  What clients may rely on, in every reachable state of every interleaving. Each theorem quantifies over
  all runs: `Run(steps)` for any sequence of steps.
*/
module Guarantees {
  import opened Wrappers
  import opened Domain
  import opened QuoteLog
  import opened Tables
  import opened Appending
  import opened Service
  import opened Delivery

  // ---------------------------------------------------------------- the ledger itself

  /**
    In every reachable state every quote's log is a well-formed log that replays to the state that can be
    read off it, each of its entries belongs to exactly one idempotency key, and no two event rows
    share a primary key.
  */
  lemma EveryLogIsWellFormed(steps: seq<Step>, q: QuoteId)
    ensures
      var t := Run(steps).tables;
      var log := LogOf(t, q);
      && WellFormed(log) && Replay(log) == Ok(StateOf(log))
      && (forall k :: 1 <= k <= |log| ==> OwnedOnce(KeysOf(t.keys, q), k))
      && |KeysOf(t.keys, q)| == |log|
      && UniqueSeqs(t.events)
  {
    hide Run, Inv, LogOf, WellFormed, Consistent;
    EveryRunKeepsInv(steps);
    InvIsLedger(Run(steps));
    var t := Run(steps).tables;
    ProducedIffWellFormed(LogOf(t, q));
    KeysTileTheLog(t, q);
    PrimaryKeyHolds(t);
    KeysAreKeys(t.keys, q);
    OneKeyPerEntry(KeysOf(t.keys, q));
  }

  lemma {:induction false} KeysAreKeys(keys: seq<KeyRow>, q: QuoteId)
    requires forall i :: 0 <= i < |keys| ==> keys[i].firstSeq == keys[i].lastSeq
    ensures forall i :: 0 <= i < |KeysOf(keys, q)| ==> KeysOf(keys, q)[i].firstSeq == KeysOf(keys, q)[i].lastSeq
  {
    if keys != [] {
      KeysAreKeys(keys[..|keys| - 1], q);
    }
  }

  lemma {:induction false} OneKeyPerEntry(ks: seq<KeyRow>)
    requires forall i :: 0 <= i < |ks| ==> ks[i].firstSeq == ks[i].lastSeq
    ensures SpanTotal(ks) == |ks|
  {
    if ks != [] {
      OneKeyPerEntry(ks[..|ks| - 1]);
    }
  }

  // ---------------------------------------------------------------- in order, no gap, no duplicate

  /** The stored events of all tails, in the order they were sent. */
  function Received(out: seq<Update>): seq<StoredEvent> {
    if out == [] then []
    else
      var before := Received(out[..|out| - 1]);
      match out[|out| - 1]
      case Tail(_, _, events) => before + events
      case Snapshot(_, _) => before
  }

  lemma {:induction false} ChainReceives(q: QuoteId, log: Log, out: seq<Update>, a: nat, b: nat)
    requires Chain(q, log, out, a, b)
    ensures a <= b <= |log| && Received(out) == Slice(q, log, a, b)
  {
    hide SnapshotOf;
    if out != [] {
      match out[|out| - 1]
      case Tail(f, to, events) =>
        ChainReceives(q, log, out[..|out| - 1], a, f);
        SlicesJoin(q, log, a, f, to);
      case Snapshot(lastSeq, view) =>
        ChainReceives(q, log, out[..|out| - 1], a, b);
    }
  }

  lemma SubscriberFacts(m: Machine, id: nat)
    requires Inv(m) && id in m.subscribers
    ensures
      var s := m.subscribers[id];
      && Chain(s.quoteId, LogOf(m.tables, s.quoteId), s.out, s.after, s.watermark)
      && (s.out == [] || s.out == CatchupPart(s) || SnapshotSent(s))
  {
    hide Chain, Slice, SnapshotOf, SnapshotSent, LogOf, Ledger, WakeOk, CatchupPart;
    CatchupFacts(m.subscribers[id]);
  }

  lemma CatchupFacts(s: Subscriber)
    ensures s.after >= s.lastSeq ==> CatchupPart(s) == []
  {
  }

  /**
    Whatever appends, retries, cancellations, stale heads and failed reads are interleaved, the tails sent
    to a subscriber are exactly entries after_seq + 1 .. watermark of its quote's log, in order, and at
    most one snapshot has been sent, right after the catch-up.
  */
  lemma StreamIsOneSliceOfTheLog(steps: seq<Step>, id: nat)
    requires id in Run(steps).subscribers
    ensures
      var m := Run(steps);
      var s := m.subscribers[id];
      var log := LogOf(m.tables, s.quoteId);
      && s.after <= s.watermark <= |log|
      && Received(s.out) == Slice(s.quoteId, log, s.after, s.watermark)
      && (s.out == [] || s.out == CatchupPart(s) || SnapshotSent(s))
  {
    hide Run, Inv, Chain, Slice, SnapshotSent, LogOf, Received, CatchupPart;
    EveryRunKeepsInv(steps);
    var m := Run(steps);
    var s := m.subscribers[id];
    SubscriberFacts(m, id);
    ChainReceives(s.quoteId, LogOf(m.tables, s.quoteId), s.out, s.after, s.watermark);
  }

  /** Every tail sent carries exactly the entries between its own bounds, and at least one. */
  lemma TailBoundsMatchTheirEvents(steps: seq<Step>, id: nat, i: nat)
    requires id in Run(steps).subscribers
    requires i < |Run(steps).subscribers[id].out| && Run(steps).subscribers[id].out[i].Tail?
    ensures
      var m := Run(steps);
      var s := m.subscribers[id];
      var tail := s.out[i];
      && s.after <= tail.fromSeqExclusive < tail.toSeqInclusive <= |LogOf(m.tables, s.quoteId)|
      && tail.events
         == Slice(s.quoteId, LogOf(m.tables, s.quoteId), tail.fromSeqExclusive, tail.toSeqInclusive)
  {
    hide Run, Inv, Chain, Slice, LogOf;
    EveryRunKeepsInv(steps);
    var m := Run(steps);
    var s := m.subscribers[id];
    SubscriberFacts(m, id);
    ChainPrefix(s.quoteId, LogOf(m.tables, s.quoteId), s.out, s.after, s.watermark, i + 1);
    ChainTailLast(s.quoteId, LogOf(m.tables, s.quoteId), s.out[..i + 1], s.after, Cursor(s.after, s.out[..i + 1]));
  }

  lemma ChainTailLast(q: QuoteId, log: Log, out: seq<Update>, a: nat, b: nat)
    requires Chain(q, log, out, a, b) && out != [] && out[|out| - 1].Tail?
    ensures
      var tail := out[|out| - 1];
      && a <= tail.fromSeqExclusive < tail.toSeqInclusive <= |log|
      && tail.events == Slice(q, log, tail.fromSeqExclusive, tail.toSeqInclusive)
  {
    ChainBounds(q, log, out[..|out| - 1], a, out[|out| - 1].fromSeqExclusive);
  }

  /**
    The pump's "empty chunk" branches are never taken, and the chunk always ends at the head it was loaded
    for: the head is never beyond the log, although it may go backwards.
  */
  lemma ChunkIsNeverEmpty(steps: seq<Step>, id: nat)
    requires id in Run(steps).subscribers && Run(steps).subscribers[id].phase.Loading?
    ensures
      var m := Run(steps);
      var s := m.subscribers[id];
      var chunk := LoadBetween(m.tables, s.quoteId, s.watermark, s.phase.head);
      && |chunk| == s.phase.head - s.watermark > 0
      && chunk[0].seqNo == s.watermark + 1
      && chunk[|chunk| - 1].seqNo == s.phase.head
  {
    hide Run;
    EveryRunKeepsInv(steps);
    var s := Run(steps).subscribers[id];
    LoadIsSlice(Run(steps).tables, s);
    hide Chain, SnapshotOf, SnapshotSent, LogOf, Ledger, LoadBetween;
  }

  // ---------------------------------------------------------------- wake-ups

  lemma ParkedFacts(m: Machine, id: nat)
    requires Inv(m) && id in m.subscribers && m.subscribers[id].phase.Parked?
    ensures
      var s := m.subscribers[id];
      && s.quoteId in m.bus
      && m.bus[s.quoteId].value <= |LogOf(m.tables, s.quoteId)|
      && (m.bus[s.quoteId].version == s.seen ==> m.bus[s.quoteId].value <= s.watermark)
  {
    hide SubscriberOk, LogOf, Ledger;
  }

  /** No pump sleeps through a published head: parked with nothing unseen means sent up to the head. */
  lemma NoLostWakeUp(steps: seq<Step>, id: nat)
    requires id in Run(steps).subscribers && Run(steps).subscribers[id].phase.Parked?
    ensures
      var m := Run(steps);
      var s := m.subscribers[id];
      && s.quoteId in m.bus
      && m.bus[s.quoteId].value <= |LogOf(m.tables, s.quoteId)|
      && s.after <= s.watermark <= |LogOf(m.tables, s.quoteId)|
      && (m.bus[s.quoteId].version == s.seen ==>
            && m.bus[s.quoteId].value <= s.watermark
            && (m.bus[s.quoteId].value == |LogOf(m.tables, s.quoteId)| ==>
                  Received(s.out)
                  == Slice(s.quoteId, LogOf(m.tables, s.quoteId), s.after, |LogOf(m.tables, s.quoteId)|)))
  {
    hide Run, Inv, Slice, SnapshotSent, LogOf, Received;
    EveryRunKeepsInv(steps);
    StreamIsOneSliceOfTheLog(steps, id);
    ParkedFacts(Run(steps), id);
  }

  // ---------------------------------------------------------------- reconnecting

  /** The last sequence number a client has processed after some updates of a session. */
  function Cursor(after: nat, out: seq<Update>): nat {
    if out == [] then after
    else
      match out[|out| - 1]
      case Tail(_, to, _) => to
      case Snapshot(lastSeq, _) => lastSeq
  }

  lemma {:induction false} ChainPrefix(q: QuoteId, log: Log, out: seq<Update>, a: nat, b: nat, cut: nat)
    requires Chain(q, log, out, a, b) && cut <= |out|
    ensures Chain(q, log, out[..cut], a, Cursor(a, out[..cut])) && Cursor(a, out[..cut]) <= b
    decreases |out|
  {
    hide SnapshotOf, Slice;
    if cut == |out| {
      assert out[..cut] == out;
    } else {
      assert out[..|out| - 1][..cut] == out[..cut];
      match out[|out| - 1]
      case Tail(f, _, _) => ChainPrefix(q, log, out[..|out| - 1], a, f, cut);
      case Snapshot(_, _) => ChainPrefix(q, log, out[..|out| - 1], a, b, cut);
    }
  }

  /** A session a client had: which subscriber it was, and how many of its updates the client processed. */
  datatype Session = Session(id: nat, cut: nat)

  ghost predicate Sessions(m: Machine, q: QuoteId, sessions: seq<Session>) {
    && (forall i :: 0 <= i < |sessions| ==>
          && sessions[i].id in m.subscribers
          && m.subscribers[sessions[i].id].quoteId == q
          && sessions[i].cut <= |m.subscribers[sessions[i].id].out|)
    && (forall i :: 0 < i < |sessions| ==> m.subscribers[sessions[i].id].after == CursorOf(m, sessions[i - 1]))
  }

  function Processed(m: Machine, session: Session): seq<Update>
    requires session.id in m.subscribers && session.cut <= |m.subscribers[session.id].out|
  {
    m.subscribers[session.id].out[..session.cut]
  }

  ghost function CursorOf(m: Machine, session: Session): nat {
    if session.id in m.subscribers && session.cut <= |m.subscribers[session.id].out|
    then Cursor(m.subscribers[session.id].after, Processed(m, session)) else 0
  }

  ghost function Glued(m: Machine, q: QuoteId, sessions: seq<Session>): seq<StoredEvent>
    requires Sessions(m, q, sessions)
  {
    if sessions == [] then []
    else
      var n := |sessions| - 1;
      Glued(m, q, sessions[..n]) + Received(Processed(m, sessions[n]))
  }

  lemma OneSession(m: Machine, session: Session)
    requires Inv(m) && session.id in m.subscribers && session.cut <= |m.subscribers[session.id].out|
    ensures
      var s := m.subscribers[session.id];
      && s.after <= CursorOf(m, session) <= s.watermark <= |LogOf(m.tables, s.quoteId)|
      && Received(Processed(m, session))
         == Slice(s.quoteId, LogOf(m.tables, s.quoteId), s.after, CursorOf(m, session))
  {
    hide Inv, Slice, LogOf, Received, Chain;
    var s := m.subscribers[session.id];
    var log := LogOf(m.tables, s.quoteId);
    SubscriberFacts(m, session.id);
    ChainPrefix(s.quoteId, log, s.out, s.after, s.watermark, session.cut);
    ChainBounds(s.quoteId, log, s.out, s.after, s.watermark);
    ChainReceives(s.quoteId, log, s.out[..session.cut], s.after, CursorOf(m, session));
  }

  lemma {:induction false} GluedSessions(m: Machine, q: QuoteId, sessions: seq<Session>)
    requires Inv(m) && sessions != [] && Sessions(m, q, sessions)
    ensures
      var first, last := m.subscribers[sessions[0].id].after, CursorOf(m, sessions[|sessions| - 1]);
      && first <= last <= |LogOf(m.tables, q)|
      && Glued(m, q, sessions) == Slice(q, LogOf(m.tables, q), first, last)
  {
    hide Inv, LogOf, Received, Slice, CursorOf, Processed;
    var n := |sessions| - 1;
    OneSession(m, sessions[n]);
    if n == 0 {
      assert Glued(m, q, sessions[..0]) == [];
    } else {
      var before := sessions[..n];
      GluedSessions(m, q, before);
      var first := m.subscribers[sessions[0].id].after;
      SlicesJoin(q, LogOf(m.tables, q), first, CursorOf(m, before[n - 1]), CursorOf(m, sessions[n]));
    }
  }

  /**
    A client that reconnects any number of times, each time with the last sequence number it processed
    from however much of the previous session it read, has received one contiguous slice of the log: from
    its first after_seq to its last cursor, nothing twice, nothing missing.
  */
  lemma ReconnectsGlueToOneSlice(steps: seq<Step>, q: QuoteId, sessions: seq<Session>)
    requires sessions != [] && Sessions(Run(steps), q, sessions)
    ensures
      var m := Run(steps);
      var first, last := m.subscribers[sessions[0].id].after, CursorOf(m, sessions[|sessions| - 1]);
      && first <= last <= |LogOf(m.tables, q)|
      && Glued(m, q, sessions) == Slice(q, LogOf(m.tables, q), first, last)
  {
    hide Run;
    EveryRunKeepsInv(steps);
    GluedSessions(Run(steps), q, sessions);
  }

  /** Reconnecting at any later time with that cursor is never refused as ahead of the head. */
  lemma ReconnectIsNeverRejected(steps: seq<Step>, session: Session, later: seq<Step>)
    requires session.id in Run(steps).subscribers && session.cut <= |Run(steps).subscribers[session.id].out|
    ensures
      var q := Run(steps).subscribers[session.id].quoteId;
      Open(Run(steps + later).tables, q, CursorOf(Run(steps), session)).Ok?
  {
    hide RunFrom;
    EveryRunKeepsInv(steps);
    RunInParts(INITIAL, steps, later);
    RunKeeps(Run(steps), later);
    hide Inv, LogOf, Run, Open, CursorOf, Processed;
    OneSession(Run(steps), session);
    var q := Run(steps).subscribers[session.id].quoteId;
    assert Grown(Run(steps).tables, Run(steps + later).tables);
    assert Ledger(Run(steps + later).tables) by {
      InvIsLedger(Run(steps + later));
    }
    OpenOnLedger(Run(steps + later).tables, q, CursorOf(Run(steps), session));
  }

  /** What a subscriber has been sent always ends at its watermark. */
  lemma CursorIsWatermark(q: QuoteId, log: Log, out: seq<Update>, a: nat, b: nat)
    requires Chain(q, log, out, a, b)
    ensures Cursor(a, out) == b
  {
    hide Slice, SnapshotOf;
  }

  /**
    A subscription opened at any later time, from the point up to which a subscriber has been sent, goes on
    exactly there: it is accepted, and its catch-up completes what was received to the whole later log.
  */
  lemma ReconnectResumes(steps: seq<Step>, id: nat, later: seq<Step>)
    requires id in Run(steps).subscribers
    ensures
      var s := Run(steps).subscribers[id];
      var t := Run(steps + later).tables;
      var resumed := Open(t, s.quoteId, Cursor(s.after, s.out));
      && Cursor(s.after, s.out) == s.watermark
      && resumed.Ok?
      && s.after <= |LogOf(t, s.quoteId)|
      && Received(s.out) + resumed.value.catchup
         == Slice(s.quoteId, LogOf(t, s.quoteId), s.after, |LogOf(t, s.quoteId)|)
  {
    hide RunFrom;
    EveryRunKeepsInv(steps);
    RunInParts(INITIAL, steps, later);
    RunKeeps(Run(steps), later);
    var m, t := Run(steps), Run(steps + later).tables;
    var s := m.subscribers[id];
    InvIsLedger(Run(steps + later));
    SubscriberFacts(m, id);
    hide Inv, LogOf, Run, Open, Received, Slice, Chain, Ledger;
    var log, log' := LogOf(m.tables, s.quoteId), LogOf(t, s.quoteId);
    assert log <= log';
    CursorIsWatermark(s.quoteId, log, s.out, s.after, s.watermark);
    StreamIsOneSliceOfTheLog(steps, id);
    SliceOfExtension(s.quoteId, log, log', s.after, s.watermark);
    OpenIs(t, s.quoteId, s.watermark);
    SlicesJoin(s.quoteId, log', s.after, s.watermark, |log'|);
  }

  /**
    A failed read loses nothing. It sends nothing, it moves no watermark, it ends the stream exactly on the
    eighth failure in a row, and whether or not the stream has ended, a reconnect at any later time
    completes what was received to the whole log.
  */
  lemma FailedReadLosesNothing(steps: seq<Step>, id: nat, later: seq<Step>)
    requires id in Run(steps).subscribers && Run(steps).subscribers[id].phase.Loading?
    ensures
      var m, m' := Run(steps), Run(steps + [FailLoad(id)]);
      id in m'.subscribers &&
      var s, s' := m.subscribers[id], m'.subscribers[id];
      && s'.out == s.out && s'.watermark == s.watermark
      && m'.tables == m.tables && m'.bus == m.bus
      && s.phase.attempt < 8
      && s'.phase == (if s.phase.attempt == 7 then Closed(true)
                      else Loading(s.phase.head, s.phase.attempt + 1))
      && var t := Run(steps + [FailLoad(id)] + later).tables;
      var resumed := Open(t, s.quoteId, s.watermark);
      && resumed.Ok?
      && s.after <= |LogOf(t, s.quoteId)|
      && Received(s.out) + resumed.value.catchup
         == Slice(s.quoteId, LogOf(t, s.quoteId), s.after, |LogOf(t, s.quoteId)|)
  {
    hide Inv, Do, LogOf, Open, Received, Slice;
    assert (steps + [FailLoad(id)])[..|steps|] == steps;
    FailedReadSendsNothing(Run(steps), id);
    EveryRunKeepsInv(steps);
    AttemptBound(Run(steps), id);
    hide Run;
    ReconnectResumes(steps + [FailLoad(id)], id, later);
  }

  lemma AttemptBound(m: Machine, id: nat)
    requires Inv(m) && id in m.subscribers && m.subscribers[id].phase.Loading?
    ensures m.subscribers[id].phase.attempt < 8
  {
    hide Chain, Slice, SnapshotOf, SnapshotSent, LogOf, Ledger, WakeOk;
  }

  lemma FailedReadSendsNothing(m: Machine, id: nat)
    requires id in m.subscribers && m.subscribers[id].phase.Loading?
    ensures
      var m' := Do(m, FailLoad(id));
      && id in m'.subscribers
      && m'.subscribers[id] == LoadFailed(m.subscribers[id])
      && m'.tables == m.tables && m'.bus == m.bus
  {
  }

  /** The same read failing n times, with nothing else happening. */
  function Failures(id: nat, n: nat): seq<Step> {
    if n == 0 then [] else Failures(id, n - 1) + [FailLoad(id)]
  }

  /**
    A read is given up at its eighth failure and not before: up to seven failures in a row leave the
    subscriber loading the same range, the eighth closes the stream with an error, and nothing has been sent.
  */
  lemma {:induction false} EighthFailureCloses(m: Machine, id: nat, head: nat, n: nat)
    requires id in m.subscribers && m.subscribers[id].phase == Loading(head, 0) && n <= 8
    ensures
      var s := m.subscribers[id];
      RunFrom(m, Failures(id, n))
      == m.(subscribers := m.subscribers[id := s.(phase := if n < 8 then Loading(head, n) else Closed(true))])
  {
    hide Do;
    if n == 0 {
      assert m.subscribers[id := m.subscribers[id]] == m.subscribers;
    } else {
      EighthFailureCloses(m, id, head, n - 1);
      assert Failures(id, n)[..|Failures(id, n)| - 1] == Failures(id, n - 1);
      var s := m.subscribers[id].(phase := Loading(head, n - 1));
      OneFailure(m.(subscribers := m.subscribers[id := s]), id);
      assert m.subscribers[id := s][id := LoadFailed(s)] == m.subscribers[id := LoadFailed(s)];
    }
  }

  lemma OneFailure(m: Machine, id: nat)
    requires id in m.subscribers && m.subscribers[id].phase.Loading?
    ensures Do(m, FailLoad(id)) == m.(subscribers := m.subscribers[id := LoadFailed(m.subscribers[id])])
  {
    hide DoAppend, Open, LoadFailed;
  }

  // ---------------------------------------------------------------- clients that fold

  lemma PayloadsOfSlice(q: QuoteId, log: Log, a: nat, b: nat)
    requires a <= b <= |log|
    ensures EventsOf(Slice(q, log, a, b)) == log[a..b]
  {
  }

  /** Reducing entries a + 1 .. b on top of the replay of the first a entries gives the replay of the first b. */
  lemma FoldOfSlice(q: QuoteId, log: Log, a: nat, b: nat)
    requires Produced(log) && a <= b <= |log|
    ensures Replay(log[..a]).Ok? && Replay(log[..b]).Ok?
    ensures ReplayFrom(Replay(log[..a]).value, EventsOf(Slice(q, log, a, b))) == Replay(log[..b])
  {
    hide Produced, Slice, EventsOf, ReplayFrom, StateOf, WellFormed;
    PayloadsOfSlice(q, log, a, b);
    PrefixReplays(log, a);
    PrefixReplays(log, b);
    assert log[..b] == log[..a] + log[a..b];
    ReplayInParts(EMPTY_QUOTE, log[..a], log[a..b]);
  }

  /**
    A client that holds the replay of the first after_seq entries and reduces every tail event it has
    processed holds, without any error, exactly the replay of the entries up to its cursor.
  */
  lemma FoldingClientAgrees(steps: seq<Step>, session: Session)
    requires session.id in Run(steps).subscribers && session.cut <= |Run(steps).subscribers[session.id].out|
    ensures
      var m := Run(steps);
      var s := m.subscribers[session.id];
      var log := LogOf(m.tables, s.quoteId);
      && s.after <= CursorOf(m, session) <= |log|
      && Replay(log[..s.after]).Ok? && Replay(log[..CursorOf(m, session)]).Ok?
      && ReplayFrom(Replay(log[..s.after]).value, EventsOf(Received(Processed(m, session))))
         == Replay(log[..CursorOf(m, session)])
  {
    hide Run;
    EveryRunKeepsInv(steps);
    var m := Run(steps);
    var s := m.subscribers[session.id];
    var log := LogOf(m.tables, s.quoteId);
    assert Produced(log) by {
      InvIsLedger(m);
    }
    hide Inv, LogOf, CursorOf, Processed, Received, EventsOf, Replay, ReplayFrom, Slice, Produced;
    OneSession(m, session);
    FoldOfSlice(s.quoteId, log, s.after, CursorOf(m, session));
  }

  lemma {:induction false} ReceivedInParts(a: seq<Update>, b: seq<Update>)
    ensures Received(a + b) == Received(a) + Received(b)
    decreases |b|
  {
    if b == [] {
      assert a + b == a;
    } else {
      var n := |b| - 1;
      assert (a + b)[..|a| + n] == a + b[..n];
      ReceivedInParts(a, b[..n]);
    }
  }

  lemma EqualTails<T>(a: seq<T>, b: seq<T>, c: seq<T>)
    requires a + b == a + c
    ensures b == c
  {
    assert b == (a + b)[|a|..];
    assert c == (a + c)[|a|..];
  }

  /** What a client processed after its snapshot is the slice from last_seq to its cursor. */
  lemma ReceivedAfterSnapshot(m: Machine, session: Session, i: nat)
    requires Inv(m) && session.id in m.subscribers && session.cut <= |m.subscribers[session.id].out|
    requires i < session.cut && m.subscribers[session.id].out[i].Snapshot?
    ensures
      var s := m.subscribers[session.id];
      && s.after <= s.lastSeq <= CursorOf(m, session) <= |LogOf(m.tables, s.quoteId)|
      && s.out[i] == Snapshot(s.lastSeq, s.view)
      && Received(s.out[i + 1..session.cut])
         == Slice(s.quoteId, LogOf(m.tables, s.quoteId), s.lastSeq, CursorOf(m, session))
  {
    hide Inv, LogOf, Received, Slice, Chain;
    var s := m.subscribers[session.id];
    var log := LogOf(m.tables, s.quoteId);
    var head, rest := s.out[..i + 1], s.out[i + 1..session.cut];
    SubscriberFacts(m, session.id);
    SnapshotFacts(m, session.id, i);
    OneSession(m, Session(session.id, i + 1));
    OneSession(m, session);
    assert s.out[..session.cut] == head + rest;
    CutsAgree(s, log, session.cut, i);
    ReceivedInParts(head, rest);
    SlicesJoin(s.quoteId, log, s.after, s.lastSeq, CursorOf(m, session));
    EqualTails(Received(head), Received(rest), Slice(s.quoteId, log, s.lastSeq, CursorOf(m, session)));
  }

  lemma SnapshotFacts(m: Machine, id: nat, i: nat)
    requires Inv(m) && id in m.subscribers
    requires i < |m.subscribers[id].out| && m.subscribers[id].out[i].Snapshot?
    ensures m.subscribers[id].out[i] == Snapshot(m.subscribers[id].lastSeq, m.subscribers[id].view)
    ensures m.subscribers[id].after <= m.subscribers[id].lastSeq
  {
    hide Chain, Slice, SnapshotOf, LogOf, Ledger, WakeOk;
  }

  /** The cursor right after the snapshot is last_seq, and reading on does not move it back. */
  lemma CutsAgree(s: Subscriber, log: Log, cut: nat, i: nat)
    requires Chain(s.quoteId, log, s.out, s.after, s.watermark)
    requires i < cut <= |s.out| && s.out[i] == Snapshot(s.lastSeq, s.view)
    ensures Cursor(s.after, s.out[..i + 1]) == s.lastSeq <= Cursor(s.after, s.out[..cut])
  {
    hide Slice, SnapshotOf;
    ChainPrefix(s.quoteId, log, s.out, s.after, s.watermark, cut);
    assert s.out[..cut][..i + 1] == s.out[..i + 1];
    ChainPrefix(s.quoteId, log, s.out[..cut], s.after, Cursor(s.after, s.out[..cut]), i + 1);
  }

  /**
    A client that starts from the state behind the snapshot and reduces only the live tails after it holds,
    without any error, exactly the replay of the entries up to its cursor.
  */
  lemma FoldingFromSnapshotAgrees(steps: seq<Step>, session: Session, i: nat)
    requires session.id in Run(steps).subscribers && session.cut <= |Run(steps).subscribers[session.id].out|
    requires i < session.cut && Run(steps).subscribers[session.id].out[i].Snapshot?
    ensures
      var m := Run(steps);
      var s := m.subscribers[session.id];
      var log := LogOf(m.tables, s.quoteId);
      && s.lastSeq <= CursorOf(m, session) <= |log|
      && s.out[i] == Snapshot(s.lastSeq, s.view)
      && Replay(log[..s.lastSeq]).Ok? && Replay(log[..CursorOf(m, session)]).Ok?
      && ReplayFrom(Replay(log[..s.lastSeq]).value, EventsOf(Received(s.out[i + 1..session.cut])))
         == Replay(log[..CursorOf(m, session)])
  {
    hide Run;
    EveryRunKeepsInv(steps);
    var m := Run(steps);
    var s := m.subscribers[session.id];
    var log := LogOf(m.tables, s.quoteId);
    assert Produced(log) by {
      InvIsLedger(m);
    }
    hide Inv, LogOf, CursorOf, Received, EventsOf, Replay, ReplayFrom, Slice, Produced;
    ReceivedAfterSnapshot(m, session, i);
    FoldOfSlice(s.quoteId, log, s.lastSeq, CursorOf(m, session));
  }

  lemma OnlySnapshot(s: Subscriber, i: nat)
    requires s.out == [] || s.out == CatchupPart(s) || SnapshotSent(s)
    requires i < |s.out| && s.out[i].Snapshot?
    ensures i == |CatchupPart(s)| && s.out[i] == Snapshot(s.lastSeq, s.view)
  {
  }

  /** The snapshot in a stream is the view of the replay of the first last_seq entries, and it balances. */
  lemma SnapshotIsTheViewOfItsPrefix(steps: seq<Step>, id: nat, i: nat)
    requires id in Run(steps).subscribers
    requires i < |Run(steps).subscribers[id].out| && Run(steps).subscribers[id].out[i].Snapshot?
    ensures
      var m := Run(steps);
      var s := m.subscribers[id];
      var log := LogOf(m.tables, s.quoteId);
      var snapshot := s.out[i];
      && snapshot.lastSeq == s.lastSeq <= |log|
      && Replay(log[..s.lastSeq]).Ok?
      && ViewOf(s.quoteId, Replay(log[..s.lastSeq]).value) == Ok(snapshot.view)
      && Balanced(snapshot.view) && Shows(snapshot.view, s.quoteId, log[..s.lastSeq])
  {
    hide Run, Chain, Slice, Replay, ViewOf, Balanced, Shows, LogOf, Produced, SnapshotSent;
    EveryRunKeepsInv(steps);
    StreamIsOneSliceOfTheLog(steps, id);
    var s := Run(steps).subscribers[id];
    OnlySnapshot(s, i);
    hide Consistent, PhaseOk, WakeOk, CatchupPart, Received;
    ViewNeverFails(s.quoteId, LogOf(Run(steps).tables, s.quoteId), s.lastSeq);
  }
}
