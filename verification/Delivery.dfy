/**
  What every run of the service keeps: the ledger's tables, the bus, and for each subscriber that it has
  been sent exactly one contiguous slice of its quote's log.
*/
module Delivery {
  import opened Wrappers
  import opened Domain
  import opened QuoteLog
  import opened Tables
  import opened Appending
  import opened Service

  // ---------------------------------------------------------------- what a stream may contain

  ghost predicate SnapshotOf(q: QuoteId, log: Log, lastSeq: nat, view: QuoteView) {
    lastSeq <= |log| && Replay(log[..lastSeq]).Ok? && ViewOf(q, Replay(log[..lastSeq]).value) == Ok(view)
  }

  /**
    The updates lead from position a of the log to position b: each tail starts where the previous one
    ended and carries exactly the entries between its bounds, at least one; a snapshot stands still.
  */
  ghost predicate Chain(q: QuoteId, log: Log, out: seq<Update>, a: nat, b: nat) {
    if out == [] then a == b <= |log|
    else
      match out[|out| - 1]
      case Tail(f, to, events) =>
        && f < to == b <= |log| && events == Slice(q, log, f, to)
        && Chain(q, log, out[..|out| - 1], a, f)
      case Snapshot(lastSeq, view) =>
        && lastSeq == b && SnapshotOf(q, log, lastSeq, view)
        && Chain(q, log, out[..|out| - 1], a, b)
  }

  /** The catch-up tail, if after_seq was behind the head. */
  function CatchupPart(s: Subscriber): seq<Update> {
    if s.after < s.lastSeq then [Tail(s.after, s.lastSeq, s.catchup)] else []
  }

  /** Catch-up, then the one snapshot, then live tails only. */
  ghost predicate SnapshotSent(s: Subscriber) {
    var k := |CatchupPart(s)|;
    && |s.out| > k
    && s.out[..k] == CatchupPart(s)
    && s.out[k] == Snapshot(s.lastSeq, s.view)
    && s.lastSeq <= s.watermark
    && forall i :: k < i < |s.out| ==> s.out[i].Tail?
  }

  ghost predicate PhaseOk(q: QuoteId, log: Log, s: Subscriber) {
    match s.phase
    case Loaded => s.out == [] && s.watermark == s.after
    case CatchupDue => s.out == [] && s.watermark == s.after
    case SnapshotDue => s.out == CatchupPart(s) && s.watermark == s.lastSeq
    case HeadCheckDue => SnapshotSent(s)
    case Loading(head, attempt) =>
      SnapshotSent(s) && s.watermark < head <= |log| && attempt < SUBSCRIBE_DB_MAX_ATTEMPTS
    case Sending(target, chunk) =>
      SnapshotSent(s) && s.watermark < target <= |log| && chunk == Slice(q, log, s.watermark, target)
    case Parked => SnapshotSent(s)
    case Woken => SnapshotSent(s)
    case Closed(_) => s.out == [] || s.out == CatchupPart(s) || SnapshotSent(s)
  }

  ghost predicate SubscriberOk(log: Log, s: Subscriber) {
    && s.after <= s.lastSeq <= |log|
    && s.after <= s.watermark
    && s.catchup == Slice(s.quoteId, log, s.after, s.lastSeq)
    && SnapshotOf(s.quoteId, log, s.lastSeq, s.view)
    && Chain(s.quoteId, log, s.out, s.after, s.watermark)
    && PhaseOk(s.quoteId, log, s)
  }

  predicate OnBus(s: Subscriber) {
    !s.phase.Loaded? && !s.phase.Closed?
  }

  /**
    No wake-up is lost: a parked pump that has seen the latest version has sent at least up to the
    published head, and one that is loading or sending up to some head has not missed a larger one.
  */
  ghost predicate WakeOk(bus: Bus, s: Subscriber) {
    OnBus(s) ==>
      && s.quoteId in bus
      && s.seen <= bus[s.quoteId].version
      && (s.seen == bus[s.quoteId].version ==>
            var head := bus[s.quoteId].value;
            && (s.phase.Parked? ==> head <= s.watermark)
            && (s.phase.Loading? ==> head <= s.phase.head)
            && (s.phase.Sending? ==> head <= s.phase.target))
  }

  ghost predicate BusOk(t: Tables, bus: Bus) {
    forall q :: q in bus ==> bus[q].value <= |LogOf(t, q)|
  }

  ghost predicate TasksOk(t: Tables, appends: map<nat, AppendTask>) {
    forall id :: id in appends && appends[id].Committed? ==> 1 <= appends[id].last <= |LogOf(t, appends[id].quoteId)|
  }

  ghost predicate SubscribersOk(t: Tables, bus: Bus, subscribers: map<nat, Subscriber>) {
    forall id :: id in subscribers ==>
      && SubscriberOk(LogOf(t, subscribers[id].quoteId), subscribers[id])
      && WakeOk(bus, subscribers[id])
  }

  ghost predicate Inv(m: Machine) {
    && Ledger(m.tables)
    && BusOk(m.tables, m.bus)
    && TasksOk(m.tables, m.appends)
    && SubscribersOk(m.tables, m.bus, m.subscribers)
  }

  ghost predicate Grown(t: Tables, t': Tables) {
    forall q :: LogOf(t, q) <= LogOf(t', q)
  }

  lemma InvIsLedger(m: Machine)
    requires Inv(m)
    ensures Ledger(m.tables)
  {
  }

  // ---------------------------------------------------------------- growing logs

  lemma SnapshotOfExtension(q: QuoteId, log: Log, log': Log, lastSeq: nat, view: QuoteView)
    requires SnapshotOf(q, log, lastSeq, view) && log <= log'
    ensures SnapshotOf(q, log', lastSeq, view)
  {
    assert log'[..lastSeq] == log[..lastSeq];
  }

  lemma {:induction false} ChainOfExtension(q: QuoteId, log: Log, log': Log, out: seq<Update>, a: nat, b: nat)
    requires Chain(q, log, out, a, b) && log <= log'
    ensures Chain(q, log', out, a, b)
  {
    if out != [] {
      match out[|out| - 1]
      case Tail(f, to, events) =>
        ChainOfExtension(q, log, log', out[..|out| - 1], a, f);
        SliceOfExtension(q, log, log', f, to);
      case Snapshot(lastSeq, view) =>
        ChainOfExtension(q, log, log', out[..|out| - 1], a, b);
        SnapshotOfExtension(q, log, log', lastSeq, view);
    }
  }

  lemma SubscriberOkOnExtension(log: Log, log': Log, s: Subscriber)
    requires SubscriberOk(log, s) && log <= log'
    ensures SubscriberOk(log', s)
  {
    hide Slice, SnapshotOf, SnapshotSent, Chain;
    SliceOfExtension(s.quoteId, log, log', s.after, s.lastSeq);
    SnapshotOfExtension(s.quoteId, log, log', s.lastSeq, s.view);
    ChainOfExtension(s.quoteId, log, log', s.out, s.after, s.watermark);
    if s.phase.Sending? {
      SliceOfExtension(s.quoteId, log, log', s.watermark, s.phase.target);
    }
  }

  lemma InvOnGrownTables(m: Machine, t: Tables)
    requires Inv(m) && Ledger(t) && Grown(m.tables, t)
    ensures Inv(m.(tables := t))
  {
    hide Ledger, LogOf, SubscriberOk, WakeOk;
    forall id | id in m.subscribers
      ensures SubscriberOk(LogOf(t, m.subscribers[id].quoteId), m.subscribers[id])
    {
      var s := m.subscribers[id];
      SubscriberOkOnExtension(LogOf(m.tables, s.quoteId), LogOf(t, s.quoteId), s);
    }
  }

  // ---------------------------------------------------------------- chains

  lemma {:induction false} ChainBounds(q: QuoteId, log: Log, out: seq<Update>, a: nat, b: nat)
    requires Chain(q, log, out, a, b)
    ensures a <= b <= |log|
  {
    if out != [] {
      match out[|out| - 1]
      case Tail(f, to, events) => ChainBounds(q, log, out[..|out| - 1], a, f);
      case Snapshot(lastSeq, view) => ChainBounds(q, log, out[..|out| - 1], a, b);
    }
  }

  lemma ChainPlusTail(q: QuoteId, log: Log, out: seq<Update>, a: nat, b: nat, c: nat)
    requires Chain(q, log, out, a, b) && b < c <= |log|
    ensures Chain(q, log, out + [Tail(b, c, Slice(q, log, b, c))], a, c)
  {
    assert (out + [Tail(b, c, Slice(q, log, b, c))])[..|out|] == out;
  }

  lemma ChainPlusSnapshot(q: QuoteId, log: Log, out: seq<Update>, a: nat, b: nat, view: QuoteView)
    requires Chain(q, log, out, a, b) && SnapshotOf(q, log, b, view)
    ensures Chain(q, log, out + [Snapshot(b, view)], a, b)
  {
    assert (out + [Snapshot(b, view)])[..|out|] == out;
  }

  // ---------------------------------------------------------------- steps of one subscriber

  lemma SendCatchupKeeps(log: Log, bus: Bus, s: Subscriber)
    requires SubscriberOk(log, s) && WakeOk(bus, s) && s.phase.CatchupDue?
    ensures SubscriberOk(log, SendCatchup(s)) && WakeOk(bus, SendCatchup(s))
    ensures SendCatchup(s).out == CatchupPart(s)
  {
    hide Slice, SnapshotOf, SnapshotSent, Chain;
    SliceLengths(s.quoteId, log, s.after, s.lastSeq);
    if s.after < s.lastSeq {
      assert s.catchup[|s.catchup| - 1].seqNo == s.lastSeq by {
        SliceEnds(s.quoteId, log, s.after, s.lastSeq);
      }
      ChainPlusTail(s.quoteId, log, s.out, s.after, s.after, s.lastSeq);
      assert SendCatchup(s).out == CatchupPart(s);
    }
  }

  lemma SliceLengths(q: QuoteId, log: Log, a: nat, b: nat)
    requires a <= b <= |log|
    ensures |Slice(q, log, a, b)| == b - a
  {
  }

  lemma SliceEnds(q: QuoteId, log: Log, a: nat, b: nat)
    requires a < b <= |log|
    ensures Slice(q, log, a, b) != [] && Slice(q, log, a, b)[b - a - 1].seqNo == b
    ensures |Slice(q, log, a, b)| == b - a
  {
  }

  lemma SendSnapshotKeeps(log: Log, bus: Bus, s: Subscriber)
    requires SubscriberOk(log, s) && WakeOk(bus, s) && s.phase.SnapshotDue?
    ensures SubscriberOk(log, SendSnapshot(s)) && WakeOk(bus, SendSnapshot(s))
  {
    hide Slice, SnapshotOf;
    ChainPlusSnapshot(s.quoteId, log, s.out, s.after, s.lastSeq, s.view);
  }

  lemma HeadReadKeeps(log: Log, bus: Bus, s: Subscriber)
    requires SubscriberOk(log, s) && WakeOk(bus, s) && (s.phase.HeadCheckDue? || s.phase.Woken?)
    requires s.quoteId in bus && bus[s.quoteId].value <= |log|
    ensures SubscriberOk(log, HeadRead(s, bus[s.quoteId].value)) && WakeOk(bus, HeadRead(s, bus[s.quoteId].value))
  {
    hide Slice, SnapshotOf, Chain;
  }

  /** The range query on the tables as they are now returns the entries between watermark and head. */
  lemma LoadIsSlice(t: Tables, s: Subscriber)
    requires Ledger(t) && SubscriberOk(LogOf(t, s.quoteId), s) && s.phase.Loading?
    ensures s.watermark < s.phase.head <= |LogOf(t, s.quoteId)|
    ensures LoadBetween(t, s.quoteId, s.watermark, s.phase.head)
         == Slice(s.quoteId, LogOf(t, s.quoteId), s.watermark, s.phase.head)
  {
    LoadBetweenIsSlice(t, s.quoteId, s.watermark, s.phase.head);
  }

  lemma LoadChunkKeeps(t: Tables, bus: Bus, s: Subscriber)
    requires Ledger(t) && s.phase.Loading?
    requires SubscriberOk(LogOf(t, s.quoteId), s) && WakeOk(bus, s)
    ensures SubscriberOk(LogOf(t, s.quoteId), LoadChunk(s, t)) && WakeOk(bus, LoadChunk(s, t))
    ensures LoadChunk(s, t).phase.Sending?
  {
    hide Slice, SnapshotOf, Chain, Ledger, LoadBetween, LogOf;
    LoadIsSlice(t, s);
    SliceEnds(s.quoteId, LogOf(t, s.quoteId), s.watermark, s.phase.head);
  }

  lemma LoadFailedKeeps(log: Log, bus: Bus, s: Subscriber)
    requires SubscriberOk(log, s) && WakeOk(bus, s) && s.phase.Loading?
    ensures SubscriberOk(log, LoadFailed(s)) && WakeOk(bus, LoadFailed(s))
    ensures LoadFailed(s).out == s.out && LoadFailed(s).watermark == s.watermark
  {
    hide Slice, SnapshotOf, Chain;
  }

  lemma SendTailKeeps(log: Log, bus: Bus, s: Subscriber)
    requires SubscriberOk(log, s) && WakeOk(bus, s) && s.phase.Sending?
    ensures SubscriberOk(log, SendTail(s)) && WakeOk(bus, SendTail(s))
  {
    hide Slice, SnapshotOf;
    SliceEnds(s.quoteId, log, s.watermark, s.phase.target);
    ChainPlusTail(s.quoteId, log, s.out, s.after, s.watermark, s.phase.target);
    hide Chain;
    SnapshotSentPlusTail(s, SendTail(s));
  }

  lemma SnapshotSentPlusTail(s: Subscriber, s': Subscriber)
    requires SnapshotSent(s) && s'.out != [] && s'.out == s.out + [s'.out[|s'.out| - 1]]
    requires s'.out[|s'.out| - 1].Tail? && s'.watermark >= s.watermark
    requires CatchupPart(s') == CatchupPart(s) && s'.lastSeq == s.lastSeq && s'.view == s.view
    ensures SnapshotSent(s')
  {
  }

  lemma DisconnectKeeps(log: Log, bus: Bus, s: Subscriber)
    requires SubscriberOk(log, s) && WakeOk(bus, s)
    ensures SubscriberOk(log, s.(phase := Closed(false))) && WakeOk(bus, s.(phase := Closed(false)))
  {
    hide Slice, SnapshotOf, Chain;
  }

  lemma WakeKeeps(log: Log, bus: Bus, s: Subscriber)
    requires SubscriberOk(log, s) && WakeOk(bus, s) && s.phase.Parked?
    ensures
      var s' := s.(phase := Woken, seen := bus[s.quoteId].version);
      SubscriberOk(log, s') && WakeOk(bus, s')
  {
    hide Slice, SnapshotOf, Chain;
  }

  lemma SubscriberStepKeeps(t: Tables, bus: Bus, s: Subscriber, step: Step)
    requires Ledger(t) && BusOk(t, bus)
    requires SubscriberOk(LogOf(t, s.quoteId), s) && WakeOk(bus, s)
    ensures
      var s' := SubscriberStep(s, bus, t, step);
      s'.quoteId == s.quoteId && SubscriberOk(LogOf(t, s.quoteId), s') && WakeOk(bus, s')
  {
    var log := LogOf(t, s.quoteId);
    hide SubscriberOk, WakeOk, Ledger, LogOf;
    match step
    case EmitCatchup(_) => if s.phase.CatchupDue? { SendCatchupKeeps(log, bus, s); }
    case EmitSnapshot(_) => if s.phase.SnapshotDue? { SendSnapshotKeeps(log, bus, s); }
    case CheckHead(_) => if s.phase.HeadCheckDue? && s.quoteId in bus { HeadReadKeeps(log, bus, s); }
    case Load(_) => if s.phase.Loading? { LoadChunkKeeps(t, bus, s); }
    case FailLoad(_) => if s.phase.Loading? { LoadFailedKeeps(log, bus, s); }
    case EmitTail(_) => if s.phase.Sending? { SendTailKeeps(log, bus, s); }
    case Wake(_) => if s.phase.Parked? && s.quoteId in bus { WakeKeeps(log, bus, s); }
    case ReadHead(_) => if s.phase.Woken? && s.quoteId in bus { HeadReadKeeps(log, bus, s); }
    case Disconnect(_) => DisconnectKeeps(log, bus, s);
    case _ =>
  }

  lemma InitialQueries(t: Tables, q: QuoteId, after: nat)
    requires Ledger(t) && after <= |LogOf(t, q)|
    ensures
      var log := LogOf(t, q);
      && |LoadAll(t, q)| == |log| && EventsOf(LoadAll(t, q)) == log
      && (log != [] ==> LoadAll(t, q)[|log| - 1].seqNo == |log|)
      && LoadBetween(t, q, after, |log|) == Slice(q, log, after, |log|)
  {
    var log := LogOf(t, q);
    LoadAllIsLog(t, q);
    LoadBetweenIsSlice(t, q, after, |log|);
    assert log[0..|log|] == log;
    hide LogOf, LoadAll, LoadBetween, Ledger;
    assert EventsOf(Slice(q, log, 0, |log|)) == log;
  }

  lemma OpenIs(t: Tables, q: QuoteId, after: nat)
    requires Ledger(t)
    ensures
      var log := LogOf(t, q);
      && Replay(log).Ok? && ViewOf(q, Replay(log).value).Ok?
      && Open(t, q, after) ==
         if after > |log| then Err(InvalidAfterSeq(after, |log|))
         else
           Ok(Subscriber(
               q, after, |log|, ViewOf(q, Replay(log).value).value, Slice(q, log, after, |log|), Loaded, after, 0, []))
  {
    hide Ledger, LoadAll, LoadBetween, LogOf, EventsOf, Slice, ViewOf, Replay;
    var log := LogOf(t, q);
    LedgerLogIsProduced(t, q);
    InitialQueries(t, q, if after <= |log| then after else 0);
    InitialReplay(q, log);
    EmptySlice(q, log);
  }

  lemma LedgerLogIsProduced(t: Tables, q: QuoteId)
    requires Ledger(t)
    ensures Produced(LogOf(t, q))
  {
    hide Produced, LogOf, Consistent;
  }

  lemma EmptySlice(q: QuoteId, log: Log)
    ensures Slice(q, log, |log|, |log|) == []
  {
  }

  /** On a ledger the initial read fails only on an after_seq ahead of the head. */
  lemma OpenOnLedger(t: Tables, q: QuoteId, after: nat)
    requires Ledger(t)
    ensures Open(t, q, after).Ok? <==> after <= |LogOf(t, q)|
    ensures after > |LogOf(t, q)| ==> Open(t, q, after) == Err(InvalidAfterSeq(after, |LogOf(t, q)|))
    ensures Open(t, q, after).Ok? ==>
              var s := Open(t, q, after).value;
              && SubscriberOk(LogOf(t, q), s)
              && s.quoteId == q && s.after == after && s.lastSeq == |LogOf(t, q)| && s.phase.Loaded? && s.out == []
  {
    hide Ledger, Open, LogOf, Slice, ViewOf, Replay;
    var log := LogOf(t, q);
    OpenIs(t, q, after);
    assert log[..|log|] == log;
  }

  lemma InitialReplay(q: QuoteId, log: Log)
    requires Produced(log)
    ensures log == log[..|log|]
    ensures Replay(log).Ok? && ViewOf(q, Replay(log).value).Ok?
  {
    assert log[..|log|] == log;
    ViewNeverFails(q, log, |log|);
  }

  // ---------------------------------------------------------------- steps of the machine

  lemma InvOnSubscriberUpdate(m: Machine, id: nat, s: Subscriber)
    requires Inv(m) && SubscriberOk(LogOf(m.tables, s.quoteId), s) && WakeOk(m.bus, s)
    ensures Inv(m.(subscribers := m.subscribers[id := s]))
  {
    hide Ledger, LogOf, SubscriberOk, WakeOk;
  }

  lemma WakeOkOnPublish(bus: Bus, q: QuoteId, head: nat, s: Subscriber)
    requires WakeOk(bus, s)
    ensures WakeOk(Publish(bus, q, head), s)
  {
  }

  lemma InvOnPublish(m: Machine, q: QuoteId, head: nat)
    requires Inv(m) && head <= |LogOf(m.tables, q)|
    ensures Inv(m.(bus := Publish(m.bus, q, head)))
  {
    hide Ledger, LogOf, SubscriberOk, WakeOk;
    forall id | id in m.subscribers
      ensures WakeOk(Publish(m.bus, q, head), m.subscribers[id])
    {
      WakeOkOnPublish(m.bus, q, head, m.subscribers[id]);
    }
  }

  lemma RunClosureKeeps(m: Machine, r: Request)
    requires Inv(m)
    ensures Inv(RunClosure(m, r)) && Grown(m.tables, RunClosure(m, r).tables)
  {
    hide Ledger, LogOf, AppendOne;
    AppendOneKeepsLedger(m.tables, r);
    InvOnGrownTables(m, AppendOne(m.tables, r).0);
    InvOnTasks(m.(tables := AppendOne(m.tables, r).0), RunClosure(m, r));
  }

  /** The history variables and the counter play no part in the invariant. */
  lemma InvOnTasks(m: Machine, m': Machine)
    requires Inv(m) && m'.tables == m.tables && m'.bus == m.bus && m'.subscribers == m.subscribers
    requires TasksOk(m'.tables, m'.appends)
    ensures Inv(m')
  {
    hide Ledger, LogOf, SubscriberOk, WakeOk;
  }

  /** What a committed append publishes lies in the log. */
  lemma CommittedSeqInLog(t: Tables, r: Request)
    requires Ledger(t) && AppendOne(t, r).1.Ok?
    ensures
      var stored := AppendOne(t, r).1.value;
      && |stored| == 1 && 1 <= stored[0].seqNo <= |LogOf(AppendOne(t, r).0, r.quoteId)|
      && stored[0] == StoredEvent(stored[0].seqNo, r.quoteId, LogOf(AppendOne(t, r).0, r.quoteId)[stored[0].seqNo - 1])
  {
    hide AppendOne, Ledger, LogOf;
    AppendOneKeepsLedger(t, r);
    var k :| && Settled(AppendOne(t, r).0, r, k)
             && AppendOne(t, r).1 == Ok([StoredEvent(k, r.quoteId, EventOf(r.command.value))]);
    EntryOf(BookOf(AppendOne(t, r).0, r.quoteId), r.clientCommandId, r.command.value, k);
  }

  lemma DoCommitKeeps(m: Machine, id: nat, r: Request)
    requires Inv(m) && id in m.appends
    ensures Inv(DoCommit(m, id, r)) && Grown(m.tables, DoCommit(m, id, r).tables)
  {
    hide Ledger, LogOf, AppendOne, SubscribersOk, BusOk, Grown;
    RunClosureKeeps(m, r);
    if AppendOne(m.tables, r).1.Ok? {
      CommittedSeqInLog(m.tables, r);
    }
    InvOnTasks(RunClosure(m, r), DoCommit(m, id, r));
  }

  lemma DoPublishKeeps(m: Machine, id: nat, q: QuoteId, last: nat)
    requires Inv(m) && last <= |LogOf(m.tables, q)|
    ensures Inv(DoPublish(m, id, q, last)) && DoPublish(m, id, q, last).tables == m.tables
  {
    hide Ledger, LogOf, SubscribersOk, BusOk;
    InvOnPublish(m, q, last);
    InvOnTasks(m.(bus := Publish(m.bus, q, last)), DoPublish(m, id, q, last));
  }

  /** Steps that only add or remove tasks that hold no committed entry, or remove any task. */
  lemma TaskBookkeepingKeeps(m: Machine, m': Machine)
    requires Inv(m) && m'.tables == m.tables && m'.bus == m.bus && m'.subscribers == m.subscribers
    requires forall id :: id in m'.appends && m'.appends[id].Committed? ==>
               id in m.appends && m.appends[id] == m'.appends[id]
    ensures Inv(m') && Grown(m.tables, m'.tables)
  {
    hide Ledger, LogOf, SubscribersOk, BusOk;
  }

  lemma DoAppendKeeps(m: Machine, step: Step)
    requires Inv(m)
    ensures Inv(DoAppend(m, step)) && Grown(m.tables, DoAppend(m, step).tables)
  {
    hide Inv, Grown, LogOf, AppendOne, DoCommit, DoPublish, RunClosure;
    if step.CommitAppend? && step.id in m.appends && m.appends[step.id].Running? {
      DoCommitKeeps(m, step.id, m.appends[step.id].request);
    } else if step.PublishAppend? && step.id in m.appends && m.appends[step.id].Committed? {
      HeldEntryInLog(m, step.id);
      DoPublishKeeps(m, step.id, m.appends[step.id].quoteId, m.appends[step.id].last);
      SameTablesGrown(m.tables);
    } else if step.CommitDetached? && step.id in m.detached {
      var m1 := RunClosure(m, m.detached[step.id]);
      RunClosureKeeps(m, m.detached[step.id]);
      SameTablesGrown(m1.tables);
      TaskBookkeepingKeeps(m1, DoAppend(m, step));
    } else {
      TaskBookkeepingKeeps(m, DoAppend(m, step));
    }
  }

  lemma SameTablesGrown(t: Tables)
    ensures Grown(t, t)
  {
  }

  lemma HeldEntryInLog(m: Machine, id: nat)
    requires Inv(m) && id in m.appends && m.appends[id].Committed?
    ensures m.appends[id].last <= |LogOf(m.tables, m.appends[id].quoteId)|
  {
    hide Ledger, LogOf, SubscribersOk, BusOk;
  }

  lemma DoRegisterKeeps(m: Machine, id: nat, s: Subscriber)
    requires Inv(m) && s.phase.Loaded? && SubscriberOk(LogOf(m.tables, s.quoteId), s)
    ensures Inv(DoRegister(m, id, s))
  {
    InvOnPublish(m, s.quoteId, s.lastSeq);
    var m1 := m.(bus := Publish(m.bus, s.quoteId, s.lastSeq));
    var s' := s.(phase := CatchupDue, seen := m1.bus[s.quoteId].version);
    hide Ledger, LogOf, Chain, SnapshotOf, Slice, SubscribersOk, BusOk, TasksOk, SnapshotSent;
    assert SubscriberOk(LogOf(m.tables, s.quoteId), s');
    assert WakeOk(m1.bus, s');
    hide SubscriberOk, WakeOk;
    InvOnSubscriberUpdate(m1, id, s');
  }

  lemma DoSubscriberKeeps(m: Machine, step: Step)
    requires Inv(m) && !IsAppendStep(step)
    ensures Inv(DoSubscriber(m, step)) && DoSubscriber(m, step).tables == m.tables
  {
    hide Ledger, LogOf, SubscriberOk, WakeOk, SubscriberStep, BusOk;
    if step.Subscribe? {
      OpenOnLedger(m.tables, step.quoteId, step.after);
      var session := Open(m.tables, step.quoteId, step.after);
      if session.Ok? {
        LoadedIsAwake(m.bus, session.value);
        InvOnSubscriberUpdate(m, step.id, session.value);
      }
    } else if step.id in m.subscribers {
      var s := m.subscribers[step.id];
      if !step.Register? {
        SubscriberStepKeeps(m.tables, m.bus, s, step);
        InvOnSubscriberUpdate(m, step.id, SubscriberStep(s, m.bus, m.tables, step));
      } else if s.phase.Loaded? {
        DoRegisterKeeps(m, step.id, s);
      }
    }
  }

  lemma LoadedIsAwake(bus: Bus, s: Subscriber)
    requires s.phase.Loaded?
    ensures WakeOk(bus, s)
  {
  }

  lemma DoKeeps(m: Machine, step: Step)
    requires Inv(m)
    ensures Inv(Do(m, step)) && Grown(m.tables, Do(m, step).tables)
  {
    hide Inv, DoAppend, DoSubscriber, LogOf;
    if IsAppendStep(step) {
      DoAppendKeeps(m, step);
    } else {
      DoSubscriberKeeps(m, step);
    }
  }

  /** Every run keeps the invariant, and logs only grow along it. */
  lemma {:induction false} RunKeeps(m: Machine, steps: seq<Step>)
    requires Inv(m)
    ensures Inv(RunFrom(m, steps)) && Grown(m.tables, RunFrom(m, steps).tables)
  {
    hide Inv, Do, LogOf;
    if steps != [] {
      RunKeeps(m, steps[..|steps| - 1]);
      DoKeeps(RunFrom(m, steps[..|steps| - 1]), steps[|steps| - 1]);
    }
  }

  lemma EveryRunKeepsInv(steps: seq<Step>)
    ensures Inv(Run(steps))
  {
    EmptyTablesAreALedger();
    hide RunFrom, Ledger;
    assert Inv(INITIAL);
    RunKeeps(INITIAL, steps);
  }
}
