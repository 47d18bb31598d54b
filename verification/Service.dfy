/**
  The running service of src/ledger.rs as a step machine: any number of append tasks and subscribers,
  interleaved. A database closure is one step (it runs under the connection mutex), a bus-lock section is
  one step, and everything between two awaits of a subscriber's pump is one step. A step that is not
  enabled leaves the machine as it is, so every sequence of steps is a run.
*/
module Service {
  import opened Wrappers
  import opened QuoteLog
  import opened Tables
  import opened Appending

  const SUBSCRIBE_DB_MAX_ATTEMPTS := 8

  /** A watch channel: its current value, and a version that every send bumps, even with the same value. */
  datatype Watch = Watch(value: nat, version: nat)

  type Bus = map<QuoteId, Watch>

  /** publish_head: create the channel if there is none, then replace the value. */
  function Publish(bus: Bus, q: QuoteId, head: nat): Bus {
    bus[q := Watch(head, if q in bus then bus[q].version + 1 else 1)]
  }

  // ---------------------------------------------------------------- append tasks

  /** An append task whose in-flight guard is alive. */
  datatype AppendTask =
    | Running(request: Request)
    | Committed(quoteId: QuoteId, last: nat)
    | Published

  /** One database closure of an append, in the order the closures ran. */
  datatype Op = Op(request: Request, result: Result<seq<StoredEvent>, Status>)

  // ---------------------------------------------------------------- subscribers

  datatype Update =
    | Tail(fromSeqExclusive: nat, toSeqInclusive: nat, events: seq<StoredEvent>)
    | Snapshot(lastSeq: nat, view: QuoteView)

  datatype Phase =
    | Loaded                                          // initial read done, not on the bus yet
    | CatchupDue                                      // on the bus; the pump has been spawned
    | SnapshotDue
    | HeadCheckDue                                    // before the first borrow of the watch
    | Loading(head: nat, attempt: nat)                // head > watermark was read
    | Sending(target: nat, chunk: seq<StoredEvent>)   // the range up to target was loaded
    | Parked                                          // in changed().await
    | Woken                                           // changed() returned, the head is not read yet
    | Closed(failed: bool)                            // failed: the stream ended with an error status

  /**
    A subscription. The watermark counts what has been sent: until the snapshot it is the requested
    after_seq plus the catch-up, from then on it is the pump's own variable.
  */
  datatype Subscriber = Subscriber(
    quoteId: QuoteId, after: nat, lastSeq: nat, view: QuoteView, catchup: seq<StoredEvent>,
    phase: Phase, watermark: nat, seen: nat, out: seq<Update>)

  /** The initial database closure of subscribe_quote. */
  function Open(t: Tables, q: QuoteId, after: nat): Result<Subscriber, StoreError> {
    var all := LoadAll(t, q);
    var last := if all == [] then 0 else all[|all| - 1].seqNo;
    if after > last then Err(InvalidAfterSeq(after, last))
    else
      match Replay(EventsOf(all))
      case Err(e) => Err(DomainFailure(e))
      case Ok(state) =>
        match ViewOf(q, state)
        case Err(e) => Err(DomainFailure(e))
        case Ok(view) =>
          var catchup := if after < last then LoadBetween(t, q, after, last) else [];
          Ok(Subscriber(q, after, last, view, catchup, Loaded, after, 0, []))
  }

  function SendCatchup(s: Subscriber): Subscriber {
    if s.catchup == [] then s.(phase := SnapshotDue)
    else
      var to := s.catchup[|s.catchup| - 1].seqNo;
      s.(phase := SnapshotDue, watermark := to, out := s.out + [Tail(s.after, to, s.catchup)])
  }

  function SendSnapshot(s: Subscriber): Subscriber {
    s.(phase := HeadCheckDue, watermark := s.lastSeq, out := s.out + [Snapshot(s.lastSeq, s.view)])
  }

  /** The head has been read, by the first check or after a wake-up. */
  function HeadRead(s: Subscriber, head: nat): Subscriber {
    s.(phase := if head > s.watermark then Loading(head, 0) else Parked)
  }

  function LoadChunk(s: Subscriber, t: Tables): Subscriber
    requires s.phase.Loading?
  {
    var chunk := LoadBetween(t, s.quoteId, s.watermark, s.phase.head);
    if chunk == [] then s.(phase := Parked, watermark := s.phase.head)
    else s.(phase := Sending(s.phase.head, chunk))
  }

  /** A failed read is retried; the last failed attempt ends the stream with an error. */
  function LoadFailed(s: Subscriber): Subscriber
    requires s.phase.Loading?
  {
    if s.phase.attempt + 1 >= SUBSCRIBE_DB_MAX_ATTEMPTS then s.(phase := Closed(true))
    else s.(phase := Loading(s.phase.head, s.phase.attempt + 1))
  }

  function SendTail(s: Subscriber): Subscriber
    requires s.phase.Sending?
  {
    var to := if s.phase.chunk == [] then s.watermark else s.phase.chunk[|s.phase.chunk| - 1].seqNo;
    s.(phase := Parked, watermark := s.phase.target, out := s.out + [Tail(s.watermark, to, s.phase.chunk)])
  }

  // ---------------------------------------------------------------- the machine

  datatype Machine = Machine(
    tables: Tables,
    bus: Bus,
    inFlight: int,
    appends: map<nat, AppendTask>,
    detached: map<nat, Request>,            // closures whose task was cancelled while they were queued
    subscribers: map<nat, Subscriber>,
    history: seq<Op>,                       // history variable: the append closures, in commit order
    published: set<(QuoteId, nat)>,         // history variable: what append tasks have published
    cancelled: bool)                        // history variable: whether any append task was cancelled

  const INITIAL := Machine(EMPTY_TABLES, map[], 0, map[], map[], map[], [], {}, false)

  datatype Step =
    | BeginAppend(id: nat, request: Request)
    | CommitAppend(id: nat)
    | FailAppend(id: nat)
    | PublishAppend(id: nat)
    | EndAppend(id: nat)
    | CancelAppend(id: nat)
    | CommitDetached(id: nat)
    | DropDetached(id: nat)
    | Subscribe(id: nat, quoteId: QuoteId, after: nat)
    | Register(id: nat)
    | EmitCatchup(id: nat)
    | EmitSnapshot(id: nat)
    | CheckHead(id: nat)
    | Load(id: nat)
    | FailLoad(id: nat)
    | EmitTail(id: nat)
    | Wake(id: nat)
    | ReadHead(id: nat)
    | Disconnect(id: nat)

  /** Dropping the guard: the task is gone and the counter goes down by one. */
  function Leave(m: Machine, id: nat): Machine {
    m.(appends := m.appends - {id}, inFlight := m.inFlight - 1)
  }

  /** The append closure runs to completion against the tables. */
  function RunClosure(m: Machine, r: Request): Machine {
    var (t, result) := AppendOne(m.tables, r);
    m.(tables := t, history := m.history + [Op(r, result)])
  }

  function DoCommit(m: Machine, id: nat, r: Request): Machine {
    var m' := RunClosure(m, r);
    match AppendOne(m.tables, r).1
    case Err(_) => Leave(m', id)
    case Ok(stored) =>
      var next := if stored == [] then Published else Committed(r.quoteId, stored[|stored| - 1].seqNo);
      m'.(appends := m'.appends[id := next])
  }

  function DoPublish(m: Machine, id: nat, q: QuoteId, last: nat): Machine {
    m.(bus := Publish(m.bus, q, last),
       published := m.published + {(q, last)},
       appends := m.appends[id := Published])
  }

  /** A cancelled task drops its guard at once, but a closure already handed to the blocking pool still runs. */
  function DoCancel(m: Machine, id: nat, task: AppendTask): Machine {
    var m' := Leave(m, id).(cancelled := true);
    if task.Running? then m'.(detached := m.detached[id := task.request]) else m'
  }

  function DoAppend(m: Machine, step: Step): Machine {
    match step
    case BeginAppend(id, r) =>
      if id in m.appends || id in m.detached then m
      else m.(appends := m.appends[id := Running(r)], inFlight := m.inFlight + 1)
    case CommitAppend(id) =>
      if id in m.appends && m.appends[id].Running? then DoCommit(m, id, m.appends[id].request) else m
    case FailAppend(id) =>
      if id in m.appends && m.appends[id].Running? then Leave(m, id) else m
    case PublishAppend(id) =>
      if id in m.appends && m.appends[id].Committed?
      then DoPublish(m, id, m.appends[id].quoteId, m.appends[id].last) else m
    case EndAppend(id) =>
      if id in m.appends && m.appends[id].Published? then Leave(m, id) else m
    case CancelAppend(id) =>
      if id in m.appends then DoCancel(m, id, m.appends[id]) else m
    case CommitDetached(id) =>
      if id in m.detached then RunClosure(m, m.detached[id]).(detached := m.detached - {id}) else m
    case DropDetached(id) =>
      m.(detached := m.detached - {id})
    case _ => m
  }

  function SubscriberStep(s: Subscriber, bus: Bus, t: Tables, step: Step): Subscriber {
    match step
    case EmitCatchup(_) => if s.phase.CatchupDue? then SendCatchup(s) else s
    case EmitSnapshot(_) => if s.phase.SnapshotDue? then SendSnapshot(s) else s
    case CheckHead(_) => if s.phase.HeadCheckDue? && s.quoteId in bus then HeadRead(s, bus[s.quoteId].value) else s
    case Load(_) => if s.phase.Loading? then LoadChunk(s, t) else s
    case FailLoad(_) => if s.phase.Loading? then LoadFailed(s) else s
    case EmitTail(_) => if s.phase.Sending? then SendTail(s) else s
    case Wake(_) =>
      if s.phase.Parked? && s.quoteId in bus && bus[s.quoteId].version != s.seen
      then s.(phase := Woken, seen := bus[s.quoteId].version) else s
    case ReadHead(_) => if s.phase.Woken? && s.quoteId in bus then HeadRead(s, bus[s.quoteId].value) else s
    case Disconnect(_) => if s.phase.Closed? then s else s.(phase := Closed(false))
    case _ => s
  }

  /** The new subscriber overwrites the head with its own last_seq before it subscribes to the channel. */
  function DoRegister(m: Machine, id: nat, s: Subscriber): Machine {
    var bus := Publish(m.bus, s.quoteId, s.lastSeq);
    m.(bus := bus,
       subscribers := m.subscribers[id := s.(phase := CatchupDue, seen := bus[s.quoteId].version)])
  }

  function DoSubscriber(m: Machine, step: Step): Machine {
    match step
    case Subscribe(id, q, after) =>
      if id in m.subscribers then m
      else
        var session := Open(m.tables, q, after);
        if session.Err? then m else m.(subscribers := m.subscribers[id := session.value])
    case Register(id) =>
      if id in m.subscribers && m.subscribers[id].phase.Loaded? then DoRegister(m, id, m.subscribers[id]) else m
    case _ =>
      if step.id in m.subscribers
      then m.(subscribers := m.subscribers[step.id := SubscriberStep(m.subscribers[step.id], m.bus, m.tables, step)])
      else m
  }

  predicate IsAppendStep(step: Step) {
    || step.BeginAppend? || step.CommitAppend? || step.FailAppend? || step.PublishAppend?
    || step.EndAppend? || step.CancelAppend? || step.CommitDetached? || step.DropDetached?
  }

  function Do(m: Machine, step: Step): Machine {
    if IsAppendStep(step) then DoAppend(m, step) else DoSubscriber(m, step)
  }

  function RunFrom(m: Machine, steps: seq<Step>): Machine {
    if steps == [] then m else Do(RunFrom(m, steps[..|steps| - 1]), steps[|steps| - 1])
  }

  /** The state a run of the service reaches. Every reachable state is Run(steps) for some steps. */
  function Run(steps: seq<Step>): Machine {
    RunFrom(INITIAL, steps)
  }

  lemma {:induction false} RunInParts(m: Machine, a: seq<Step>, b: seq<Step>)
    ensures RunFrom(m, a + b) == RunFrom(RunFrom(m, a), b)
    decreases |b|
  {
    hide Do;
    if b == [] {
      assert a + b == a;
    } else {
      var n := |b| - 1;
      assert (a + b)[..|a| + n] == a + b[..n];
      RunInParts(m, a, b[..n]);
    }
  }

  lemma RunOneMore(m: Machine, steps: seq<Step>, step: Step)
    ensures RunFrom(m, steps + [step]) == Do(RunFrom(m, steps), step)
  {
    assert (steps + [step])[..|steps|] == steps;
  }
}
