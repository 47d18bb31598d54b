/**
  Progress of the pump. A live subscriber needs at most eleven steps of its own, and none of anybody
  else's, to have sent everything up to the published head; what it has sent then is exactly determined.
*/
module Pump {
  import opened QuoteLog
  import opened Tables
  import opened Appending
  import opened Service
  import opened Delivery
  import opened Guarantees

  /** Every step a pump may still have to take; the ones that are not enabled change nothing. */
  function PumpSteps(id: nat): seq<Step> {
    [Register(id), EmitCatchup(id), EmitSnapshot(id), CheckHead(id), ReadHead(id), Load(id), EmitTail(id),
     Wake(id), ReadHead(id), Load(id), EmitTail(id)]
  }

  predicate PumpStep(step: Step) {
    !IsAppendStep(step) && !step.Subscribe? && !step.Register?
  }

  /** From m to m' nothing but subscribers changed. */
  predicate Beside(m: Machine, m': Machine) {
    m' == m.(subscribers := m'.subscribers)
  }

  /** From m to m' nothing but subscribers changed, and subscriber id has become s. */
  predicate Became(m: Machine, id: nat, m': Machine, s: Subscriber) {
    Beside(m, m') && id in m'.subscribers && m'.subscribers[id] == s
  }

  lemma OwnStepIs(m: Machine, id: nat, step: Step)
    requires id in m.subscribers && step.id == id && PumpStep(step)
    ensures Became(m, id, Do(m, step), SubscriberStep(m.subscribers[id], m.bus, m.tables, step))
  {
    hide SubscriberStep;
  }

  lemma SameQuote(s: Subscriber, bus: Bus, t: Tables, step: Step)
    ensures SubscriberStep(s, bus, t, step).quoteId == s.quoteId
  {
    hide LoadBetween;
  }

  /** One own step of a subscriber changes that subscriber only. */
  lemma OwnStep(m: Machine, id: nat, step: Step)
    requires Inv(m) && id in m.subscribers && step.id == id && PumpStep(step)
    ensures
      var s' := SubscriberStep(m.subscribers[id], m.bus, m.tables, step);
      Became(m, id, Do(m, step), s') && Inv(Do(m, step)) && s'.quoteId == m.subscribers[id].quoteId
  {
    hide Inv, Do, SubscriberStep;
    DoKeeps(m, step);
    OwnStepIs(m, id, step);
    SameQuote(m.subscribers[id], m.bus, m.tables, step);
  }

  lemma TwoOwnSteps(m: Machine, id: nat, a: Step, b: Step)
    requires Inv(m) && id in m.subscribers && a.id == b.id == id && PumpStep(a) && PumpStep(b)
    ensures
      var s' := SubscriberStep(SubscriberStep(m.subscribers[id], m.bus, m.tables, a), m.bus, m.tables, b);
      Became(m, id, Do(Do(m, a), b), s') && Inv(Do(Do(m, a), b)) && s'.quoteId == m.subscribers[id].quoteId
  {
    hide Inv, Do, SubscriberStep, PumpStep;
    OwnStep(m, id, a);
    OwnStep(Do(m, a), id, b);
  }

  ghost predicate UpToDate(m: Machine, s: Subscriber) {
    s.quoteId in m.bus && s.seen == m.bus[s.quoteId].version
  }

  lemma BusEntry(m: Machine, id: nat)
    requires Inv(m) && id in m.subscribers && OnBus(m.subscribers[id])
    ensures m.subscribers[id].quoteId in m.bus
    ensures m.bus[m.subscribers[id].quoteId].value <= |LogOf(m.tables, m.subscribers[id].quoteId)|
  {
  }

  lemma SubscriberInv(m: Machine, id: nat)
    requires Inv(m) && id in m.subscribers
    ensures Ledger(m.tables) && SubscriberOk(LogOf(m.tables, m.subscribers[id].quoteId), m.subscribers[id])
  {
  }

  predicate HeadKnown(s: Subscriber) {
    s.phase.Loading? || s.phase.Sending? || s.phase.Parked?
  }

  /** The phases before the loop, and a wake-up in progress, end in a head being known. */
  lemma ProloguePhases(s: Subscriber, bus: Bus, t: Tables, id: nat)
    requires OnBus(s) && s.quoteId in bus
    ensures
      var s1 := SubscriberStep(s, bus, t, EmitCatchup(id));
      var s2 := SubscriberStep(s1, bus, t, EmitSnapshot(id));
      var s3 := SubscriberStep(s2, bus, t, CheckHead(id));
      var s4 := SubscriberStep(s3, bus, t, ReadHead(id));
      HeadKnown(s4) && s4.quoteId == s.quoteId
  {
  }

  /** After Register: everything the pump still has to do before its loop. */
  lemma Prologue(m: Machine, id: nat) returns (m': Machine)
    requires Inv(m) && id in m.subscribers && OnBus(m.subscribers[id])
    ensures m' == Do(Do(Do(Do(m, EmitCatchup(id)), EmitSnapshot(id)), CheckHead(id)), ReadHead(id))
    ensures Inv(m') && id in m'.subscribers
    ensures Beside(m, m') && m'.subscribers[id].quoteId == m.subscribers[id].quoteId
    ensures HeadKnown(m'.subscribers[id])
  {
    hide Inv, Do, OnBus, SubscriberStep, HeadKnown;
    BusEntry(m, id);
    ProloguePhases(m.subscribers[id], m.bus, m.tables, id);
    TwoOwnSteps(m, id, EmitCatchup(id), EmitSnapshot(id));
    var m2 := Do(Do(m, EmitCatchup(id)), EmitSnapshot(id));
    TwoOwnSteps(m2, id, CheckHead(id), ReadHead(id));
    m' := Do(Do(m2, CheckHead(id)), ReadHead(id));
  }

  lemma LoadStep(m: Machine, id: nat)
    requires Inv(m) && id in m.subscribers && m.subscribers[id].phase.Loading?
    ensures
      var s := m.subscribers[id];
      var log := LogOf(m.tables, s.quoteId);
      && s.watermark < s.phase.head <= |log|
      && var s' := s.(phase := Sending(s.phase.head, Slice(s.quoteId, log, s.watermark, s.phase.head)));
      Became(m, id, Do(m, Load(id)), s') && Inv(Do(m, Load(id)))
  {
    hide Inv, Do, Ledger, LogOf, SubscriberOk, Slice, LoadChunk;
    SubscriberInv(m, id);
    LoadChunkIs(m.tables, m.subscribers[id]);
    OwnStep(m, id, Load(id));
  }

  lemma LoadChunkIs(t: Tables, s: Subscriber)
    requires Ledger(t) && SubscriberOk(LogOf(t, s.quoteId), s) && s.phase.Loading?
    ensures s.watermark < s.phase.head <= |LogOf(t, s.quoteId)|
    ensures LoadChunk(s, t) ==
            s.(phase := Sending(s.phase.head, Slice(s.quoteId, LogOf(t, s.quoteId), s.watermark, s.phase.head)))
  {
    hide Ledger, LogOf, SubscriberOk, LoadBetween, Slice;
    LoadIsSlice(t, s);
    SliceEnds(s.quoteId, LogOf(t, s.quoteId), s.watermark, s.phase.head);
  }

  lemma SendStep(m: Machine, id: nat)
    requires Inv(m) && id in m.subscribers && m.subscribers[id].phase.Sending?
    ensures
      var s := m.subscribers[id];
      var log := LogOf(m.tables, s.quoteId);
      var target := s.phase.target;
      && s.watermark < target <= |log|
      && var s' := s.(phase := Parked, watermark := target,
                      out := s.out + [Tail(s.watermark, target, Slice(s.quoteId, log, s.watermark, target))]);
      Became(m, id, Do(m, EmitTail(id)), s') && Inv(Do(m, EmitTail(id)))
  {
    hide Inv, Do, Ledger, LogOf, SubscriberOk, Slice, SendTail;
    SubscriberInv(m, id);
    SendTailIs(LogOf(m.tables, m.subscribers[id].quoteId), m.subscribers[id]);
    OwnStep(m, id, EmitTail(id));
  }

  lemma SendTailIs(log: Log, s: Subscriber)
    requires SubscriberOk(log, s) && s.phase.Sending?
    ensures s.watermark < s.phase.target <= |log|
    ensures SendTail(s) ==
            s.(phase := Parked, watermark := s.phase.target,
               out := s.out + [Tail(s.watermark, s.phase.target, Slice(s.quoteId, log, s.watermark, s.phase.target))])
  {
    hide Slice, Chain, SnapshotOf, SnapshotSent;
    SliceEnds(s.quoteId, log, s.watermark, s.phase.target);
  }

  /** From s to s' one tail has been sent, from the watermark up to head. */
  ghost predicate SentUpTo(log: Log, s: Subscriber, s': Subscriber, head: nat) {
    && s.watermark < head <= |log|
    && s'.watermark == head
    && s'.out == s.out + [Tail(s.watermark, head, Slice(s.quoteId, log, s.watermark, head))]
  }

  /** Load and send: a pump that knows a head reaches the park with everything up to that head sent. */
  lemma LoadAndSend(m: Machine, id: nat) returns (m': Machine)
    requires Inv(m) && id in m.subscribers && HeadKnown(m.subscribers[id])
    ensures m' == Do(Do(m, Load(id)), EmitTail(id))
    ensures Inv(m') && id in m'.subscribers && Beside(m, m')
    ensures m'.subscribers[id].quoteId == m.subscribers[id].quoteId
    ensures m'.subscribers[id].phase.Parked? && m'.subscribers[id].seen == m.subscribers[id].seen
    ensures m.subscribers[id].phase.Parked? ==> m'.subscribers[id] == m.subscribers[id]
    ensures m.subscribers[id].phase.Loading? ==>
              var s := m.subscribers[id];
              SentUpTo(LogOf(m.tables, s.quoteId), s, m'.subscribers[id], s.phase.head)
  {
    hide Inv, Do, LogOf, Slice;
    OwnStep(m, id, Load(id));
    if m.subscribers[id].phase.Loading? {
      LoadStep(m, id);
    }
    var m1 := Do(m, Load(id));
    OwnStep(m1, id, EmitTail(id));
    if m1.subscribers[id].phase.Sending? {
      SendStep(m1, id);
    }
    m' := Do(m1, EmitTail(id));
  }

  lemma WakeAndRead(s: Subscriber, bus: Bus, t: Tables, id: nat)
    requires s.phase.Parked? && s.quoteId in bus
    ensures
      var s1 := SubscriberStep(s, bus, t, Wake(id));
      var s2 := SubscriberStep(s1, bus, t, ReadHead(id));
      s2 == AfterWake(s, bus[s.quoteId])
  {
  }

  function AfterWake(s: Subscriber, watch: Watch): Subscriber {
    if watch.version == s.seen then s
    else s.(seen := watch.version, phase := if watch.value > s.watermark then Loading(watch.value, 0) else Parked)
  }

  lemma WakeTurn(m: Machine, id: nat) returns (m': Machine)
    requires Inv(m) && id in m.subscribers && m.subscribers[id].phase.Parked?
    requires m.subscribers[id].quoteId in m.bus
    ensures m' == Do(Do(m, Wake(id)), ReadHead(id))
    ensures Inv(m') && Became(m, id, m', AfterWake(m.subscribers[id], m.bus[m.subscribers[id].quoteId]))
  {
    hide Inv, Do, SubscriberStep, AfterWake;
    WakeAndRead(m.subscribers[id], m.bus, m.tables, id);
    TwoOwnSteps(m, id, Wake(id), ReadHead(id));
    m' := Do(Do(m, Wake(id)), ReadHead(id));
  }

  /** One turn of the loop: wake on an unseen version, read the head, load, send, park. */
  lemma LoopTurn(m: Machine, id: nat) returns (m': Machine)
    requires Inv(m) && id in m.subscribers && m.subscribers[id].phase.Parked?
    ensures m' == Do(Do(Do(Do(m, Wake(id)), ReadHead(id)), Load(id)), EmitTail(id))
    ensures Inv(m') && id in m'.subscribers && Beside(m, m')
    ensures m'.subscribers[id].quoteId == m.subscribers[id].quoteId
    ensures m'.subscribers[id].phase.Parked? && UpToDate(m', m'.subscribers[id])
    ensures
      var s, s' := m.subscribers[id], m'.subscribers[id];
      s.quoteId in m.bus &&
      var head := m.bus[s.quoteId].value;
      if head > s.watermark && !UpToDate(m, s)
      then SentUpTo(LogOf(m.tables, s.quoteId), s, s', head)
      else s'.watermark == s.watermark && s'.out == s.out
  {
    hide Inv, Do, LogOf, SentUpTo;
    BusEntry(m, id);
    var m1 := WakeTurn(m, id);
    SentFromSameStart(LogOf(m.tables, m.subscribers[id].quoteId), m.subscribers[id], m1.subscribers[id]);
    m' := LoadAndSend(m1, id);
  }

  lemma SentFromSameStart(log: Log, s: Subscriber, s1: Subscriber)
    requires s1.watermark == s.watermark && s1.out == s.out && s1.quoteId == s.quoteId
    ensures forall s', head: nat :: SentUpTo(log, s1, s', head) == SentUpTo(log, s, s', head)
  {
  }

  lemma RunTwo(m: Machine, steps: seq<Step>, a: Step, b: Step)
    ensures RunFrom(m, steps + [a, b]) == Do(Do(RunFrom(m, steps), a), b)
  {
    RunOneMore(m, steps, a);
    RunOneMore(m, steps + [a], b);
    assert steps + [a, b] == (steps + [a]) + [b];
  }

  /** The eleven steps, grouped as the lemmas above group them. */
  lemma PumpStepsInOrder(m: Machine, id: nat)
    ensures
      var m1 := Do(m, Register(id));
      var m2 := Do(Do(Do(Do(m1, EmitCatchup(id)), EmitSnapshot(id)), CheckHead(id)), ReadHead(id));
      var m3 := Do(Do(m2, Load(id)), EmitTail(id));
      RunFrom(m, PumpSteps(id)) == Do(Do(Do(Do(m3, Wake(id)), ReadHead(id)), Load(id)), EmitTail(id))
  {
    hide Do;
    var a := [Register(id)];
    assert [] + a == a;
    RunOneMore(m, [], Register(id));
    RunTwo(m, a, EmitCatchup(id), EmitSnapshot(id));
    var b := a + [EmitCatchup(id), EmitSnapshot(id)];
    RunTwo(m, b, CheckHead(id), ReadHead(id));
    var c := b + [CheckHead(id), ReadHead(id)];
    RunTwo(m, c, Load(id), EmitTail(id));
    var d := c + [Load(id), EmitTail(id)];
    RunTwo(m, d, Wake(id), ReadHead(id));
    var e := d + [Wake(id), ReadHead(id)];
    RunTwo(m, e, Load(id), EmitTail(id));
    assert e + [Load(id), EmitTail(id)] == PumpSteps(id);
  }

  lemma RegisterPutsOnBus(m: Machine, id: nat)
    requires Inv(m) && id in m.subscribers && !m.subscribers[id].phase.Closed?
    ensures
      var m' := Do(m, Register(id));
      && Inv(m') && id in m'.subscribers && OnBus(m'.subscribers[id])
      && m' == m.(subscribers := m'.subscribers, bus := m'.bus)
      && m'.subscribers[id].quoteId == m.subscribers[id].quoteId
      && m'.subscribers[id].after == m.subscribers[id].after
      && (!m.subscribers[id].phase.Loaded? ==> m' == m)
  {
    hide Inv;
    DoKeeps(m, Register(id));
  }

  /**
    In any reachable state, eleven own steps bring any live subscriber to the park with the latest version
    seen and everything up to the published head sent, whatever phase it was in. So if the head published
    then is the log's head, the subscriber has been sent the entire log after its after_seq.
  */
  lemma PumpCatchesUp(steps: seq<Step>, id: nat)
    requires id in Run(steps).subscribers && !Run(steps).subscribers[id].phase.Closed?
    ensures
      var m := Run(steps + PumpSteps(id));
      id in m.subscribers &&
      var s := m.subscribers[id];
      var log := LogOf(m.tables, s.quoteId);
      && m == Run(steps).(subscribers := m.subscribers, bus := m.bus)
      && s.quoteId == Run(steps).subscribers[id].quoteId
      && s.phase.Parked? && UpToDate(m, s)
      && s.after <= s.watermark && m.bus[s.quoteId].value <= s.watermark <= |log|
      && (m.bus[s.quoteId].value == |log| ==> Received(s.out) == Slice(s.quoteId, log, s.after, |log|))
  {
    hide Inv, Do, LogOf, OnBus, Received, Slice, RunFrom, Run;
    RunIsRunFrom(steps, PumpSteps(id));
    EveryRunKeepsInv(steps);
    var m := Run(steps);
    PumpStepsInOrder(m, id);
    RegisterPutsOnBus(m, id);
    var m2 := Prologue(Do(m, Register(id)), id);
    var m3 := LoadAndSend(m2, id);
    var m4 := LoopTurn(m3, id);
    assert Run(steps + PumpSteps(id)) == m4;
    NoLostWakeUp(steps + PumpSteps(id), id);
  }

  lemma RunIsRunFrom(steps: seq<Step>, more: seq<Step>)
    ensures Run(steps + more) == RunFrom(Run(steps), more)
  {
    RunInParts(INITIAL, steps, more);
  }

  /**
    One later publish repairs. Take any reachable state in which a subscriber is parked, however far behind
    a stale head has left it. Once an append task publishes head h, one turn of the pump brings the watermark
    to exactly the larger of the old watermark and h, in a single contiguous tail when h is larger and with
    nothing sent otherwise. So the subscriber then has the whole log if and only if it had it before or h is
    the log's head.
  */
  lemma LaterPublishRepairs(steps: seq<Step>, id: nat, task: nat)
    requires id in Run(steps).subscribers && Run(steps).subscribers[id].phase.Parked?
    requires task in Run(steps).appends && Run(steps).appends[task].Committed?
    requires Run(steps).appends[task].quoteId == Run(steps).subscribers[id].quoteId
    ensures
      var m := Run(steps);
      var s := m.subscribers[id];
      var log := LogOf(m.tables, s.quoteId);
      var h := m.appends[task].last;
      var m' := Run(steps + [PublishAppend(task), Wake(id), ReadHead(id), Load(id), EmitTail(id)]);
      id in m'.subscribers &&
      var s' := m'.subscribers[id];
      && m'.tables == m.tables && h <= |log| && s.watermark <= |log|
      && s'.phase.Parked? && UpToDate(m', s')
      && s'.watermark == (if h > s.watermark then h else s.watermark)
      && s'.out == s.out
                   + (if h > s.watermark then [Tail(s.watermark, h, Slice(s.quoteId, log, s.watermark, h))] else [])
      && (s'.watermark == |log| <==> h == |log| || s.watermark == |log|)
  {
    hide Run, LogOf, RunFrom, Received, Slice, SnapshotSent, Inv, Do;
    EveryRunKeepsInv(steps);
    StreamIsOneSliceOfTheLog(steps, id);
    var m := Run(steps);
    PublishStep(m, task, id);
    var m' := LoopTurn(Do(m, PublishAppend(task)), id);
    RunIsRunFrom(steps, [PublishAppend(task), Wake(id), ReadHead(id), Load(id), EmitTail(id)]);
    FiveSteps(m, PublishAppend(task), Wake(id), ReadHead(id), Load(id), EmitTail(id));
  }

  lemma PublishStep(m: Machine, task: nat, id: nat)
    requires Inv(m) && task in m.appends && m.appends[task].Committed?
    requires id in m.subscribers && m.subscribers[id].phase.Parked?
    requires m.appends[task].quoteId == m.subscribers[id].quoteId
    ensures
      var m' := Do(m, PublishAppend(task));
      var s := m.subscribers[id];
      && Inv(m') && m'.tables == m.tables && m'.subscribers == m.subscribers
      && s.quoteId in m'.bus && m'.bus[s.quoteId].value == m.appends[task].last <= |LogOf(m.tables, s.quoteId)|
      && !UpToDate(m', s)
  {
    hide Inv, LogOf;
    DoKeeps(m, PublishAppend(task));
    PublishIsDoPublish(m, task);
    ParkedOnBus(m, id);
    HeldEntryInLog(m, task);
  }

  lemma PublishIsDoPublish(m: Machine, task: nat)
    requires task in m.appends && m.appends[task].Committed?
    ensures Do(m, PublishAppend(task)) == DoPublish(m, task, m.appends[task].quoteId, m.appends[task].last)
  {
  }

  lemma ParkedOnBus(m: Machine, id: nat)
    requires Inv(m) && id in m.subscribers && m.subscribers[id].phase.Parked?
    ensures m.subscribers[id].quoteId in m.bus
    ensures m.subscribers[id].seen <= m.bus[m.subscribers[id].quoteId].version
  {
    hide Ledger, LogOf, SubscriberOk;
  }

  lemma FiveSteps(m: Machine, a: Step, b: Step, c: Step, d: Step, e: Step)
    ensures RunFrom(m, [a, b, c, d, e]) == Do(Do(Do(Do(Do(m, a), b), c), d), e)
  {
    hide Do;
    assert [] + [a] == [a];
    RunOneMore(m, [], a);
    RunTwo(m, [a], b, c);
    RunTwo(m, [a] + [b, c], d, e);
    assert ([a] + [b, c]) + [d, e] == [a, b, c, d, e];
  }
}
