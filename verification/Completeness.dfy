/**
  When delivery is complete, on the running service: how far a subscriber has been sent is decided by the
  heads its pump has read, and by nothing else.
*/
module Completeness {
  import opened QuoteLog
  import opened Tables
  import opened Appending
  import opened Service
  import opened Delivery
  import opened Guarantees

  /** The step makes the pump of subscriber id read the head: by the first check, or after a wake-up. */
  predicate ReadsHead(m: Machine, step: Step, id: nat) {
    && id in m.subscribers && m.subscribers[id].quoteId in m.bus
    && ((step == CheckHead(id) && m.subscribers[id].phase.HeadCheckDue?)
        || (step == ReadHead(id) && m.subscribers[id].phase.Woken?))
  }

  /** The heads the pump of subscriber id has read in the course of a run, in order. */
  function HeadsRead(steps: seq<Step>, id: nat): seq<nat> {
    if steps == [] then []
    else
      var before, step := steps[..|steps| - 1], steps[|steps| - 1];
      var m := Run(before);
      if ReadsHead(m, step, id) then HeadsRead(before, id) + [m.bus[m.subscribers[id].quoteId].value]
      else HeadsRead(before, id)
  }

  /** The largest of the snapshot's last_seq and the heads read. */
  function Highest(lastSeq: nat, heads: seq<nat>): nat {
    if heads == [] then lastSeq
    else
      var before, h := Highest(lastSeq, heads[..|heads| - 1]), heads[|heads| - 1];
      if h > before then h else before
  }

  lemma HighestPlusOne(lastSeq: nat, heads: seq<nat>, h: nat)
    ensures Highest(lastSeq, heads + [h]) == if h > Highest(lastSeq, heads) then h else Highest(lastSeq, heads)
  {
    assert (heads + [h])[..|heads|] == heads;
  }

  lemma {:induction false} HighestIsOneOfThem(lastSeq: nat, heads: seq<nat>)
    ensures lastSeq <= Highest(lastSeq, heads)
    ensures forall i :: 0 <= i < |heads| ==> heads[i] <= Highest(lastSeq, heads)
    ensures Highest(lastSeq, heads) == lastSeq || Highest(lastSeq, heads) in heads
  {
    if heads != [] {
      HighestIsOneOfThem(lastSeq, heads[..|heads| - 1]);
    }
  }

  /** What the heads read so far say about a subscriber, phase by phase. */
  predicate HeadsDecide(s: Subscriber, heads: seq<nat>) {
    match s.phase
    case Loaded => heads == []
    case CatchupDue => heads == []
    case SnapshotDue => heads == []
    case HeadCheckDue => heads == [] && s.watermark == s.lastSeq
    case Loading(head, _) => s.watermark < head == Highest(s.lastSeq, heads)
    case Sending(target, _) => s.watermark < target == Highest(s.lastSeq, heads)
    case Parked => s.watermark == Highest(s.lastSeq, heads)
    case Woken => s.watermark == Highest(s.lastSeq, heads)
    case Closed(_) => s.watermark <= Highest(s.lastSeq, heads)
  }

  lemma HeadReadDecides(s: Subscriber, heads: seq<nat>, h: nat)
    requires HeadsDecide(s, heads) && (s.phase.HeadCheckDue? || s.phase.Woken?)
    ensures HeadsDecide(HeadRead(s, h), heads + [h])
  {
    HighestPlusOne(s.lastSeq, heads, h);
  }

  lemma OtherStepDecides(s: Subscriber, bus: Bus, t: Tables, step: Step, heads: seq<nat>)
    requires HeadsDecide(s, heads) && s.after <= s.lastSeq
    requires s.phase.SnapshotDue? || s.phase.CatchupDue? || s.phase.Loaded? ==> s.watermark <= s.lastSeq
    requires s.quoteId in bus ==> !(step.CheckHead? && s.phase.HeadCheckDue?) && !(step.ReadHead? && s.phase.Woken?)
    ensures HeadsDecide(SubscriberStep(s, bus, t, step), heads)
  {
    hide LoadBetween;
    HighestIsOneOfThem(s.lastSeq, heads);
  }

  lemma WatermarkBeforeSnapshot(m: Machine, id: nat)
    requires Inv(m) && id in m.subscribers
    ensures
      var s := m.subscribers[id];
      && s.after <= s.lastSeq
      && (s.phase.SnapshotDue? || s.phase.CatchupDue? || s.phase.Loaded? ==> s.watermark <= s.lastSeq)
  {
    hide Chain, Slice, SnapshotOf, SnapshotSent, LogOf, Ledger, WakeOk;
  }

  lemma OpensLoaded(t: Tables, q: QuoteId, after: nat)
    requires Open(t, q, after).Ok?
    ensures Open(t, q, after).value.phase.Loaded?
  {
    hide LoadAll, LoadBetween;
  }

  lemma AppendStepsKeepSubscribers(m: Machine, step: Step)
    requires IsAppendStep(step)
    ensures Do(m, step).subscribers == m.subscribers
  {
    hide AppendOne, Publish;
  }

  /** Which steps can change a subscriber, and how. */
  lemma SubscriberAfter(m: Machine, step: Step, id: nat)
    requires id in Do(m, step).subscribers
    ensures
      var s' := Do(m, step).subscribers[id];
      if id !in m.subscribers then s'.phase.Loaded?
      else
        var s := m.subscribers[id];
        || s' == s
        || (step == Register(id) && s.phase.Loaded? && s'.phase.CatchupDue?)
        || (step.id == id && s' == SubscriberStep(s, m.bus, m.tables, step))
  {
    hide DoAppend, Open, SubscriberStep, Publish;
    if IsAppendStep(step) {
      AppendStepsKeepSubscribers(m, step);
    } else if step.Subscribe? && Open(m.tables, step.quoteId, step.after).Ok? {
      OpensLoaded(m.tables, step.quoteId, step.after);
    }
  }

  /** Enabled head reads are the only steps that read a head. */
  lemma ReadingStep(m: Machine, step: Step, id: nat)
    requires ReadsHead(m, step, id)
    ensures
      var s := m.subscribers[id];
      && id in Do(m, step).subscribers
      && Do(m, step).subscribers[id] == HeadRead(s, m.bus[s.quoteId].value)
  {
    hide HeadRead, DoAppend, Open, DoRegister;
  }

  lemma StaysSubscribed(m: Machine, step: Step, id: nat)
    requires id in m.subscribers
    ensures id in Do(m, step).subscribers
  {
    hide DoAppend, Open, SubscriberStep, Publish;
    if IsAppendStep(step) {
      AppendStepsKeepSubscribers(m, step);
    }
  }

  lemma StepDecides(m: Machine, step: Step, id: nat, heads: seq<nat>)
    requires Inv(m) && id in m.subscribers && HeadsDecide(m.subscribers[id], heads)
    ensures
      var s := m.subscribers[id];
      && id in Do(m, step).subscribers
      && HeadsDecide(
           Do(m, step).subscribers[id],
           if ReadsHead(m, step, id) then heads + [m.bus[s.quoteId].value] else heads)
  {
    hide Inv, Do, HeadsDecide, HeadRead, SubscriberStep;
    StaysSubscribed(m, step, id);
    var s := m.subscribers[id];
    if ReadsHead(m, step, id) {
      ReadingStep(m, step, id);
      HeadReadDecides(s, heads, m.bus[s.quoteId].value);
    } else {
      SubscriberAfter(m, step, id);
      WatermarkBeforeSnapshot(m, id);
      var s' := Do(m, step).subscribers[id];
      if s' != s {
        if step == Register(id) && s.phase.Loaded? && s'.phase.CatchupDue? {
          NothingReadYet(s, s', heads);
        } else {
          OtherStepDecides(s, m.bus, m.tables, step, heads);
        }
      }
    }
  }

  lemma NothingReadYet(s: Subscriber, s': Subscriber, heads: seq<nat>)
    requires HeadsDecide(s, heads) && s.phase.Loaded? && s'.phase.CatchupDue?
    ensures HeadsDecide(s', heads)
  {
  }

  lemma NewSubscriberDecides(s: Subscriber)
    requires s.phase.Loaded?
    ensures HeadsDecide(s, [])
  {
  }

  lemma {:induction false} HeadsDecideInRun(steps: seq<Step>, id: nat)
    ensures id !in Run(steps).subscribers ==> HeadsRead(steps, id) == []
    ensures id in Run(steps).subscribers ==> HeadsDecide(Run(steps).subscribers[id], HeadsRead(steps, id))
  {
    hide Inv, Do, HeadsDecide, ReadsHead;
    if steps != [] {
      var before, step := steps[..|steps| - 1], steps[|steps| - 1];
      HeadsDecideInRun(before, id);
      EveryRunKeepsInv(before);
      var m := Run(before);
      if id in m.subscribers {
        StepDecides(m, step, id, HeadsRead(before, id));
      } else {
        NoReadBySomeoneElse(m, step, id);
        if id in Do(m, step).subscribers {
          SubscriberAfter(m, step, id);
          NewSubscriberDecides(Do(m, step).subscribers[id]);
        }
      }
    }
  }

  lemma NoReadBySomeoneElse(m: Machine, step: Step, id: nat)
    requires id !in m.subscribers
    ensures !ReadsHead(m, step, id)
  {
  }

  /**
    In every reachable state of every interleaving, an idle pump has sent exactly up to the largest of its
    snapshot's last_seq and the heads it has read.
  */
  lemma WatermarkIsHighestHeadRead(steps: seq<Step>, id: nat)
    requires id in Run(steps).subscribers
    requires Run(steps).subscribers[id].phase.Parked? || Run(steps).subscribers[id].phase.Woken?
    ensures Run(steps).subscribers[id].watermark == Highest(Run(steps).subscribers[id].lastSeq, HeadsRead(steps, id))
  {
    hide Run, HeadsRead, Highest;
    HeadsDecideInRun(steps, id);
  }

  lemma SliceIsWhole(q: QuoteId, log: Log, a: nat, b: nat)
    requires a <= b <= |log|
    ensures Slice(q, log, a, b) == Slice(q, log, a, |log|) <==> b == |log|
  {
    assert |Slice(q, log, a, b)| == b - a;
  }

  /**
    Exactly when delivery is complete. In every reachable state, an idle subscriber has been sent the whole
    log after its after_seq if and only if its snapshot already covered the log, or some head that its
    pump read in the run is the head of the log.
  */
  lemma WholeLogIffItsHeadWasRead(steps: seq<Step>, id: nat)
    requires id in Run(steps).subscribers
    requires Run(steps).subscribers[id].phase.Parked? || Run(steps).subscribers[id].phase.Woken?
    ensures
      var s := Run(steps).subscribers[id];
      var log := LogOf(Run(steps).tables, s.quoteId);
      && s.after <= |log|
      && (Received(s.out) == Slice(s.quoteId, log, s.after, |log|)
          <==> s.lastSeq == |log| || |log| in HeadsRead(steps, id))
  {
    hide Run, HeadsRead, Highest, LogOf, Received, Slice, SnapshotSent;
    WatermarkIsHighestHeadRead(steps, id);
    StreamIsOneSliceOfTheLog(steps, id);
    var s := Run(steps).subscribers[id];
    var log := LogOf(Run(steps).tables, s.quoteId);
    SliceIsWhole(s.quoteId, log, s.after, s.watermark);
    HighestIsOneOfThem(s.lastSeq, HeadsRead(steps, id));
  }
}
