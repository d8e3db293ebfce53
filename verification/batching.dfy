/** The queue and tick shared by the two asynchronous appenders: `append`
    offers an entry at the tail, every scheduler tick polls the queue empty
    and ships what it drained as one payload, and `stop` cancels the ticks
    that have not started yet. Concurrency is not modelled: each call is one
    atomic step of a sequential run. */
module Batching {
  import opened Wrappers
  import opened LineEntries
  import opened Http

  /** The state of the fixed-rate tick future */
  datatype Lifecycle = Running | Cancelled

  /** The pending-entry queue (head first) and the tick lifecycle */
  datatype Batcher = Batcher(queue: seq<LineEntry>, lifecycle: Lifecycle)

  /** The state right after construction: an empty queue and a scheduled tick */
  const Started := Batcher([], Running)

  /** `messagesQueue.offer(line)` */
  function Offer(b: Batcher, entry: LineEntry): (r: Batcher)
    ensures r.queue == b.queue + [entry]
    ensures r.lifecycle == b.lifecycle
  {
    b.(queue := b.queue + [entry])
  }

  /** `messagesQueue.poll()`: the head and the rest, or None when empty */
  function Poll(queue: seq<LineEntry>): (r: Option<(LineEntry, seq<LineEntry>)>)
    ensures r.None? <==> |queue| == 0
    ensures r.Some? ==> [r.value.0] + r.value.1 == queue
  {
    if |queue| == 0 then None else Some((queue[0], queue[1..]))
  }

  /** The drain loop of `onTick`: poll until the queue answers null, adding
      each polled entry to the batch. */
  method DrainAll(queue: seq<LineEntry>) returns (lines: seq<LineEntry>, rest: seq<LineEntry>)
    ensures lines == queue
    ensures rest == []
  {
    lines := [];
    rest := queue;
    var polled := Poll(rest);
    while polled.Some?
      invariant lines + rest == queue
      invariant polled == Poll(rest)
      decreases |rest|
    {
      lines := lines + [polled.value.0];
      rest := polled.value.1;
      polled := Poll(rest);
    }
  }

  /** One tick: nothing when cancelled; otherwise drain the queue, and hand
      the batch on as one payload unless it is empty. The batch is the whole
      queue in order because that is what the poll loop `DrainAll` returns. */
  function Tick(b: Batcher): (r: (Batcher, Option<Payload>))
    ensures b.lifecycle == Cancelled ==> r.0 == b && r.1 == None
    ensures b.lifecycle == Running ==> r.0 == Batcher([], Running)
    ensures b.lifecycle == Running ==> (r.1.None? <==> |b.queue| == 0)
    ensures r.1.Some? ==> r.1.value.lines == b.queue && |r.1.value.lines| > 0
  {
    match b.lifecycle
    case Cancelled => (b, None)
    case Running =>
      var batch := b.queue;
      if |batch| < 1 then (b.(queue := []), None)
      else (b.(queue := []), Some(Payload(batch)))
  }

  /** `stop`: cancel the tick future; the queue is left as it is */
  function Stop(b: Batcher): (r: Batcher)
    ensures r.queue == b.queue
    ensures r.lifecycle == Cancelled
  {
    b.(lifecycle := Cancelled)
  }

  /** A call into the appender, seen from the queue */
  datatype Step = AppendStep(entry: LineEntry) | TickStep | StopStep

  /** The state after one step and the payload it sent, if any */
  function Perform(b: Batcher, step: Step): (Batcher, Option<Payload>)
  {
    match step
    case AppendStep(e) => (Offer(b, e), None)
    case TickStep => Tick(b)
    case StopStep => (Stop(b), None)
  }

  /** The state after a run of steps and the payloads sent, in order */
  function Run(b: Batcher, steps: seq<Step>): (Batcher, seq<Payload>)
    decreases |steps|
  {
    if |steps| == 0 then (b, [])
    else
      var first := Perform(b, steps[0]);
      var rest := Run(first.0, steps[1..]);
      (rest.0, Emitted(first.1) + rest.1)
  }

  /** The payloads one step sent: none or one */
  function Emitted(out: Option<Payload>): seq<Payload>
  {
    if out.Some? then [out.value] else []
  }

  /** The entries appended by a run, in call order */
  function Appended(steps: seq<Step>): seq<LineEntry>
  {
    if |steps| == 0 then []
    else Added(steps[0]) + Appended(steps[1..])
  }

  /** All lines of a sequence of payloads, payload after payload */
  function Lines(sent: seq<Payload>): seq<LineEntry>
  {
    if |sent| == 0 then [] else sent[0].lines + Lines(sent[1..])
  }

  /** The lines of two payload sequences sent one after the other */
  lemma {:induction false} LinesSplit(xs: seq<Payload>, ys: seq<Payload>)
    ensures Lines(xs + ys) == Lines(xs) + Lines(ys)
    decreases |xs|
  {
    if |xs| == 0 {
      assert xs + ys == ys;
    } else {
      assert (xs + ys)[0] == xs[0];
      assert (xs + ys)[1..] == xs[1..] + ys;
      LinesSplit(xs[1..], ys);
    }
  }

  /** Chaining two conservation facts: what one step sends plus the queue it
      leaves, followed by the rest of the run, accounts for everything. */
  lemma Chain<T>(now: seq<T>, later: seq<T>, q0: seq<T>, q1: seq<T>, q2: seq<T>, added: seq<T>, rest: seq<T>)
    requires now + q1 == q0 + added
    requires later + q2 == q1 + rest
    ensures (now + later) + q2 == q0 + (added + rest)
  {
    calc {
      (now + later) + q2;
      now + (later + q2);
      now + (q1 + rest);
      (now + q1) + rest;
      (q0 + added) + rest;
    }
  }

  /** The entry a step appends, if it is an append */
  function Added(step: Step): seq<LineEntry>
  {
    if step.AppendStep? then [step.entry] else []
  }

  /** One step moves entries between the queue and the wire without losing
      or copying any. */
  lemma StepConservation(b: Batcher, step: Step)
    ensures Lines(Emitted(Perform(b, step).1)) + Perform(b, step).0.queue == b.queue + Added(step)
  {
    match step
    case AppendStep(e) =>
    case TickStep =>
      if b.lifecycle == Running && |b.queue| > 0 {
        assert Lines(Emitted(Perform(b, step).1)) == b.queue + Lines([]);
      }
    case StopStep =>
  }

  /** Conservation: whatever was queued at the start or appended during the
      run has either been sent (in order, in the payloads' order) or is still
      queued; nothing is lost or sent twice. */
  lemma {:induction false} Conservation(b: Batcher, steps: seq<Step>)
    ensures Lines(Run(b, steps).1) + Run(b, steps).0.queue == b.queue + Appended(steps)
    decreases |steps|
  {
    if |steps| > 0 {
      var first := Perform(b, steps[0]);
      var now := Emitted(first.1);
      var rest := Run(first.0, steps[1..]);
      assert Run(b, steps) == (rest.0, now + rest.1);
      Conservation(first.0, steps[1..]);
      StepConservation(b, steps[0]);
      LinesSplit(now, rest.1);
      Chain(Lines(now), Lines(rest.1), b.queue, first.0.queue, rest.0.queue, Added(steps[0]), Appended(steps[1..]));
    }
  }

  /** Once the ticks are cancelled nothing is ever sent again, and every
      queued or later appended entry stays in the queue. */
  lemma {:induction false} CancelledSendsNothing(b: Batcher, steps: seq<Step>)
    requires b.lifecycle == Cancelled
    ensures Run(b, steps).1 == []
    ensures Run(b, steps).0.queue == b.queue + Appended(steps)
    ensures Run(b, steps).0.lifecycle == Cancelled
    decreases |steps|
  {
    if |steps| > 0 {
      var first := Perform(b, steps[0]);
      CancelledStep(b, steps[0]);
      var rest := Run(first.0, steps[1..]);
      assert Run(b, steps) == (rest.0, Emitted(first.1) + rest.1);
      assert Emitted(first.1) + rest.1 == rest.1;
      CancelledSendsNothing(first.0, steps[1..]);
      calc {
        rest.0.queue;
        first.0.queue + Appended(steps[1..]);
        (b.queue + Added(steps[0])) + Appended(steps[1..]);
        b.queue + (Added(steps[0]) + Appended(steps[1..]));
      }
    }
  }

  /** A single step on a cancelled batcher sends nothing and keeps it cancelled */
  lemma CancelledStep(b: Batcher, step: Step)
    requires b.lifecycle == Cancelled
    ensures Perform(b, step).1 == None
    ensures Perform(b, step).0.queue == b.queue + Added(step)
    ensures Perform(b, step).0.lifecycle == Cancelled
  {
  }

  /** `stop` does not drain: the entries queued when it is called are never
      sent by any later step. */
  lemma StopStrandsQueue(b: Batcher, steps: seq<Step>)
    ensures Run(b, [StopStep] + steps).1 == []
    ensures b.queue <= Run(b, [StopStep] + steps).0.queue
  {
    var all := [StopStep] + steps;
    assert all[1..] == steps;
    CancelledSendsNothing(Stop(b), steps);
  }

  /** While no stop is requested, a final tick leaves nothing behind: the
      payloads carry exactly the appended entries, in append order. */
  lemma AllSentAfterFinalTick(steps: seq<Step>)
    requires forall i :: 0 <= i < |steps| ==> !steps[i].StopStep?
    ensures Lines(Run(Started, steps + [TickStep]).1) == Appended(steps)
  {
    var all := steps + [TickStep];
    StaysRunning(Started, steps);
    RunSplit(Started, steps, [TickStep]);
    Conservation(Started, all);
    assert Run(Started, all).0.queue == [];
    assert Started.queue + Appended(all) == Appended(all);
    AppendedSplit(steps, [TickStep]);
    assert Appended([TickStep]) == [];
    assert Lines(Run(Started, all).1) + [] == Lines(Run(Started, all).1);
  }

  /** Without a stop step the ticks keep running */
  lemma {:induction false} StaysRunning(b: Batcher, steps: seq<Step>)
    requires b.lifecycle == Running
    requires forall i :: 0 <= i < |steps| ==> !steps[i].StopStep?
    ensures Run(b, steps).0.lifecycle == Running
    decreases |steps|
  {
    if |steps| > 0 {
      StaysRunning(Perform(b, steps[0]).0, steps[1..]);
    }
  }

  /** Running two step sequences one after the other */
  lemma {:induction false} RunSplit(b: Batcher, xs: seq<Step>, ys: seq<Step>)
    ensures Run(b, xs + ys).0 == Run(Run(b, xs).0, ys).0
    ensures Run(b, xs + ys).1 == Run(b, xs).1 + Run(Run(b, xs).0, ys).1
    decreases |xs|
  {
    if |xs| == 0 {
      assert xs + ys == ys;
    } else {
      assert (xs + ys)[0] == xs[0];
      assert (xs + ys)[1..] == xs[1..] + ys;
      var first := Perform(b, xs[0]);
      RunSplit(first.0, xs[1..], ys);
      var mid := Run(first.0, xs[1..]);
      assert Run(b, xs) == (mid.0, Emitted(first.1) + mid.1);
      assert Run(b, xs + ys) == (Run(first.0, xs[1..] + ys).0, Emitted(first.1) + Run(first.0, xs[1..] + ys).1);
    }
  }

  lemma {:induction false} AppendedSplit(xs: seq<Step>, ys: seq<Step>)
    ensures Appended(xs + ys) == Appended(xs) + Appended(ys)
    decreases |xs|
  {
    if |xs| == 0 {
      assert xs + ys == ys;
    } else {
      assert (xs + ys)[0] == xs[0];
      assert (xs + ys)[1..] == xs[1..] + ys;
      AppendedSplit(xs[1..], ys);
    }
  }

  /** Two appends within one tick window go out as one two-line payload, and
      the next tick finds nothing to send. */
  lemma TwoAppendsOnePayload(a: LineEntry, c: LineEntry)
    ensures Run(Started, [AppendStep(a), AppendStep(c), TickStep, TickStep]).1 == [Payload([a, c])]
  {
    var steps := [AppendStep(a), AppendStep(c), TickStep, TickStep];
    var s1 := Offer(Started, a);
    var s2 := Offer(s1, c);
    assert s2.queue == [a, c];
    assert steps[1..] == [AppendStep(c), TickStep, TickStep];
    assert steps[2..] == [TickStep, TickStep];
    assert steps[3..] == [TickStep];
    assert Run(Batcher([], Running), [TickStep]).1 == [];
    assert Run(s2, steps[2..]).1 == [Payload([a, c])];
    assert Run(s1, steps[1..]).1 == [Payload([a, c])];
  }
}
