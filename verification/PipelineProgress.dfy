/** Every run of the pipeline is finite, apart from repeated cancellations from outside: Process returns. */
module PipelineProgress {
  import opened Sums
  import opened Pipeline
  import opened PipelineProofs
  import opened PipelineTheorems

  // ---------- the work left ----------

  /** The events a payload offered on channel `k` can still cause. */
  function Cost(kinds: seq<Kind>, k: nat): nat
    decreases |kinds| - k
  {
    if k >= |kinds| then 2
    else
      match kinds[k]
      case Pool(_) => 2 + Cost(kinds, k + 1)
      case Dynamic(_) => 3 + Cost(kinds, k + 1)
      case Broadcast(n) => 1 + n * (2 + Cost(kinds, k + 1))
  }

  /** What a worker has left whose payload costs `next` behind it: process it, pass it on, and leave. */
  function WorkerLeft<V>(next: nat): Worker<V> -> int
  {
    (w: Worker<V>) =>
      match w case Ready => 1 case Holding(_) => 2 + next case Emitting(_) => 1 + next case Exited => 0
  }

  function FrontLeft<V>(s: Stage<V>, next: nat): int
  {
    match s.front
    case Absent => 0
    case Reading => 1
    case Spawning(_) => 3 + next
    case Handing(_, i) => 1 + (i + 1) * (2 + next)
    case Draining(_) => 0
    case Closing => 0
  }

  /** A stage with its workers, its front, its tokens still to be drained and its closing. */
  ghost function StageLeft<V>(s: Stage<V>, next: nat): int
  {
    Sum(s.workers, WorkerLeft(next)) + FrontLeft(s, next) + s.tokens + (if s.closed then 0 else 1)
  }

  ghost function StagesLeft<V>(kinds: seq<Kind>, stages: seq<Stage<V>>, k: nat): int
    requires k <= |stages|
  {
    if k == 0 then 0 else StagesLeft(kinds, stages, k - 1) + StageLeft(stages[k - 1], Cost(kinds, k))
  }

  ghost function Remaining<V>(c: Config<V>, st: State<V>): int
  {
    |st.source.rest| * Cost(c.kinds, 0) + (if st.source.exited then 0 else 2)
    + StagesLeft(c.kinds, st.stages, |st.stages|)
    + WorkerLeft(0)(st.sink.worker) + st.queued
  }

  lemma {:induction false} StagesUpdate<V>(kinds: seq<Kind>, stages: seq<Stage<V>>, j: nat, s: Stage<V>, k: nat)
    requires j < |stages| && k <= |stages|
    ensures StagesLeft(kinds, stages[j := s], k) == StagesLeft(kinds, stages, k)
      + if j < k then StageLeft(s, Cost(kinds, j + 1)) - StageLeft(stages[j], Cost(kinds, j + 1)) else 0
  {
    if k > 0 { StagesUpdate(kinds, stages, j, s, k - 1); }
  }

  lemma StageUpdate<V>(c: Config<V>, st: State<V>, k: nat, s: Stage<V>)
    requires k < |st.stages|
    ensures Remaining(c, WithStage(st, k, s)) ==
      Remaining(c, st) + StageLeft(s, Cost(c.kinds, k + 1)) - StageLeft(st.stages[k], Cost(c.kinds, k + 1))
  {
    StagesUpdate(c.kinds, st.stages, k, s, |st.stages|);
  }

  lemma {:induction false} CostPositive(kinds: seq<Kind>, k: nat)
    ensures Cost(kinds, k) >= 1
    ensures (forall j :: 0 <= j < |kinds| ==> kinds[j].n > 0) ==> Cost(kinds, k) >= 2
    decreases |kinds| - k
  {
    if k < |kinds| { CostPositive(kinds, k + 1); }
  }

  lemma WorkerUpdate<V>(s: Stage<V>, w: nat, x: Worker<V>, next: nat)
    requires w < |s.workers|
    ensures Sum(s.workers[w := x], WorkerLeft(next))
         == Sum(s.workers, WorkerLeft(next)) - WorkerLeft(next)(s.workers[w]) + WorkerLeft(next)(x)
  {
    SumUpdate(s.workers, w, x, WorkerLeft(next));
  }

  // ---------- the changes of a stage ----------

  lemma FreedLeft<V>(s: Stage<V>, w: nat, next: nat)
    requires StageOk(s) && w < |s.workers| && (s.workers[w].Holding? || s.workers[w].Emitting?)
    ensures StageLeft(Freed(s, w), next) == StageLeft(s, next) - WorkerLeft(next)(s.workers[w]) + 1
  {
    WorkerUpdate(s, w, Exited, next);
    WorkerUpdate(s, w, Ready, next);
  }

  lemma EndedLeft<V>(s: Stage<V>, w: nat, next: nat)
    requires w < |s.workers|
    ensures StageLeft(Ended(s, w), next)
         == StageLeft(s, next) - WorkerLeft(next)(s.workers[w]) + if s.kind.Dynamic? then 1 else 0
  {
    WorkerUpdate(s, w, Exited, next);
  }

  lemma ReceivedLeft<V>(s: Stage<V>, r: nat, p: Payload<V>, kinds: seq<Kind>, k: nat)
    requires StageOk(s) && k < |kinds| && kinds[k] == s.kind
    requires if s.kind.Pool? then r < |s.workers| && s.workers[r].Ready? else s.front.Reading?
    ensures StageLeft(Received(s, r, p), Cost(kinds, k + 1)) == StageLeft(s, Cost(kinds, k + 1)) + Cost(kinds, k) - 1
  {
    if s.kind.Pool? { WorkerUpdate(s, r, Holding(p), Cost(kinds, k + 1)); }
  }

  // ---------- every event ----------

  lemma OneFewer(n: int, x: int)
    ensures n * x == (n - 1) * x + x
  {
  }

  lemma TakenLeft<V>(c: Config<V>, st: State<V>, k: nat, w: nat)
    requires AllOk(c, st) && k <= |st.stages| && Offers(st, k, w)
    ensures Remaining(c, TakenFrom(st, k, w)) == Remaining(c, st) - Cost(c.kinds, k)
  {
    if k > 0 {
      FreedLeft(st.stages[k - 1], w, Cost(c.kinds, k));
      StageUpdate(c, st, k - 1, Freed(st.stages[k - 1], w));
    } else {
      OneFewer(|st.source.rest|, Cost(c.kinds, 0));
    }
  }

  lemma GivenLeft<V>(c: Config<V>, st: State<V>, k: nat, r: nat, p: Payload<V>)
    requires k <= |st.stages| == |c.kinds| && Waits(st, k, r)
    requires k < |st.stages| ==> StageOk(st.stages[k]) && st.stages[k].kind == c.kinds[k]
    ensures Remaining(c, GivenTo(st, k, r, p)) == Remaining(c, st) + Cost(c.kinds, k) - 1
  {
    if k < |st.stages| {
      ReceivedLeft(st.stages[k], r, p, c.kinds, k);
      StageUpdate(c, st, k, Received(st.stages[k], r, p));
    }
  }

  lemma SendLess<V>(c: Config<V>, st: State<V>, k: nat, w: nat, r: nat)
    requires AllOk(c, st) && Enabled(c, st, Send(k, w, r))
    ensures Remaining(c, Apply(c, st, Send(k, w, r))) < Remaining(c, st)
  {
    TakenLeft(c, st, k, w);
    GivenLeft(c, TakenFrom(st, k, w), k, r, Offer(st, k, w));
  }

  lemma EmitLess<V>(c: Config<V>, st: State<V>, k: nat, w: nat, x: Worker<V>)
    requires k < |st.stages| && w < |st.stages[k].workers| && st.stages[k].workers[w].Holding? && x.Emitting?
    ensures Remaining(c, WithStage(st, k, st.stages[k].(workers := st.stages[k].workers[w := x]))) < Remaining(c, st)
  {
    var s := st.stages[k];
    WorkerUpdate(s, w, x, Cost(c.kinds, k + 1));
    StageUpdate(c, st, k, s.(workers := s.workers[w := x]));
  }

  lemma DropLess<V>(c: Config<V>, st: State<V>, k: nat, w: nat)
    requires k < |st.stages| && StageOk(st.stages[k])
    requires w < |st.stages[k].workers| && st.stages[k].workers[w].Holding?
    ensures Remaining(c, WithStage(st, k, Freed(st.stages[k], w))) < Remaining(c, st)
  {
    FreedLeft(st.stages[k], w, Cost(c.kinds, k + 1));
    StageUpdate(c, st, k, Freed(st.stages[k], w));
  }

  /** A failure ends the worker and queues at most one error. */
  lemma FailureLess<V>(c: Config<V>, st: State<V>, k: nat, w: nat)
    requires ValidConfig(c) && k < |st.stages|
    requires w < |st.stages[k].workers| && st.stages[k].workers[w].Holding?
    ensures Remaining(c, WithStage(st, k, Ended(st.stages[k], w))) + 1 < Remaining(c, st)
  {
    CostPositive(c.kinds, k + 1);
    EndedLeft(st.stages[k], w, Cost(c.kinds, k + 1));
    StageUpdate(c, st, k, Ended(st.stages[k], w));
  }

  lemma ProcessLess<V>(c: Config<V>, st: State<V>, k: nat, w: nat)
    requires AllOk(c, st) && ValidConfig(c) && Enabled(c, st, Process(k, w))
    ensures Remaining(c, Processed(c, st, k, w)) < Remaining(c, st)
  {
    var p := st.stages[k].workers[w].p;
    match c.process(k, ProcessorOf(st.stages[k].kind, w), p.value)
    case Emit(v) => EmitLess(c, st, k, w, Emitting(Payload(p.id, v)));
    case Drop => DropLess(c, st, k, w);
    case Failure => FailureLess(c, st, k, w);
  }

  lemma LeaveLess<V>(c: Config<V>, st: State<V>, k: nat, w: nat)
    requires AllOk(c, st) && Enabled(c, st, Leave(k, w))
    ensures Remaining(c, Left(st, k, w)) < Remaining(c, st)
  {
    var s, next := st.stages[k], Cost(c.kinds, k + 1);
    assert StageOk(s);
    CostPositive(c.kinds, k + 1);
    EndedLeft(s, w, next);
    StageUpdate(c, st, k, Ended(s, w));
  }

  lemma SpawnLess<V>(c: Config<V>, st: State<V>, k: nat)
    requires AllOk(c, st) && Enabled(c, st, Spawn(k))
    ensures Remaining(c, Apply(c, st, Spawn(k))) < Remaining(c, st)
  {
    var s, next := st.stages[k], Cost(c.kinds, k + 1);
    SumAppend(s.workers, [Holding(s.front.p)], WorkerLeft(next));
    assert Sum([Holding(s.front.p)], WorkerLeft(next)) == 2 + next;
    StageUpdate(c, st, k, Apply(c, st, Spawn(k)).stages[k]);
  }

  lemma HandLess<V>(c: Config<V>, st: State<V>, k: nat)
    requires AllOk(c, st) && Enabled(c, st, Hand(k))
    ensures Remaining(c, Handed(st, k)) < Remaining(c, st)
  {
    var s, next := st.stages[k], Cost(c.kinds, k + 1);
    var (p, i) := (s.front.p, s.front.to);
    WorkerUpdate(s, i, if i == 0 then Holding(p) else Holding(Payload(st.next, p.value)), next);
    OneFewer(i + 1, 2 + next);
    StageUpdate(c, st, k, Handed(st, k).stages[k]);
  }

  lemma FrontPositive<V>(s: Stage<V>, next: nat)
    requires s.front.Reading? || s.front.Spawning? || s.front.Handing?
    ensures FrontLeft(s, next) >= 1
  {
    if s.front.Handing? { assert (s.front.to + 1) * (2 + next) >= 0; }
  }

  lemma StopLess<V>(c: Config<V>, st: State<V>, k: nat)
    requires AllOk(c, st) && Enabled(c, st, Stop(k))
    ensures Remaining(c, Stopped(st, k)) < Remaining(c, st)
  {
    var s := st.stages[k];
    assert StageOk(s);
    FrontPositive(s, Cost(c.kinds, k + 1));
    StageUpdate(c, st, k, s.(front := if s.kind.Dynamic? then Draining(0) else Closing));
  }

  lemma DrainLess<V>(c: Config<V>, st: State<V>, k: nat)
    requires Enabled(c, st, Drain(k))
    ensures Remaining(c, Apply(c, st, Drain(k))) < Remaining(c, st)
  {
    var s := st.stages[k];
    StageUpdate(c, st, k, s.(front := Draining(s.front.taken + 1), tokens := s.tokens - 1));
  }

  lemma CloseLess<V>(c: Config<V>, st: State<V>, k: nat)
    requires Enabled(c, st, Close(k))
    ensures Remaining(c, Apply(c, st, Close(k))) < Remaining(c, st)
  {
    StageUpdate(c, st, k, st.stages[k].(closed := true));
  }

  lemma EndsLess<V>(c: Config<V>, st: State<V>, e: Event)
    requires CountersOk(st) && Enabled(c, st, e) && (e.EndSource? || e.Consume? || e.EndSink? || e.Collect?)
    ensures Remaining(c, Apply(c, st, e)) < Remaining(c, st)
  {
  }

  lemma EventLess<V>(c: Config<V>, st: State<V>, e: Event)
    requires AllOk(c, st) && ValidConfig(c) && CountersOk(st) && Enabled(c, st, e) && e != Cancel
    ensures Remaining(c, Apply(c, st, e)) < Remaining(c, st)
  {
    match e
    case Send(k, w, r) => SendLess(c, st, k, w, r);
    case Process(k, w) => ProcessLess(c, st, k, w);
    case Leave(k, w) => LeaveLess(c, st, k, w);
    case Spawn(k) => SpawnLess(c, st, k);
    case Hand(k) => HandLess(c, st, k);
    case Stop(k) => StopLess(c, st, k);
    case Drain(k) => DrainLess(c, st, k);
    case Close(k) => CloseLess(c, st, k);
    case _ => EndsLess(c, st, e);
  }

  // ---------- whole runs ----------

  function Cancels(events: seq<Event>): nat
  {
    if events == [] then 0 else Cancels(events[..|events| - 1]) + if events[|events| - 1] == Cancel then 1 else 0
  }

  lemma {:induction false} StagesPositive<V>(kinds: seq<Kind>, stages: seq<Stage<V>>, k: nat)
    requires k <= |stages|
    ensures StagesLeft(kinds, stages, k) >= 0
  {
    if k > 0 {
      StagesPositive(kinds, stages, k - 1);
      SumBounds(stages[k - 1].workers, WorkerLeft(Cost(kinds, k)));
    }
  }

  lemma RemainingPositive<V>(c: Config<V>, st: State<V>)
    ensures Remaining(c, st) >= 0
  {
    StagesPositive(c.kinds, st.stages, |st.stages|);
    assert |st.source.rest| * Cost(c.kinds, 0) >= 0;
  }

  lemma CancelOrLess<V>(c: Config<V>, data: seq<V>, states: seq<State<V>>, events: seq<Event>, i: nat)
    requires ValidConfig(c) && IsRun(c, data, states, events) && i < |events|
    ensures Remaining(c, states[i + 1]) <= Remaining(c, states[i]) - if events[i] == Cancel then 0 else 1
  {
    RunOrderly(c, data, states, events, i);
    var st, e := states[i], events[i];
    if e != Cancel { EventLess(c, st, e); }
  }

  /** Every event but an outside cancellation uses up work. */
  lemma {:induction false} RunUsesWork<V>(
      c: Config<V>, data: seq<V>, states: seq<State<V>>, events: seq<Event>, i: nat)
    requires ValidConfig(c) && IsRun(c, data, states, events) && i <= |events|
    ensures i - Cancels(events[..i]) + Remaining(c, states[i]) <= Remaining(c, Initial(c, data))
  {
    if i > 0 {
      RunUsesWork(c, data, states, events, i - 1);
      CancelOrLess(c, data, states, events, i - 1);
      assert events[..i][..i - 1] == events[..i - 1];
    }
  }

  /** A run has no more events than its source, stages and sink have work, cancellations aside. */
  lemma RunsAreBounded<V>(c: Config<V>, data: seq<V>, states: seq<State<V>>, events: seq<Event>)
    requires ValidConfig(c) && IsRun(c, data, states, events)
    ensures |events| - Cancels(events) <= Remaining(c, Initial(c, data))
  {
    RunUsesWork(c, data, states, events, |events|);
    RemainingPositive(c, states[|events|]);
    assert events[..|events|] == events;
  }

  lemma OneMore<V>(c: Config<V>, data: seq<V>, states: seq<State<V>>, events: seq<Event>)
      returns (longer: seq<State<V>>, more: seq<Event>)
    requires ValidConfig(c) && IsRun(c, data, states, events) && !Returned(states[|events|])
    ensures IsRun(c, data, longer, more) && events <= more && |more| == |events| + 1
    ensures 0 <= Remaining(c, longer[|more|]) < Remaining(c, states[|events|])
  {
    var st := states[|events|];
    RunOrderly(c, data, states, events, |events|);
    NeverStuck(c, data, states, events, |events|);
    var e: Event :| e != Cancel && Enabled(c, st, e);
    EventLess(c, st, e);
    RemainingPositive(c, Apply(c, st, e));
    longer, more := states + [Apply(c, st, e)], events + [e];
  }

  /** Whatever has happened, a run continued as long as some goroutine can go on ends with Process returning. */
  lemma {:induction false} AlwaysReturns<V>(c: Config<V>, data: seq<V>, states: seq<State<V>>, events: seq<Event>)
      returns (longer: seq<State<V>>, more: seq<Event>)
    requires ValidConfig(c) && IsRun(c, data, states, events)
    ensures IsRun(c, data, longer, more) && events <= more && Returned(longer[|more|])
    decreases Remaining(c, states[|events|])
  {
    if Returned(states[|events|]) {
      longer, more := states, events;
    } else {
      longer, more := OneMore(c, data, states, events);
      RemainingPositive(c, states[|events|]);
      longer, more := AlwaysReturns(c, data, longer, more);
    }
  }
}
