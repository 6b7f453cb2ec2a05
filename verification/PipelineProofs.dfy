/** What every run of the pipeline keeps: closed channels are not written, tokens are conserved, every payload is
    accounted for. */
module PipelineProofs {
  import opened Sums
  import opened Pipeline

  // ---------- one stage ----------

  function Active<V>(ws: seq<Worker<V>>): nat
  {
    if ws == [] then 0 else (if ws[0].Exited? then 0 else 1) + Active(ws[1..])
  }

  lemma {:induction false} ActiveUpdate<V>(ws: seq<Worker<V>>, w: nat, x: Worker<V>)
    requires w < |ws|
    ensures Active(ws[w := x]) == Active(ws) - (if ws[w].Exited? then 0 else 1) + (if x.Exited? then 0 else 1)
  {
    if w == 0 {
      assert ws[w := x][1..] == ws[1..];
    } else {
      ActiveUpdate(ws[1..], w - 1, x);
      assert ws[w := x][1..] == ws[1..][w - 1 := x];
    }
  }

  lemma {:induction false} ActiveAppend<V>(ws: seq<Worker<V>>, x: Worker<V>)
    ensures Active(ws + [x]) == Active(ws) + (if x.Exited? then 0 else 1)
  {
    if ws == [] {
      assert ws + [x] == [x];
    } else {
      ActiveAppend(ws[1..], x);
      assert (ws + [x])[1..] == ws[1..] + [x];
    }
  }

  lemma {:induction false} ActiveNone<V>(ws: seq<Worker<V>>)
    ensures Active(ws) == 0 <==> forall w :: 0 <= w < |ws| ==> ws[w].Exited?
  {
    if ws != [] {
      ActiveNone(ws[1..]);
      assert forall w :: 0 < w < |ws| ==> ws[w] == ws[1..][w - 1];
    }
  }

  ghost predicate StageOk<V>(s: Stage<V>)
  {
    && s.kind.n > 0
    && (s.closed ==> Finished(s))
    && match s.kind
       case Pool(n) => s.front == Absent && |s.workers| == n
       case Broadcast(n) =>
         && |s.workers| == n
         && (s.front.Reading? || s.front == Closing || (s.front.Handing? && s.front.to < n))
       case Dynamic(n) =>
         && (forall w :: 0 <= w < |s.workers| ==> !s.workers[w].Ready?)
         && (s.front.Reading? || s.front.Spawning? || s.front.Draining?)
         && s.tokens + Active(s.workers) + (if s.front.Draining? then s.front.taken else 0) == n
  }

  ghost predicate AllOk<V>(c: Config<V>, st: State<V>)
  {
    && |st.stages| == |c.kinds|
    && forall k :: 0 <= k < |st.stages| ==> StageOk(st.stages[k]) && st.stages[k].kind == c.kinds[k]
  }

  lemma FreedOk<V>(s: Stage<V>, w: nat)
    requires StageOk(s) && w < |s.workers| && (s.workers[w].Holding? || s.workers[w].Emitting?)
    ensures StageOk(Freed(s, w))
  {
    ActiveUpdate(s.workers, w, Exited);
    ActiveNone(s.workers);
  }

  lemma EndedOk<V>(s: Stage<V>, w: nat)
    requires StageOk(s) && w < |s.workers| && !s.workers[w].Exited?
    ensures StageOk(Ended(s, w))
  {
    ActiveUpdate(s.workers, w, Exited);
    ActiveNone(s.workers);
  }

  lemma ReceivedOk<V>(s: Stage<V>, r: nat, p: Payload<V>)
    requires StageOk(s)
    requires if s.kind.Pool? then r < |s.workers| && s.workers[r].Ready? else s.front.Reading?
    ensures StageOk(Received(s, r, p))
  {
  }

  lemma EmittingOk<V>(s: Stage<V>, w: nat, p: Payload<V>)
    requires StageOk(s) && w < |s.workers| && s.workers[w].Holding?
    ensures StageOk(s.(workers := s.workers[w := Emitting(p)]))
  {
    ActiveUpdate(s.workers, w, Emitting(p));
    ActiveNone(s.workers);
  }

  lemma SpawnedOk<V>(s: Stage<V>, p: Payload<V>)
    requires StageOk(s) && s.front.Spawning? && s.tokens > 0
    ensures StageOk(s.(front := Reading, tokens := s.tokens - 1, workers := s.workers + [Holding(p)]))
  {
    ActiveAppend(s.workers, Holding(p));
  }

  /** A closed stage has no goroutine that could still write to its output. */
  lemma ClosedIsQuiet<V>(s: Stage<V>)
    requires StageOk(s) && s.closed
    ensures AllExited(s) && !s.front.Spawning? && !s.front.Handing?
  {
    ActiveNone(s.workers);
  }

  lemma SendOk<V>(c: Config<V>, st: State<V>, k: nat, w: nat, r: nat)
    requires AllOk(c, st) && Enabled(c, st, Send(k, w, r))
    ensures AllOk(c, Apply(c, st, Send(k, w, r)))
  {
    if k > 0 { FreedOk(st.stages[k - 1], w); }
    if k < |st.stages| { ReceivedOk(st.stages[k], r, Offer(st, k, w)); }
  }

  lemma ProcessOk<V>(c: Config<V>, st: State<V>, k: nat, w: nat)
    requires AllOk(c, st) && Enabled(c, st, Process(k, w))
    ensures AllOk(c, Apply(c, st, Process(k, w)))
  {
    var s := st.stages[k];
    match c.process(k, ProcessorOf(s.kind, w), s.workers[w].p.value)
    case Emit(v) => EmittingOk(s, w, Payload(s.workers[w].p.id, v));
    case Drop => FreedOk(s, w);
    case Failure => EndedOk(s, w);
  }

  lemma LeaveOk<V>(c: Config<V>, st: State<V>, k: nat, w: nat)
    requires AllOk(c, st) && Enabled(c, st, Leave(k, w))
    ensures AllOk(c, Apply(c, st, Leave(k, w)))
  {
    EndedOk(st.stages[k], w);
  }

  lemma SpawnOk<V>(c: Config<V>, st: State<V>, k: nat)
    requires AllOk(c, st) && Enabled(c, st, Spawn(k))
    ensures AllOk(c, Apply(c, st, Spawn(k)))
  {
    SpawnedOk(st.stages[k], st.stages[k].front.p);
  }

  lemma StepOk<V>(c: Config<V>, st: State<V>, e: Event)
    requires AllOk(c, st) && Enabled(c, st, e)
    ensures AllOk(c, Apply(c, st, e))
  {
    match e
    case Send(k, w, r) => SendOk(c, st, k, w, r);
    case Process(k, w) => ProcessOk(c, st, k, w);
    case Leave(k, w) => LeaveOk(c, st, k, w);
    case Spawn(k) => SpawnOk(c, st, k);
    case Hand(_) =>
    case Stop(k) => StopOk(c, st, k);
    case _ =>
  }

  lemma StopOk<V>(c: Config<V>, st: State<V>, k: nat)
    requires AllOk(c, st) && Enabled(c, st, Stop(k))
    ensures AllOk(c, Apply(c, st, Stop(k)))
  {
  }

  lemma StartOk<V>(c: Config<V>, data: seq<V>)
    requires ValidConfig(c)
    ensures AllOk(c, Initial(c, data))
  {
  }

  lemma {:induction false} RunOk<V>(c: Config<V>, data: seq<V>, states: seq<State<V>>, events: seq<Event>, i: nat)
    requires ValidConfig(c) && IsRun(c, data, states, events) && i < |states|
    ensures AllOk(c, states[i])
  {
    if i == 0 {
      StartOk(c, data);
    } else {
      RunOk(c, data, states, events, i - 1);
      StepOk(c, states[i - 1], events[i - 1]);
    }
  }

  // ---------- every payload is in one place ----------

  function HasId<V>(id: nat): Payload<V> -> int { (p: Payload<V>) => if p.id == id then 1 else 0 }

  function WorkerHas<V>(id: nat): Worker<V> -> int
  {
    (w: Worker<V>) => if (w.Holding? || w.Emitting?) && w.p.id == id then 1 else 0
  }

  function FrontHas<V>(f: Front<V>, id: nat): int
  {
    if (f.Spawning? || f.Handing?) && f.p.id == id then 1 else 0
  }

  ghost function StageHas<V>(id: nat): Stage<V> -> int
  {
    (s: Stage<V>) => FrontHas(s.front, id) + Sum(s.workers, WorkerHas(id))
  }

  /** Copies of payload `id` held by the source, the stages and the sink. */
  ghost function InFlight<V>(st: State<V>, id: nat): int
  {
    Sum(st.source.rest, HasId(id)) + Sum(st.stages, StageHas(id)) + WorkerHas(id)(st.sink.worker)
  }

  function IsId(id: nat): nat -> int { x => if x == id then 1 else 0 }

  /** Every payload ever created is in flight, marked as processed or lost, exactly once. */
  ghost predicate Conserved<V>(st: State<V>)
  {
    forall id: nat :: Accounted(st, id) == if id < st.next then 1 else 0
  }

  ghost function Accounted<V>(st: State<V>, id: nat): int
  {
    InFlight(st, id) + Sum(st.marked, IsId(id)) + Sum(st.lost, IsId(id))
  }

  lemma StageChange<V>(st: State<V>, k: nat, s: Stage<V>, id: nat)
    requires k < |st.stages|
    ensures InFlight(WithStage(st, k, s), id) == InFlight(st, id) - StageHas(id)(st.stages[k]) + StageHas(id)(s)
  {
    SumUpdate(st.stages, k, s, StageHas(id));
  }

  lemma WorkerChange<V>(s: Stage<V>, w: nat, x: Worker<V>, id: nat)
    requires w < |s.workers|
    ensures StageHas(id)(s.(workers := s.workers[w := x]))
         == StageHas(id)(s) - WorkerHas(id)(s.workers[w]) + WorkerHas(id)(x)
  {
    SumUpdate(s.workers, w, x, WorkerHas(id));
  }

  lemma FreedHas<V>(s: Stage<V>, w: nat, id: nat)
    requires w < |s.workers|
    ensures StageHas(id)(Freed(s, w)) == StageHas(id)(s) - WorkerHas(id)(s.workers[w])
    ensures StageHas(id)(Ended(s, w)) == StageHas(id)(s) - WorkerHas(id)(s.workers[w])
  {
    WorkerChange(s, w, Exited, id);
    WorkerChange(s, w, Ready, id);
  }

  lemma OneMore(xs: seq<nat>, x: nat, id: nat)
    ensures Sum(xs + [x], IsId(id)) == Sum(xs, IsId(id)) + IsId(id)(x)
  {
    SumAppend(xs, [x], IsId(id));
  }

  lemma TakenHas<V>(st: State<V>, k: nat, w: nat, id: nat)
    requires k <= |st.stages| && Offers(st, k, w)
    ensures InFlight(TakenFrom(st, k, w), id) == InFlight(st, id) - HasId(id)(Offer(st, k, w))
  {
    if k > 0 {
      FreedHas(st.stages[k - 1], w, id);
      StageChange(st, k - 1, Freed(st.stages[k - 1], w), id);
    }
  }

  lemma GivenHas<V>(st: State<V>, k: nat, r: nat, p: Payload<V>, id: nat)
    requires k <= |st.stages| && Waits(st, k, r)
    requires k < |st.stages| && !st.stages[k].kind.Pool? ==> st.stages[k].front.Reading?
    ensures InFlight(GivenTo(st, k, r, p), id) == InFlight(st, id) + HasId(id)(p)
  {
    if k < |st.stages| {
      var s := st.stages[k];
      if s.kind.Pool? { WorkerChange(s, r, Holding(p), id); }
      StageChange(st, k, Received(s, r, p), id);
    }
  }

  lemma SendCounts<V>(c: Config<V>, st: State<V>, k: nat, w: nat, r: nat, id: nat)
    requires Enabled(c, st, Send(k, w, r))
    ensures Accounted(Apply(c, st, Send(k, w, r)), id) == Accounted(st, id)
  {
    var p := Offer(st, k, w);
    TakenHas(st, k, w, id);
    GivenHas(TakenFrom(st, k, w), k, r, p, id);
  }

  lemma ProcessCounts<V>(c: Config<V>, st: State<V>, k: nat, w: nat, id: nat)
    requires Enabled(c, st, Process(k, w))
    ensures Accounted(Apply(c, st, Process(k, w)), id) == Accounted(st, id)
  {
    var s := st.stages[k];
    var p := s.workers[w].p;
    match c.process(k, ProcessorOf(s.kind, w), p.value)
    case Emit(v) =>
      WorkerChange(s, w, Emitting(Payload(p.id, v)), id);
      StageChange(st, k, s.(workers := s.workers[w := Emitting(Payload(p.id, v))]), id);
    case Drop =>
      FreedHas(s, w, id);
      StageChange(st, k, Freed(s, w), id);
      OneMore(st.marked, p.id, id);
    case Failure =>
      FreedHas(s, w, id);
      StageChange(st, k, Ended(s, w), id);
      OneMore(st.lost, p.id, id);
  }

  lemma LeaveCounts<V>(c: Config<V>, st: State<V>, k: nat, w: nat, id: nat)
    requires Enabled(c, st, Leave(k, w))
    ensures Accounted(Apply(c, st, Leave(k, w)), id) == Accounted(st, id)
  {
    var s := st.stages[k];
    FreedHas(s, w, id);
    StageChange(st, k, Ended(s, w), id);
    if s.workers[w].Emitting? { OneMore(st.lost, s.workers[w].p.id, id); }
  }

  lemma SpawnCounts<V>(c: Config<V>, st: State<V>, k: nat, id: nat)
    requires Enabled(c, st, Spawn(k))
    ensures Accounted(Apply(c, st, Spawn(k)), id) == Accounted(st, id)
  {
    var s := st.stages[k];
    SumAppend(s.workers, [Holding(s.front.p)], WorkerHas(id));
    StageChange(st, k, Apply(c, st, Spawn(k)).stages[k], id);
  }

  /** Handing out a clone creates it. */
  lemma HandCounts<V>(c: Config<V>, st: State<V>, k: nat, id: nat)
    requires Enabled(c, st, Hand(k))
    ensures Accounted(Apply(c, st, Hand(k)), id) ==
      Accounted(st, id) + if st.stages[k].front.to > 0 && id == st.next then 1 else 0
  {
    var s := st.stages[k];
    var (p, i) := (s.front.p, s.front.to);
    WorkerChange(s, i, if i == 0 then Holding(p) else Holding(Payload(st.next, p.value)), id);
    StageChange(st, k, Apply(c, st, Hand(k)).stages[k], id);
  }

  lemma StopCounts<V>(c: Config<V>, st: State<V>, k: nat, id: nat)
    requires Enabled(c, st, Stop(k))
    ensures Accounted(Apply(c, st, Stop(k)), id) == Accounted(st, id)
  {
    var s := st.stages[k];
    StageChange(st, k, Apply(c, st, Stop(k)).stages[k], id);
    if s.front.Spawning? || s.front.Handing? { OneMore(st.lost, s.front.p.id, id); }
  }

  lemma ConsumeCounts<V>(c: Config<V>, st: State<V>, id: nat)
    requires Enabled(c, st, Consume)
    ensures Accounted(Apply(c, st, Consume), id) == Accounted(st, id)
  {
    if c.sinkFails(st.sink.worker.p.value) {
      OneMore(st.lost, st.sink.worker.p.id, id);
    } else {
      OneMore(st.marked, st.sink.worker.p.id, id);
    }
  }

  lemma OtherCounts<V>(c: Config<V>, st: State<V>, e: Event, id: nat)
    requires Enabled(c, st, e) && (e.Drain? || e.Close? || e.EndSource? || e.EndSink? || e.Cancel? || e.Collect?)
    ensures Accounted(Apply(c, st, e), id) == Accounted(st, id)
  {
    if e.Drain? || e.Close? { StageChange(st, e.k, Apply(c, st, e).stages[e.k], id); }
  }

  /** A step moves payloads, and creates the clone it numbers. */
  lemma StepCounts<V>(c: Config<V>, st: State<V>, e: Event, id: nat)
    requires Enabled(c, st, e)
    ensures Accounted(Apply(c, st, e), id) ==
      Accounted(st, id) + if st.next <= id < Apply(c, st, e).next then 1 else 0
    ensures Apply(c, st, e).next >= st.next
  {
    match e
    case Send(k, w, r) => SendCounts(c, st, k, w, r, id);
    case Process(k, w) => ProcessCounts(c, st, k, w, id);
    case Leave(k, w) => LeaveCounts(c, st, k, w, id);
    case Spawn(k) => SpawnCounts(c, st, k, id);
    case Hand(k) => HandCounts(c, st, k, id);
    case Stop(k) => StopCounts(c, st, k, id);
    case Consume => ConsumeCounts(c, st, id);
    case _ => OtherCounts(c, st, e, id);
  }

  lemma StepConserves<V>(c: Config<V>, st: State<V>, e: Event)
    requires Conserved(st) && Enabled(c, st, e)
    ensures Conserved(Apply(c, st, e))
  {
    var next := Apply(c, st, e);
    forall id: nat ensures Accounted(next, id) == if id < next.next then 1 else 0 { StepCounts(c, st, e, id); }
  }

  lemma {:induction false} StartPayloads<V>(rest: seq<Payload<V>>, from: nat, id: nat)
    requires forall i :: 0 <= i < |rest| ==> rest[i].id == from + i
    ensures Sum(rest, HasId(id)) == if from <= id < from + |rest| then 1 else 0
  {
    if rest != [] { StartPayloads(rest[1..], from + 1, id); }
  }

  lemma StartConserves<V>(c: Config<V>, data: seq<V>)
    ensures Conserved(Initial(c, data))
  {
    var st := Initial(c, data);
    forall id: nat ensures InFlight(st, id) == if id < st.next then 1 else 0 {
      StartPayloads(st.source.rest, 0, id);
      forall s | s in st.stages ensures StageHas(id)(s) == 0 { SumZero(s.workers, WorkerHas(id)); }
      SumZero(st.stages, StageHas(id));
    }
  }

  lemma {:induction false} RunConserves<V>(
      c: Config<V>, data: seq<V>, states: seq<State<V>>, events: seq<Event>, i: nat)
    requires IsRun(c, data, states, events) && i < |states|
    ensures Conserved(states[i])
  {
    if i == 0 {
      StartConserves(c, data);
    } else {
      RunConserves(c, data, states, events, i - 1);
      StepConserves(c, states[i - 1], events[i - 1]);
    }
  }
}
