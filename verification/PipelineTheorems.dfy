/** What `Process` guarantees: nil exactly without an error, every payload marked once, and no deadlock. */
module PipelineTheorems {
  import opened Sums
  import opened Pipeline
  import opened PipelineProofs

  // ---------- a run without a fault ----------

  /** Nobody in the stage leaves before its input is shut. */
  ghost predicate CalmStage<V>(s: Stage<V>, shut: bool)
  {
    match s.kind
    case Pool(_) => forall w :: 0 <= w < |s.workers| && s.workers[w].Exited? ==> shut
    case Dynamic(_) => s.front.Draining? ==> shut
    case Broadcast(_) =>
      && (s.front == Closing ==> shut)
      && forall w :: 0 <= w < |s.workers| && s.workers[w].Exited? ==> s.front == Closing
  }

  ghost predicate CalmAt<V>(st: State<V>, k: nat)
    requires k < |st.stages|
  {
    CalmStage(st.stages[k], Closed(st, k))
  }

  ghost predicate StagesCalm<V>(st: State<V>)
  {
    forall k: nat :: k < |st.stages| ==> CalmAt(st, k)
  }

  ghost predicate Calm<V>(st: State<V>)
  {
    && (st.source.exited ==> st.source.rest == [])
    && (st.sink.worker.Exited? ==> Closed(st, |st.stages|))
    && StagesCalm(st)
    && st.lost == []
  }

  ghost predicate Orderly<V>(st: State<V>)
  {
    CountersOk(st) && (!st.cancelled && st.raised == 0 ==> Calm(st))
  }

  /** The state with another stage `k`. */
  ghost predicate OneStage<V>(st: State<V>, next: State<V>, k: nat, s: Stage<V>)
  {
    && k < |st.stages| && next.stages == st.stages[k := s] && next.source.exited == st.source.exited
    && next.source.rest == st.source.rest
    && next.sink == st.sink && next.lost == st.lost && (st.stages[k].closed ==> s.closed)
  }

  lemma OneStageCalm<V>(st: State<V>, next: State<V>, k: nat, s: Stage<V>)
    requires Calm(st) && OneStage(st, next, k, s) && CalmStage(s, Closed(st, k))
    ensures Calm(next)
  {
    assert Closed(st, |st.stages|) ==> Closed(next, |next.stages|);
    forall j: nat | j < |next.stages| ensures CalmAt(next, j) {
      assert Closed(st, j) ==> Closed(next, j);
      assert CalmAt(st, j);
    }
  }

  lemma SendCalm<V>(c: Config<V>, st: State<V>, k: nat, w: nat, r: nat)
    requires AllOk(c, st) && Calm(st) && Enabled(c, st, Send(k, w, r))
    ensures Calm(Apply(c, st, Send(k, w, r)))
  {
    var p, taken := Offer(st, k, w), TakenFrom(st, k, w);
    if k == 0 {
      forall j: nat | j < |taken.stages| ensures CalmAt(taken, j) { assert CalmAt(st, j); }
    } else {
      var s := st.stages[k - 1];
      assert CalmAt(st, k - 1);
      OneStageCalm(st, taken, k - 1, Freed(s, w));
    }
    GivenCalm(taken, k, r, p);
  }

  lemma GivenCalm<V>(st: State<V>, k: nat, r: nat, p: Payload<V>)
    requires Calm(st) && k <= |st.stages| && Waits(st, k, r) && (k < |st.stages| ==> StageOk(st.stages[k]))
    ensures Calm(GivenTo(st, k, r, p))
  {
    var next := GivenTo(st, k, r, p);
    if k < |st.stages| {
      assert CalmAt(st, k);
      OneStageCalm(st, next, k, Received(st.stages[k], r, p));
    } else {
      forall j: nat | j < |next.stages| ensures CalmAt(next, j) { assert CalmAt(st, j); }
    }
  }

  lemma ProcessCalm<V>(c: Config<V>, st: State<V>, k: nat, w: nat)
    requires AllOk(c, st) && Calm(st) && Enabled(c, st, Process(k, w)) && Processed(c, st, k, w).raised == st.raised
    ensures Calm(Processed(c, st, k, w))
  {
    var s := st.stages[k];
    var p := s.workers[w].p;
    assert CalmAt(st, k);
    match c.process(k, ProcessorOf(s.kind, w), p.value) {
      case Emit(v) =>
        OneStageCalm(st, Processed(c, st, k, w), k, s.(workers := s.workers[w := Emitting(Payload(p.id, v))]));
      case Drop =>
        OneStageCalm(st, Processed(c, st, k, w), k, Freed(s, w));
      case Failure =>
    }
  }

  lemma LeaveCalm<V>(c: Config<V>, st: State<V>, k: nat, w: nat)
    requires AllOk(c, st) && Calm(st) && Enabled(c, st, Leave(k, w)) && !st.cancelled
    ensures Calm(Left(st, k, w))
  {
    assert StageOk(st.stages[k]) && CalmAt(st, k);
    OneStageCalm(st, Left(st, k, w), k, Ended(st.stages[k], w));
  }

  lemma SpawnCalm<V>(c: Config<V>, st: State<V>, k: nat)
    requires AllOk(c, st) && Calm(st) && Enabled(c, st, Spawn(k))
    ensures Calm(Apply(c, st, Spawn(k)))
  {
    var next := Apply(c, st, Spawn(k));
    assert StageOk(st.stages[k]) && CalmAt(st, k);
    OneStageCalm(st, next, k, next.stages[k]);
  }

  lemma HandCalm<V>(c: Config<V>, st: State<V>, k: nat)
    requires AllOk(c, st) && Calm(st) && Enabled(c, st, Hand(k))
    ensures Calm(Handed(st, k))
  {
    assert StageOk(st.stages[k]) && CalmAt(st, k);
    OneStageCalm(st, Handed(st, k), k, Handed(st, k).stages[k]);
  }

  lemma StopCalm<V>(c: Config<V>, st: State<V>, k: nat)
    requires AllOk(c, st) && Calm(st) && Enabled(c, st, Stop(k)) && !st.cancelled
    ensures Calm(Stopped(st, k))
  {
    assert StageOk(st.stages[k]) && CalmAt(st, k);
    OneStageCalm(st, Stopped(st, k), k, Stopped(st, k).stages[k]);
  }

  lemma DrainCalm<V>(c: Config<V>, st: State<V>, k: nat)
    requires AllOk(c, st) && Calm(st) && Enabled(c, st, Drain(k))
    ensures Calm(Apply(c, st, Drain(k)))
  {
    var next := Apply(c, st, Drain(k));
    assert StageOk(st.stages[k]) && CalmAt(st, k);
    OneStageCalm(st, next, k, next.stages[k]);
  }

  lemma CloseCalm<V>(c: Config<V>, st: State<V>, k: nat)
    requires AllOk(c, st) && Calm(st) && Enabled(c, st, Close(k))
    ensures Calm(Apply(c, st, Close(k)))
  {
    assert CalmAt(st, k);
    OneStageCalm(st, Apply(c, st, Close(k)), k, st.stages[k].(closed := true));
  }

  /** The source, the sink, the context and the error channel. */
  lemma EndsCalm<V>(c: Config<V>, st: State<V>, e: Event)
    requires Calm(st) && Enabled(c, st, e) && (e.EndSource? || e.Consume? || e.EndSink? || e.Cancel? || e.Collect?)
    requires !st.cancelled && Apply(c, st, e).raised == st.raised
    ensures Calm(Apply(c, st, e))
  {
    var next := Apply(c, st, e);
    assert forall k :: 0 <= k <= |st.stages| && Closed(st, k) ==> Closed(next, k);
    forall k: nat | k < |next.stages| ensures CalmAt(next, k) {
      assert CalmAt(st, k);
    }
  }

  lemma StepCalm<V>(c: Config<V>, st: State<V>, e: Event)
    requires AllOk(c, st) && Calm(st) && Enabled(c, st, e) && !st.cancelled && Apply(c, st, e).raised == st.raised
    ensures Calm(Apply(c, st, e))
  {
    match e
    case Send(k, w, r) => SendCalm(c, st, k, w, r);
    case Process(k, w) => ProcessCalm(c, st, k, w);
    case Leave(k, w) => LeaveCalm(c, st, k, w);
    case Spawn(k) => SpawnCalm(c, st, k);
    case Hand(k) => HandCalm(c, st, k);
    case Stop(k) => StopCalm(c, st, k);
    case Drain(k) => DrainCalm(c, st, k);
    case Close(k) => CloseCalm(c, st, k);
    case _ => EndsCalm(c, st, e);
  }

  ghost predicate CountersOk<V>(st: State<V>)
  {
    && !st.sink.worker.Emitting?
    && (st.raised > 0 <==> st.collected + st.queued > 0)
    && (st.cancelled <==> st.external || st.collected > 0)
  }

  lemma StepOrderly<V>(c: Config<V>, st: State<V>, e: Event)
    requires AllOk(c, st) && Enabled(c, st, e) && Orderly(st)
    ensures Orderly(Apply(c, st, e))
  {
    var next := Apply(c, st, e);
    if !next.cancelled && next.raised == 0 { StepCalm(c, st, e); }
  }

  lemma {:induction false} RunOrderly<V>(
      c: Config<V>, data: seq<V>, states: seq<State<V>>, events: seq<Event>, i: nat)
    requires ValidConfig(c) && IsRun(c, data, states, events) && i < |states|
    ensures AllOk(c, states[i]) && Orderly(states[i])
  {
    RunOk(c, data, states, events, i);
    if i == 0 {
    } else {
      RunOrderly(c, data, states, events, i - 1);
      StepOrderly(c, states[i - 1], events[i - 1]);
    }
  }

  // ---------- the guarantees ----------

  /** Source, stages and sink have all returned: the error channel is closed. */
  ghost predicate ErrorsClosed<V>(st: State<V>)
  {
    st.source.exited && st.sink.worker.Exited? && forall k :: 0 <= k < |st.stages| ==> st.stages[k].closed
  }

  /** And it is drained: `Process` returns, with nil if it collected nothing. */
  ghost predicate Returned<V>(st: State<V>) { ErrorsClosed(st) && st.queued == 0 }

  /** Nil exactly when no source, stage or sink raised an error, although a full error channel drops errors. */
  lemma NilIffNoError<V>(c: Config<V>, data: seq<V>, states: seq<State<V>>, events: seq<Event>, i: nat)
    requires ValidConfig(c) && IsRun(c, data, states, events) && i < |states| && Returned(states[i])
    ensures states[i].collected == 0 <==> states[i].raised == 0
  {
    RunOrderly(c, data, states, events, i);
  }

  /** The step is a call that returns an error: of a processor, of the sink, or of the source once it is dry. */
  ghost predicate Fails<V>(c: Config<V>, st: State<V>, e: Event)
    requires Enabled(c, st, e)
  {
    match e
    case Process(k, w) =>
      c.process(k, if st.stages[k].kind.Broadcast? then w else 0, st.stages[k].workers[w].p.value).Failure?
    case Consume => c.sinkFails(st.sink.worker.p.value)
    case EndSource => st.source.rest == [] && c.sourceFails
    case _ => false
  }

  lemma StepRaises<V>(c: Config<V>, st: State<V>, e: Event)
    requires Enabled(c, st, e)
    ensures Apply(c, st, e).raised == st.raised + if Fails(c, st, e) then 1 else 0
  {
  }

  ghost predicate FailedAt<V>(c: Config<V>, states: seq<State<V>>, events: seq<Event>, j: nat)
  {
    j < |events| && j < |states| && Enabled(c, states[j], events[j]) && Fails(c, states[j], events[j])
  }

  /** Errors are raised exactly by the calls that failed. */
  lemma {:induction false} RaisedByFailures<V>(
      c: Config<V>, data: seq<V>, states: seq<State<V>>, events: seq<Event>, i: nat)
    requires IsRun(c, data, states, events) && i < |states|
    ensures states[i].raised == 0 <==> forall j: nat :: j < i ==> !FailedAt(c, states, events, j)
  {
    if i > 0 {
      RaisedByFailures(c, data, states, events, i - 1);
      StepRaises(c, states[i - 1], events[i - 1]);
      assert FailedAt(c, states, events, i - 1) <==> Fails(c, states[i - 1], events[i - 1]);
    }
  }

  /** So `Process` returns nil exactly if no call of a processor, the sink or the source has failed. */
  lemma NilIffNothingFailed<V>(c: Config<V>, data: seq<V>, states: seq<State<V>>, events: seq<Event>, i: nat)
    requires ValidConfig(c) && IsRun(c, data, states, events) && i < |states| && Returned(states[i])
    ensures states[i].collected == 0 <==> forall j: nat :: j < i ==> !FailedAt(c, states, events, j)
  {
    NilIffNoError(c, data, states, events, i);
    RaisedByFailures(c, data, states, events, i);
  }

  /** The error channel has room for one error of every stage, the source and the sink. */
  ghost predicate ErrorsKept<V>(n: nat, st: State<V>)
  {
    && |st.stages| == n && st.queued <= n + 2 && st.collected + st.queued <= st.raised
    && (st.raised <= n + 2 ==> st.collected + st.queued == st.raised)
  }

  lemma ProcessErrors<V>(c: Config<V>, n: nat, st: State<V>, k: nat, w: nat)
    requires ErrorsKept(n, st) && Enabled(c, st, Process(k, w))
    ensures ErrorsKept(n, Processed(c, st, k, w))
  {
  }

  lemma StepErrors<V>(c: Config<V>, n: nat, st: State<V>, e: Event)
    requires ErrorsKept(n, st) && Enabled(c, st, e)
    ensures ErrorsKept(n, Apply(c, st, e))
  {
    if e.Process? { ProcessErrors(c, n, st, e.k, e.w); }
  }

  /** The error channel never overflows, and no error is dropped unless more are raised than it has room for. */
  lemma {:induction false} ErrorsCollected<V>(
      c: Config<V>, data: seq<V>, states: seq<State<V>>, events: seq<Event>, i: nat)
    requires IsRun(c, data, states, events) && i < |states|
    ensures ErrorsKept(|c.kinds|, states[i])
    ensures states[i].queued <= |c.kinds| + 2
    ensures Returned(states[i]) && states[i].raised <= |c.kinds| + 2 ==> states[i].collected == states[i].raised
  {
    if i > 0 {
      ErrorsCollected(c, data, states, events, i - 1);
      StepErrors(c, |c.kinds|, states[i - 1], events[i - 1]);
    }
  }

  /** Nobody who offers a payload on a channel finds it closed. */
  lemma NoSendOnClosed<V>(
      c: Config<V>, data: seq<V>, states: seq<State<V>>, events: seq<Event>, i: nat, k: nat, w: nat)
    requires ValidConfig(c) && IsRun(c, data, states, events) && i < |states|
    requires k <= |states[i].stages| && Offers(states[i], k, w)
    ensures !Closed(states[i], k)
  {
    RunOk(c, data, states, events, i);
    if k > 0 && states[i].stages[k - 1].closed { ClosedIsQuiet(states[i].stages[k - 1]); }
  }

  /** A broadcast that has stopped reading has closed the inputs of its processors: it hands nothing over any more, and
      they stay closed. */
  lemma InputsStayClosed<V>(
      c: Config<V>, data: seq<V>, states: seq<State<V>>, events: seq<Event>, i: nat, j: nat, k: nat)
    requires ValidConfig(c) && IsRun(c, data, states, events) && i <= j < |events| && k < |c.kinds|
    requires c.kinds[k].Broadcast? && ClosingAt(states[i], k)
    ensures ClosingAt(states[j], k) && events[j] != Hand(k)
  {
    ClosedFor(c, data, states, events, i, j, k);
  }

  lemma {:induction false} ClosedFor<V>(
      c: Config<V>, data: seq<V>, states: seq<State<V>>, events: seq<Event>, i: nat, j: nat, k: nat)
    requires ValidConfig(c) && IsRun(c, data, states, events) && i <= j < |states| && k < |c.kinds|
    requires c.kinds[k].Broadcast? && ClosingAt(states[i], k)
    ensures ClosingAt(states[j], k)
  {
    if i < j {
      ClosedFor(c, data, states, events, i, j - 1, k);
      RunOk(c, data, states, events, j - 1);
      StaysClosing(c, states[j - 1], events[j - 1], k);
    }
  }

  ghost predicate ClosingAt<V>(st: State<V>, k: nat) { k < |st.stages| && st.stages[k].front == Closing }

  lemma SendStaysClosing<V>(c: Config<V>, st: State<V>, l: nat, w: nat, r: nat, k: nat)
    requires Enabled(c, st, Send(l, w, r)) && ClosingAt(st, k) && st.stages[k].kind.Broadcast?
    ensures ClosingAt(Apply(c, st, Send(l, w, r)), k)
  {
    assert ClosingAt(TakenFrom(st, l, w), k) && Waits(TakenFrom(st, l, w), l, r);
  }

  lemma WorkStaysClosing<V>(c: Config<V>, st: State<V>, l: nat, w: nat, k: nat)
    requires l < |st.stages| && w < |st.stages[l].workers| && ClosingAt(st, k)
    ensures ClosingAt(Left(st, l, w), k)
    ensures st.stages[l].workers[w].Holding? ==> ClosingAt(Processed(c, st, l, w), k)
  {
  }

  lemma StaysClosing<V>(c: Config<V>, st: State<V>, e: Event, k: nat)
    requires Enabled(c, st, e) && ClosingAt(st, k) && st.stages[k].kind.Broadcast?
    ensures ClosingAt(Apply(c, st, e), k)
  {
    match e
    case Send(l, w, r) => SendStaysClosing(c, st, l, w, r, k);
    case Process(l, w) => WorkStaysClosing(c, st, l, w, k);
    case Leave(l, w) => WorkStaysClosing(c, st, l, w, k);
    case _ =>
  }

  /** Nobody raises an error once the error channel is closed, and it stays closed. */
  lemma NoErrorOnClosed<V>(
      c: Config<V>, data: seq<V>, states: seq<State<V>>, events: seq<Event>, i: nat, e: Event)
    requires ValidConfig(c) && IsRun(c, data, states, events) && i < |states|
    requires ErrorsClosed(states[i]) && Enabled(c, states[i], e)
    ensures Apply(c, states[i], e).raised == states[i].raised && ErrorsClosed(Apply(c, states[i], e))
  {
    RunOk(c, data, states, events, i);
    ClosedIsStill(c, states[i], e);
  }

  lemma ClosedIsStill<V>(c: Config<V>, st: State<V>, e: Event)
    requires AllOk(c, st) && ErrorsClosed(st) && Enabled(c, st, e)
    ensures e.Cancel? || e.Collect?
  {
    forall k: nat | k < |st.stages| ensures AllExited(st.stages[k]) && Finished(st.stages[k]) {
      ClosedIsQuiet(st.stages[k]);
    }
  }

  /** A dynamic pool's tokens are all in its channel, with its workers, or taken back; so at most `n` workers
      run, and none when its Run has returned. */
  lemma TokensConserved<V>(
      c: Config<V>, data: seq<V>, states: seq<State<V>>, events: seq<Event>, i: nat, k: nat)
    requires ValidConfig(c) && IsRun(c, data, states, events) && i < |states|
    requires k < |c.kinds| && c.kinds[k].Dynamic?
    ensures k < |states[i].stages|
    ensures var s := states[i].stages[k];
      && s.tokens + Active(s.workers) + (if s.front.Draining? then s.front.taken else 0) == c.kinds[k].n
      && Active(s.workers) <= c.kinds[k].n
      && (Finished(s) ==> AllExited(s))
  {
    RunOk(c, data, states, events, i);
    assert StageOk(states[i].stages[k]);
    ActiveNone(states[i].stages[k].workers);
  }

  /** A pool of `n` workers and a broadcast to `n` processors have `n` workers throughout. */
  lemma WorkersFixed<V>(
      c: Config<V>, data: seq<V>, states: seq<State<V>>, events: seq<Event>, i: nat, k: nat)
    requires ValidConfig(c) && IsRun(c, data, states, events) && i < |states|
    requires k < |c.kinds| && !c.kinds[k].Dynamic?
    ensures k < |states[i].stages| && |states[i].stages[k].workers| == c.kinds[k].n
  {
    RunOk(c, data, states, events, i);
    assert StageOk(states[i].stages[k]);
  }

  lemma NothingInFlight<V>(c: Config<V>, st: State<V>, id: nat)
    requires AllOk(c, st) && Returned(st) && st.source.rest == []
    ensures InFlight(st, id) == 0
  {
    forall s | s in st.stages ensures StageHas(id)(s) == 0 {
      ClosedIsQuiet(s);
      SumZero(s.workers, WorkerHas(id));
    }
    SumZero(st.stages, StageHas(id));
  }

  /** Without an error and without a cancellation every payload of the source and every clone is marked as
      processed exactly once. */
  lemma MarkedOnce<V>(
      c: Config<V>, data: seq<V>, states: seq<State<V>>, events: seq<Event>, i: nat, id: nat)
    requires ValidConfig(c) && IsRun(c, data, states, events) && i < |states| && Returned(states[i])
    requires states[i].raised == 0 && !states[i].external && id < states[i].next
    ensures Sum(states[i].marked, IsId(id)) == 1
  {
    RunOrderly(c, data, states, events, i);
    RunConserves(c, data, states, events, i);
    NothingInFlight(c, states[i], id);
    assert Accounted(states[i], id) == 1;
  }

  /** In any run, none is marked twice. */
  lemma NeverMarkedTwice<V>(
      c: Config<V>, data: seq<V>, states: seq<State<V>>, events: seq<Event>, i: nat, id: nat)
    requires IsRun(c, data, states, events) && i < |states|
    ensures Sum(states[i].marked, IsId(id)) <= 1
  {
    RunConserves(c, data, states, events, i);
    var st := states[i];
    assert Accounted(st, id) <= 1;
    SumBounds(st.lost, IsId(id));
    SumBounds(st.source.rest, HasId(id));
    forall s | s in st.stages ensures StageHas(id)(s) >= 0 { SumBounds(s.workers, WorkerHas(id)); }
    SumBounds(st.stages, StageHas(id));
  }

  // ---------- progress ----------

  /** Something other than an outside cancellation can happen. */
  ghost predicate Goes<V>(c: Config<V>, st: State<V>)
  {
    exists e: Event :: e != Cancel && Enabled(c, st, e)
  }

  lemma BusyGoes<V>(c: Config<V>, st: State<V>, k: nat, w: nat)
    requires k < |st.stages| && w < |st.stages[k].workers|
    requires st.stages[k].workers[w].Holding? || (st.cancelled && !st.stages[k].workers[w].Exited?)
    ensures Goes(c, st)
  {
    if st.stages[k].workers[w].Holding? {
      assert Enabled(c, st, Process(k, w));
    } else {
      assert Enabled(c, st, Leave(k, w));
    }
  }

  /** A dynamic pool with no running worker has its tokens to go on with. */
  lemma DrainingGoes<V>(c: Config<V>, st: State<V>, k: nat)
    requires k < |st.stages| && StageOk(st.stages[k]) && st.stages[k].kind.Dynamic?
    requires AllExited(st.stages[k]) && !st.stages[k].closed && !st.stages[k].front.Reading?
    ensures Goes(c, st)
  {
    var s := st.stages[k];
    ActiveNone(s.workers);
    if s.front.Spawning? {
      assert Enabled(c, st, Spawn(k));
    } else if s.front.taken < s.kind.n {
      assert Enabled(c, st, Drain(k));
    } else {
      assert Enabled(c, st, Close(k));
    }
  }

  /** After a cancellation every goroutine can leave. */
  lemma CancelledGoes<V>(c: Config<V>, st: State<V>)
    requires AllOk(c, st) && CountersOk(st) && st.cancelled && !Returned(st)
    ensures Goes(c, st)
  {
    if st.queued > 0 {
      assert Enabled(c, st, Collect);
    } else if !st.source.exited {
      assert Enabled(c, st, EndSource);
    } else if !st.sink.worker.Exited? {
      assert Enabled(c, st, Consume) || Enabled(c, st, EndSink);
    } else {
      var k :| 0 <= k < |st.stages| && !st.stages[k].closed;
      CancelledStageGoes(c, st, k);
    }
  }

  lemma CancelledStageGoes<V>(c: Config<V>, st: State<V>, k: nat)
    requires k < |st.stages| && StageOk(st.stages[k]) && st.cancelled && !st.stages[k].closed
    ensures Goes(c, st)
  {
    var s := st.stages[k];
    if w: nat :| w < |s.workers| && !s.workers[w].Exited? {
      BusyGoes(c, st, k, w);
    } else if s.front.Reading? || s.front.Spawning? || s.front.Handing? {
      assert Enabled(c, st, Stop(k));
    } else if s.kind.Dynamic? {
      DrainingGoes(c, st, k);
    } else {
      assert Enabled(c, st, Close(k));
    }
  }

  /** Someone waits on channel `k`, which is open. */
  ghost predicate Awaited<V>(st: State<V>, k: nat)
    requires k <= |st.stages|
  {
    !Closed(st, k) && exists r :: Waits(st, k, r)
  }

  /** An open stage with nothing to offer goes on, or waits on its own open input. */
  lemma IdleStageGoes<V>(c: Config<V>, st: State<V>, k: nat)
    requires k < |st.stages| && StageOk(st.stages[k]) && CalmAt(st, k)
    requires !st.stages[k].closed
    requires forall w :: 0 <= w < |st.stages[k].workers| ==>
      st.stages[k].workers[w].Ready? || st.stages[k].workers[w].Exited?
    ensures Goes(c, st) || Awaited(st, k)
  {
    match st.stages[k].kind
    case Pool(_) => IdlePoolGoes(c, st, k);
    case Dynamic(_) => if st.stages[k].front.Reading? { ReadingGoes(c, st, k); } else { DrainingGoes(c, st, k); }
    case Broadcast(_) => if st.stages[k].front.Reading? { ReadingGoes(c, st, k); } else { IdleBroadcastGoes(c, st, k); }
  }

  lemma IdlePoolGoes<V>(c: Config<V>, st: State<V>, k: nat)
    requires k < |st.stages| && st.stages[k].kind.Pool? && !st.stages[k].closed
    requires forall w :: 0 <= w < |st.stages[k].workers| ==>
      st.stages[k].workers[w].Ready? || st.stages[k].workers[w].Exited?
    ensures Goes(c, st) || Awaited(st, k)
  {
    if w: nat :| w < |st.stages[k].workers| && st.stages[k].workers[w].Ready? {
      assert Waits(st, k, w);
      assert Closed(st, k) ==> Enabled(c, st, Leave(k, w));
    } else {
      assert Enabled(c, st, Close(k));
    }
  }

  lemma ReadingGoes<V>(c: Config<V>, st: State<V>, k: nat)
    requires k < |st.stages| && StageOk(st.stages[k]) && st.stages[k].front.Reading?
    ensures Goes(c, st) || Awaited(st, k)
  {
    assert Waits(st, k, 0);
    assert Closed(st, k) ==> Enabled(c, st, Stop(k));
  }

  lemma IdleBroadcastGoes<V>(c: Config<V>, st: State<V>, k: nat)
    requires k < |st.stages| && StageOk(st.stages[k]) && CalmAt(st, k)
    requires st.stages[k].kind.Broadcast? && !st.stages[k].closed && !st.stages[k].front.Reading?
    requires forall w :: 0 <= w < |st.stages[k].workers| ==>
      st.stages[k].workers[w].Ready? || st.stages[k].workers[w].Exited?
    ensures Goes(c, st)
  {
    var s := st.stages[k];
    if s.front.Handing? {
      assert Enabled(c, st, Hand(k));
    } else if w: nat :| w < |s.workers| && s.workers[w].Ready? {
      assert Enabled(c, st, Leave(k, w));
    } else {
      assert Enabled(c, st, Close(k));
    }
  }

  /** While someone waits on an open channel, something upstream can go on. */
  lemma {:induction false} WaiterServed<V>(c: Config<V>, st: State<V>, k: nat)
    requires AllOk(c, st) && Calm(st) && k <= |st.stages| && Awaited(st, k)
    ensures Goes(c, st)
  {
    var r: nat :| Waits(st, k, r);
    if k == 0 {
      assert Enabled(c, st, if st.source.rest != [] then Send(0, 0, r) else EndSource);
    } else {
      var s := st.stages[k - 1];
      assert StageOk(s) && CalmAt(st, k - 1);
      if w: nat :| w < |s.workers| && s.workers[w].Emitting? {
        assert Enabled(c, st, Send(k, w, r));
      } else if w: nat :| w < |s.workers| && s.workers[w].Holding? {
        BusyGoes(c, st, k - 1, w);
      } else {
        IdleStageGoes(c, st, k - 1);
        if Awaited(st, k - 1) { WaiterServed(c, st, k - 1); }
      }
    }
  }

  /** A finished stage's input is closed. */
  lemma FinishedShut<V>(s: Stage<V>, shut: bool)
    requires StageOk(s) && CalmStage(s, shut) && Finished(s)
    ensures shut
  {
    if s.kind.Pool? { assert s.workers[0].Exited?; }
  }

  lemma ShutBefore<V>(c: Config<V>, st: State<V>, k: nat)
    requires AllOk(c, st) && Calm(st) && k < |st.stages| && st.stages[k].closed
    ensures Closed(st, k)
  {
    assert StageOk(st.stages[k]) && CalmAt(st, k);
    FinishedShut(st.stages[k], Closed(st, k));
  }

  lemma {:induction false} AllClosed<V>(c: Config<V>, st: State<V>, k: nat, j: nat)
    requires AllOk(c, st) && Calm(st) && j <= k <= |st.stages| && Closed(st, k)
    ensures Closed(st, j)
  {
    if j < k {
      ShutBefore(c, st, k - 1);
      AllClosed(c, st, k - 1, j);
    }
  }

  /** The pipeline never gets stuck: until `Process` returns, some goroutine can go on, whatever errors and
      cancellations came before. */
  lemma NeverStuck<V>(c: Config<V>, data: seq<V>, states: seq<State<V>>, events: seq<Event>, i: nat)
    requires ValidConfig(c) && IsRun(c, data, states, events) && i < |states| && !Returned(states[i])
    ensures Goes(c, states[i])
  {
    RunOrderly(c, data, states, events, i);
    var st := states[i];
    var n := |st.stages|;
    if st.cancelled {
      CancelledGoes(c, st);
    } else if st.queued > 0 {
      assert Enabled(c, st, Collect);
    } else if st.sink.worker.Holding? {
      assert Enabled(c, st, Consume);
    } else if Closed(st, n) {
      AllClosed(c, st, n, 0);
      forall j | 0 <= j < n ensures st.stages[j].closed { AllClosed(c, st, n, j + 1); }
      assert Enabled(c, st, EndSink);
    } else {
      assert Waits(st, n, 0);
      WaiterServed(c, st, n);
    }
  }
}
