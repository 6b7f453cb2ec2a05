/** With FIFO stages only, the sink sees a prefix of the source mapped and filtered by the stages in order. */
module PipelineOrder {
  import opened Pipeline
  import opened PipelineProofs
  import opened PipelineTheorems

  ghost predicate Fifo<V>(c: Config<V>) { forall k :: 0 <= k < |c.kinds| ==> c.kinds[k] == Pool(1) }

  /** What stage `k` makes of a sequence: mapped and filtered, up to the first value it fails on. */
  function Through<V>(c: Config<V>, k: nat, xs: seq<V>): seq<V>
  {
    if xs == [] then []
    else
      match c.process(k, 0, xs[0])
      case Emit(v) => [v] + Through(c, k, xs[1..])
      case Drop => Through(c, k, xs[1..])
      case Failure => []
  }

  /** The stages from `k` on, in order. */
  function Final<V>(c: Config<V>, k: nat, xs: seq<V>): seq<V>
    decreases |c.kinds| - k
  {
    if k >= |c.kinds| then xs else Final(c, k + 1, Through(c, k, xs))
  }

  function Values<V>(ps: seq<Payload<V>>): seq<V>
  {
    if ps == [] then [] else [ps[0].value] + Values(ps[1..])
  }

  /** What will still come out of channel `k` if nothing goes wrong from now on. */
  function Flow<V>(c: Config<V>, st: State<V>, k: nat): seq<V>
    requires k <= |st.stages|
  {
    if k == 0 then if st.source.exited then [] else Values(st.source.rest)
    else
      var ws := st.stages[k - 1].workers;
      Passing(c, k - 1, if |ws| > 0 then ws[0] else Exited, Flow(c, st, k - 1))
  }

  /** What leaves a FIFO worker whose input still brings `xs`. */
  function Passing<V>(c: Config<V>, k: nat, w: Worker<V>, xs: seq<V>): seq<V>
  {
    match w
    case Ready => Through(c, k, xs)
    case Holding(p) => Through(c, k, [p.value] + xs)
    case Emitting(p) => [p.value] + Through(c, k, xs)
    case Exited => []
  }

  /** What the sink has seen and will see. */
  function Total<V>(c: Config<V>, st: State<V>): seq<V>
  {
    st.sink.seen +
      match st.sink.worker
      case Ready => Flow(c, st, |st.stages|)
      case Holding(p) => [p.value] + Flow(c, st, |st.stages|)
      case Emitting(p) => []
      case Exited => []
  }

  lemma {:induction false} ThroughPrefix<V>(c: Config<V>, k: nat, xs: seq<V>, ys: seq<V>)
    requires xs <= ys
    ensures Through(c, k, xs) <= Through(c, k, ys)
  {
    if xs != [] { ThroughPrefix(c, k, xs[1..], ys[1..]); }
  }

  lemma PassingPrefix<V>(c: Config<V>, k: nat, w: Worker<V>, xs: seq<V>, ys: seq<V>)
    requires xs <= ys
    ensures Passing(c, k, w, xs) <= Passing(c, k, w, ys)
  {
    ThroughPrefix(c, k, xs, ys);
    if w.Holding? { ThroughPrefix(c, k, [w.p.value] + xs, [w.p.value] + ys); }
  }

  /** The states agree from stage `k` on. */
  ghost predicate SameFrom<V>(st: State<V>, next: State<V>, k: nat)
  {
    && |st.stages| == |next.stages|
    && forall j :: k <= j < |st.stages| ==> next.stages[j].workers == st.stages[j].workers
  }

  lemma {:induction false} FlowPrefix<V>(c: Config<V>, st: State<V>, next: State<V>, k: nat, j: nat)
    requires SameFrom(st, next, k) && k <= j <= |st.stages| && Flow(c, next, k) <= Flow(c, st, k)
    ensures Flow(c, next, j) <= Flow(c, st, j)
    ensures Flow(c, next, k) == Flow(c, st, k) ==> Flow(c, next, j) == Flow(c, st, j)
    decreases j
  {
    if k < j {
      FlowPrefix(c, st, next, k, j - 1);
      var w := if |st.stages[j - 1].workers| > 0 then st.stages[j - 1].workers[0] else Exited;
      PassingPrefix(c, j - 1, w, Flow(c, next, j - 1), Flow(c, st, j - 1));
    }
  }

  /** When what leaves channel `k` shrinks, or stays, so does what the sink will have seen. */
  lemma TotalPrefix<V>(c: Config<V>, st: State<V>, next: State<V>, k: nat)
    requires SameFrom(st, next, k) && k <= |st.stages| && Flow(c, next, k) <= Flow(c, st, k)
    requires next.sink == st.sink
    ensures Total(c, next) <= Total(c, st)
    ensures Flow(c, next, k) == Flow(c, st, k) ==> Total(c, next) == Total(c, st)
  {
    FlowPrefix(c, st, next, k, |st.stages|);
  }

  // ---------- the steps ----------

  /** The step loses nothing, or something went wrong. */
  ghost predicate Kept<V>(c: Config<V>, st: State<V>, next: State<V>)
  {
    && Total(c, next) <= Total(c, st)
    && (!st.cancelled && next.lost == st.lost ==> Total(c, next) == Total(c, st))
  }

  lemma {:induction false} FlowBelow<V>(c: Config<V>, st: State<V>, next: State<V>, k: nat)
    requires k <= |st.stages| == |next.stages| && next.source == st.source
    requires forall j :: 0 <= j < k ==> next.stages[j].workers == st.stages[j].workers
    ensures Flow(c, next, k) == Flow(c, st, k)
  {
    if k > 0 { FlowBelow(c, st, next, k - 1); }
  }

  /** A step that changes only the worker of stage `k`, which now passes `after` instead of `before`. */
  lemma WorkerKept<V>(c: Config<V>, st: State<V>, next: State<V>, k: nat, before: seq<V>, after: seq<V>)
    requires k < |st.stages| == |next.stages| && next.sink == st.sink
    requires forall j :: k < j < |st.stages| ==> next.stages[j].workers == st.stages[j].workers
    requires Flow(c, st, k + 1) == before && Flow(c, next, k + 1) == after && after <= before
    ensures Total(c, next) <= Total(c, st)
    ensures after == before ==> Total(c, next) == Total(c, st)
  {
    TotalPrefix(c, st, next, k + 1);
  }

  /** The flows before and after a step of the worker of stage `k`. */
  lemma WorkerFlows<V>(c: Config<V>, st: State<V>, next: State<V>, k: nat)
    requires Fifo(c) && AllOk(c, st) && AllOk(c, next) && k < |st.stages| && next.source == st.source
    requires forall j :: 0 <= j < k ==> next.stages[j].workers == st.stages[j].workers
    ensures |st.stages[k].workers| == 1 && |next.stages[k].workers| == 1
    ensures Flow(c, st, k + 1) == Passing(c, k, st.stages[k].workers[0], Flow(c, st, k))
    ensures Flow(c, next, k + 1) == Passing(c, k, next.stages[k].workers[0], Flow(c, st, k))
  {
    FlowBelow(c, st, next, k);
  }

  lemma ProcessPassing<V>(c: Config<V>, k: nat, p: Payload<V>, xs: seq<V>)
    ensures Passing(c, k, Holding(p), xs) ==
      match c.process(k, 0, p.value)
      case Emit(v) => Passing(c, k, Emitting(Payload(p.id, v)), xs)
      case Drop => Passing(c, k, Ready, xs)
      case Failure => Passing(c, k, Exited, xs)
  {
    assert ([p.value] + xs)[1..] == xs;
  }

  lemma ProcessKept<V>(c: Config<V>, st: State<V>, k: nat, w: nat)
    requires Fifo(c) && AllOk(c, st) && Enabled(c, st, Process(k, w))
    ensures Total(c, Processed(c, st, k, w)) == Total(c, st)
  {
    var next := Processed(c, st, k, w);
    StepOk(c, st, Process(k, w));
    WorkerFlows(c, st, next, k);
    ProcessPassing(c, k, st.stages[k].workers[0].p, Flow(c, st, k));
    WorkerKept(c, st, next, k, Flow(c, st, k + 1), Flow(c, next, k + 1));
  }

  lemma LeaveKept<V>(c: Config<V>, st: State<V>, k: nat, w: nat)
    requires Fifo(c) && AllOk(c, st) && Enabled(c, st, Leave(k, w))
    ensures Kept(c, st, Left(st, k, w))
  {
    var next := Left(st, k, w);
    StepOk(c, st, Leave(k, w));
    WorkerFlows(c, st, next, k);
    WorkerKept(c, st, next, k, Flow(c, st, k + 1), Flow(c, next, k + 1));
  }

  lemma SendKept<V>(c: Config<V>, st: State<V>, k: nat, w: nat, r: nat)
    requires Fifo(c) && AllOk(c, st) && Enabled(c, st, Send(k, w, r))
    ensures Total(c, Apply(c, st, Send(k, w, r))) == Total(c, st)
  {
    var p, taken := Offer(st, k, w), TakenFrom(st, k, w);
    TakenFlow(c, st, k, w);
    StepOk(c, st, Send(k, w, r));
    if k == |st.stages| { GivenSink(c, st, taken, p); } else { GivenStage(c, st, taken, k, r, p); }
  }

  lemma GivenSink<V>(c: Config<V>, st: State<V>, taken: State<V>, p: Payload<V>)
    requires |taken.stages| == |st.stages| && taken.sink == st.sink && st.sink.worker.Ready?
    requires Flow(c, st, |st.stages|) == [p.value] + Flow(c, taken, |st.stages|)
    ensures Total(c, GivenTo(taken, |st.stages|, 0, p)) == Total(c, st)
  {
    FlowSame(c, taken, GivenTo(taken, |st.stages|, 0, p), |st.stages|);
  }

  lemma GivenStage<V>(c: Config<V>, st: State<V>, taken: State<V>, k: nat, r: nat, p: Payload<V>)
    requires k < |st.stages| == |taken.stages| && taken.sink == st.sink && Waits(taken, k, r)
    requires Fifo(c) && AllOk(c, st) && AllOk(c, GivenTo(taken, k, r, p))
    requires forall j :: k <= j < |st.stages| ==> taken.stages[j] == st.stages[j]
    requires Flow(c, st, k) == [p.value] + Flow(c, taken, k)
    ensures Total(c, GivenTo(taken, k, r, p)) == Total(c, st)
  {
    var next := GivenTo(taken, k, r, p);
    FlowSame(c, taken, next, k);
    WorkerKept(c, st, next, k, Flow(c, st, k + 1), Flow(c, next, k + 1));
  }

  /** Taking the payload offered on channel `k` leaves the rest of the channel's flow. */
  lemma TakenFlow<V>(c: Config<V>, st: State<V>, k: nat, w: nat)
    requires Fifo(c) && AllOk(c, st) && k <= |st.stages| && Offers(st, k, w)
    ensures Flow(c, st, k) == [Offer(st, k, w).value] + Flow(c, TakenFrom(st, k, w), k)
  {
    if k > 0 {
      assert StageOk(st.stages[k - 1]) && w == 0;
      FlowBelow(c, st, TakenFrom(st, k, w), k - 1);
    }
  }

  lemma FlowSame<V>(c: Config<V>, st: State<V>, next: State<V>, k: nat)
    requires k <= |st.stages| == |next.stages| && next.source == st.source
    requires forall j :: 0 <= j < k ==> next.stages[j] == st.stages[j]
    ensures Flow(c, next, k) == Flow(c, st, k)
  {
    FlowBelow(c, st, next, k);
  }

  lemma EndSourceKept<V>(c: Config<V>, st: State<V>)
    requires Fifo(c) && AllOk(c, st) && Enabled(c, st, EndSource)
    ensures Kept(c, st, Apply(c, st, EndSource))
  {
    TotalPrefix(c, st, Apply(c, st, EndSource), 0);
  }

  lemma EndsKept<V>(c: Config<V>, st: State<V>, e: Event)
    requires Fifo(c) && AllOk(c, st) && Enabled(c, st, e)
    requires e.EndSink? || e.Consume? || e.Close? || e.Cancel? || e.Collect?
    ensures Kept(c, st, Apply(c, st, e))
  {
    var next, n := Apply(c, st, e), |st.stages|;
    FlowBelow(c, st, next, n);
    SinkKept(c, st, e, Flow(c, st, n));
  }

  lemma SinkKept<V>(c: Config<V>, st: State<V>, e: Event, flow: seq<V>)
    requires Enabled(c, st, e) && (e.EndSink? || e.Consume? || e.Close? || e.Cancel? || e.Collect?)
    requires |Apply(c, st, e).stages| == |st.stages|
    requires flow == Flow(c, st, |st.stages|) && flow == Flow(c, Apply(c, st, e), |st.stages|)
    requires Closed(st, |st.stages|) ==> flow == []
    ensures Kept(c, st, Apply(c, st, e))
  {
  }

  lemma StepKept<V>(c: Config<V>, st: State<V>, e: Event)
    requires Fifo(c) && AllOk(c, st) && Enabled(c, st, e)
    ensures Kept(c, st, Apply(c, st, e))
  {
    match e
    case Send(k, w, r) => SendKept(c, st, k, w, r);
    case Process(k, w) => ProcessKept(c, st, k, w);
    case Leave(k, w) => LeaveKept(c, st, k, w);
    case Spawn(_) =>
    case Hand(_) =>
    case Stop(_) =>
    case Drain(_) =>
    case EndSource => EndSourceKept(c, st);
    case _ => EndsKept(c, st, e);
  }

  // ---------- whole runs ----------

  ghost predicate InOrder<V>(c: Config<V>, data: seq<V>, st: State<V>)
  {
    && Total(c, st) <= Final(c, 0, data)
    && (!st.cancelled && st.lost == [] ==> Total(c, st) == Final(c, 0, data))
  }

  lemma {:induction false} StartValues<V>(data: seq<V>, ps: seq<Payload<V>>)
    requires |ps| == |data| && forall i :: 0 <= i < |data| ==> ps[i].value == data[i]
    ensures Values(ps) == data
  {
    if data != [] { StartValues(data[1..], ps[1..]); }
  }

  lemma {:induction false} StartFlow<V>(c: Config<V>, data: seq<V>, st: State<V>, k: nat)
    requires Fifo(c) && st == Initial(c, data) && k <= |c.kinds|
    ensures Final(c, k, Flow(c, st, k)) == Final(c, 0, data)
  {
    if k == 0 {
      StartValues(data, st.source.rest);
    } else {
      StartFlow(c, data, st, k - 1);
      assert st.stages[k - 1] == StartStage(c.kinds[k - 1]);
    }
  }

  lemma StartInOrder<V>(c: Config<V>, data: seq<V>)
    requires Fifo(c)
    ensures InOrder(c, data, Initial(c, data))
  {
    StartFlow(c, data, Initial(c, data), |c.kinds|);
  }

  lemma {:induction false} RunInOrder<V>(
      c: Config<V>, data: seq<V>, states: seq<State<V>>, events: seq<Event>, i: nat)
    requires Fifo(c) && IsRun(c, data, states, events) && i < |states|
    ensures InOrder(c, data, states[i])
  {
    if i == 0 {
      StartInOrder(c, data);
    } else {
      RunInOrder(c, data, states, events, i - 1);
      RunOk(c, data, states, events, i - 1);
      StepKept(c, states[i - 1], events[i - 1]);
    }
  }

  /** At all times the sink has seen a prefix of the source mapped and filtered by the stages in order, even
      when errors and cancellations cut the run short. */
  lemma SinkSeesPrefix<V>(c: Config<V>, data: seq<V>, states: seq<State<V>>, events: seq<Event>, i: nat)
    requires Fifo(c) && IsRun(c, data, states, events) && i < |states|
    ensures states[i].sink.seen <= Final(c, 0, data)
  {
    RunInOrder(c, data, states, events, i);
    assert states[i].sink.seen <= Total(c, states[i]);
  }

  /** When the sink has left without an error or a cancellation, it has seen all of it. */
  lemma SinkSeesAll<V>(c: Config<V>, data: seq<V>, states: seq<State<V>>, events: seq<Event>, i: nat)
    requires Fifo(c) && IsRun(c, data, states, events) && i < |states|
    requires states[i].sink.worker.Exited? && states[i].raised == 0 && !states[i].external
    ensures states[i].sink.seen == Final(c, 0, data)
  {
    RunInOrder(c, data, states, events, i);
    RunOrderly(c, data, states, events, i);
  }
}
