/** The concurrent pipeline as a transition system: source, stages, sink, their unbuffered channels, the error
    channel and the context. Channel `k` feeds stage `k`; the last one feeds the sink. */
module Pipeline {
  /** `id` tells payloads apart; a clone is a payload of its own. */
  datatype Payload<+V> = Payload(id: nat, value: V)

  datatype Outcome<+V> = Emit(value: V) | Drop | Failure

  /** A FIFO stage is a pool of one worker. */
  datatype Kind = Pool(n: nat) | Dynamic(n: nat) | Broadcast(n: nat)

  /** `process(k, j, x)` is what processor `j` of stage `k` makes of a payload with value `x`. */
  datatype Config<!V> = Config(
    kinds: seq<Kind>, process: (nat, nat, V) -> Outcome<V>, sinkFails: V -> bool, sourceFails: bool)

  ghost predicate ValidConfig<V>(c: Config<V>) { forall k :: 0 <= k < |c.kinds| ==> c.kinds[k].n > 0 }

  /** A worker goroutine; it holds what it has received until it has passed it on. */
  datatype Worker<+V> = Ready | Holding(p: Payload<V>) | Emitting(p: Payload<V>) | Exited

  /** The goroutine that reads for a dynamic pool or a broadcast. A pool has none. */
  datatype Front<+V> =
    | Absent
    | Reading
    | Spawning(p: Payload<V>)
    | Draining(taken: nat)
    | Handing(p: Payload<V>, to: nat)
    | Closing

  /** `closed` says the stage's output channel is closed. */
  datatype Stage<+V> = Stage(kind: Kind, front: Front<V>, workers: seq<Worker<V>>, tokens: nat, closed: bool)

  datatype Source<+V> = Source(rest: seq<Payload<V>>, exited: bool)

  datatype Sink<+V> = Sink(worker: Worker<V>, seen: seq<V>)

  /** `raised` counts all errors, queued those in the error channel, `collected` those the caller has taken.
      `marked` and `lost` record the ids marked as processed and those dropped on an error or a cancellation. */
  datatype State<+V> = State(
    source: Source<V>, stages: seq<Stage<V>>, sink: Sink<V>, cancelled: bool, external: bool,
    raised: nat, queued: nat, collected: nat, next: nat, marked: seq<nat>, lost: seq<nat>)

  datatype Event =
    | Send(k: nat, w: nat, r: nat)
    | Process(k: nat, w: nat)
    | Leave(k: nat, w: nat)
    | Spawn(k: nat)
    | Hand(k: nat)
    | Stop(k: nat)
    | Drain(k: nat)
    | Close(k: nat)
    | EndSource
    | Consume
    | EndSink
    | Cancel
    | Collect

  // ---------- the start ----------

  function StartStage<V>(kind: Kind): Stage<V>
  {
    match kind
    case Pool(n) => Stage(kind, Absent, seq(n, _ => Ready), 0, false)
    case Dynamic(n) => Stage(kind, Reading, [], n, false)
    case Broadcast(n) => Stage(kind, Reading, seq(n, _ => Ready), 0, false)
  }

  function Initial<V>(c: Config<V>, data: seq<V>): State<V>
  {
    State(Source(seq(|data|, i requires 0 <= i < |data| => Payload(i, data[i])), false),
          seq(|c.kinds|, k requires 0 <= k < |c.kinds| => StartStage(c.kinds[k])),
          Sink(Ready, []), false, false, 0, 0, 0, |data|, [], [])
  }

  // ---------- channels ----------

  predicate Closed<V>(st: State<V>, k: nat)
    requires k <= |st.stages|
  {
    if k == 0 then st.source.exited else st.stages[k - 1].closed
  }

  /** Who offers a payload on channel `k`: the source, or worker `w` of the stage before. */
  predicate Offers<V>(st: State<V>, k: nat, w: nat)
    requires k <= |st.stages|
  {
    if k == 0 then !st.source.exited && st.source.rest != []
    else w < |st.stages[k - 1].workers| && st.stages[k - 1].workers[w].Emitting?
  }

  function Offer<V>(st: State<V>, k: nat, w: nat): Payload<V>
    requires k <= |st.stages| && Offers(st, k, w)
  {
    if k == 0 then st.source.rest[0] else st.stages[k - 1].workers[w].p
  }

  /** Who waits for one: the sink, a reading front, or worker `r` of a pool. */
  predicate Waits<V>(st: State<V>, k: nat, r: nat)
    requires k <= |st.stages|
  {
    if k == |st.stages| then st.sink.worker.Ready?
    else if st.stages[k].kind.Pool? then r < |st.stages[k].workers| && st.stages[k].workers[r].Ready?
    else st.stages[k].front.Reading?
  }

  // ---------- steps within a stage ----------

  /** A worker whose payload is gone: a pool or broadcast worker reads on, a dynamic one returns its token. */
  function Freed<V>(s: Stage<V>, w: nat): Stage<V>
    requires w < |s.workers|
  {
    if s.kind.Dynamic? then s.(workers := s.workers[w := Exited], tokens := s.tokens + 1)
    else s.(workers := s.workers[w := Ready])
  }

  function Ended<V>(s: Stage<V>, w: nat): Stage<V>
    requires w < |s.workers|
  {
    if s.kind.Dynamic? then s.(workers := s.workers[w := Exited], tokens := s.tokens + 1)
    else s.(workers := s.workers[w := Exited])
  }

  function Received<V>(s: Stage<V>, r: nat, p: Payload<V>): Stage<V>
    requires s.kind.Pool? ==> r < |s.workers|
  {
    match s.kind
    case Pool(_) => s.(workers := s.workers[r := Holding(p)])
    case Dynamic(_) => s.(front := Spawning(p))
    case Broadcast(n) => s.(front := Handing(p, if n == 0 then 0 else n - 1))
  }

  predicate AllExited<V>(s: Stage<V>) { forall w :: 0 <= w < |s.workers| ==> s.workers[w].Exited? }

  /** The stage's Run has returned. */
  predicate Finished<V>(s: Stage<V>)
  {
    match s.kind
    case Pool(_) => AllExited(s)
    case Dynamic(n) => s.front == Draining(n)
    case Broadcast(_) => s.front == Closing && AllExited(s)
  }

  // ---------- the steps ----------

  predicate Enabled<V>(c: Config<V>, st: State<V>, e: Event)
  {
    match e
    case Send(k, w, r) => k <= |st.stages| && Offers(st, k, w) && Waits(st, k, r)
    case Process(k, w) => k < |st.stages| && w < |st.stages[k].workers| && st.stages[k].workers[w].Holding?
    case Leave(k, w) =>
      && k < |st.stages| && w < |st.stages[k].workers|
      && (|| (st.stages[k].workers[w].Emitting? && st.cancelled)
          || (st.stages[k].workers[w].Ready?
              && (|| st.cancelled
                  || (if st.stages[k].kind.Broadcast? then st.stages[k].front == Closing else Closed(st, k)))))
    case Spawn(k) => k < |st.stages| && st.stages[k].front.Spawning? && st.stages[k].tokens > 0
    case Hand(k) =>
      && k < |st.stages| && st.stages[k].front.Handing? && st.stages[k].front.to < |st.stages[k].workers|
      && st.stages[k].workers[st.stages[k].front.to].Ready?
    case Stop(k) =>
      && k < |st.stages|
      && (|| (st.stages[k].front.Reading? && (st.cancelled || Closed(st, k)))
          || (st.cancelled && (st.stages[k].front.Spawning? || st.stages[k].front.Handing?)))
    case Drain(k) =>
      && k < |st.stages| && st.stages[k].front.Draining? && st.stages[k].tokens > 0
      && st.stages[k].front.taken < st.stages[k].kind.n
    case Close(k) => k < |st.stages| && Finished(st.stages[k]) && !st.stages[k].closed
    case EndSource => !st.source.exited && (st.source.rest == [] || st.cancelled)
    case Consume => st.sink.worker.Holding?
    case EndSink => st.sink.worker.Ready? && (st.cancelled || Closed(st, |st.stages|))
    case Cancel => true
    case Collect => st.queued > 0
  }

  function WithStage<V>(st: State<V>, k: nat, s: Stage<V>): State<V>
    requires k < |st.stages|
  {
    st.(stages := st.stages[k := s])
  }

  /** An error is queued unless the channel is full; it has room for one error of every stage, source and sink. */
  function Raise<V>(st: State<V>): State<V>
  {
    st.(raised := st.raised + 1, queued := if st.queued < |st.stages| + 2 then st.queued + 1 else st.queued)
  }

  function TakenFrom<V>(st: State<V>, k: nat, w: nat): State<V>
    requires k <= |st.stages| && Offers(st, k, w)
  {
    if k == 0 then st.(source := st.source.(rest := st.source.rest[1..]))
    else WithStage(st, k - 1, Freed(st.stages[k - 1], w))
  }

  function GivenTo<V>(st: State<V>, k: nat, r: nat, p: Payload<V>): State<V>
    requires k <= |st.stages| && Waits(st, k, r)
  {
    if k == |st.stages| then st.(sink := st.sink.(worker := Holding(p)))
    else WithStage(st, k, Received(st.stages[k], r, p))
  }

  /** The workers of a pool, fixed or dynamic, run one processor, those of a broadcast one each. */
  function ProcessorOf(kind: Kind, w: nat): nat { if kind.Broadcast? then w else 0 }

  function Processed<V>(c: Config<V>, st: State<V>, k: nat, w: nat): State<V>
    requires k < |st.stages| && w < |st.stages[k].workers| && st.stages[k].workers[w].Holding?
  {
    var s := st.stages[k];
    var p := s.workers[w].p;
    match c.process(k, ProcessorOf(s.kind, w), p.value)
    case Emit(v) => WithStage(st, k, s.(workers := s.workers[w := Emitting(Payload(p.id, v))]))
    case Drop => WithStage(st, k, Freed(s, w)).(marked := st.marked + [p.id])
    case Failure => Raise(WithStage(st, k, Ended(s, w)).(lost := st.lost + [p.id]))
  }

  function Left<V>(st: State<V>, k: nat, w: nat): State<V>
    requires k < |st.stages| && w < |st.stages[k].workers|
  {
    var s := st.stages[k];
    var out := WithStage(st, k, Ended(s, w));
    if s.workers[w].Emitting? then out.(lost := st.lost + [s.workers[w].p.id]) else out
  }

  /** The payload goes to the last processor first; all but the first processor get a clone. */
  function Handed<V>(st: State<V>, k: nat): State<V>
    requires k < |st.stages| && st.stages[k].front.Handing? && st.stages[k].front.to < |st.stages[k].workers|
  {
    var s := st.stages[k];
    var (p, i) := (s.front.p, s.front.to);
    if i == 0 then WithStage(st, k, s.(front := Reading, workers := s.workers[0 := Holding(p)]))
    else
      WithStage(st, k, s.(front := Handing(p, i - 1), workers := s.workers[i := Holding(Payload(st.next, p.value))]))
      .(next := st.next + 1)
  }

  function Stopped<V>(st: State<V>, k: nat): State<V>
    requires k < |st.stages|
  {
    var s := st.stages[k];
    var out := WithStage(st, k, s.(front := if s.kind.Dynamic? then Draining(0) else Closing));
    if s.front.Spawning? || s.front.Handing? then out.(lost := st.lost + [s.front.p.id]) else out
  }

  function Apply<V>(c: Config<V>, st: State<V>, e: Event): State<V>
    requires Enabled(c, st, e)
  {
    match e
    case Send(k, w, r) =>
      var p := Offer(st, k, w);
      GivenTo(TakenFrom(st, k, w), k, r, p)
    case Process(k, w) => Processed(c, st, k, w)
    case Leave(k, w) => Left(st, k, w)
    case Spawn(k) =>
      var s := st.stages[k];
      WithStage(st, k, s.(front := Reading, tokens := s.tokens - 1, workers := s.workers + [Holding(s.front.p)]))
    case Hand(k) => Handed(st, k)
    case Stop(k) => Stopped(st, k)
    case Drain(k) =>
      var s := st.stages[k];
      WithStage(st, k, s.(front := Draining(s.front.taken + 1), tokens := s.tokens - 1))
    case Close(k) => WithStage(st, k, st.stages[k].(closed := true))
    case EndSource =>
      var out := st.(source := st.source.(exited := true));
      if st.source.rest == [] && c.sourceFails then Raise(out) else out
    case Consume =>
      var p := st.sink.worker.p;
      if c.sinkFails(p.value) then Raise(st.(sink := Sink(Exited, st.sink.seen + [p.value]), lost := st.lost + [p.id]))
      else st.(sink := Sink(Ready, st.sink.seen + [p.value]), marked := st.marked + [p.id])
    case EndSink => st.(sink := st.sink.(worker := Exited))
    case Cancel => st.(cancelled := true, external := true)
    case Collect => st.(queued := st.queued - 1, collected := st.collected + 1, cancelled := true)
  }

  ghost predicate IsRun<V>(c: Config<V>, data: seq<V>, states: seq<State<V>>, events: seq<Event>)
  {
    && |states| == |events| + 1 && states[0] == Initial(c, data)
    && forall k {:trigger events[k]} :: 0 <= k < |events| ==>
         Enabled(c, states[k], events[k]) && states[k + 1] == Apply(c, states[k], events[k])
  }
}
