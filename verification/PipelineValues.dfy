/** The values that pass through the pipeline: whatever mix of pools, dynamic pools and broadcasts, the sink sees what
    the processors make of the source, each value of it once, and all of it if nothing goes wrong. */
module PipelineValues {
  import opened Sums
  import opened Pipeline
  import opened PipelineProofs
  import opened PipelineTheorems

  // ---------- what should come out ----------

  /** The processors of a stage. */
  function Width(kind: Kind): nat { if kind.Broadcast? then kind.n else 1 }

  /** What becomes, from stage `k` on, of a value that enters it: one processor's work after the other's, and at a
      broadcast a clone for each of its processors. */
  ghost function Outcomes<V>(c: Config<V>, k: nat, x: V): seq<V>
    decreases |c.kinds| - k, 1, 0
  {
    if k >= |c.kinds| then [x] else Clones(c, k, Width(c.kinds[k]), x)
  }

  /** The same for the clones of the first `m` processors of stage `k`. */
  ghost function Clones<V>(c: Config<V>, k: nat, m: nat, x: V): seq<V>
    requires k < |c.kinds|
    decreases |c.kinds| - k, 0, m
  {
    if m == 0 then []
    else
      Clones(c, k, m - 1, x) +
      match c.process(k, m - 1, x)
      case Emit(y) => Outcomes(c, k + 1, y)
      case _ => []
  }

  ghost function AllOutcomes<V>(c: Config<V>, data: seq<V>): seq<V>
  {
    if data == [] then [] else Outcomes(c, 0, data[0]) + AllOutcomes(c, data[1..])
  }

  /** `js` names a processor for each stage from `k` on. */
  predicate IsPath<V>(c: Config<V>, k: nat, js: seq<nat>)
  {
    k + |js| == |c.kinds|
    && forall i :: 0 <= i < |js| ==> js[i] < if c.kinds[k + i].Broadcast? then c.kinds[k + i].n else 1
  }

  /** These processors applied in order. */
  function Along<V>(c: Config<V>, k: nat, js: seq<nat>, x: V): Outcome<V>
    decreases |js|
  {
    if js == [] then Emit(x)
    else
      match c.process(k, js[0], x)
      case Emit(y) => Along(c, k + 1, js[1..], y)
      case other => other
  }

  lemma {:induction false} CloneOf<V>(c: Config<V>, k: nat, m: nat, x: V, v: V) returns (j: nat)
    requires k < |c.kinds| && v in Clones(c, k, m, x)
    ensures j < m && c.process(k, j, x).Emit? && v in Outcomes(c, k + 1, c.process(k, j, x).value)
  {
    if v in Clones(c, k, m - 1, x) { j := CloneOf(c, k, m - 1, x, v); } else { j := m - 1; }
  }

  lemma {:induction false} EveryClone<V>(c: Config<V>, k: nat, m: nat, x: V, j: nat)
    requires k < |c.kinds| && j < m && c.process(k, j, x).Emit?
    ensures forall v :: v in Outcomes(c, k + 1, c.process(k, j, x).value) ==> v in Clones(c, k, m, x)
  {
    if j < m - 1 { EveryClone(c, k, m - 1, x, j); }
  }

  /** Every outcome is the work of one processor of each stage, in order. */
  lemma {:induction false} OutcomeHasPath<V>(c: Config<V>, k: nat, x: V, v: V) returns (js: seq<nat>)
    requires k <= |c.kinds| && v in Outcomes(c, k, x)
    ensures IsPath(c, k, js) && Along(c, k, js, x) == Emit(v)
    decreases |c.kinds| - k
  {
    js := [];
    if k < |c.kinds| {
      var j := CloneOf(c, k, Width(c.kinds[k]), x, v);
      js := OutcomeHasPath(c, k + 1, c.process(k, j, x).value, v);
      js := [j] + js;
    }
  }

  /** And whatever one processor of each stage makes of a value, in order, is an outcome. */
  lemma {:induction false} PathHasOutcome<V>(c: Config<V>, k: nat, x: V, js: seq<nat>)
    requires IsPath(c, k, js) && Along(c, k, js, x).Emit?
    ensures Along(c, k, js, x).value in Outcomes(c, k, x)
    decreases |js|
  {
    if js != [] {
      assert forall i :: 0 <= i < |js| - 1 ==> js[1..][i] == js[i + 1];
      PathHasOutcome(c, k + 1, c.process(k, js[0], x).value, js[1..]);
      EveryClone(c, k, Width(c.kinds[k]), x, js[0]);
    }
  }

  // ---------- what is under way ----------

  // A payload that enters stage `k` with value `x` is worth `worth(k, x)`. The bookkeeping is done for any worth
  // that a stage keeps, and then for the number of times a value is among the outcomes.

  ghost function Made<V>(c: Config<V>, worth: (nat, V) -> int, k: nat, j: nat, x: V): int
  {
    match c.process(k, j, x)
    case Emit(y) => worth(k + 1, y)
    case _ => 0
  }

  /** What the first `m` processors make of it together. */
  ghost function MadeBy<V>(c: Config<V>, worth: (nat, V) -> int, k: nat, m: nat, x: V): int
  {
    if m == 0 then 0 else MadeBy(c, worth, k, m - 1, x) + Made(c, worth, k, m - 1, x)
  }

  ghost predicate FitsAt<V>(c: Config<V>, worth: (nat, V) -> int, k: nat, x: V)
  {
    && worth(k, x) >= 0
    && (k < |c.kinds| ==> worth(k, x) == MadeBy(c, worth, k, if c.kinds[k].Broadcast? then c.kinds[k].n else 1, x))
  }

  ghost predicate Fits<V(!new)>(c: Config<V>, worth: (nat, V) -> int)
  {
    forall k, x :: FitsAt(c, worth, k, x)
  }

  /** The worth of what worker `w` of a stage of a kind holds. */
  ghost function WorkerWorth<V>(c: Config<V>, worth: (nat, V) -> int, k: nat, kind: Kind): (nat, Worker<V>) -> int
  {
    (w: nat, x: Worker<V>) =>
      match x
      case Holding(p) => Made(c, worth, k, ProcessorOf(kind, w), p.value)
      case Emitting(p) => worth(k + 1, p.value)
      case _ => 0
  }

  ghost function FrontWorth<V>(c: Config<V>, worth: (nat, V) -> int, k: nat, f: Front<V>): int
  {
    match f
    case Spawning(p) => Made(c, worth, k, 0, p.value)
    case Handing(p, to) => MadeBy(c, worth, k, to + 1, p.value)
    case _ => 0
  }

  ghost function StageWorth<V>(c: Config<V>, worth: (nat, V) -> int): (nat, Stage<V>) -> int
  {
    (k: nat, s: Stage<V>) => FrontWorth(c, worth, k, s.front) + SumAt(s.workers, WorkerWorth(c, worth, k, s.kind))
  }

  ghost function SourceWorth<V>(worth: (nat, V) -> int): Payload<V> -> int { (p: Payload<V>) => worth(0, p.value) }

  ghost function SeenWorth<V>(worth: (nat, V) -> int, n: nat): V -> int { (x: V) => worth(n, x) }

  ghost function SinkWorth<V>(worth: (nat, V) -> int, n: nat, w: Worker<V>): int
  {
    if w.Holding? then worth(n, w.p.value) else 0
  }

  /** The worth of all that the sink has seen and all that is on its way there. */
  ghost function Worth<V>(c: Config<V>, worth: (nat, V) -> int, st: State<V>): int
  {
    var n := |st.stages|;
    Sum(st.source.rest, SourceWorth(worth)) + SumAt(st.stages, StageWorth(c, worth))
    + SinkWorth(worth, n, st.sink.worker) + Sum(st.sink.seen, SeenWorth(worth, n))
  }

  lemma StageChanges<V>(c: Config<V>, worth: (nat, V) -> int, st: State<V>, k: nat, s: Stage<V>)
    requires k < |st.stages|
    ensures Worth(c, worth, WithStage(st, k, s))
         == Worth(c, worth, st) - StageWorth(c, worth)(k, st.stages[k]) + StageWorth(c, worth)(k, s)
  {
    SumAtUpdate(st.stages, k, s, StageWorth(c, worth));
  }

  lemma WorkerChanges<V>(
      c: Config<V>, worth: (nat, V) -> int, k: nat, s: Stage<V>, w: nat, x: Worker<V>, t: Stage<V>)
    requires w < |s.workers| && t.workers == s.workers[w := x] && t.kind == s.kind && t.front == s.front
    ensures StageWorth(c, worth)(k, t)
         == StageWorth(c, worth)(k, s) - WorkerWorth(c, worth, k, s.kind)(w, s.workers[w])
          + WorkerWorth(c, worth, k, s.kind)(w, x)
  {
    SumAtUpdate(s.workers, w, x, WorkerWorth(c, worth, k, s.kind));
  }

  lemma FreedWorth<V>(c: Config<V>, worth: (nat, V) -> int, k: nat, s: Stage<V>, w: nat)
    requires w < |s.workers|
    ensures StageWorth(c, worth)(k, Freed(s, w))
         == StageWorth(c, worth)(k, s) - WorkerWorth(c, worth, k, s.kind)(w, s.workers[w])
    ensures StageWorth(c, worth)(k, Ended(s, w)) == StageWorth(c, worth)(k, Freed(s, w))
  {
    WorkerChanges(c, worth, k, s, w, if s.kind.Dynamic? then Exited else Ready, Freed(s, w));
    WorkerChanges(c, worth, k, s, w, Exited, Ended(s, w));
  }

  lemma TakenWorth<V>(c: Config<V>, worth: (nat, V) -> int, st: State<V>, k: nat, w: nat)
    requires k <= |st.stages| && Offers(st, k, w)
    ensures Worth(c, worth, TakenFrom(st, k, w)) == Worth(c, worth, st) - worth(k, Offer(st, k, w).value)
  {
    if k > 0 {
      FreedWorth(c, worth, k - 1, st.stages[k - 1], w);
      StageChanges(c, worth, st, k - 1, Freed(st.stages[k - 1], w));
    }
  }

  /** What a stage receives is worth what its processors will make of it. */
  lemma ReceivedWorth<V>(c: Config<V>, worth: (nat, V) -> int, k: nat, s: Stage<V>, r: nat, p: Payload<V>)
    requires FitsAt(c, worth, k, p.value) && k < |c.kinds| && c.kinds[k] == s.kind && StageOk(s)
    requires if s.kind.Pool? then r < |s.workers| && s.workers[r].Ready? else s.front.Reading?
    ensures StageWorth(c, worth)(k, Received(s, r, p)) == StageWorth(c, worth)(k, s) + worth(k, p.value)
  {
    MadeByOne(c, worth, k, p.value);
    if s.kind.Pool? {
      WorkerChanges(c, worth, k, s, r, Holding(p), Received(s, r, p));
      assert ProcessorOf(s.kind, r) == 0;
      assert WorkerWorth(c, worth, k, s.kind)(r, Holding(p)) == Made(c, worth, k, ProcessorOf(s.kind, r), p.value);
      assert WorkerWorth(c, worth, k, s.kind)(r, s.workers[r]) == 0;
    }
  }

  lemma MadeByOne<V>(c: Config<V>, worth: (nat, V) -> int, k: nat, x: V)
    ensures MadeBy(c, worth, k, 1, x) == Made(c, worth, k, 0, x)
  {
    assert MadeBy(c, worth, k, 0, x) == 0;
  }

  lemma GivenWorth<V>(c: Config<V>, worth: (nat, V) -> int, st: State<V>, k: nat, r: nat, p: Payload<V>)
    requires k <= |st.stages| == |c.kinds| && Waits(st, k, r) && FitsAt(c, worth, k, p.value)
    requires k < |st.stages| ==> StageOk(st.stages[k]) && st.stages[k].kind == c.kinds[k]
    ensures Worth(c, worth, GivenTo(st, k, r, p)) == Worth(c, worth, st) + worth(k, p.value)
  {
    if k < |st.stages| {
      ReceivedWorth(c, worth, k, st.stages[k], r, p);
      StageChanges(c, worth, st, k, Received(st.stages[k], r, p));
    }
  }

  // ---------- the steps ----------

  /** Nothing is added, and nothing goes unless it is recorded as lost. */
  ghost predicate Keeps<V>(c: Config<V>, worth: (nat, V) -> int, st: State<V>, next: State<V>)
  {
    && Worth(c, worth, next) <= Worth(c, worth, st) && |next.lost| >= |st.lost|
    && (next.lost == st.lost ==> Worth(c, worth, next) == Worth(c, worth, st))
  }

  lemma SendKeeps<V(!new)>(c: Config<V>, worth: (nat, V) -> int, st: State<V>, k: nat, w: nat, r: nat)
    requires Fits(c, worth) && AllOk(c, st) && Enabled(c, st, Send(k, w, r))
    ensures Keeps(c, worth, st, Apply(c, st, Send(k, w, r)))
  {
    var p, taken := Offer(st, k, w), TakenFrom(st, k, w);
    assert FitsAt(c, worth, k, p.value);
    TakenWorth(c, worth, st, k, w);
    if k < |st.stages| { assert taken.stages[k] == st.stages[k]; }
    GivenWorth(c, worth, taken, k, r, p);
  }

  lemma EmitKeeps<V>(c: Config<V>, worth: (nat, V) -> int, k: nat, s: Stage<V>, w: nat, v: V, t: Stage<V>)
    requires w < |s.workers| && s.workers[w].Holding?
    requires c.process(k, ProcessorOf(s.kind, w), s.workers[w].p.value) == Emit(v)
    requires t == s.(workers := s.workers[w := Emitting(Payload(s.workers[w].p.id, v))])
    ensures StageWorth(c, worth)(k, t) == StageWorth(c, worth)(k, s)
  {
    WorkerChanges(c, worth, k, s, w, Emitting(Payload(s.workers[w].p.id, v)), t);
  }

  lemma ProcessKeeps<V>(c: Config<V>, worth: (nat, V) -> int, st: State<V>, k: nat, w: nat)
    requires Enabled(c, st, Process(k, w))
    ensures Keeps(c, worth, st, Processed(c, st, k, w))
  {
    var s := st.stages[k];
    match c.process(k, ProcessorOf(s.kind, w), s.workers[w].p.value)
    case Emit(v) =>
      var t := s.(workers := s.workers[w := Emitting(Payload(s.workers[w].p.id, v))]);
      EmitKeeps(c, worth, k, s, w, v, t);
      StageChanges(c, worth, st, k, t);
    case Drop =>
      FreedWorth(c, worth, k, s, w);
      StageChanges(c, worth, st, k, Freed(s, w));
    case Failure =>
      FreedWorth(c, worth, k, s, w);
      StageChanges(c, worth, st, k, Ended(s, w));
  }

  lemma LeaveKeeps<V(!new)>(c: Config<V>, worth: (nat, V) -> int, st: State<V>, k: nat, w: nat)
    requires Fits(c, worth) && Enabled(c, st, Leave(k, w))
    ensures Keeps(c, worth, st, Apply(c, st, Leave(k, w)))
  {
    var s := st.stages[k];
    FreedWorth(c, worth, k, s, w);
    StageChanges(c, worth, st, k, Ended(s, w));
    if s.workers[w].Emitting? { assert FitsAt(c, worth, k + 1, s.workers[w].p.value); }
  }

  lemma SpawnKeeps<V>(c: Config<V>, worth: (nat, V) -> int, st: State<V>, k: nat)
    requires AllOk(c, st) && Enabled(c, st, Spawn(k))
    ensures Keeps(c, worth, st, Apply(c, st, Spawn(k)))
  {
    var s, next := st.stages[k], Apply(c, st, Spawn(k));
    SumAtPush(s.workers, Holding(s.front.p), WorkerWorth(c, worth, k, s.kind));
    StageChanges(c, worth, st, k, next.stages[k]);
  }

  /** Handing a clone to a processor turns its share of the payload into the processor's. */
  lemma HandedWorth<V>(c: Config<V>, worth: (nat, V) -> int, k: nat, s: Stage<V>, x: Payload<V>, t: Stage<V>)
    requires s.kind.Broadcast? && s.front.Handing? && s.front.to < |s.workers| && s.workers[s.front.to].Ready?
    requires x.value == s.front.p.value && t.workers == s.workers[s.front.to := Holding(x)] && t.kind == s.kind
    requires t.front == if s.front.to == 0 then Reading else Handing(s.front.p, s.front.to - 1)
    ensures StageWorth(c, worth)(k, t) == StageWorth(c, worth)(k, s)
  {
    var i := s.front.to;
    SumAtUpdate(s.workers, i, Holding(x), WorkerWorth(c, worth, k, s.kind));
    assert ProcessorOf(s.kind, i) == i;
    assert WorkerWorth(c, worth, k, s.kind)(i, Holding(x)) == Made(c, worth, k, ProcessorOf(s.kind, i), x.value);
    assert WorkerWorth(c, worth, k, s.kind)(i, s.workers[i]) == 0 && MadeBy(c, worth, k, 0, x.value) == 0;
    assert MadeBy(c, worth, k, i + 1, x.value) == MadeBy(c, worth, k, i, x.value) + Made(c, worth, k, i, x.value);
  }

  lemma HandKeeps<V>(c: Config<V>, worth: (nat, V) -> int, st: State<V>, k: nat)
    requires AllOk(c, st) && Enabled(c, st, Hand(k))
    ensures Keeps(c, worth, st, Handed(st, k))
  {
    var s, t := st.stages[k], Handed(st, k).stages[k];
    assert StageOk(s);
    HandedWorth(c, worth, k, s, t.workers[s.front.to].p, t);
    StageChanges(c, worth, st, k, t);
  }

  lemma MadeBounds<V(!new)>(c: Config<V>, worth: (nat, V) -> int, k: nat, j: nat, x: V)
    requires Fits(c, worth)
    ensures Made(c, worth, k, j, x) >= 0
  {
    if c.process(k, j, x).Emit? { assert FitsAt(c, worth, k + 1, c.process(k, j, x).value); }
  }

  lemma {:induction false} MadeByBounds<V(!new)>(c: Config<V>, worth: (nat, V) -> int, k: nat, m: nat, x: V)
    requires Fits(c, worth)
    ensures MadeBy(c, worth, k, m, x) >= 0
  {
    if m > 0 {
      MadeByBounds(c, worth, k, m - 1, x);
      MadeBounds(c, worth, k, m - 1, x);
    }
  }

  lemma StopKeeps<V(!new)>(c: Config<V>, worth: (nat, V) -> int, st: State<V>, k: nat)
    requires Fits(c, worth) && Enabled(c, st, Stop(k))
    ensures Keeps(c, worth, st, Apply(c, st, Stop(k)))
  {
    var s, next := st.stages[k], Apply(c, st, Stop(k));
    StageChanges(c, worth, st, k, next.stages[k]);
    if s.front.Handing? { MadeByBounds(c, worth, k, s.front.to + 1, s.front.p.value); }
    if s.front.Spawning? { MadeBounds(c, worth, k, 0, s.front.p.value); }
  }

  lemma ConsumeKeeps<V>(c: Config<V>, worth: (nat, V) -> int, st: State<V>)
    requires Enabled(c, st, Consume)
    ensures Keeps(c, worth, st, Apply(c, st, Consume))
  {
    SumAppend(st.sink.seen, [st.sink.worker.p.value], SeenWorth(worth, |st.stages|));
  }

  lemma OtherKeeps<V>(c: Config<V>, worth: (nat, V) -> int, st: State<V>, e: Event)
    requires Enabled(c, st, e)
    requires e.Drain? || e.Close? || e.EndSource? || e.EndSink? || e.Cancel? || e.Collect?
    ensures Keeps(c, worth, st, Apply(c, st, e))
  {
    if e.Drain? || e.Close? { StageChanges(c, worth, st, e.k, Apply(c, st, e).stages[e.k]); }
  }

  lemma StepKeeps<V(!new)>(c: Config<V>, worth: (nat, V) -> int, st: State<V>, e: Event)
    requires Fits(c, worth) && AllOk(c, st) && Enabled(c, st, e)
    ensures Keeps(c, worth, st, Apply(c, st, e))
  {
    match e
    case Send(k, w, r) => SendKeeps(c, worth, st, k, w, r);
    case Process(k, w) => ProcessKeeps(c, worth, st, k, w);
    case Leave(k, w) => LeaveKeeps(c, worth, st, k, w);
    case Spawn(k) => SpawnKeeps(c, worth, st, k);
    case Hand(k) => HandKeeps(c, worth, st, k);
    case Stop(k) => StopKeeps(c, worth, st, k);
    case Consume => ConsumeKeeps(c, worth, st);
    case _ => OtherKeeps(c, worth, st, e);
  }

  // ---------- whole runs ----------

  lemma {:induction false} RunKeeps<V(!new)>(
      c: Config<V>, data: seq<V>, states: seq<State<V>>, events: seq<Event>, i: nat, worth: (nat, V) -> int)
    requires Fits(c, worth) && ValidConfig(c) && IsRun(c, data, states, events) && i < |states|
    ensures Worth(c, worth, states[i]) <= Worth(c, worth, states[0])
    ensures states[i].lost == [] ==> Worth(c, worth, states[i]) == Worth(c, worth, states[0])
  {
    if i > 0 {
      RunKeeps(c, data, states, events, i - 1, worth);
      RunOk(c, data, states, events, i - 1);
      StepKeeps(c, worth, states[i - 1], events[i - 1]);
    }
  }

  ghost function IsValue<V>(v: V): V -> int { (x: V) => if x == v then 1 else 0 }

  /** How often `v` is among the outcomes of a value that enters stage `k`. */
  ghost function Count<V>(c: Config<V>, v: V): (nat, V) -> int
  {
    (k: nat, x: V) => Sum(Outcomes(c, k, x), IsValue(v))
  }

  lemma {:induction false} CountClones<V>(c: Config<V>, v: V, k: nat, m: nat, x: V)
    requires k < |c.kinds|
    ensures Sum(Clones(c, k, m, x), IsValue(v)) == MadeBy(c, Count(c, v), k, m, x)
  {
    if m > 0 {
      CountClones(c, v, k, m - 1, x);
      if c.process(k, m - 1, x).Emit? {
        SumAppend(Clones(c, k, m - 1, x), Outcomes(c, k + 1, c.process(k, m - 1, x).value), IsValue(v));
      } else {
        assert Clones(c, k, m, x) == Clones(c, k, m - 1, x);
      }
    }
  }

  lemma CountFits<V(!new)>(c: Config<V>, v: V)
    ensures Fits(c, Count(c, v))
  {
    forall k: nat, x ensures FitsAt(c, Count(c, v), k, x) {
      SumBounds(Outcomes(c, k, x), IsValue(v));
      if k < |c.kinds| { CountClones(c, v, k, Width(c.kinds[k]), x); }
    }
  }

  lemma {:induction false} DataWorth<V>(c: Config<V>, v: V, rest: seq<Payload<V>>, data: seq<V>)
    requires |rest| == |data| && forall i :: 0 <= i < |data| ==> rest[i].value == data[i]
    ensures Sum(rest, SourceWorth(Count(c, v))) == Sum(AllOutcomes(c, data), IsValue(v))
  {
    if data != [] {
      DataWorth(c, v, rest[1..], data[1..]);
      SumAppend(Outcomes(c, 0, data[0]), AllOutcomes(c, data[1..]), IsValue(v));
    }
  }

  lemma StartWorth<V>(c: Config<V>, v: V, data: seq<V>)
    ensures Worth(c, Count(c, v), Initial(c, data)) == Sum(AllOutcomes(c, data), IsValue(v))
  {
    var st, worth := Initial(c, data), Count(c, v);
    DataWorth(c, v, st.source.rest, data);
    forall k: nat | k < |st.stages| ensures StageWorth(c, worth)(k, st.stages[k]) == 0 {
      SumAtZero(st.stages[k].workers, WorkerWorth(c, worth, k, st.stages[k].kind));
    }
    SumAtZero(st.stages, StageWorth(c, worth));
  }

  lemma {:induction false} SeenCount<V>(c: Config<V>, v: V, n: nat, seen: seq<V>)
    requires n == |c.kinds|
    ensures Sum(seen, SeenWorth(Count(c, v), n)) == Sum(seen, IsValue(v))
  {
    if seen != [] {
      assert Outcomes(c, n, seen[0]) == [seen[0]];
      assert [seen[0]] == [seen[0]] + [];
      SumAppend([seen[0]], [], IsValue(v));
      SeenCount(c, v, n, seen[1..]);
    }
  }

  lemma {:induction false} Counts<V>(xs: seq<V>, v: V)
    ensures Sum(xs, IsValue(v)) == multiset(xs)[v]
  {
    if xs != [] {
      Counts(xs[1..], v);
      assert xs == [xs[0]] + xs[1..];
    }
  }

  lemma WorkersBounds<V(!new)>(c: Config<V>, worth: (nat, V) -> int, k: nat, s: Stage<V>)
    requires Fits(c, worth)
    ensures StageWorth(c, worth)(k, s) >= 0
  {
    forall w: nat | w < |s.workers| ensures WorkerWorth(c, worth, k, s.kind)(w, s.workers[w]) >= 0 {
      var x := s.workers[w];
      if x.Holding? { MadeBounds(c, worth, k, ProcessorOf(s.kind, w), x.p.value); }
      if x.Emitting? { assert FitsAt(c, worth, k + 1, x.p.value); }
    }
    SumAtBounds(s.workers, WorkerWorth(c, worth, k, s.kind));
    if s.front.Spawning? { MadeBounds(c, worth, k, 0, s.front.p.value); }
    if s.front.Handing? { MadeByBounds(c, worth, k, s.front.to + 1, s.front.p.value); }
  }

  /** What the sink has seen is part of the worth of a state, and all of it when `Process` has returned. */
  lemma SeenPart<V(!new)>(c: Config<V>, worth: (nat, V) -> int, st: State<V>)
    requires Fits(c, worth)
    ensures Sum(st.sink.seen, SeenWorth(worth, |st.stages|)) <= Worth(c, worth, st)
  {
    forall p | p in st.source.rest ensures SourceWorth(worth)(p) >= 0 { assert FitsAt(c, worth, 0, p.value); }
    SumBounds(st.source.rest, SourceWorth(worth));
    forall k: nat | k < |st.stages| ensures StageWorth(c, worth)(k, st.stages[k]) >= 0 {
      WorkersBounds(c, worth, k, st.stages[k]);
    }
    SumAtBounds(st.stages, StageWorth(c, worth));
    if st.sink.worker.Holding? { assert FitsAt(c, worth, |st.stages|, st.sink.worker.p.value); }
  }

  lemma SeenIsAll<V>(c: Config<V>, worth: (nat, V) -> int, st: State<V>)
    requires AllOk(c, st) && Returned(st) && st.source.rest == []
    ensures Sum(st.sink.seen, SeenWorth(worth, |st.stages|)) == Worth(c, worth, st)
  {
    forall k: nat | k < |st.stages| ensures StageWorth(c, worth)(k, st.stages[k]) == 0 {
      ClosedIsQuiet(st.stages[k]);
      SumAtZero(st.stages[k].workers, WorkerWorth(c, worth, k, st.stages[k].kind));
    }
    SumAtZero(st.stages, StageWorth(c, worth));
  }

  lemma SeenOfAll<V(!new)>(
      c: Config<V>, data: seq<V>, states: seq<State<V>>, events: seq<Event>, i: nat, v: V)
    requires ValidConfig(c) && IsRun(c, data, states, events) && i < |states|
    ensures multiset(states[i].sink.seen)[v] <= multiset(AllOutcomes(c, data))[v]
    ensures Returned(states[i]) && states[i].raised == 0 && !states[i].external ==>
      multiset(states[i].sink.seen)[v] == multiset(AllOutcomes(c, data))[v]
  {
    var worth, st := Count(c, v), states[i];
    CountFits(c, v);
    RunKeeps(c, data, states, events, i, worth);
    RunOrderly(c, data, states, events, i);
    StartWorth(c, v, data);
    SeenPart(c, worth, st);
    SeenCount(c, v, |st.stages|, st.sink.seen);
    Counts(st.sink.seen, v);
    Counts(AllOutcomes(c, data), v);
    if Returned(st) && st.raised == 0 && !st.external { SeenIsAll(c, worth, st); }
  }

  /** In any run the sink has at all times seen at most what the processors make of the source, each outcome at most
      as often as it is made. */
  lemma SinkSeesOutcomes<V(!new)>(
      c: Config<V>, data: seq<V>, states: seq<State<V>>, events: seq<Event>, i: nat)
    requires ValidConfig(c) && IsRun(c, data, states, events) && i < |states|
    ensures multiset(states[i].sink.seen) <= multiset(AllOutcomes(c, data))
  {
    forall v ensures multiset(states[i].sink.seen)[v] <= multiset(AllOutcomes(c, data))[v] {
      SeenOfAll(c, data, states, events, i, v);
    }
  }

  /** Without an error and without a cancellation it has seen exactly that, once `Process` returns. */
  lemma SinkSeesAllOutcomes<V(!new)>(
      c: Config<V>, data: seq<V>, states: seq<State<V>>, events: seq<Event>, i: nat)
    requires ValidConfig(c) && IsRun(c, data, states, events) && i < |states| && Returned(states[i])
    requires states[i].raised == 0 && !states[i].external
    ensures multiset(states[i].sink.seen) == multiset(AllOutcomes(c, data))
  {
    forall v ensures multiset(states[i].sink.seen)[v] == multiset(AllOutcomes(c, data))[v] {
      SeenOfAll(c, data, states, events, i, v);
    }
  }

  lemma {:induction false} OutcomeHasSource<V>(c: Config<V>, data: seq<V>, v: V) returns (d: nat)
    requires v in AllOutcomes(c, data)
    ensures d < |data| && v in Outcomes(c, 0, data[d])
  {
    d := 0;
    if v !in Outcomes(c, 0, data[0]) {
      d := OutcomeHasSource(c, data[1..], v);
      d := d + 1;
    }
  }

  lemma {:induction false} SourceHasOutcomes<V>(c: Config<V>, data: seq<V>, d: nat, v: V)
    requires d < |data| && v in Outcomes(c, 0, data[d])
    ensures v in AllOutcomes(c, data)
  {
    if d > 0 { SourceHasOutcomes(c, data[1..], d - 1, v); }
  }

  /** Every value the sink sees, in any run, is what one processor of each stage, in order, makes of a value of the
      source. */
  lemma SeenHasPath<V(!new)>(
      c: Config<V>, data: seq<V>, states: seq<State<V>>, events: seq<Event>, i: nat, v: V)
      returns (d: nat, js: seq<nat>)
    requires ValidConfig(c) && IsRun(c, data, states, events) && i < |states| && v in states[i].sink.seen
    ensures d < |data| && IsPath(c, 0, js) && Along(c, 0, js, data[d]) == Emit(v)
  {
    SeenOfAll(c, data, states, events, i, v);
    assert multiset(AllOutcomes(c, data))[v] > 0;
    d := OutcomeHasSource(c, data, v);
    js := OutcomeHasPath(c, 0, data[d], v);
  }

  /** And without an error and a cancellation, what any choice of a processor at each broadcast makes of any value of
      the source is seen, unless a processor on the way drops it. */
  lemma PathIsSeen<V(!new)>(
      c: Config<V>, data: seq<V>, states: seq<State<V>>, events: seq<Event>, i: nat, d: nat, js: seq<nat>)
    requires ValidConfig(c) && IsRun(c, data, states, events) && i < |states| && Returned(states[i])
    requires states[i].raised == 0 && !states[i].external
    requires d < |data| && IsPath(c, 0, js) && Along(c, 0, js, data[d]).Emit?
    ensures Along(c, 0, js, data[d]).value in states[i].sink.seen
  {
    var v := Along(c, 0, js, data[d]).value;
    PathHasOutcome(c, 0, data[d], js);
    SourceHasOutcomes(c, data, d, v);
    SeenOfAll(c, data, states, events, i, v);
    assert multiset(AllOutcomes(c, data))[v] > 0;
  }
}
