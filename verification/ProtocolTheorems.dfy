/** What a distributed run guarantees, for every number of workers, owner function, link capacity and
    interleaving. */
module ProtocolTheorems {
  import opened Sums
  import opened Bsp
  import opened Protocol
  import opened ProtocolInvariant
  import opened ProtocolFrames
  import opened ProtocolRounds
  import opened ProtocolRuns

  ghost predicate Reachable<V(!new), M(!new)>(job: Job<V, M>, c: Cluster, st: State<V, M>)
  {
    exists r: Run<V, M>, k: nat :: IsRun(job, c, r) && k < |r.states| && r.states[k] == st
  }

  /** A job and a cluster the protocol is meant for. */
  ghost predicate Wellformed<V(!new), M(!new)>(job: Job<V, M>, c: Cluster)
  {
    ValidJob(job) && ValidCluster(job, c)
  }

  lemma ReachableInv<V(!new), M(!new)>(job: Job<V, M>, c: Cluster, st: State<V, M>)
    requires Wellformed(job, c) && Reachable(job, c, st)
    ensures Inv(job, c, st)
  {
    var r: Run<V, M>, k: nat :| IsRun(job, c, r) && k < |r.states| && r.states[k] == st;
    RunKeeps(job, c, r, k);
  }

  // ---------- refinement ----------

  /** Outside the computation of a superstep a worker's graph is its part of the single graph: the same
      vertices, values, activity, pending messages and aggregates. */
  lemma RefinesSingleGraph<V(!new), M(!new)>(job: Job<V, M>, c: Cluster, st: State<V, M>, i: nat, s: nat)
    requires Wellformed(job, c) && Reachable(job, c, st) && i < |st.nodes|
    requires st.nodes[i].kind != Post && s == Reached(st.nodes[i])
    ensures forall v :: v in st.nodes[i].vertices <==> v in job.vertices && c.owner(v) == Some(i)
    ensures forall v :: v in st.nodes[i].vertices ==>
      var cell := st.nodes[i].vertices[v];
      && Vertex(cell.value, cell.active) == At(job, s, v)
      && multiset(cell.Queue(s)) == multiset(Inbox(job, s, v))
    ensures forall name :: st.nodes[i].current(name) == Total(job, s, name)
  {
    ReachableInv(job, c, st);
    var n := st.nodes[i];
    assert NodeOk(job, c, i, n);
    forall v | v in n.vertices
      ensures Vertex(n.vertices[v].value, n.vertices[v].active) == At(job, s, v)
      ensures multiset(n.vertices[v].Queue(s)) == multiset(Inbox(job, s, v))
    {
      assert CellOk(job, n, v);
    }
  }

  /** Everyone who has left the loop left it after the superstep at which the single graph stops, and its
      vertices hold the single graph's final values. */
  lemma StopsWithSingleGraph<V(!new), M(!new)>(job: Job<V, M>, c: Cluster, st: State<V, M>, i: nat)
    requires Wellformed(job, c) && Reachable(job, c, st) && i < |st.nodes|
    ensures !InLoop(st.master.kind) ==> LastSuperstep(job, st.master.superstep)
    ensures !InLoop(st.nodes[i].kind) ==> LastSuperstep(job, st.nodes[i].superstep)
    ensures !InLoop(st.nodes[i].kind) ==> forall v :: v in st.nodes[i].vertices ==>
      st.nodes[i].vertices[v].value == At(job, st.nodes[i].superstep + 1, v).value
  {
    ReachableInv(job, c, st);
    var n := st.nodes[i];
    assert NodeOk(job, c, i, n);
    if !InLoop(n.kind) { RefinesSingleGraph(job, c, st, i, n.superstep + 1); }
  }

  /** There is at most one last superstep, so all participants stop at the same one. */
  lemma LastUnique<V, M>(job: Job<V, M>, s: nat, t: nat)
    requires LastSuperstep(job, s) && LastSuperstep(job, t)
    ensures s == t
  {
    assert s < t ==> Keeps(job, s);
    assert t < s ==> Keeps(job, t);
  }

  /** When the master has finished, every vertex of the job is on its owner with its final value. */
  lemma FinishedResult<V(!new), M(!new)>(job: Job<V, M>, c: Cluster, st: State<V, M>, v: Address)
    requires Wellformed(job, c) && Reachable(job, c, st) && st.master.pc == Finished && v in job.vertices
    ensures LastSuperstep(job, st.master.superstep)
    ensures c.owner(v).Some? && c.owner(v).value < |st.nodes| && v in st.nodes[c.owner(v).value].vertices
    ensures st.nodes[c.owner(v).value].vertices[v].value == At(job, st.master.superstep + 1, v).value
  {
    ReachableInv(job, c, st);
    var i := c.owner(v).value;
    assert NodeOk(job, c, i, st.nodes[i]) && InStep(st.master, i, st.nodes[i]);
    StopsWithSingleGraph(job, c, st, i);
  }

  // ---------- barriers ----------

  /** A complete round of the master's barrier holds one step of this round from each worker. */
  lemma RoundHoldsEveryone<V(!new), M(!new)>(job: Job<V, M>, c: Cluster, st: State<V, M>)
    requires Wellformed(job, c) && Reachable(job, c, st) && st.master.pc != Collecting
    ensures |st.master.collected| == c.workers
    ensures forall i: nat :: i < c.workers ==> HasJoined(st.master, i)
    ensures forall k, l :: 0 <= k < l < c.workers ==> st.master.collected[k].0 != st.master.collected[l].0
    ensures forall k :: 0 <= k < c.workers ==>
      st.master.collected[k].1.kind == st.master.kind && st.master.collected[k].1.at == st.master.superstep
  {
    ReachableInv(job, c, st);
    AllCollected(job, c, st.master);
  }

  /** The notifications on their way to a worker: in its handler, on its link, at its receive loop. */
  ghost function Notifications<V, M>(n: Node<V, M>): int
  {
    (if n.handler.Replying? then 1 else 0) + Sum(n.down, StepsIn()) + (if n.receiver.Notifying? then 1 else 0)
  }

  ghost function StepsIn<M>(): Payload<M> -> int { (x: Payload<M>) => if x.StepMsg? then 1 else 0 }

  lemma {:induction false} OneStepIn<M>(q: seq<Payload<M>>, j: nat)
    requires j < |q| && q[j].StepMsg?
    requires forall k :: 0 <= k < |q| && k != j ==> q[k].Relay?
    ensures Sum(q, StepsIn()) == 1
  {
    if j == 0 {
      SumZero(q[1..], StepsIn());
    } else {
      OneStepIn(q[1..], j - 1);
    }
  }

  /** A worker is sent at most one notification at a time, only while it waits, and the one it is handed
      belongs to the round it waits in. */
  lemma OneNotification<V(!new), M(!new)>(job: Job<V, M>, c: Cluster, st: State<V, M>, i: nat)
    requires Wellformed(job, c) && Reachable(job, c, st) && i < |st.nodes|
    ensures Notifications(st.nodes[i]) <= 1
    ensures Notifications(st.nodes[i]) == 1 ==> st.nodes[i].pc == Waiting
    ensures st.nodes[i].receiver.Notifying? ==>
      st.nodes[i].receiver.step.kind == st.nodes[i].kind && st.nodes[i].receiver.step.at == st.nodes[i].superstep
  {
    ReachableInv(job, c, st);
    var n := st.nodes[i];
    assert NodeOk(job, c, i, n);
    if PlaceOf(n) == Coming {
      var j: nat :| AnswerAt(job, n, j);
      OneStepIn(n.down, j);
    } else {
      SumZero(n.down, StepsIn());
    }
  }

  /** No two workers are more than one barrier apart. */
  lemma WithinOneBarrier<V(!new), M(!new)>(job: Job<V, M>, c: Cluster, st: State<V, M>, i: nat, j: nat)
    requires Wellformed(job, c) && Reachable(job, c, st) && i < |st.nodes| && j < |st.nodes|
    ensures Round(st.nodes[i].superstep, st.nodes[i].kind) <= Round(st.nodes[j].superstep, st.nodes[j].kind) + 1
  {
    ReachableInv(job, c, st);
    assert InStep(st.master, i, st.nodes[i]) && InStep(st.master, j, st.nodes[j]);
    RoundsNear(job, c, st.master, i, st.nodes[i]);
    RoundsNear(job, c, st.master, j, st.nodes[j]);
  }

  // ---------- messages ----------

  /** A relay is delivered while its receiver is in the superstep it was sent in, before the receiver has
      left that superstep's POST barrier, and enters the queue read in the next superstep. */
  lemma RelayDelivered<V(!new), M(!new)>(
      job: Job<V, M>, c: Cluster, st: State<V, M>, i: nat, n: Node<V, M>, dst: Address, msg: M, at: nat)
    requires Wellformed(job, c) && Reachable(job, c, st) && Enabled(c, st, Receive(i)) && n == st.nodes[i]
    requires n.down[0] == Relay(dst, msg, at)
    ensures n.superstep == at && (n.kind == Pre || n.kind == Post)
    ensures dst in n.vertices && c.owner(dst) == Some(i)
    ensures Apply(job, c, st, Receive(i)) == Put(st, i, Deliver(n.(down := n.down[1..]), dst, msg))
    ensures Deliver(n, dst, msg).vertices[dst].Queue(at + 1) == n.vertices[dst].Queue(at + 1) + [msg]
    ensures Deliver(n, dst, msg).vertices[dst].Queue(at) == n.vertices[dst].Queue(at)
  {
    ReachableInv(job, c, st);
    assert NodeOk(job, c, i, n);
    assert Inbound(n, n.down[0]);
    DeliveredQueues(n, dst, msg, at);
  }

  lemma DeliveredQueues<V, M>(n: Node<V, M>, dst: Address, msg: M, at: nat)
    requires dst in n.vertices && n.superstep == at
    ensures Deliver(n, dst, msg).vertices[dst].Queue(at + 1) == n.vertices[dst].Queue(at + 1) + [msg]
    ensures Deliver(n, dst, msg).vertices[dst].Queue(at) == n.vertices[dst].Queue(at)
  {
  }

  /** Every copy of a message sent so far in the current epoch is in exactly one place. */
  lemma ExactlyOnce<V(!new), M(!new)>(job: Job<V, M>, c: Cluster, st: State<V, M>, v: Address, m: M)
    requires Wellformed(job, c) && Reachable(job, c, st) && v in job.vertices
    ensures Sum(job.vertices, IfDone(c, st.nodes, Epoch(st.master), Sends(job, Epoch(st.master), (v, m))))
         == Sum(st.nodes, InFlight((v, m))) + Queued(c, st.nodes, Epoch(st.master), v, m)
  {
    ReachableInv(job, c, st);
  }

  /** No routing error ever cancels the job. */
  lemma NeverAborts<V(!new), M(!new)>(job: Job<V, M>, c: Cluster, st: State<V, M>)
    requires Wellformed(job, c) && Reachable(job, c, st)
    ensures !st.aborted
  {
    ReachableInv(job, c, st);
  }

  /** The step takes a relay nobody can be sent: it has no owner, or comes from the worker that should hold it. */
  ghost predicate TakesUnroutable<V(!new), M(!new)>(c: Cluster, r: Run<V, M>, k: nat)
  {
    && k < |r.events| && k < |r.states| && r.events[k].Handle? && r.events[k].i < |r.states[k].nodes|
    && var up := r.states[k].nodes[r.events[k].i].up;
       up != [] && up[0].Relay? && (c.owner(up[0].dst) == None || c.owner(up[0].dst) == Some(r.events[k].i))
  }

  /** A run of any job is cancelled exactly by taking such a relay, and that is its last step. */
  lemma {:induction false} AbortsExactly<V(!new), M(!new)>(job: Job<V, M>, c: Cluster, r: Run<V, M>, k: nat)
    requires IsRun(job, c, r) && k < |r.states|
    ensures r.states[k].aborted <==> exists j: nat :: j < k && TakesUnroutable(c, r, j)
    ensures forall j: nat :: j < k && TakesUnroutable(c, r, j) ==> k == j + 1 == |r.events|
  {
    if k > 0 {
      AbortsExactly(job, c, r, k - 1);
      assert Enabled(c, r.states[k - 1], r.events[k - 1]);
      assert r.states[k].aborted <==> TakesUnroutable(c, r, k - 1);
      assert k < |r.events| ==> Enabled(c, r.states[k], r.events[k]);
    }
  }

  // ---------- links ----------

  ghost predicate Bounded<V(!new), M(!new)>(c: Cluster, st: State<V, M>)
  {
    forall i :: 0 <= i < |st.nodes| ==> |st.nodes[i].up| <= c.capacity && |st.nodes[i].down| <= c.capacity
  }

  lemma StepBounded<V(!new), M(!new)>(job: Job<V, M>, c: Cluster, st: State<V, M>, e: Event)
    requires Bounded(c, st) && Enabled(c, st, e)
    ensures Bounded(c, Apply(job, c, st, e))
  {
  }

  /** No link ever holds more than its capacity: whoever sends waits for room. */
  lemma LinksBounded<V(!new), M(!new)>(job: Job<V, M>, c: Cluster, st: State<V, M>)
    requires Reachable(job, c, st)
    ensures Bounded(c, st)
  {
    var r: Run<V, M>, k: nat :| IsRun(job, c, r) && k < |r.states| && r.states[k] == st;
    forall x: State<V, M>, e: Event | Bounded(c, x) && Enabled(c, x, e) ensures Bounded(c, Apply(job, c, x, e)) {
      StepBounded(job, c, x, e);
    }
    Throughout(job, c, r, x => Bounded(c, x), k);
  }

  // ---------- aggregates ----------

  /** After the POST barrier the master and every worker past it hold the same total: the initial value
      and every contribution of every vertex in every superstep so far, each once. */
  lemma TotalsAgree<V(!new), M(!new)>(job: Job<V, M>, c: Cluster, st: State<V, M>, i: nat, name: string, s: nat)
    requires Wellformed(job, c) && Reachable(job, c, st) && i < |st.nodes|
    requires st.nodes[i].kind != Post && Reached(st.nodes[i]) == s
    ensures st.nodes[i].current(name) == st.master.current(name) == Total(job, s, name)
  {
    ReachableInv(job, c, st);
    RefinesSingleGraph(job, c, st, i, s);
    MasterTotal(job, c, st.master, i, st.nodes[i], s, name);
  }

  lemma MasterTotal<V, M>(job: Job<V, M>, c: Cluster, m: Master, i: nat, n: Node<V, M>, s: nat, name: string)
    requires MasterOk(job, c, m) && NodeOk(job, c, i, n) && InStep(m, i, n)
    requires n.kind != Post && Reached(n) == s
    ensures m.current(name) == Total(job, s, name)
  {
    RoundsNear(job, c, m, i, n);
    if Round(m.superstep, m.kind) == Round(n.superstep, n.kind) {
      RoundUnique(job, m.superstep, m.kind, n.superstep, n.kind);
    } else if Early(n) {
      var (t, k) := NextOnSchedule(job, c, m);
      RoundUnique(job, t, k, n.superstep, n.kind);
    } else {
      var (t, k) := Before(job, m.superstep, m.kind);
      RoundUnique(job, t, k, n.superstep, n.kind);
    }
  }

  lemma FinishedTotals<V(!new), M(!new)>(job: Job<V, M>, c: Cluster, st: State<V, M>, name: string)
    requires Wellformed(job, c) && Reachable(job, c, st) && st.master.pc == Finished
    ensures st.master.current(name) == Total(job, st.master.superstep + 1, name)
  {
    ReachableInv(job, c, st);
  }

  /** The count the master broadcasts is the number of vertices the single graph processed. */
  lemma CountAgrees<V(!new), M(!new)>(job: Job<V, M>, c: Cluster, st: State<V, M>)
    requires Wellformed(job, c) && Reachable(job, c, st) && st.master.pc.Broadcasting? && st.master.kind == KeepRunning
    ensures st.master.pc.reply.active == Ran(job, st.master.superstep)
  {
    ReachableInv(job, c, st);
    BroadcastCount(job, c, st.master);
  }

  lemma BroadcastCount<V, M>(job: Job<V, M>, c: Cluster, m: Master)
    requires MasterOk(job, c, m) && m.pc.Broadcasting? && m.kind == KeepRunning
    ensures m.pc.reply.active == Ran(job, m.superstep)
  {
  }

  // ---------- progress ----------

  lemma CoverSize(ids: seq<nat>, n: nat)
    requires forall i: nat :: i < n ==> i in ids
    ensures |ids| >= n
  {
    if n > 0 {
      var last: nat := n - 1;
      assert last in ids;
      var k :| 0 <= k < |ids| && ids[k] == last;
      var rest := ids[..k] + ids[k + 1..];
      forall i: nat | i < n - 1 ensures i in rest {
        assert i in ids;
        var l :| 0 <= l < |ids| && ids[l] == i;
        assert rest[if l < k then l else l - 1] == i;
      }
      CoverSize(rest, n - 1);
    }
  }

  /** With empty links and idle handlers a working worker can go on. */
  lemma WorkerGoes<V(!new), M(!new)>(job: Job<V, M>, c: Cluster, st: State<V, M>, i: nat)
    requires ValidCluster(job, c) && Inv(job, c, st) && i < |st.nodes|
    requires st.nodes[i].pc == Working && st.nodes[i].up == []
    ensures exists e :: Enabled(c, st, e)
  {
    var n := st.nodes[i];
    assert NodeOk(job, c, i, n);
    if n.todo != {} {
      var v :| v in n.todo;
      assert Enabled(c, st, Compute(i, v));
    } else if n.outbox != [] {
      assert Enabled(c, st, Send(i, 0));
    } else {
      assert Enabled(c, st, Enter(i));
    }
  }

  /** A worker with something on its way can receive it, answer it, forward it or take it. */
  lemma TrafficGoes<V(!new), M(!new)>(job: Job<V, M>, c: Cluster, st: State<V, M>, i: nat)
    requires ValidCluster(job, c) && Inv(job, c, st) && i < |st.nodes|
    requires st.nodes[i].receiver.Notifying? || st.nodes[i].down != []
    ensures exists e :: Enabled(c, st, e)
  {
    var n := st.nodes[i];
    assert NodeOk(job, c, i, n);
    if n.receiver.Notifying? {
      assert Enabled(c, st, Leave(i));
    } else {
      assert Inbound(n, n.down[0]);
      assert Enabled(c, st, Receive(i));
    }
  }

  ghost predicate CanHandle<V, M>(n: Node<V, M>)
  {
    n.handler.Replying? || n.handler.Forwarding? || (n.handler == Receiving && n.up != [])
  }

  lemma HandlerGoes<V(!new), M(!new)>(job: Job<V, M>, c: Cluster, st: State<V, M>, i: nat)
    requires ValidCluster(job, c) && Inv(job, c, st) && i < |st.nodes|
    requires forall j :: 0 <= j < |st.nodes| ==> st.nodes[j].down == []
    requires CanHandle(st.nodes[i])
    ensures exists e :: Enabled(c, st, e)
  {
    var n := st.nodes[i];
    assert NodeOk(job, c, i, n);
    if n.handler.Replying? {
      assert Enabled(c, st, Reply(i));
    } else if n.handler.Forwarding? {
      assert Enabled(c, st, Forward(i));
    } else {
      assert Enabled(c, st, Handle(i));
    }
  }

  lemma CollectingGoes<V(!new), M(!new)>(job: Job<V, M>, c: Cluster, st: State<V, M>)
    requires MasterOk(job, c, st.master) && NodesOk(job, c, st.master, st.nodes) && !st.aborted
    requires st.master.pc == Collecting
    requires forall j :: 0 <= j < |st.nodes| ==> PlaceOf(st.nodes[j]) in {Joined, Held}
    ensures exists e :: Enabled(c, st, e)
  {
    var m := st.master;
    if |m.collected| == c.workers {
      assert Enabled(c, st, Event.Collected);
    } else if i: nat :| i < |st.nodes| && PlaceOf(st.nodes[i]) == Joined {
      assert NodeOk(job, c, i, st.nodes[i]) && InStep(m, i, st.nodes[i]);
      RoundUnique(job, m.superstep, m.kind, st.nodes[i].superstep, st.nodes[i].kind);
      assert Enabled(c, st, Collect(i));
    } else {
      var ids := seq(|m.collected|, k requires 0 <= k < |m.collected| => m.collected[k].0);
      forall i: nat | i < c.workers ensures i in ids {
        assert InStep(m, i, st.nodes[i]) && HasJoined(m, i);
        var k :| 0 <= k < |m.collected| && m.collected[k].0 == i;
        assert ids[k] == i;
      }
      CoverSize(ids, c.workers);
    }
  }

  lemma BroadcastingGoes<V(!new), M(!new)>(job: Job<V, M>, c: Cluster, st: State<V, M>)
    requires MasterOk(job, c, st.master) && NodesOk(job, c, st.master, st.nodes) && !st.aborted
    requires st.master.pc.Broadcasting?
    requires forall j :: 0 <= j < |st.nodes| ==> PlaceOf(st.nodes[j]) in {Joined, Held}
    ensures exists e :: Enabled(c, st, e)
  {
    var m := st.master;
    if |m.notified| == c.workers {
      assert Enabled(c, st, Notified);
    } else if i: nat :| i < |st.nodes| && i !in m.notified {
      assert NodeOk(job, c, i, st.nodes[i]) && InStep(m, i, st.nodes[i]);
      assert Enabled(c, st, Notify(i));
    } else {
      CoverSize(m.notified, c.workers);
    }
  }

  /** When every worker is at the barrier the master can go on. */
  lemma MasterGoes<V(!new), M(!new)>(job: Job<V, M>, c: Cluster, st: State<V, M>)
    requires ValidCluster(job, c) && Inv(job, c, st) && st.master.pc != Finished
    requires forall j :: 0 <= j < |st.nodes| ==> PlaceOf(st.nodes[j]) in {Joined, Held}
    ensures exists e :: Enabled(c, st, e)
  {
    if st.master.pc == Collecting { CollectingGoes(job, c, st); } else { BroadcastingGoes(job, c, st); }
  }

  /** The protocol never gets stuck: until the master has finished some event is enabled. */
  lemma NeverStuck<V(!new), M(!new)>(job: Job<V, M>, c: Cluster, st: State<V, M>)
    requires Wellformed(job, c) && Reachable(job, c, st) && st.master.pc != Finished
    ensures exists e :: Enabled(c, st, e)
  {
    ReachableInv(job, c, st);
    if i: nat :| i < |st.nodes| && (st.nodes[i].receiver.Notifying? || st.nodes[i].down != []) {
      TrafficGoes(job, c, st, i);
    } else if i: nat :| i < |st.nodes| && CanHandle(st.nodes[i]) {
      HandlerGoes(job, c, st, i);
    } else if i: nat :| i < |st.nodes| && st.nodes[i].pc == Working {
      assert NodeOk(job, c, i, st.nodes[i]);
      WorkerGoes(job, c, st, i);
    } else {
      forall j | 0 <= j < |st.nodes| ensures PlaceOf(st.nodes[j]) in {Joined, Held} {
        assert NodeOk(job, c, j, st.nodes[j]);
      }
      MasterGoes(job, c, st);
    }
  }
}
