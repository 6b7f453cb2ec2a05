/** The master's side of a barrier, and the end of a superstep. */
module ProtocolRounds {
  import opened Sums
  import opened Bsp
  import opened Protocol
  import opened ProtocolInvariant
  import opened ProtocolFrames
  import opened ProtocolSteps

  // ---------- one step joins the barrier ----------

  ghost function Gathered(m: Master, i: nat, step: Step): Master { m.(collected := m.collected + [(i, step)]) }

  lemma GatheredSums(m: Master, i: nat, step: Step)
    ensures forall name :: Sum(Gathered(m, i, step).collected, StepTotal(name))
                        == Sum(m.collected, StepTotal(name)) + step.totals(name)
    ensures Sum(Gathered(m, i, step).collected, StepActive()) == Sum(m.collected, StepActive()) + step.active
  {
    forall name ensures Sum(Gathered(m, i, step).collected, StepTotal(name))
                     == Sum(m.collected, StepTotal(name)) + step.totals(name)
    {
      SumAppend(m.collected, [(i, step)], StepTotal(name));
      assert Sum([(i, step)], StepTotal(name)) == StepTotal(name)((i, step)) + Sum([(i, step)][1..], StepTotal(name));
    }
    SumAppend(m.collected, [(i, step)], StepActive());
    assert Sum([(i, step)], StepActive()) == StepActive()((i, step)) + Sum([(i, step)][1..], StepActive());
  }

  lemma GatheredMaster<V, M>(job: Job<V, M>, c: Cluster, m: Master, i: nat, step: Step)
    requires MasterOk(job, c, m) && m.pc == Collecting && |m.collected| < c.workers && i < c.workers
    requires !HasJoined(m, i) && step.kind == m.kind && step.at == m.superstep
    ensures MasterOk(job, c, Gathered(m, i, step))
    ensures forall j: nat :: HasJoined(Gathered(m, i, step), j) <==> HasJoined(m, j) || j == i
  {
    var m' := Gathered(m, i, step);
    forall j: nat ensures HasJoined(m', j) <==> HasJoined(m, j) || j == i {
      assert m'.collected[|m.collected|].0 == i;
      if HasJoined(m, j) {
        var k :| 0 <= k < |m.collected| && m.collected[k].0 == j;
        assert m'.collected[k].0 == j;
      }
    }
  }

  lemma CollectLaws<V(!new), M(!new)>(
      job: Job<V, M>, c: Cluster, m: Master, nodes: seq<Node<V, M>>, i: nat)
    requires i < |nodes| && LocalGraph(job, c, i, nodes[i]) && Laws(job, c, m, nodes)
    requires m.pc == Collecting && nodes[i].handler.Joining? && EntryOk(job, nodes[i], nodes[i].handler.step)
    requires nodes[i].superstep == m.superstep && nodes[i].kind == m.kind
    ensures Laws(job, c, Gathered(m, i, nodes[i].handler.step), nodes[i := nodes[i].(handler := Awaiting(m.kind))])
  {
    var n := nodes[i];
    var n' := n.(handler := Awaiting(m.kind));
    var m' := Gathered(m, i, n.handler.step);
    GatheredSums(m, i, n.handler.step);
    MailKept(job, c, nodes, i, n', Epoch(m));
    var e := m.superstep;
    if TotalsOpen(m) {
      forall name
        ensures Sum(job.vertices, IfDone(c, nodes[i := n'], e, Gives(job, e, name)))
             == Sum(nodes[i := n'], Owed(job, e, name))
                + (if m.kind == Post then Sum(m'.collected, StepTotal(name)) else 0)
      {
        DoneKept(job, c, nodes, i, n', e, Gives(job, e, name));
        SumUpdate(nodes, i, n', Owed(job, e, name));
      }
    }
    if Epoch(m) == e {
      DoneKept(job, c, nodes, i, n', e, Ones(job, e));
      SumUpdate(nodes, i, n', Counted(e));
    }
  }

  lemma CollectKeeps<V(!new), M(!new)>(job: Job<V, M>, c: Cluster, st: State<V, M>, i: nat)
    requires Inv(job, c, st) && Enabled(c, st, Collect(i))
    ensures Inv(job, c, Apply(job, c, st, Collect(i)))
  {
    var m, n := st.master, st.nodes[i];
    var n' := n.(handler := Awaiting(m.kind));
    CollectNode(job, c, m, i, n);
    GatheredMaster(job, c, m, i, n.handler.step);
    CollectLaws(job, c, m, st.nodes, i);
    var m', nodes' := Gathered(m, i, n.handler.step), st.nodes[i := n'];
    forall j | 0 <= j < |nodes'| ensures NodeOk(job, c, j, nodes'[j]) && InStep(m', j, nodes'[j]) {
      assert NodeOk(job, c, j, st.nodes[j]) && InStep(m, j, st.nodes[j]);
    }
  }

  // ---------- one handler takes the answer ----------

  lemma NotifyMaster<V, M>(job: Job<V, M>, c: Cluster, m: Master, i: nat)
    requires MasterOk(job, c, m) && m.pc.Broadcasting? && i < c.workers && i !in m.notified
    requires |m.notified| < c.workers
    ensures MasterOk(job, c, m.(notified := m.notified + [i]))
  {
  }

  lemma NotifyLawsKept<V(!new), M(!new)>(
      job: Job<V, M>, c: Cluster, m: Master, nodes: seq<Node<V, M>>, i: nat, reply: Step)
    requires i < |nodes| && NodeOk(job, c, i, nodes[i]) && Laws(job, c, m, nodes)
    requires SameBooks(job, m, nodes[i], nodes[i].(handler := Replying(reply)))
    ensures Laws(job, c, m.(notified := m.notified + [i]), nodes[i := nodes[i].(handler := Replying(reply))])
  {
    var n' := nodes[i].(handler := Replying(reply));
    LawsKept(job, c, m, nodes, i, n');
    NotifyLaws(job, c, m, m.(notified := m.notified + [i]), nodes[i := n']);
  }

  lemma NotifyKeeps<V(!new), M(!new)>(job: Job<V, M>, c: Cluster, st: State<V, M>, i: nat)
    requires Inv(job, c, st) && Enabled(c, st, Notify(i))
    ensures Inv(job, c, Apply(job, c, st, Notify(i)))
  {
    var m, n := st.master, st.nodes[i];
    NotifyNode(job, c, m, i, n);
    NotifyLawsKept(job, c, m, st.nodes, i, m.pc.reply);
    NotifyMaster(job, c, m, i);
  }

  lemma NotifyLaws<V(!new), M(!new)>(
      job: Job<V, M>, c: Cluster, m: Master, m': Master, nodes: seq<Node<V, M>>)
    requires m' == m.(notified := m'.notified) && Laws(job, c, m, nodes)
    ensures Laws(job, c, m', nodes)
  {
  }

  // ---------- all steps are in ----------

  /** Round trips from distinct workers, as many as there are workers, are one from each. */
  lemma AllCollected<V, M>(job: Job<V, M>, c: Cluster, m: Master)
    requires MasterOk(job, c, m) && |m.collected| == c.workers
    ensures forall i: nat :: i < c.workers ==> HasJoined(m, i)
  {
    var ids := seq(|m.collected|, k requires 0 <= k < |m.collected| => m.collected[k].0);
    DistinctCovers(ids, c.workers);
    forall i: nat | i < c.workers ensures HasJoined(m, i) {
      assert i in ids;
    }
  }

  /** Everyone waits in the master's round. */
  ghost predicate Assembled<V, M>(job: Job<V, M>, c: Cluster, m: Master, nodes: seq<Node<V, M>>)
  {
    && |nodes| == c.workers
    && forall i :: 0 <= i < |nodes| ==>
         NodeOk(job, c, i, nodes[i]) && InRound(nodes[i], m)
  }

  lemma CollectedAssembled<V(!new), M(!new)>(job: Job<V, M>, c: Cluster, m: Master, nodes: seq<Node<V, M>>)
    requires MasterOk(job, c, m) && NodesOk(job, c, m, nodes)
    requires m.pc == Collecting && |m.collected| == c.workers
    ensures Assembled(job, c, m, nodes)
  {
    AllCollected(job, c, m);
  }

  lemma HeldQuiet<V(!new), M(!new)>(job: Job<V, M>, c: Cluster, i: nat, n: Node<V, M>, p: (Address, M))
    requires NodeOk(job, c, i, n) && PlaceOf(n) == Held && n.kind != Pre && n.kind != Post
    ensures HeldBy(n, p) == 0
  {
    assert n.down != [] ==> Inbound(n, n.down[0]);
    assert n.down == [];
  }

  lemma AssembledAllDone<V(!new), M(!new)>(
      job: Job<V, M>, c: Cluster, m: Master, nodes: seq<Node<V, M>>, f: Address -> int)
    requires ValidCluster(job, c) && Assembled(job, c, m, nodes) && m.kind != Pre
    ensures Sum(job.vertices, IfDone(c, nodes, m.superstep, f)) == Sum(job.vertices, f)
  {
    forall v | v in job.vertices ensures IfDone(c, nodes, m.superstep, f)(v) == f(v) {
      var n := nodes[c.owner(v).value];
      assert NodeOk(job, c, c.owner(v).value, n) && InRound(n, m);
    }
    SumEqual(job.vertices, IfDone(c, nodes, m.superstep, f), f);
  }

  /** At POST the deltas of all workers add up to the superstep's contributions. */
  lemma PostMerged<V(!new), M(!new)>(job: Job<V, M>, c: Cluster, m: Master, nodes: seq<Node<V, M>>, name: string)
    requires ValidCluster(job, c) && Assembled(job, c, m, nodes) && MasterOk(job, c, m)
    requires m.kind == Post && m.pc == Collecting && TotalsLaw(job, c, m, nodes)
    ensures Merged(m)(name) == Total(job, m.superstep + 1, name)
  {
    var e := m.superstep;
    AssembledAllDone(job, c, m, nodes, Gives(job, e, name));
    forall n | n in nodes ensures Owed(job, e, name)(n) == 0 {
      var i :| 0 <= i < |nodes| && nodes[i] == n;
      assert InRound(nodes[i], m);
    }
    SumZero(nodes, Owed(job, e, name));
  }

  /** At POST_KEEP_RUNNING the counts of all workers add up to the single graph's count. */
  lemma CountMerged<V(!new), M(!new)>(job: Job<V, M>, c: Cluster, m: Master, nodes: seq<Node<V, M>>)
    requires ValidCluster(job, c) && Assembled(job, c, m, nodes)
    requires m.kind == KeepRunning && m.pc == Collecting && CountLaw(job, c, m, nodes)
    ensures Sum(m.collected, StepActive()) == Ran(job, m.superstep)
  {
    var e := m.superstep;
    AssembledAllDone(job, c, m, nodes, Ones(job, e));
    forall n | n in nodes ensures Counted<V, M>(e)(n) == 0 {
      var i :| 0 <= i < |nodes| && nodes[i] == n;
      assert InRound(nodes[i], m);
    }
    SumZero(nodes, Counted(e));
  }

  /** Nothing is under way when POST_KEEP_RUNNING is complete: the next epoch begins empty. */
  lemma EpochBegins<V(!new), M(!new)>(job: Job<V, M>, c: Cluster, m: Master, nodes: seq<Node<V, M>>)
    requires ValidCluster(job, c) && Assembled(job, c, m, nodes) && m.kind == KeepRunning
    ensures MailLaw(job, c, m.superstep + 1, nodes)
  {
    var e := m.superstep + 1;
    forall v: Address, x: M | v in job.vertices
      ensures Sum(job.vertices, IfDone(c, nodes, e, Sends(job, e, (v, x)))) == 0
      ensures Sum(nodes, InFlight((v, x))) == 0 && Queued(c, nodes, e, v, x) == 0
    {
      forall w | w in job.vertices ensures IfDone(c, nodes, e, Sends(job, e, (v, x)))(w) == 0 {
        assert InRound(nodes[c.owner(w).value], m);
      }
      SumZero(job.vertices, IfDone(c, nodes, e, Sends(job, e, (v, x))));
      forall n | n in nodes ensures InFlight((v, x))(n) == 0 {
        var i :| 0 <= i < |nodes| && nodes[i] == n;
        assert InRound(nodes[i], m);
        HeldQuiet(job, c, i, n, (v, x));
      }
      SumZero(nodes, InFlight((v, x)));
      NothingQueued(job, c, m, nodes, v, x, e);
    }
  }

  lemma NothingQueued<V(!new), M(!new)>(
      job: Job<V, M>, c: Cluster, m: Master, nodes: seq<Node<V, M>>, v: Address, x: M, e: nat)
    requires ValidCluster(job, c) && Assembled(job, c, m, nodes) && m.kind == KeepRunning && v in job.vertices
    requires e == m.superstep + 1
    ensures Queued(c, nodes, e, v, x) == 0
  {
    var i := c.owner(v).value;
    assert NodeOk(job, c, i, nodes[i]) && InRound(nodes[i], m);
    DrainedCell(job, nodes[i], v, e);
  }

  lemma DrainedCell<V, M>(job: Job<V, M>, n: Node<V, M>, v: Address, e: nat)
    requires v in n.vertices && CellOk(job, n, v) && n.kind == KeepRunning && e == Reached(n)
    ensures n.vertices[v].Queue(e + 1) == []
  {
  }

  lemma CollectedMaster<V(!new), M(!new)>(job: Job<V, M>, c: Cluster, m: Master, nodes: seq<Node<V, M>>)
    requires ValidCluster(job, c) && Assembled(job, c, m, nodes) && MasterOk(job, c, m) && Laws(job, c, m, nodes)
    requires m.pc == Collecting && |m.collected| == c.workers
    ensures MasterOk(job, c, DoCollected(m))
  {
    if m.kind == Post {
      forall name ensures Merged(m)(name) == Total(job, m.superstep + 1, name) {
        PostMerged(job, c, m, nodes, name);
      }
    }
    if m.kind == KeepRunning { CountMerged(job, c, m, nodes); }
  }

  lemma CollectedLaws<V(!new), M(!new)>(job: Job<V, M>, c: Cluster, m: Master, nodes: seq<Node<V, M>>)
    requires ValidCluster(job, c) && Assembled(job, c, m, nodes) && Laws(job, c, m, nodes) && m.pc == Collecting
    ensures Laws(job, c, DoCollected(m), nodes)
  {
    if m.kind == KeepRunning {
      EpochBegins(job, c, m, nodes);
      CollectedPc(m);
    } else {
      CollectedSameLaws(job, c, m, nodes);
    }
  }

  lemma CollectedPc(m: Master)
    requires m.pc == Collecting
    ensures DoCollected(m).kind == m.kind && DoCollected(m).superstep == m.superstep
    ensures DoCollected(m).pc != Collecting && (m.kind == KeepRunning ==> Epoch(DoCollected(m)) == m.superstep + 1)
    ensures m.kind != KeepRunning ==> Epoch(DoCollected(m)) == Epoch(m)
  {
  }

  lemma CollectedSameLaws<V(!new), M(!new)>(job: Job<V, M>, c: Cluster, m: Master, nodes: seq<Node<V, M>>)
    requires Laws(job, c, m, nodes) && m.pc == Collecting && m.kind != KeepRunning
    ensures Laws(job, c, DoCollected(m), nodes)
  {
    CollectedPc(m);
  }

  lemma CollectedKeeps<V(!new), M(!new)>(job: Job<V, M>, c: Cluster, st: State<V, M>)
    requires ValidCluster(job, c) && Inv(job, c, st) && Enabled(c, st, Event.Collected)
    ensures Inv(job, c, Apply(job, c, st, Event.Collected))
  {
    var m := st.master;
    CollectedAssembled(job, c, m, st.nodes);
    CollectedMaster(job, c, m, st.nodes);
    CollectedLaws(job, c, m, st.nodes);
    forall i | 0 <= i < |st.nodes| ensures InStep(DoCollected(m), i, st.nodes[i]) {
      assert InRound(st.nodes[i], m);
    }
  }

  // ---------- all answers are out ----------

  lemma NotifiedRound<V, M>(job: Job<V, M>, m: Master)
    requires m.pc.Broadcasting? && m.kind != Completed
    ensures Round(DoNotified(job, m).superstep, DoNotified(job, m).kind) == Round(m.superstep, m.kind) + 1
    ensures Epoch(DoNotified(job, m)) == Epoch(m)
  {
  }

  lemma OneFurther<V, M>(job: Job<V, M>, s: nat, k: Kind, active: int)
    requires OnSchedule(job, s, k) && k != Completed && (k == KeepRunning ==> active == Ran(job, s))
    ensures OnSchedule(job, Next(job, s, k, active).0, Next(job, s, k, active).1)
  {
  }

  lemma NotifiedMaster<V, M>(job: Job<V, M>, c: Cluster, m: Master)
    requires MasterOk(job, c, m) && m.pc.Broadcasting?
    ensures MasterOk(job, c, DoNotified(job, m))
    ensures Round(DoNotified(job, m).superstep, DoNotified(job, m).kind) == Round(m.superstep, m.kind) + 1
    ensures Epoch(DoNotified(job, m)) == Epoch(m)
  {
    NotifiedRound(job, m);
    OneFurther(job, m.superstep, m.kind, m.pc.reply.active);
  }

  /** Everyone is between the last round and the next. */
  ghost predicate Released<V, M>(c: Cluster, r: nat, nodes: seq<Node<V, M>>)
  {
    |nodes| == c.workers && forall i :: 0 <= i < |nodes| ==> Free(nodes[i], r)
  }

  lemma NotifiedReleased<V(!new), M(!new)>(job: Job<V, M>, c: Cluster, m: Master, nodes: seq<Node<V, M>>)
    requires MasterOk(job, c, m) && NodesOk(job, c, m, nodes) && m.pc.Broadcasting? && |m.notified| == c.workers
    ensures Released(c, Round(m.superstep, m.kind) + 1, nodes)
  {
    DistinctCovers(m.notified, c.workers);
    forall i | 0 <= i < |nodes| ensures Free(nodes[i], Round(m.superstep, m.kind) + 1) {
      assert i in m.notified && InStep(m, i, nodes[i]);
    }
  }

  lemma NotifiedLaws<V(!new), M(!new)>(job: Job<V, M>, c: Cluster, m: Master, nodes: seq<Node<V, M>>)
    requires MasterOk(job, c, m) && NodesOk(job, c, m, nodes) && m.pc.Broadcasting? && |m.notified| == c.workers
    requires Laws(job, c, m, nodes)
    ensures Laws(job, c, DoNotified(job, m), nodes)
  {
    var m' := DoNotified(job, m);
    NotifiedMaster(job, c, m);
    if m'.kind == Pre {
      NotifiedReleased(job, c, m, nodes);
      forall i | 0 <= i < |nodes| ensures nodes[i].superstep == m'.superstep ==> nodes[i].kind == Pre {
        assert NodeOk(job, c, i, nodes[i]) && Free(nodes[i], Round(m'.superstep, Pre));
      }
      FreshCounts(job, c, m', nodes);
    } else {
      assert m'.kind == Post || m'.kind == KeepRunning ==> m'.superstep == m.superstep;
    }
  }

  lemma FreshCounts<V(!new), M(!new)>(job: Job<V, M>, c: Cluster, m: Master, nodes: seq<Node<V, M>>)
    requires m.kind == Pre
    requires forall i :: 0 <= i < |nodes| && nodes[i].superstep == m.superstep ==> nodes[i].kind == Pre
    ensures TotalsLaw(job, c, m, nodes) && CountLaw(job, c, m, nodes)
  {
    var e := m.superstep;
    forall f: Address -> int ensures Sum(job.vertices, IfDone(c, nodes, e, f)) == 0 {
      SumZero(job.vertices, IfDone(c, nodes, e, f));
    }
    forall name ensures Sum(nodes, Owed(job, e, name)) == 0 {
      SumZero(nodes, Owed(job, e, name));
    }
    SumZero(nodes, Counted(e));
  }

  lemma NotifiedKeeps<V(!new), M(!new)>(job: Job<V, M>, c: Cluster, st: State<V, M>)
    requires Inv(job, c, st) && Enabled(c, st, Notified)
    ensures Inv(job, c, Apply(job, c, st, Notified))
  {
    var m := st.master;
    NotifiedMaster(job, c, m);
    NotifiedReleased(job, c, m, st.nodes);
    NotifiedLaws(job, c, m, st.nodes);
  }

  // ---------- the end of a superstep ----------

  /** Whoever leaves POST, everyone has finished computing. */
  lemma PostPassed<V, M>(job: Job<V, M>, c: Cluster, m: Master, i: nat, n: Node<V, M>, j: nat, t: Node<V, M>)
    requires MasterOk(job, c, m)
    requires NodeOk(job, c, i, n) && InStep(m, i, n) && NodeOk(job, c, j, t) && InStep(m, j, t)
    requires n.kind == Post && Late(n)
    ensures t.superstep == n.superstep
    ensures t.kind == KeepRunning || (t.kind == Post && (PlaceOf(t) == Held || Late(t)))
  {
    RoundsNear(job, c, m, i, n);
    if m.pc.Broadcasting? {
      RoundUnique(job, m.superstep, m.kind, n.superstep, n.kind);
      if Early(t) {
        var (s, k) := NextOnSchedule(job, c, m);
        RoundUnique(job, t.superstep, t.kind, s, k);
      } else {
        RoundUnique(job, t.superstep, t.kind, n.superstep, n.kind);
      }
    } else {
      var (s, k) := Before(job, m.superstep, m.kind);
      RoundUnique(job, s, k, n.superstep, n.kind);
      if Late(t) {
        RoundUnique(job, t.superstep, t.kind, n.superstep, n.kind);
      } else {
        RoundUnique(job, t.superstep, t.kind, m.superstep, m.kind);
      }
    }
  }

  lemma QuietAfterPost<V(!new), M(!new)>(job: Job<V, M>, c: Cluster, j: nat, t: Node<V, M>, p: (Address, M))
    requires NodeOk(job, c, j, t)
    requires t.kind == KeepRunning || (t.kind == Post && (PlaceOf(t) == Held || Late(t)))
    ensures HeldBy(t, p) == Sum(t.down, RelayOf(p))
  {
    forall x | x in t.up ensures RelayOf(p)(x) == 0 { }
    SumZero(t.up, RelayOf(p));
  }

  lemma ForeignDown<V(!new), M(!new)>(job: Job<V, M>, c: Cluster, j: nat, t: Node<V, M>, p: (Address, M))
    requires NodeOk(job, c, j, t) && c.owner(p.0) != Some(j)
    ensures Sum(t.down, RelayOf(p)) == 0
  {
    forall x | x in t.down ensures RelayOf(p)(x) == 0 {
      var k :| 0 <= k < |t.down| && t.down[k] == x;
      assert Inbound(t, t.down[k]);
    }
    SumZero(t.down, RelayOf(p));
  }

  lemma LeavingPost<V(!new), M(!new)>(job: Job<V, M>, c: Cluster, m: Master, i: nat, n: Node<V, M>)
    requires MasterOk(job, c, m) && NodeOk(job, c, i, n) && InStep(m, i, n) && CanLeave(n) && n.kind == Post
    ensures Epoch(m) == n.superstep && PlaceOf(n) == Handed
    ensures forall v :: v in n.vertices ==> v in job.vertices && c.owner(v) == Some(i)
  {
    EpochSeen(job, c, m, i, n);
  }

  /** When a worker leaves POST its next queues hold exactly what the single graph's inboxes hold. */
  lemma AllArrived<V(!new), M(!new)>(job: Job<V, M>, c: Cluster, m: Master, nodes: seq<Node<V, M>>, i: nat, s: nat)
    requires ValidCluster(job, c) && MasterOk(job, c, m) && NodesOk(job, c, m, nodes)
    requires MailLaw(job, c, s, nodes)
    requires i < |nodes| && nodes[i].kind == Post && PlaceOf(nodes[i]) == Handed && nodes[i].superstep == s
    requires forall v :: v in nodes[i].vertices ==> v in job.vertices && c.owner(v) == Some(i)
    ensures Arrived(job, nodes[i], s)
  {
    forall v | v in nodes[i].vertices
      ensures multiset(nodes[i].vertices[v].Queue(s + 1)) == multiset(Inbox(job, s + 1, v))
    {
      VertexArrived(job, c, m, nodes, i, v, s);
    }
  }

  lemma VertexArrived<V(!new), M(!new)>(
      job: Job<V, M>, c: Cluster, m: Master, nodes: seq<Node<V, M>>, i: nat, v: Address, s: nat)
    requires ValidCluster(job, c) && MasterOk(job, c, m) && NodesOk(job, c, m, nodes)
    requires i < |nodes| && nodes[i].kind == Post && PlaceOf(nodes[i]) == Handed && nodes[i].superstep == s
    requires v in nodes[i].vertices && v in job.vertices && c.owner(v) == Some(i)
    requires MailLaw(job, c, s, nodes)
    ensures multiset(nodes[i].vertices[v].Queue(s + 1)) == multiset(Inbox(job, s + 1, v))
  {
    var a, b := multiset(nodes[i].vertices[v].Queue(s + 1)), multiset(Inbox(job, s + 1, v));
    forall x: M ensures a[x] == b[x] {
      MessageArrived(job, c, m, nodes, i, v, x, s);
    }
  }

  lemma MessageArrived<V(!new), M(!new)>(
      job: Job<V, M>, c: Cluster, m: Master, nodes: seq<Node<V, M>>, i: nat, v: Address, x: M, s: nat)
    requires ValidCluster(job, c) && MasterOk(job, c, m) && NodesOk(job, c, m, nodes)
    requires i < |nodes| && nodes[i].kind == Post && PlaceOf(nodes[i]) == Handed && nodes[i].superstep == s
    requires v in nodes[i].vertices && v in job.vertices && c.owner(v) == Some(i)
    requires MailLaw(job, c, s, nodes)
    ensures multiset(nodes[i].vertices[v].Queue(s + 1))[x] == multiset(Inbox(job, s + 1, v))[x]
  {
    NothingInFlight(job, c, m, nodes, i, v, x);
    EveryoneSent(job, c, m, nodes, i, v, x);
    QueuedIsInbox(job, c, nodes, s, i, v, x);
  }

  lemma QueuedIsInbox<V(!new), M(!new)>(
      job: Job<V, M>, c: Cluster, nodes: seq<Node<V, M>>, s: nat, i: nat, v: Address, x: M)
    requires MailLaw(job, c, s, nodes) && Sum(nodes, InFlight((v, x))) == 0
    requires Sum(job.vertices, IfDone(c, nodes, s, Sends(job, s, (v, x)))) == Sum(job.vertices, Sends(job, s, (v, x)))
    requires i < |nodes| && v in nodes[i].vertices && v in job.vertices && c.owner(v) == Some(i)
    ensures multiset(nodes[i].vertices[v].Queue(s + 1))[x] == multiset(Inbox(job, s + 1, v))[x]
  {
    InboxCounts(job, s, v, x);
    assert Queued(c, nodes, s, v, x) == multiset(nodes[i].vertices[v].Queue(s + 1))[x];
  }

  lemma NothingInFlight<V(!new), M(!new)>(
      job: Job<V, M>, c: Cluster, m: Master, nodes: seq<Node<V, M>>, i: nat, v: Address, x: M)
    requires MasterOk(job, c, m) && NodesOk(job, c, m, nodes) && i < |nodes|
    requires nodes[i].kind == Post && PlaceOf(nodes[i]) == Handed && v in nodes[i].vertices
    ensures Sum(nodes, InFlight((v, x))) == 0
  {
    forall t | t in nodes ensures InFlight((v, x))(t) == 0 {
      var j :| 0 <= j < |nodes| && nodes[j] == t;
      PostPassed(job, c, m, i, nodes[i], j, t);
      QuietAfterPost(job, c, j, t, (v, x));
      if j != i { ForeignDown(job, c, j, t, (v, x)); }
    }
    SumZero(nodes, InFlight((v, x)));
  }

  lemma EveryoneSent<V(!new), M(!new)>(
      job: Job<V, M>, c: Cluster, m: Master, nodes: seq<Node<V, M>>, i: nat, v: Address, x: M)
    requires ValidCluster(job, c) && MasterOk(job, c, m) && NodesOk(job, c, m, nodes) && i < |nodes|
    requires nodes[i].kind == Post && PlaceOf(nodes[i]) == Handed
    ensures Sum(job.vertices, IfDone(c, nodes, nodes[i].superstep, Sends(job, nodes[i].superstep, (v, x))))
         == Sum(job.vertices, Sends(job, nodes[i].superstep, (v, x)))
  {
    var s := nodes[i].superstep;
    forall w | w in job.vertices ensures DoneAt(c, nodes, s, w) {
      var j := c.owner(w).value;
      PostPassed(job, c, m, i, nodes[i], j, nodes[j]);
    }
    SumEqual(job.vertices, IfDone(c, nodes, s, Sends(job, s, (v, x))), Sends(job, s, (v, x)));
  }
}
