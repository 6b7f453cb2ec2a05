/** How the invariant survives the change of one worker. */
module ProtocolFrames {
  import opened Sums
  import opened Bsp
  import opened Protocol
  import opened ProtocolInvariant

  lemma PutNode<V(!new), M(!new)>(
      job: Job<V, M>, c: Cluster, m: Master, nodes: seq<Node<V, M>>, i: nat, n': Node<V, M>)
    requires NodesOk(job, c, m, nodes) && i < |nodes|
    requires NodeOk(job, c, i, n') && InStep(m, i, n')
    ensures NodesOk(job, c, m, nodes[i := n'])
  {
  }

  /** The change leaves the set of processed vertices of epoch `e` as it is. */
  ghost predicate SameDone<V, M>(n: Node<V, M>, n': Node<V, M>, e: nat)
  {
    n'.vertices.Keys == n.vertices.Keys && forall v :: v in n.vertices ==> Done(n', e, v) == Done(n, e, v)
  }

  lemma DoneKept<V(!new), M(!new)>(
      job: Job<V, M>, c: Cluster, nodes: seq<Node<V, M>>, i: nat, n': Node<V, M>, e: nat, f: Address -> int)
    requires i < |nodes| && LocalGraph(job, c, i, nodes[i]) && SameDone(nodes[i], n', e)
    ensures Sum(job.vertices, IfDone(c, nodes[i := n'], e, f)) == Sum(job.vertices, IfDone(c, nodes, e, f))
  {
    SumEqual(job.vertices, IfDone(c, nodes[i := n'], e, f), IfDone(c, nodes, e, f));
  }

  /** Copies of a message a worker holds or has queued for the superstep after `e`. */
  ghost function Holds<V, M>(n: Node<V, M>, e: nat, v: Address, m: M): int
  {
    HeldBy(n, (v, m)) + if v in n.vertices then multiset(n.vertices[v].Queue(e + 1))[m] else 0
  }

  ghost predicate SameHolds<V, M(!new)>(job: Job<V, M>, n: Node<V, M>, n': Node<V, M>, e: nat)
  {
    forall v: Address, m: M :: v in job.vertices ==> Holds(n', e, v, m) == Holds(n, e, v, m)
  }

  lemma MailStep<V(!new), M(!new)>(
      job: Job<V, M>, c: Cluster, nodes: seq<Node<V, M>>, i: nat, n': Node<V, M>, e: nat, v: Address, m: M)
    requires i < |nodes| && LocalGraph(job, c, i, nodes[i]) && n'.vertices.Keys == nodes[i].vertices.Keys
    requires v in job.vertices
    ensures Sum(nodes[i := n'], InFlight((v, m))) + Queued(c, nodes[i := n'], e, v, m)
         == Sum(nodes, InFlight((v, m))) + Queued(c, nodes, e, v, m)
            + Holds(n', e, v, m) - Holds(nodes[i], e, v, m)
  {
    SumUpdate(nodes, i, n', InFlight((v, m)));
  }

  lemma MailKept<V(!new), M(!new)>(
      job: Job<V, M>, c: Cluster, nodes: seq<Node<V, M>>, i: nat, n': Node<V, M>, e: nat)
    requires i < |nodes| && LocalGraph(job, c, i, nodes[i]) && SameDone(nodes[i], n', e)
    requires SameHolds(job, nodes[i], n', e)
    requires MailLaw(job, c, e, nodes)
    ensures MailLaw(job, c, e, nodes[i := n'])
  {
    forall v: Address, m: M | v in job.vertices
      ensures Sum(job.vertices, IfDone(c, nodes[i := n'], e, Sends(job, e, (v, m))))
           == Sum(nodes[i := n'], InFlight((v, m))) + Queued(c, nodes[i := n'], e, v, m)
    {
      DoneKept(job, c, nodes, i, n', e, Sends(job, e, (v, m)));
      MailStep(job, c, nodes, i, n', e, v, m);
    }
  }

  ghost predicate TotalsOpen(m: Master) { m.kind == Pre || (m.kind == Post && m.pc == Collecting) }

  lemma TotalsKept<V(!new), M(!new)>(
      job: Job<V, M>, c: Cluster, m: Master, nodes: seq<Node<V, M>>, i: nat, n': Node<V, M>)
    requires i < |nodes| && LocalGraph(job, c, i, nodes[i]) && SameDone(nodes[i], n', Epoch(m))
    requires TotalsOpen(m) ==>
      forall name :: OwedBy(job, n', m.superstep, name) == OwedBy(job, nodes[i], m.superstep, name)
    requires TotalsLaw(job, c, m, nodes)
    ensures TotalsLaw(job, c, m, nodes[i := n'])
  {
    if TotalsOpen(m) {
      var e := m.superstep;
      forall name
        ensures Sum(job.vertices, IfDone(c, nodes[i := n'], e, Gives(job, e, name)))
             == Sum(job.vertices, IfDone(c, nodes, e, Gives(job, e, name)))
        ensures Sum(nodes[i := n'], Owed(job, e, name)) == Sum(nodes, Owed(job, e, name))
      {
        DoneKept(job, c, nodes, i, n', e, Gives(job, e, name));
        SumUpdate(nodes, i, n', Owed(job, e, name));
      }
    }
  }

  lemma CountKept<V(!new), M(!new)>(
      job: Job<V, M>, c: Cluster, m: Master, nodes: seq<Node<V, M>>, i: nat, n': Node<V, M>)
    requires i < |nodes| && LocalGraph(job, c, i, nodes[i]) && SameDone(nodes[i], n', Epoch(m))
    requires Epoch(m) == m.superstep ==> RanBy(n', m.superstep) == RanBy(nodes[i], m.superstep)
    requires CountLaw(job, c, m, nodes)
    ensures CountLaw(job, c, m, nodes[i := n'])
  {
    if Epoch(m) == m.superstep {
      DoneKept(job, c, nodes, i, n', m.superstep, Ones(job, m.superstep));
      SumUpdate(nodes, i, n', Counted(m.superstep));
    }
  }

  /** A change of one worker that moves no message and no count keeps the laws. */
  lemma LawsKept<V(!new), M(!new)>(
      job: Job<V, M>, c: Cluster, m: Master, nodes: seq<Node<V, M>>, i: nat, n': Node<V, M>)
    requires i < |nodes| && LocalGraph(job, c, i, nodes[i]) && SameDone(nodes[i], n', Epoch(m))
    requires SameHolds(job, nodes[i], n', Epoch(m))
    requires TotalsOpen(m) ==>
      forall name :: OwedBy(job, n', m.superstep, name) == OwedBy(job, nodes[i], m.superstep, name)
    requires Epoch(m) == m.superstep ==> RanBy(n', m.superstep) == RanBy(nodes[i], m.superstep)
    requires Laws(job, c, m, nodes)
    ensures Laws(job, c, m, nodes[i := n'])
  {
    MailKept(job, c, nodes, i, n', Epoch(m));
    TotalsKept(job, c, m, nodes, i, n');
    CountKept(job, c, m, nodes, i, n');
  }

  // ---------- counting relays ----------

  lemma SumPush<M>(q: seq<Payload<M>>, x: Payload<M>, p: (Address, M))
    ensures Sum(q + [x], RelayOf(p)) == Sum(q, RelayOf(p)) + RelayOf(p)(x)
  {
    SumAppend(q, [x], RelayOf(p));
    assert Sum([x], RelayOf(p)) == RelayOf(p)(x) + Sum([x][1..], RelayOf(p));
  }

  lemma SumPop<M>(q: seq<Payload<M>>, p: (Address, M))
    requires q != []
    ensures Sum(q, RelayOf(p)) == RelayOf(p)(q[0]) + Sum(q[1..], RelayOf(p))
  {
  }

  // ---------- where the epoch is ----------

  /** The epoch seen from a worker: its own superstep until it has left POST_KEEP_RUNNING's collection. */
  lemma EpochSeen<V, M>(job: Job<V, M>, c: Cluster, m: Master, i: nat, n: Node<V, M>)
    requires MasterOk(job, c, m) && NodeOk(job, c, i, n) && InStep(m, i, n)
    ensures n.kind == Pre || n.kind == Post ==> Epoch(m) == n.superstep
    ensures Epoch(m) == n.superstep || Epoch(m) == n.superstep + 1
    ensures n.kind == KeepRunning && Early(n) ==> Epoch(m) == n.superstep
    ensures n.kind == KeepRunning && Late(n) ==> Epoch(m) == n.superstep + 1
    ensures !InLoop(n.kind) ==> Epoch(m) == n.superstep + 1
  {
    RoundsNear(job, c, m, i, n);
    if Round(m.superstep, m.kind) == Round(n.superstep, n.kind) {
      RoundUnique(job, m.superstep, m.kind, n.superstep, n.kind);
    } else if Early(n) {
      var (s, k) := NextOnSchedule(job, c, m);
      RoundUnique(job, s, k, n.superstep, n.kind);
    } else {
      var (s, k) := Before(job, m.superstep, m.kind);
      RoundUnique(job, s, k, n.superstep, n.kind);
    }
  }

  lemma RoundsNear<V, M>(job: Job<V, M>, c: Cluster, m: Master, i: nat, n: Node<V, M>)
    requires MasterOk(job, c, m) && InStep(m, i, n)
    ensures Round(m.superstep, m.kind) == Round(n.superstep, n.kind)
         || (m.pc.Broadcasting? && Early(n) && Round(n.superstep, n.kind) == Round(m.superstep, m.kind) + 1)
         || (m.pc == Collecting && Late(n) && Round(n.superstep, n.kind) + 1 == Round(m.superstep, m.kind))
  {
  }

  ghost function NextOnSchedule<V, M>(job: Job<V, M>, c: Cluster, m: Master): (r: (nat, Kind))
    requires MasterOk(job, c, m) && m.pc.Broadcasting?
    ensures OnSchedule(job, r.0, r.1) && Round(r.0, r.1) == Round(m.superstep, m.kind) + 1
  {
    Next(job, m.superstep, m.kind, m.pc.reply.active)
  }

  /** The barrier before a scheduled one is scheduled. */
  ghost function Before<V, M>(job: Job<V, M>, s: nat, k: Kind): (r: (nat, Kind))
    requires OnSchedule(job, s, k) && Round(s, k) > 0
    ensures OnSchedule(job, r.0, r.1) && Round(r.0, r.1) + 1 == Round(s, k)
  {
    match k
    case Pre => (s - 1, KeepRunning)
    case Post => (s, Pre)
    case KeepRunning => (s, Post)
    case Executed => (s, KeepRunning)
    case Persisted => (s, Executed)
    case Completed => (s, Persisted)
  }
}
