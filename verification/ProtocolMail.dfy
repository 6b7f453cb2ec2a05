/** Events that move messages or counts keep the invariant. */
module ProtocolMail {
  import opened Sums
  import opened Bsp
  import opened Protocol
  import opened ProtocolInvariant
  import opened ProtocolFrames
  import opened ProtocolSteps

  // ---------- one vertex is processed ----------

  /** The local graph computes what the single graph computes. */
  lemma SameOutcome<V(!new), M(!new)>(job: Job<V, M>, n: Node<V, M>, v: Address)
    requires OrderInsensitive(job)
    requires v in n.vertices && v in n.todo && n.kind == Post && CellOk(job, n, v)
    ensures var cell := n.vertices[v];
      var q := cell.Queue(n.superstep);
      && (Runs(job, n.superstep, v) <==> cell.active || q != [])
      && SameEffect(job.compute(n.superstep, v, cell.value, Reverse(q)), Outcome(job, n.superstep, v))
  {
    var cell := n.vertices[v];
    var q := cell.Queue(n.superstep);
    ReverseBag(q);
    assert |multiset(q)| == |q| && |multiset(Inbox(job, n.superstep, v))| == |Inbox(job, n.superstep, v)|;
  }

  lemma ComputeCell<V(!new), M(!new)>(job: Job<V, M>, n: Node<V, M>, v: Address)
    requires OrderInsensitive(job)
    requires v in n.vertices && v in n.todo && n.kind == Post && CellOk(job, n, v)
    ensures v in DoCompute(job, n, v).vertices && CellOk(job, DoCompute(job, n, v), v)
  {
    SameOutcome(job, n, v);
    var n' := DoCompute(job, n, v);
    assert n'.kind == Post && n'.superstep == n.superstep && v !in n'.todo;
    assert n'.vertices[v].Queue(n.superstep) == [];
    assert Vertex(n'.vertices[v].value, n'.vertices[v].active) == At(job, n.superstep + 1, v);
  }

  lemma ComputeGraph<V(!new), M(!new)>(job: Job<V, M>, c: Cluster, i: nat, n: Node<V, M>, v: Address)
    requires OrderInsensitive(job)
    requires LocalGraph(job, c, i, n) && v in n.vertices && v in n.todo && n.kind == Post
    ensures LocalGraph(job, c, i, DoCompute(job, n, v))
  {
    var n' := DoCompute(job, n, v);
    forall w | w in n'.vertices ensures CellOk(job, n', w) {
      assert CellOk(job, n, w);
      if w == v { ComputeCell(job, n, v); } else {
        assert n'.vertices[w] == n.vertices[w] && (w in n'.todo <==> w in n.todo);
        assert Reached(n') == Reached(n);
      }
    }
  }

  lemma ComputeNode<V(!new), M(!new)>(job: Job<V, M>, c: Cluster, m: Master, i: nat, n: Node<V, M>, v: Address)
    requires ValidJob(job)
    requires NodeOk(job, c, i, n) && InStep(m, i, n) && n.pc == Working && v in n.todo && v in n.vertices
    ensures NodeOk(job, c, i, DoCompute(job, n, v)) && InStep(m, i, DoCompute(job, n, v))
  {
    var n' := DoCompute(job, n, v);
    assert n.kind == Post;
    assert n'.kind == Post && n'.pc == Working && n'.superstep == n.superstep;
    assert PlaceOf(n') == Busy && Shape(job, n');
    ComputeGraph(job, c, i, n, v);
    ComputeTraffic(job, c, i, n, v);
    assert Counters(job, n');
  }

  lemma ComputeTraffic<V(!new), M(!new)>(job: Job<V, M>, c: Cluster, i: nat, n: Node<V, M>, v: Address)
    requires ValidJob(job) && Traffic(job, c, i, n) && LocalGraph(job, c, i, n)
    requires n.kind == Post && n.pc == Working && v in n.todo && v in n.vertices
    ensures Traffic(job, c, i, DoCompute(job, n, v))
  {
    var n' := DoCompute(job, n, v);
    assert v in job.vertices && CellOk(job, n, v);
    ComputeOutbox(job, n, v);
    ComputeShape(job, n, v);
    forall k | 0 <= k < |n'.outbox| ensures n'.outbox[k].0 in job.vertices {
      if k >= |n.outbox| {
        var p := n'.outbox[k];
        assert p == n'.outbox[|n.outbox|..][k - |n.outbox|];
        assert p in multiset(n'.outbox[|n.outbox|..]);
        assert p in multiset(Out(job, n.superstep, v));
        assert p in Out(job, n.superstep, v);
      } else {
        assert n'.outbox[k] == n.outbox[k];
      }
    }
    assert n'.pc == n.pc;
  }

  lemma ComputeOutbox<V(!new), M(!new)>(job: Job<V, M>, n: Node<V, M>, v: Address)
    requires OrderInsensitive(job)
    requires v in n.vertices && v in n.todo && n.kind == Post && CellOk(job, n, v)
    ensures var n' := DoCompute(job, n, v);
      && n.outbox <= n'.outbox
      && multiset(n'.outbox[|n.outbox|..]) == multiset(Out(job, n.superstep, v))
      && multiset(n'.outbox) == multiset(n.outbox) + multiset(Out(job, n.superstep, v))
      && (forall name :: n'.current(name) == n.current(name) + Gives(job, n.superstep, name)(v))
      && n'.ran == n.ran + Ones(job, n.superstep)(v)
  {
    SameOutcome(job, n, v);
    var n' := DoCompute(job, n, v);
    assert n'.outbox == n.outbox + n'.outbox[|n.outbox|..];
  }

  /** Processing `v` adds its share to every sum over processed vertices. */
  lemma DoneAdds<V(!new), M(!new)>(
      job: Job<V, M>, c: Cluster, nodes: seq<Node<V, M>>, i: nat, n': Node<V, M>, v: Address, f: Address -> int)
    requires Distinct(job.vertices) && i < |nodes| && LocalGraph(job, c, i, nodes[i])
    requires v in nodes[i].todo && v in nodes[i].vertices && nodes[i].kind == Post
    requires n'.kind == Post && n'.superstep == nodes[i].superstep && n'.todo == nodes[i].todo - {v}
    ensures Sum(job.vertices, IfDone(c, nodes[i := n'], n'.superstep, f))
         == Sum(job.vertices, IfDone(c, nodes, n'.superstep, f)) + f(v)
  {
    var e := n'.superstep;
    var k :| 0 <= k < |job.vertices| && job.vertices[k] == v;
    SumChange(job.vertices, k, IfDone(c, nodes, e, f), IfDone(c, nodes[i := n'], e, f));
  }

  lemma ComputeMail<V(!new), M(!new)>(
      job: Job<V, M>, c: Cluster, nodes: seq<Node<V, M>>, i: nat, n': Node<V, M>, v: Address)
    requires Distinct(job.vertices) && i < |nodes| && LocalGraph(job, c, i, nodes[i])
    requires nodes[i].kind == Post && v in nodes[i].todo && v in nodes[i].vertices
    requires n'.kind == Post && n'.superstep == nodes[i].superstep && n'.todo == nodes[i].todo - {v}
    requires n'.vertices.Keys == nodes[i].vertices.Keys
    requires forall w: Address, x: M ::
      Holds(n', n'.superstep, w, x) == Holds(nodes[i], n'.superstep, w, x) + Sends(job, n'.superstep, (w, x))(v)
    requires MailLaw(job, c, n'.superstep, nodes)
    ensures MailLaw(job, c, n'.superstep, nodes[i := n'])
  {
    var e := n'.superstep;
    forall w: Address, x: M | w in job.vertices
      ensures Sum(job.vertices, IfDone(c, nodes[i := n'], e, Sends(job, e, (w, x))))
           == Sum(nodes[i := n'], InFlight((w, x))) + Queued(c, nodes[i := n'], e, w, x)
    {
      DoneAdds(job, c, nodes, i, n', v, Sends(job, e, (w, x)));
      MailStep(job, c, nodes, i, n', e, w, x);
    }
  }

  lemma HoldsSplit<V, M>(n: Node<V, M>, n': Node<V, M>, e: nat, d: multiset<(Address, M)>, w: Address, x: M)
    requires n'.up == n.up && n'.down == n.down && n'.handler == n.handler
    requires multiset(n'.outbox) == multiset(n.outbox) + d
    requires n'.vertices.Keys == n.vertices.Keys
    requires w in n.vertices ==> n'.vertices[w].Queue(e + 1) == n.vertices[w].Queue(e + 1)
    ensures Holds(n', e, w, x) == Holds(n, e, w, x) + d[(w, x)]
  {
  }

  lemma ComputeHolds<V(!new), M(!new)>(job: Job<V, M>, n: Node<V, M>, n': Node<V, M>, v: Address)
    requires n'.up == n.up && n'.down == n.down && n'.handler == n.handler && n'.vertices.Keys == n.vertices.Keys
    requires multiset(n'.outbox) == multiset(n.outbox) + multiset(Out(job, n.superstep, v))
    requires forall w :: w in n.vertices ==>
      n'.vertices[w].Queue(n.superstep + 1) == n.vertices[w].Queue(n.superstep + 1)
    ensures forall w: Address, x: M ::
      Holds(n', n.superstep, w, x) == Holds(n, n.superstep, w, x) + Sends(job, n.superstep, (w, x))(v)
  {
    forall w: Address, x: M
      ensures Holds(n', n.superstep, w, x) == Holds(n, n.superstep, w, x) + Sends(job, n.superstep, (w, x))(v)
    {
      HoldsSplit(n, n', n.superstep, multiset(Out(job, n.superstep, v)), w, x);
    }
  }

  lemma ComputeLaws<V(!new), M(!new)>(
      job: Job<V, M>, c: Cluster, m: Master, nodes: seq<Node<V, M>>, i: nat, v: Address)
    requires ValidJob(job) && Laws(job, c, m, nodes) && i < |nodes| && LocalGraph(job, c, i, nodes[i])
    requires v in nodes[i].todo && v in nodes[i].vertices && nodes[i].kind == Post && !nodes[i].handler.Awaiting?
    requires Epoch(m) == nodes[i].superstep
    ensures Laws(job, c, m, nodes[i := DoCompute(job, nodes[i], v)])
  {
    var n := nodes[i];
    var n' := DoCompute(job, n, v);
    assert CellOk(job, n, v);
    ComputeOutbox(job, n, v);
    ComputeShape(job, n, v);
    ComputeHolds(job, n, n', v);
    ComputeMail(job, c, nodes, i, n', v);
    ComputeTotals(job, c, m, nodes, i, n', v);
    ComputeCount(job, c, m, nodes, i, n', v);
  }

  lemma ComputeShape<V(!new), M(!new)>(job: Job<V, M>, n: Node<V, M>, v: Address)
    requires v in n.vertices && v in n.todo
    ensures var n' := DoCompute(job, n, v);
      && n'.kind == n.kind && n'.superstep == n.superstep && n'.todo == n.todo - {v}
      && n'.up == n.up && n'.down == n.down && n'.handler == n.handler
      && n'.vertices.Keys == n.vertices.Keys
      && forall w :: w in n.vertices ==> n'.vertices[w].Queue(n.superstep + 1) == n.vertices[w].Queue(n.superstep + 1)
  {
  }

  lemma ComputeTotals<V(!new), M(!new)>(
      job: Job<V, M>, c: Cluster, m: Master, nodes: seq<Node<V, M>>, i: nat, n': Node<V, M>, v: Address)
    requires Distinct(job.vertices) && i < |nodes| && LocalGraph(job, c, i, nodes[i]) && TotalsLaw(job, c, m, nodes)
    requires nodes[i].kind == Post && v in nodes[i].todo && v in nodes[i].vertices && Epoch(m) == nodes[i].superstep
    requires n'.kind == Post && n'.superstep == nodes[i].superstep && n'.todo == nodes[i].todo - {v}
    requires n'.handler == nodes[i].handler && !n'.handler.Awaiting?
    requires forall name :: n'.current(name) == nodes[i].current(name) + Gives(job, n'.superstep, name)(v)
    ensures TotalsLaw(job, c, m, nodes[i := n'])
  {
    if TotalsOpen(m) {
      var e := m.superstep;
      forall name
        ensures Sum(job.vertices, IfDone(c, nodes[i := n'], e, Gives(job, e, name)))
             == Sum(job.vertices, IfDone(c, nodes, e, Gives(job, e, name))) + Gives(job, e, name)(v)
        ensures Sum(nodes[i := n'], Owed(job, e, name)) == Sum(nodes, Owed(job, e, name)) + Gives(job, e, name)(v)
      {
        DoneAdds(job, c, nodes, i, n', v, Gives(job, e, name));
        SumUpdate(nodes, i, n', Owed(job, e, name));
      }
    }
  }

  lemma ComputeCount<V(!new), M(!new)>(
      job: Job<V, M>, c: Cluster, m: Master, nodes: seq<Node<V, M>>, i: nat, n': Node<V, M>, v: Address)
    requires Distinct(job.vertices) && i < |nodes| && LocalGraph(job, c, i, nodes[i]) && CountLaw(job, c, m, nodes)
    requires nodes[i].kind == Post && v in nodes[i].todo && v in nodes[i].vertices && Epoch(m) == nodes[i].superstep
    requires n'.kind == Post && n'.superstep == nodes[i].superstep && n'.todo == nodes[i].todo - {v}
    requires n'.ran == nodes[i].ran + Ones(job, n'.superstep)(v)
    ensures CountLaw(job, c, m, nodes[i := n'])
  {
    if Epoch(m) == m.superstep {
      DoneAdds(job, c, nodes, i, n', v, Ones(job, m.superstep));
      SumUpdate(nodes, i, n', Counted(m.superstep));
    }
  }

  // ---------- one message leaves the outbox ----------

  lemma SendNode<V(!new), M(!new)>(job: Job<V, M>, c: Cluster, m: Master, i: nat, n: Node<V, M>, k: nat)
    requires NodeOk(job, c, i, n) && InStep(m, i, n) && CanSend(c, n, k)
    ensures NodeOk(job, c, i, DoSend(n, k)) && InStep(m, i, DoSend(n, k))
  {
    var n' := DoSend(n, k);
    var (dst, msg) := n.outbox[k];
    assert n.kind == Post && PlaceOf(n) == Busy && PlaceOf(n') == Busy;
    assert n'.kind == Post && n'.superstep == n.superstep && n'.vertices.Keys == n.vertices.Keys;
    var rest := n.(outbox := n.outbox[..k] + n.outbox[k + 1..]);
    CoreKept(job, c, i, n, rest);
    if dst in n.vertices {
      DeliverGraph(job, c, i, rest, dst, msg);
    } else {
      assert dst in job.vertices;
      CoreKept(job, c, i, n, n');
    }
    SendTraffic(job, c, i, n, k);
  }

  lemma SendTraffic<V(!new), M(!new)>(job: Job<V, M>, c: Cluster, i: nat, n: Node<V, M>, k: nat)
    requires Traffic(job, c, i, n) && LocalGraph(job, c, i, n) && CanSend(c, n, k)
    ensures Traffic(job, c, i, DoSend(n, k))
  {
    var n' := DoSend(n, k);
    assert n.kind == Post && n.outbox[k].0 in job.vertices;
    assert n'.kind == Post && n'.superstep == n.superstep && n'.vertices.Keys == n.vertices.Keys;
    assert n'.down == n.down && n'.handler == n.handler && n'.todo == n.todo && n'.pc == n.pc;
  }

  lemma TakeHolds<V, M>(n: Node<V, M>, k: nat, e: nat, v: Address, x: M)
    requires k < |n.outbox|
    ensures Holds(n.(outbox := n.outbox[..k] + n.outbox[k + 1..]), e, v, x)
         == Holds(n, e, v, x) - if n.outbox[k] == (v, x) then 1 else 0
  {
    BagRemove(n.outbox, k);
  }

  lemma RelayHolds<V, M>(n: Node<V, M>, y: Payload<M>, e: nat, v: Address, x: M)
    ensures Holds(n.(up := n.up + [y]), e, v, x) == Holds(n, e, v, x) + RelayOf((v, x))(y)
  {
    SumPush(n.up, y, (v, x));
  }

  lemma SendHolds<V(!new), M(!new)>(job: Job<V, M>, n: Node<V, M>, k: nat, v: Address, x: M)
    requires k < |n.outbox|
    ensures Holds(DoSend(n, k), n.superstep, v, x) == Holds(n, n.superstep, v, x)
  {
    var rest := n.(outbox := n.outbox[..k] + n.outbox[k + 1..]);
    TakeHolds(n, k, n.superstep, v, x);
    if n.outbox[k].0 in n.vertices {
      DeliverHolds(rest, n.outbox[k].0, n.outbox[k].1, n.superstep, v, x);
    } else {
      RelayHolds(rest, Relay(n.outbox[k].0, n.outbox[k].1, n.superstep), n.superstep, v, x);
    }
  }

  lemma SendBooks<V(!new), M(!new)>(job: Job<V, M>, m: Master, n: Node<V, M>, k: nat)
    requires k < |n.outbox| && Epoch(m) == n.superstep
    ensures SameBooks(job, m, n, DoSend(n, k))
  {
    forall v: Address, x: M ensures Holds(DoSend(n, k), Epoch(m), v, x) == Holds(n, Epoch(m), v, x) {
      SendHolds(job, n, k, v, x);
    }
  }

  // ---------- a relay crosses to its owner's link ----------

  /** Whoever a relay reaches is in the same superstep, and has not been told to leave POST. */
  lemma ForwardTarget<V, M>(
      job: Job<V, M>, c: Cluster, m: Master, i: nat, n: Node<V, M>, j: nat, t: Node<V, M>)
    requires MasterOk(job, c, m)
    requires NodeOk(job, c, i, n) && InStep(m, i, n) && NodeOk(job, c, j, t) && InStep(m, j, t)
    requires n.kind == Post && Early(n)
    ensures t.superstep == n.superstep
    ensures t.kind == Pre || (t.kind == Post && !Late(t))
  {
    RoundsNear(job, c, m, i, n);
    var (s, k) := Before(job, n.superstep, n.kind);
    RoundUnique(job, s, k, n.superstep, Pre);
    if m.pc == Collecting {
      RoundUnique(job, m.superstep, m.kind, n.superstep, n.kind);
    } else {
      RoundUnique(job, m.superstep, m.kind, s, k);
    }
    assert OnSchedule(job, t.superstep, t.kind);
    if Round(t.superstep, t.kind) == Round(n.superstep, Post) {
      RoundUnique(job, t.superstep, t.kind, n.superstep, Post);
    } else {
      RoundUnique(job, t.superstep, t.kind, n.superstep, Pre);
    }
  }

  ghost function Relayed<V, M>(t: Node<V, M>, x: Payload<M>): Node<V, M> { t.(down := t.down + [x]) }

  lemma RelayedPlace<V(!new), M(!new)>(t: Node<V, M>, x: Payload<M>)
    requires x.Relay?
    ensures PlaceOf(Relayed(t, x)) == PlaceOf(t)
    ensures Relays(t.down) ==> Relays(Relayed(t, x).down)
  {
    var t' := Relayed(t, x);
    if !Relays(t.down) {
      var k :| 0 <= k < |t.down| && !t.down[k].Relay?;
      assert t'.down[k] == t.down[k];
    }
  }

  lemma RelayedShape<V(!new), M(!new)>(job: Job<V, M>, t: Node<V, M>, x: Payload<M>)
    requires Shape(job, t) && x.Relay?
    requires t.kind == Pre || (t.kind == Post && !Late(t))
    ensures Shape(job, Relayed(t, x))
  {
    var t' := Relayed(t, x);
    RelayedPlace(t, x);
    if PlaceOf(t) == Coming {
      var k: nat :| AnswerAt(job, t, k);
      assert t'.down[k] == t.down[k];
      assert AnswerAt(job, t', k);
    }
  }

  lemma RelayedTraffic<V(!new), M(!new)>(job: Job<V, M>, c: Cluster, j: nat, t: Node<V, M>, x: Payload<M>)
    requires Traffic(job, c, j, t) && LocalGraph(job, c, j, t)
    requires x.Relay? && x.at == t.superstep && x.dst in job.vertices && c.owner(x.dst) == Some(j)
    requires t.kind == Pre || t.kind == Post
    ensures Traffic(job, c, j, Relayed(t, x))
  {
    var t' := Relayed(t, x);
    assert x.dst in t.vertices;
    assert t'.up == t.up && t'.outbox == t.outbox && t'.handler == t.handler && t'.vertices == t.vertices;
  }

  lemma RelayedNode<V(!new), M(!new)>(job: Job<V, M>, c: Cluster, m: Master, j: nat, t: Node<V, M>, x: Payload<M>)
    requires NodeOk(job, c, j, t) && InStep(m, j, t)
    requires x.Relay? && x.at == t.superstep && x.dst in job.vertices && c.owner(x.dst) == Some(j)
    requires t.kind == Pre || (t.kind == Post && !Late(t))
    ensures NodeOk(job, c, j, Relayed(t, x)) && InStep(m, j, Relayed(t, x))
  {
    RelayedPlace(t, x);
    RelayedShape(job, t, x);
    RelayedTraffic(job, c, j, t, x);
    CoreKept(job, c, j, t, Relayed(t, x));
  }

  lemma ForwardedNode<V(!new), M(!new)>(job: Job<V, M>, c: Cluster, m: Master, i: nat, n: Node<V, M>)
    requires NodeOk(job, c, i, n) && InStep(m, i, n) && n.handler.Forwarding?
    ensures n.kind == Post && Early(n) && Outbound(job, c, i, n, n.handler.relay) && n.handler.relay.Relay?
    ensures c.owner(n.handler.relay.dst) == Some(n.handler.to) && n.handler.to != i
    ensures NodeOk(job, c, i, n.(handler := Receiving)) && InStep(m, i, n.(handler := Receiving))
  {
    var n' := n.(handler := Receiving);
    assert Shape(job, n') && Traffic(job, c, i, n') && PlaceOf(n') == PlaceOf(n);
    CoreKept(job, c, i, n, n');
  }

  lemma ForwardKeeps<V(!new), M(!new)>(job: Job<V, M>, c: Cluster, st: State<V, M>, i: nat)
    requires Inv(job, c, st) && Enabled(c, st, Forward(i))
    ensures Inv(job, c, Apply(job, c, st, Forward(i)))
  {
    var m, n := st.master, st.nodes[i];
    var x, j := n.handler.relay, n.handler.to;
    var t := st.nodes[j];
    ForwardedNode(job, c, m, i, n);
    ForwardTarget(job, c, m, i, n, j, t);
    RelayedNode(job, c, m, j, t, x);
    PutNode(job, c, m, st.nodes, i, n.(handler := Receiving));
    PutNode(job, c, m, st.nodes[i := n.(handler := Receiving)], j, Relayed(t, x));
    ForwardLaws(job, c, m, st.nodes, i, n.(handler := Receiving), j, Relayed(t, x), x);
  }

  lemma ForwardLaws<V(!new), M(!new)>(
      job: Job<V, M>, c: Cluster, m: Master, nodes: seq<Node<V, M>>,
      i: nat, n': Node<V, M>, j: nat, t': Node<V, M>, x: Payload<M>)
    requires i < |nodes| && j < |nodes| && i != j && LocalGraph(job, c, i, nodes[i]) && LocalGraph(job, c, j, nodes[j])
    requires nodes[i].handler == Forwarding(j, x)
    requires n' == nodes[i].(handler := Receiving) && t' == Relayed(nodes[j], x)
    requires Laws(job, c, m, nodes)
    ensures Laws(job, c, m, nodes[i := n'][j := t'])
  {
    var e := Epoch(m);
    var mid := nodes[i := n'];
    TotalsKept(job, c, m, nodes, i, n');
    TotalsKept(job, c, m, mid, j, t');
    CountKept(job, c, m, nodes, i, n');
    CountKept(job, c, m, mid, j, t');
    ForwardMail(job, c, e, nodes, i, n', j, t', x);
  }

  lemma ForwardMail<V(!new), M(!new)>(
      job: Job<V, M>, c: Cluster, e: nat, nodes: seq<Node<V, M>>,
      i: nat, n': Node<V, M>, j: nat, t': Node<V, M>, x: Payload<M>)
    requires i < |nodes| && j < |nodes| && i != j && LocalGraph(job, c, i, nodes[i]) && LocalGraph(job, c, j, nodes[j])
    requires nodes[i].handler == Forwarding(j, x)
    requires n' == nodes[i].(handler := Receiving) && t' == Relayed(nodes[j], x)
    requires MailLaw(job, c, e, nodes)
    ensures MailLaw(job, c, e, nodes[i := n'][j := t'])
  {
    var mid := nodes[i := n'];
    forall v: Address, y: M | v in job.vertices
      ensures Sum(job.vertices, IfDone(c, mid[j := t'], e, Sends(job, e, (v, y))))
           == Sum(mid[j := t'], InFlight((v, y))) + Queued(c, mid[j := t'], e, v, y)
    {
      DoneKept(job, c, nodes, i, n', e, Sends(job, e, (v, y)));
      DoneKept(job, c, mid, j, t', e, Sends(job, e, (v, y)));
      MailStep(job, c, nodes, i, n', e, v, y);
      MailStep(job, c, mid, j, t', e, v, y);
      SumPush(nodes[j].down, x, (v, y));
    }
  }
}
