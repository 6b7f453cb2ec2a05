/** Every run of a job that stops is finite: each event uses up a part of the work that is left. */
module ProtocolProgress {
  import opened Sums
  import opened Bsp
  import opened Protocol
  import opened ProtocolInvariant
  import opened ProtocolSteps
  import opened ProtocolMail
  import opened ProtocolRounds
  import opened ProtocolRuns
  import opened ProtocolTheorems

  // ---------- the work left ----------

  function Rank(p: Place): nat
  {
    match p case Busy => 0 case Sent => 1 case Joined => 2 case Held => 3
    case Answered => 4 case Coming => 5 case Handed => 6
  }

  function IsRelay<M>(): Payload<M> -> int { (x: Payload<M>) => if x.Relay? then 1 else 0 }

  /** The steps the messages a worker holds may still take: sent, handled, forwarded, received. */
  ghost function Hops<V, M>(n: Node<V, M>): int
  {
    4 * |n.outbox| + 3 * Sum(n.up, IsRelay()) + (if n.handler.Forwarding? then 2 else 0) + Sum(n.down, IsRelay())
  }

  /** The barriers of a run whose last superstep is `last`. */
  function Rounds(last: nat): nat { 3 * last + 6 }

  /** In a round a worker's control passes seven places. */
  ghost function NodeLeft<V, M>(last: nat): Node<V, M> -> int
  {
    (n: Node<V, M>) => 7 * Rounds(last) - 7 * Round(n.superstep, n.kind) - Rank(PlaceOf(n)) + Hops(n)
  }

  function MasterLeft(last: nat, m: Master): int
  {
    2 * Rounds(last) - 2 * Round(m.superstep, m.kind) - (if m.pc == Collecting then 0 else 1)
  }

  /** The work of vertex `v` from superstep `s` on. */
  ghost function VertexFrom<V, M>(job: Job<V, M>, v: Address, s: nat, last: nat): nat
    decreases last + 1 - s
  {
    if s > last then 0 else 1 + 4 * |Out(job, s, v)| + VertexFrom(job, v, s + 1, last)
  }

  /** The first superstep in which `v` has not been processed. */
  ghost function Undone<V, M>(n: Node<V, M>, v: Address): nat
  {
    if n.kind == Pre || (n.kind == Post && v in n.todo) then n.superstep else n.superstep + 1
  }

  ghost function VertexLeft<V, M>(job: Job<V, M>, c: Cluster, nodes: seq<Node<V, M>>, last: nat): Address -> int
  {
    v => if c.owner(v).Some? && c.owner(v).value < |nodes|
         then VertexFrom(job, v, Undone(nodes[c.owner(v).value], v), last) else 0
  }

  ghost function Left<V, M>(job: Job<V, M>, c: Cluster, st: State<V, M>, last: nat): int
  {
    MasterLeft(last, st.master) + Sum(st.nodes, NodeLeft(last)) + Sum(job.vertices, VertexLeft(job, c, st.nodes, last))
  }

  // ---------- relays on a link ----------

  lemma RelayPush<M>(q: seq<Payload<M>>, x: Payload<M>)
    ensures Sum(q + [x], IsRelay()) == Sum(q, IsRelay()) + IsRelay()(x)
  {
    SumAppend(q, [x], IsRelay());
    assert Sum([x], IsRelay()) == IsRelay()(x);
  }

  lemma RelayPop<M>(q: seq<Payload<M>>)
    requires q != []
    ensures Sum(q[1..], IsRelay()) == Sum(q, IsRelay()) - IsRelay()(q[0])
  {
    assert q == [q[0]] + q[1..];
    SumAppend([q[0]], q[1..], IsRelay());
  }

  lemma RelaysCounted<M>(q: seq<Payload<M>>)
    ensures Sum(q, IsRelay()) >= 0
  {
    SumBounds(q, IsRelay());
  }

  // ---------- a step of one worker ----------

  /** Only worker `i` changes, no vertex is processed, and the worker has less left. */
  lemma OneWorker<V, M>(
      job: Job<V, M>, c: Cluster, st: State<V, M>, next: State<V, M>, i: nat, n': Node<V, M>, last: nat)
    requires i < |st.nodes| && next.nodes == st.nodes[i := n']
    requires MasterLeft(last, next.master) == MasterLeft(last, st.master)
    requires forall v :: v in job.vertices && c.owner(v) == Some(i) ==> Undone(n', v) == Undone(st.nodes[i], v)
    requires NodeLeft(last)(n') < NodeLeft(last)(st.nodes[i])
    ensures Left(job, c, next, last) < Left(job, c, st, last)
  {
    SumUpdate(st.nodes, i, n', NodeLeft(last));
    SumEqual(job.vertices, VertexLeft(job, c, next.nodes, last), VertexLeft(job, c, st.nodes, last));
  }

  lemma EnterLess<V, M>(job: Job<V, M>, c: Cluster, i: nat, n: Node<V, M>, last: nat)
    requires NodeOk(job, c, i, n) && CanEnter(c, n)
    ensures NodeLeft(last)(DoEnter(n)) < NodeLeft(last)(n)
  {
    var n' := DoEnter(n);
    assert PlaceOf(n) == Busy && PlaceOf(n') == Sent;
    RelayPush(n.up, StepMsg(EntryStep(n)));
  }

  lemma HandleLess<V, M>(job: Job<V, M>, c: Cluster, i: nat, n: Node<V, M>, last: nat)
    requires ValidCluster(job, c) && NodeOk(job, c, i, n) && n.handler == Receiving && n.up != []
    ensures NodeLeft(last)(DoHandle(c, i, n)) < NodeLeft(last)(n)
  {
    var n' := DoHandle(c, i, n);
    assert n.up == [n.up[0]] + n.up[1..];
    SumAppend([n.up[0]], n.up[1..], IsRelay());
    assert Outbound(job, c, i, n, n.up[0]);
    HandlePlaces(job, c, i, n);
  }

  lemma HandlePlaces<V, M>(job: Job<V, M>, c: Cluster, i: nat, n: Node<V, M>)
    requires ValidCluster(job, c) && Shape(job, n) && n.handler == Receiving && n.up != []
    requires Outbound(job, c, i, n, n.up[0])
    ensures if n.up[0].StepMsg? then PlaceOf(n) == Sent && PlaceOf(DoHandle(c, i, n)) == Joined
      else PlaceOf(DoHandle(c, i, n)) == PlaceOf(n)
  {
    assert n.up[0].StepMsg? ==> PlaceOf(n) == Sent;
  }

  lemma ReplyLess<V, M>(job: Job<V, M>, c: Cluster, i: nat, n: Node<V, M>, last: nat)
    requires NodeOk(job, c, i, n) && n.handler.Replying?
    ensures NodeLeft(last)(n.(handler := Receiving, down := n.down + [StepMsg(n.handler.reply)])) < NodeLeft(last)(n)
  {
    var n' := n.(handler := Receiving, down := n.down + [StepMsg(n.handler.reply)]);
    assert n'.down[|n.down|].StepMsg?;
    assert PlaceOf(n) == Place.Answered && PlaceOf(n') == Coming;
    RelayPush(n.down, StepMsg(n.handler.reply));
  }

  lemma ReceiveLess<V, M>(job: Job<V, M>, c: Cluster, i: nat, n: Node<V, M>, last: nat)
    requires NodeOk(job, c, i, n) && CanReceive(c, n)
    ensures NodeLeft(last)(DoReceive(n)) < NodeLeft(last)(n)
  {
    RelayPop(n.down);
    assert n.down[0].Relay? ==> n.down[0].dst in n.vertices by { assert Inbound(n, n.down[0]); }
    ReceivePlaces(job, n);
  }

  lemma ReceivePlaces<V, M>(job: Job<V, M>, n: Node<V, M>)
    requires Shape(job, n) && n.receiver == Idle && n.down != []
    requires n.down[0].Relay? ==> n.down[0].dst in n.vertices
    ensures if n.down[0].StepMsg? then PlaceOf(n) == Coming && PlaceOf(DoReceive(n)) == Handed
      else PlaceOf(DoReceive(n)) == PlaceOf(n)
  {
    var n' := DoReceive(n);
    if n.down[0].StepMsg? {
      assert PlaceOf(n) == Coming;
      var j: nat :| AnswerAt(job, n, j);
    } else if PlaceOf(n) == Coming {
      var j: nat :| AnswerAt(job, n, j);
      assert n'.down[j - 1] == n.down[j];
    }
  }

  lemma LeaveLess<V, M>(job: Job<V, M>, c: Cluster, i: nat, n: Node<V, M>, last: nat)
    requires NodeOk(job, c, i, n) && CanLeave(n) && n.kind != Completed
    ensures NodeLeft(last)(DoLeave(job, n)) < NodeLeft(last)(n)
    ensures forall v :: v in n.vertices ==> Undone(DoLeave(job, n), v) == Undone(n, v)
  {
    var n' := DoLeave(job, n);
    assert PlaceOf(n) == Handed && PlaceOf(n') == Busy;
    assert Round(n'.superstep, n'.kind) == Round(n.superstep, n.kind) + 1;
    assert n.kind == Post ==> n.todo == {};
  }

  lemma SendLess<V, M>(job: Job<V, M>, c: Cluster, i: nat, n: Node<V, M>, k: nat, last: nat)
    requires NodeOk(job, c, i, n) && CanSend(c, n, k)
    ensures NodeLeft(last)(DoSend(n, k)) < NodeLeft(last)(n)
  {
    var n' := DoSend(n, k);
    assert PlaceOf(n') == Busy && |n'.outbox| == |n.outbox| - 1;
    if n.outbox[k].0 !in n.vertices { RelayPush(n.up, Relay(n.outbox[k].0, n.outbox[k].1, n.superstep)); }
  }

  // ---------- a vertex is processed ----------

  lemma ComputeSize<V(!new), M(!new)>(job: Job<V, M>, c: Cluster, i: nat, n: Node<V, M>, v: Address)
    requires OrderInsensitive(job) && NodeOk(job, c, i, n) && n.pc == Working && v in n.todo && v in n.vertices
    ensures n.kind == Post && |DoCompute(job, n, v).outbox| == |n.outbox| + |Out(job, n.superstep, v)|
  {
    var n' := DoCompute(job, n, v);
    assert n.kind == Post && CellOk(job, n, v);
    ComputeOutbox(job, n, v);
    assert |n'.outbox[|n.outbox|..]| == |multiset(n'.outbox[|n.outbox|..])| == |multiset(Out(job, n.superstep, v))|;
  }

  lemma ComputeNodeLeft<V(!new), M(!new)>(job: Job<V, M>, c: Cluster, i: nat, n: Node<V, M>, v: Address, last: nat)
    requires OrderInsensitive(job) && NodeOk(job, c, i, n) && n.pc == Working && v in n.todo && v in n.vertices
    ensures NodeLeft(last)(DoCompute(job, n, v)) == NodeLeft(last)(n) + 4 * |Out(job, n.superstep, v)|
  {
    ComputeSize(job, c, i, n, v);
    assert PlaceOf(n) == Busy && PlaceOf(DoCompute(job, n, v)) == Busy;
  }

  lemma ComputeVertices<V(!new), M(!new)>(
      job: Job<V, M>, c: Cluster, nodes: seq<Node<V, M>>, i: nat, n': Node<V, M>, v: Address, last: nat)
    requires Distinct(job.vertices) && v in job.vertices && c.owner(v) == Some(i) && i < |nodes|
    requires nodes[i].kind == Post && v in nodes[i].todo && nodes[i].superstep <= last
    requires n'.kind == Post && n'.superstep == nodes[i].superstep && n'.todo == nodes[i].todo - {v}
    ensures Sum(job.vertices, VertexLeft(job, c, nodes[i := n'], last))
         == Sum(job.vertices, VertexLeft(job, c, nodes, last)) - 1 - 4 * |Out(job, n'.superstep, v)|
  {
    var k :| 0 <= k < |job.vertices| && job.vertices[k] == v;
    SumChange(job.vertices, k, VertexLeft(job, c, nodes, last), VertexLeft(job, c, nodes[i := n'], last));
  }

  lemma ComputeLess<V(!new), M(!new)>(
      job: Job<V, M>, c: Cluster, st: State<V, M>, i: nat, v: Address, last: nat)
    requires ValidJob(job) && Inv(job, c, st) && Enabled(c, st, Compute(i, v)) && st.nodes[i].superstep <= last
    ensures Left(job, c, Apply(job, c, st, Compute(i, v)), last) < Left(job, c, st, last)
  {
    var n := st.nodes[i];
    assert NodeOk(job, c, i, n);
    ComputeNodeLeft(job, c, i, n, v, last);
    ComputeKind(job, c, i, n, v);
    ComputeStateLess(job, c, st, Apply(job, c, st, Compute(i, v)), i, DoCompute(job, n, v), v, last);
  }

  lemma ComputeKind<V, M>(job: Job<V, M>, c: Cluster, i: nat, n: Node<V, M>, v: Address)
    requires NodeOk(job, c, i, n) && n.pc == Working && v in n.todo && v in n.vertices
    ensures v in job.vertices && c.owner(v) == Some(i)
    ensures n.kind == Post && DoCompute(job, n, v).kind == Post && DoCompute(job, n, v).superstep == n.superstep
    ensures DoCompute(job, n, v).todo == n.todo - {v}
  {
  }

  lemma ComputeStateLess<V(!new), M(!new)>(
      job: Job<V, M>, c: Cluster, st: State<V, M>, next: State<V, M>, i: nat, n': Node<V, M>, v: Address, last: nat)
    requires Distinct(job.vertices) && v in job.vertices && c.owner(v) == Some(i) && i < |st.nodes|
    requires next.master == st.master && next.nodes == st.nodes[i := n'] && st.nodes[i].kind == Post
    requires v in st.nodes[i].todo && st.nodes[i].superstep <= last
    requires n'.kind == Post && n'.superstep == st.nodes[i].superstep && n'.todo == st.nodes[i].todo - {v}
    requires NodeLeft(last)(n') == NodeLeft(last)(st.nodes[i]) + 4 * |Out(job, n'.superstep, v)|
    ensures Left(job, c, next, last) < Left(job, c, st, last)
  {
    SumUpdate(st.nodes, i, n', NodeLeft(last));
    ComputeVertices(job, c, st.nodes, i, n', v, last);
  }

  // ---------- the master ----------

  lemma ForwardNodesLeft<V(!new), M(!new)>(
      job: Job<V, M>, c: Cluster, nodes: seq<Node<V, M>>, i: nat, n': Node<V, M>, j: nat, x: Payload<M>, last: nat)
    requires i < |nodes| && j < |nodes| && i != j && nodes[i].handler.Forwarding? && x.Relay?
    requires n' == nodes[i].(handler := Receiving) && PlaceOf(n') == PlaceOf(nodes[i])
    ensures Sum(nodes[i := n'][j := Relayed(nodes[j], x)], NodeLeft(last)) == Sum(nodes, NodeLeft(last)) - 1
  {
    var mid, t := nodes[i := n'], nodes[j];
    SumUpdate(nodes, i, n', NodeLeft(last));
    SumUpdate(mid, j, Relayed(t, x), NodeLeft(last));
    RelayPush(t.down, x);
    RelayedPlace(t, x);
    assert NodeLeft(last)(Relayed(t, x)) == NodeLeft(last)(t) + 1;
    assert NodeLeft(last)(n') == NodeLeft(last)(nodes[i]) - 2;
  }

  lemma ForwardLess<V(!new), M(!new)>(job: Job<V, M>, c: Cluster, st: State<V, M>, i: nat, last: nat)
    requires Inv(job, c, st) && Enabled(c, st, Forward(i))
    ensures Left(job, c, Apply(job, c, st, Forward(i)), last) < Left(job, c, st, last)
  {
    var n := st.nodes[i];
    assert NodeOk(job, c, i, n);
    ForwardedNode(job, c, st.master, i, n);
    ForwardStateLess(job, c, st, Apply(job, c, st, Forward(i)), i, n, n.handler.to, n.handler.relay, last);
  }

  lemma ForwardStateLess<V(!new), M(!new)>(
      job: Job<V, M>, c: Cluster, st: State<V, M>, next: State<V, M>, i: nat, n: Node<V, M>, j: nat, x: Payload<M>,
      last: nat)
    requires i < |st.nodes| && n == st.nodes[i] && NodeOk(job, c, i, n) && n.handler == Forwarding(j, x) && x.Relay?
    requires j < |st.nodes| && j != i && next.master == st.master
    requires next.nodes == st.nodes[i := n.(handler := Receiving)][j := Relayed(st.nodes[j], x)]
    ensures Left(job, c, next, last) < Left(job, c, st, last)
  {
    ForwardPlaces(job, c, i, n, st.nodes[j], x);
    ForwardNodesLeft(job, c, st.nodes, i, n.(handler := Receiving), j, x, last);
    ForwardVertices(job, c, st.nodes, next.nodes, last);
  }

  /** Nodes whose work on vertices has not changed. */
  lemma ForwardVertices<V(!new), M(!new)>(
      job: Job<V, M>, c: Cluster, nodes: seq<Node<V, M>>, next: seq<Node<V, M>>, last: nat)
    requires |next| == |nodes|
    requires forall k, v :: 0 <= k < |nodes| ==> Undone(next[k], v) == Undone(nodes[k], v)
    ensures Sum(job.vertices, VertexLeft(job, c, next, last)) == Sum(job.vertices, VertexLeft(job, c, nodes, last))
  {
    SumEqual(job.vertices, VertexLeft(job, c, next, last), VertexLeft(job, c, nodes, last));
  }

  lemma ForwardPlaces<V(!new), M(!new)>(
      job: Job<V, M>, c: Cluster, i: nat, n: Node<V, M>, t: Node<V, M>, x: Payload<M>)
    requires NodeOk(job, c, i, n) && n.handler.Forwarding? && x.Relay?
    ensures PlaceOf(n.(handler := Receiving)) == PlaceOf(n) && PlaceOf(Relayed(t, x)) == PlaceOf(t)
  {
    RelayedPlace(t, x);
  }

  lemma MasterStepLess<V(!new), M(!new)>(job: Job<V, M>, c: Cluster, st: State<V, M>, e: Event, last: nat)
    requires Inv(job, c, st) && Enabled(c, st, e) && (e == Event.Collected || e == Notified)
    ensures Left(job, c, Apply(job, c, st, e), last) < Left(job, c, st, last)
  {
    if e == Notified { NotifiedMaster(job, c, st.master); }
  }

  lemma CollectLess<V(!new), M(!new)>(job: Job<V, M>, c: Cluster, st: State<V, M>, i: nat, last: nat)
    requires Enabled(c, st, Collect(i)) && NodeOk(job, c, i, st.nodes[i])
    ensures Left(job, c, Apply(job, c, st, Collect(i)), last) < Left(job, c, st, last)
  {
    var n := st.nodes[i];
    var n' := n.(handler := Awaiting(st.master.kind));
    assert PlaceOf(n) == Joined && PlaceOf(n') == Held;
    OneWorker(job, c, st, Apply(job, c, st, Collect(i)), i, n', last);
  }

  lemma NotifyNodeLess<V, M>(job: Job<V, M>, c: Cluster, i: nat, n: Node<V, M>, reply: Step, last: nat)
    requires NodeOk(job, c, i, n) && n.handler.Awaiting?
    ensures NodeLeft(last)(n.(handler := Replying(reply))) < NodeLeft(last)(n)
  {
    assert PlaceOf(n) == Held && PlaceOf(n.(handler := Replying(reply))) == Place.Answered;
  }

  lemma NotifyLess<V(!new), M(!new)>(job: Job<V, M>, c: Cluster, st: State<V, M>, i: nat, last: nat)
    requires Enabled(c, st, Notify(i)) && NodeOk(job, c, i, st.nodes[i])
    ensures Left(job, c, Apply(job, c, st, Notify(i)), last) < Left(job, c, st, last)
  {
    var n := st.nodes[i];
    NotifyNodeLess(job, c, i, n, st.master.pc.reply, last);
    OneWorker(job, c, st, Apply(job, c, st, Notify(i)), i, n.(handler := Replying(st.master.pc.reply)), last);
  }

  // ---------- every event ----------

  lemma SuperstepBound<V, M>(job: Job<V, M>, s: nat, k: Kind, last: nat)
    requires OnSchedule(job, s, k) && LastSuperstep(job, last)
    ensures s <= last && Round(s, k) < Rounds(last)
  {
    assert last < s ==> Keeps(job, last);
  }

  lemma NodeAt<V(!new), M(!new)>(job: Job<V, M>, c: Cluster, st: State<V, M>, i: nat)
    requires Inv(job, c, st) && i < |st.nodes|
    ensures NodeOk(job, c, i, st.nodes[i])
  {
  }

  lemma EventLess<V(!new), M(!new)>(job: Job<V, M>, c: Cluster, st: State<V, M>, e: Event, last: nat)
    requires Wellformed(job, c) && Inv(job, c, st) && Enabled(c, st, e) && LastSuperstep(job, last)
    ensures Left(job, c, Apply(job, c, st, e), last) < Left(job, c, st, last)
  {
    if !e.Collected? && !e.Notified? { NodeAt(job, c, st, e.i); }
    match e
    case Forward(i) => ForwardLess(job, c, st, i, last);
    case Collect(i) => CollectLess(job, c, st, i, last);
    case Notify(i) => NotifyLess(job, c, st, i, last);
    case Collected => MasterStepLess(job, c, st, e, last);
    case Notified => MasterStepLess(job, c, st, e, last);
    case Compute(i, v) =>
      SuperstepBound(job, st.nodes[i].superstep, st.nodes[i].kind, last);
      ComputeLess(job, c, st, i, v, last);
    case Enter(i) => EnterEventLess(job, c, st, i, last);
    case Send(i, k) => SendEventLess(job, c, st, i, k, last);
    case Handle(i) => HandleEventLess(job, c, st, i, last);
    case Reply(i) => ReplyEventLess(job, c, st, i, last);
    case Receive(i) => ReceiveEventLess(job, c, st, i, last);
    case Leave(i) => LeaveEventLess(job, c, st, i, last);
  }

  lemma LeaveEventLess<V(!new), M(!new)>(job: Job<V, M>, c: Cluster, st: State<V, M>, i: nat, last: nat)
    requires Inv(job, c, st) && Enabled(c, st, Leave(i))
    ensures Left(job, c, Apply(job, c, st, Leave(i)), last) < Left(job, c, st, last)
  {
    var n := st.nodes[i];
    assert NodeOk(job, c, i, n) && InStep(st.master, i, n);
    LateNotCompleted(job, c, st.master, i, n);
    LeaveLess(job, c, i, n, last);
    OneWorker(job, c, st, Apply(job, c, st, Leave(i)), i, DoLeave(job, n), last);
  }

  lemma EnterEventLess<V(!new), M(!new)>(job: Job<V, M>, c: Cluster, st: State<V, M>, i: nat, last: nat)
    requires Enabled(c, st, Enter(i)) && NodeOk(job, c, i, st.nodes[i])
    ensures Left(job, c, Apply(job, c, st, Enter(i)), last) < Left(job, c, st, last)
  {
    var n := st.nodes[i];
    EnterLess(job, c, i, n, last);
    OneWorker(job, c, st, Apply(job, c, st, Enter(i)), i, DoEnter(n), last);
  }

  lemma SendEventLess<V(!new), M(!new)>(job: Job<V, M>, c: Cluster, st: State<V, M>, i: nat, k: nat, last: nat)
    requires Enabled(c, st, Send(i, k)) && NodeOk(job, c, i, st.nodes[i])
    ensures Left(job, c, Apply(job, c, st, Send(i, k)), last) < Left(job, c, st, last)
  {
    var n := st.nodes[i];
    SendLess(job, c, i, n, k, last);
    OneWorker(job, c, st, Apply(job, c, st, Send(i, k)), i, DoSend(n, k), last);
  }

  lemma HandleEventLess<V(!new), M(!new)>(job: Job<V, M>, c: Cluster, st: State<V, M>, i: nat, last: nat)
    requires ValidCluster(job, c) && Enabled(c, st, Handle(i)) && NodeOk(job, c, i, st.nodes[i])
    ensures Left(job, c, Apply(job, c, st, Handle(i)), last) < Left(job, c, st, last)
  {
    var n := st.nodes[i];
    HandleLess(job, c, i, n, last);
    OneWorker(job, c, st, Apply(job, c, st, Handle(i)), i, DoHandle(c, i, n), last);
  }

  lemma ReplyEventLess<V(!new), M(!new)>(job: Job<V, M>, c: Cluster, st: State<V, M>, i: nat, last: nat)
    requires Enabled(c, st, Reply(i)) && NodeOk(job, c, i, st.nodes[i])
    ensures Left(job, c, Apply(job, c, st, Reply(i)), last) < Left(job, c, st, last)
  {
    var n := st.nodes[i];
    ReplyLess(job, c, i, n, last);
    var n' := n.(handler := Receiving, down := n.down + [StepMsg(n.handler.reply)]);
    OneWorker(job, c, st, Apply(job, c, st, Reply(i)), i, n', last);
  }

  lemma ReceiveEventLess<V(!new), M(!new)>(job: Job<V, M>, c: Cluster, st: State<V, M>, i: nat, last: nat)
    requires Enabled(c, st, Receive(i)) && NodeOk(job, c, i, st.nodes[i])
    ensures Left(job, c, Apply(job, c, st, Receive(i)), last) < Left(job, c, st, last)
  {
    var n := st.nodes[i];
    ReceiveLess(job, c, i, n, last);
    OneWorker(job, c, st, Apply(job, c, st, Receive(i)), i, DoReceive(n), last);
  }

  // ---------- whole runs ----------

  lemma LeftPositive<V(!new), M(!new)>(job: Job<V, M>, c: Cluster, st: State<V, M>, last: nat)
    requires Inv(job, c, st) && LastSuperstep(job, last)
    ensures Left(job, c, st, last) >= 0
  {
    SuperstepBound(job, st.master.superstep, st.master.kind, last);
    forall n | n in st.nodes ensures NodeLeft(last)(n) >= 0 {
      var i :| 0 <= i < |st.nodes| && st.nodes[i] == n;
      assert NodeOk(job, c, i, n);
      SuperstepBound(job, n.superstep, n.kind, last);
      RelaysCounted(n.up);
      RelaysCounted(n.down);
    }
    SumBounds(st.nodes, NodeLeft(last));
    SumBounds(job.vertices, VertexLeft(job, c, st.nodes, last));
  }

  /** The work a job of this cluster has to do. */
  ghost function Work<V, M>(job: Job<V, M>, c: Cluster, last: nat): int { Left(job, c, Initial(job, c), last) }

  /** What every step lowers has fallen by at least the number of steps. */
  lemma {:induction false} Downhill<V(!new), M(!new)>(
      job: Job<V, M>, c: Cluster, r: Run<V, M>, inv: State<V, M> -> bool, left: State<V, M> -> int, k: nat)
    requires IsRun(job, c, r) && k < |r.states| && inv(Initial(job, c))
    requires forall st, e: Event :: inv(st) && Enabled(c, st, e) ==>
      inv(Apply(job, c, st, e)) && left(Apply(job, c, st, e)) < left(st)
    ensures inv(r.states[k]) && left(r.states[k]) + k <= left(Initial(job, c))
  {
    if k > 0 {
      Downhill(job, c, r, inv, left, k - 1);
      assert Enabled(c, r.states[k - 1], r.events[k - 1]);
    }
  }

  /** After `k` events at least `k` units of work are done. */
  lemma RunUsesWork<V(!new), M(!new)>(job: Job<V, M>, c: Cluster, r: Run<V, M>, k: nat, last: nat)
    requires Wellformed(job, c) && LastSuperstep(job, last) && IsRun(job, c, r) && k < |r.states|
    ensures Left(job, c, r.states[k], last) + k <= Work(job, c, last)
  {
    forall st: State<V, M>, e: Event | Inv(job, c, st) && Enabled(c, st, e)
      ensures Inv(job, c, Apply(job, c, st, e))
      ensures Left(job, c, Apply(job, c, st, e), last) < Left(job, c, st, last)
    {
      EventKeeps(job, c, st, e);
      EventLess(job, c, st, e, last);
    }
    InitialKeeps(job, c);
    Downhill(job, c, r, st => Inv(job, c, st), st => Left(job, c, st, last), k);
  }

  /** Every run of a job that stops is finite: it has no more events than the job has work. */
  lemma RunsAreBounded<V(!new), M(!new)>(job: Job<V, M>, c: Cluster, r: Run<V, M>, last: nat)
    requires Wellformed(job, c) && LastSuperstep(job, last) && IsRun(job, c, r)
    ensures |r.events| <= Work(job, c, last)
  {
    RunUsesWork(job, c, r, |r.events|, last);
    RunKeeps(job, c, r, |r.events|);
    LeftPositive(job, c, r.states[|r.events|], last);
  }

  ghost predicate Extends<V, M>(longer: Run<V, M>, r: Run<V, M>)
  {
    |r.states| <= |longer.states| && longer.states[..|r.states|] == r.states
  }

  lemma OneMore<V(!new), M(!new)>(job: Job<V, M>, c: Cluster, r: Run<V, M>, e: Event) returns (longer: Run<V, M>)
    requires IsRun(job, c, r) && Enabled(c, r.states[|r.events|], e)
    ensures IsRun(job, c, longer) && Extends(longer, r) && |longer.events| == |r.events| + 1
  {
    longer := Run(r.states + [Apply(job, c, r.states[|r.events|], e)], r.events + [e]);
  }

  /** Whatever has happened, a run that is continued as long as anything is enabled ends with the master finished:
      the distributed job of a job that stops always terminates. */
  lemma {:induction false} AlwaysFinishes<V(!new), M(!new)>(job: Job<V, M>, c: Cluster, r: Run<V, M>, last: nat)
      returns (longer: Run<V, M>)
    requires Wellformed(job, c) && LastSuperstep(job, last) && IsRun(job, c, r)
    ensures IsRun(job, c, longer) && Extends(longer, r)
    ensures longer.states[|longer.events|].master.pc == Finished
    decreases Work(job, c, last) - |r.events|
  {
    RunsAreBounded(job, c, r, last);
    var st := r.states[|r.events|];
    if st.master.pc == Finished {
      longer := r;
    } else {
      assert Reachable(job, c, st);
      NeverStuck(job, c, st);
      var e :| Enabled(c, st, e);
      var next := OneMore(job, c, r, e);
      RunsAreBounded(job, c, next, last);
      longer := AlwaysFinishes(job, c, next, last);
    }
  }
}
