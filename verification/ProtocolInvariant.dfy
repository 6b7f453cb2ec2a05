/** What every reachable state of the distributed job satisfies. */
module ProtocolInvariant {
  import opened Sums
  import opened Bsp
  import opened Protocol

  /** Every vertex has an owner among the workers, and a link holds at least one payload. */
  ghost predicate ValidCluster<V, M>(job: Job<V, M>, c: Cluster)
  {
    && 1 <= c.workers && 1 <= c.capacity
    && forall v :: v in job.vertices ==> c.owner(v).Some? && c.owner(v).value < c.workers
  }

  // ---------- rounds ----------

  function Index(k: Kind): nat
  {
    match k case Pre => 0 case Post => 1 case KeepRunning => 2
    case Executed => 3 case Persisted => 4 case Completed => 5
  }

  /** The number of barriers before this one. */
  function Round(s: nat, k: Kind): nat { 3 * s + Index(k) }

  predicate InLoop(k: Kind) { k == Pre || k == Post || k == KeepRunning }

  /** Barrier `k` of superstep `s` is on the path the single-graph run prescribes. */
  ghost predicate OnSchedule<V, M>(job: Job<V, M>, s: nat, k: Kind)
  {
    (forall t: nat :: t < s ==> Keeps(job, t)) && (!InLoop(k) ==> !Keeps(job, s))
  }

  lemma RoundUnique<V, M>(job: Job<V, M>, s: nat, k: Kind, s': nat, k': Kind)
    requires OnSchedule(job, s, k) && OnSchedule(job, s', k')
    requires Round(s, k) == Round(s', k')
    ensures s == s' && k == k'
  {
    assert s < s' ==> Keeps(job, s);
    assert s' < s ==> Keeps(job, s');
  }

  // ---------- where a worker's control token is ----------

  datatype Place = Busy | Sent | Joined | Held | Answered | Coming | Handed

  predicate Relays<M>(q: seq<Payload<M>>) { forall k :: 0 <= k < |q| ==> q[k].Relay? }

  predicate NoRelays<M>(q: seq<Payload<M>>) { forall k :: 0 <= k < |q| ==> q[k].StepMsg? }

  ghost function PlaceOf<V, M>(n: Node<V, M>): Place
  {
    if n.pc == Working then Busy
    else match n.handler
      case Joining(_) => Joined
      case Awaiting(_) => Held
      case Replying(_) => Answered
      case _ => if n.receiver.Notifying? then Handed else if Relays(n.down) then Sent else Coming
  }

  ghost predicate Early<V, M>(n: Node<V, M>) { PlaceOf(n) in {Busy, Sent, Joined} }

  ghost predicate Late<V, M>(n: Node<V, M>) { PlaceOf(n) in {Answered, Coming, Handed} }

  ghost predicate EntryOk<V, M>(job: Job<V, M>, n: Node<V, M>, step: Step)
  {
    && step.kind == n.kind && step.at == n.superstep
    && (n.kind == Post ==> forall name :: step.totals(name) == n.current(name) - Total(job, n.superstep, name))
    && (n.kind == KeepRunning ==> step.active == n.ran)
  }

  /** The answer to barrier `k` of superstep `s` is what the single-graph run computes. */
  ghost predicate ReplyOk<V, M>(job: Job<V, M>, s: nat, k: Kind, step: Step)
  {
    && step.kind == k && step.at == s
    && (k == Post ==> forall name :: step.totals(name) == Total(job, s + 1, name))
    && (k == KeepRunning ==> step.active == Ran(job, s))
  }

  ghost predicate AnswerAt<V, M>(job: Job<V, M>, n: Node<V, M>, j: nat)
  {
    && j < |n.down| && n.down[j].StepMsg? && ReplyOk(job, n.superstep, n.kind, n.down[j].step)
    && (forall k :: 0 <= k < |n.down| && k != j ==> n.down[k].Relay?)
    && (n.kind != Pre ==> j == |n.down| - 1)
  }

  ghost predicate Shape<V, M>(job: Job<V, M>, n: Node<V, M>)
  {
    && (PlaceOf(n) == Handed <==> n.receiver.Notifying?)
    && (PlaceOf(n) == Coming || Relays(n.down))
    && match PlaceOf(n)
       case Busy => Relays(n.up) && (n.handler == Receiving || n.handler.Forwarding?)
       case Sent =>
         && |n.up| > 0 && n.up[|n.up| - 1].StepMsg? && EntryOk(job, n, n.up[|n.up| - 1].step)
         && forall k :: 0 <= k < |n.up| - 1 ==> n.up[k].Relay?
       case Joined => n.up == [] && EntryOk(job, n, n.handler.step)
       case Held => n.up == [] && n.handler.kind == n.kind
       case Answered => n.up == [] && ReplyOk(job, n.superstep, n.kind, n.handler.reply)
       case Coming => n.up == [] && n.handler == Receiving && exists j :: AnswerAt(job, n, j)
       case Handed =>
         && n.up == [] && n.handler == Receiving && (n.kind != Pre ==> n.down == [])
         && ReplyOk(job, n.superstep, n.kind, n.receiver.step)
  }

  /** A relay travels towards another worker's vertex, and says truly when it was sent. */
  ghost predicate Outbound<V, M>(job: Job<V, M>, c: Cluster, i: nat, n: Node<V, M>, x: Payload<M>)
  {
    x.Relay? ==> x.at == n.superstep && x.dst in job.vertices && c.owner(x.dst) != Some(i)
  }

  ghost predicate Inbound<V, M>(n: Node<V, M>, x: Payload<M>)
  {
    x.Relay? ==> x.at == n.superstep && x.dst in n.vertices && (n.kind == Pre || n.kind == Post)
  }

  ghost predicate Traffic<V, M>(job: Job<V, M>, c: Cluster, i: nat, n: Node<V, M>)
  {
    && (n.kind != Post || n.pc == Waiting ==> n.todo == {} && n.outbox == [])
    && n.todo <= n.vertices.Keys
    && (forall k :: 0 <= k < |n.outbox| ==> n.outbox[k].0 in job.vertices)
    && (n.kind != Post ==> NoRelays(n.up) && !n.handler.Forwarding?)
    && (forall k :: 0 <= k < |n.up| ==> Outbound(job, c, i, n, n.up[k]))
    && (forall k :: 0 <= k < |n.down| ==> Inbound(n, n.down[k]))
    && (n.handler.Forwarding? ==>
          && n.handler.relay.Relay? && Outbound(job, c, i, n, n.handler.relay)
          && c.owner(n.handler.relay.dst) == Some(n.handler.to))
  }

  // ---------- the local graph against the single-graph run ----------

  /** The superstep whose start the local graph has reached. */
  ghost function Reached<V, M>(n: Node<V, M>): nat
  {
    if n.kind == Pre || n.kind == Post then n.superstep else n.superstep + 1
  }

  ghost predicate CellOk<V, M>(job: Job<V, M>, n: Node<V, M>, v: Address)
    requires v in n.vertices
  {
    var cell := n.vertices[v];
    if n.kind == Post && v !in n.todo then
      Vertex(cell.value, cell.active) == At(job, n.superstep + 1, v) && cell.Queue(n.superstep) == []
    else
      && Vertex(cell.value, cell.active) == At(job, Reached(n), v)
      && multiset(cell.Queue(Reached(n))) == multiset(Inbox(job, Reached(n), v))
      && (n.kind != Pre && n.kind != Post ==> cell.Queue(Reached(n) + 1) == [])
  }

  ghost predicate LocalGraph<V, M>(job: Job<V, M>, c: Cluster, i: nat, n: Node<V, M>)
  {
    && (forall v :: v in n.vertices <==> v in job.vertices && c.owner(v) == Some(i))
    && (forall v :: v in n.vertices ==> CellOk(job, n, v))
  }

  ghost predicate Counters<V, M>(job: Job<V, M>, n: Node<V, M>)
  {
    forall name ::
      if n.kind == Post then n.pc == Working ==> n.previous(name) == Total(job, n.superstep, name)
      else n.current(name) == Total(job, Reached(n), name) && n.previous(name) == Total(job, Reached(n), name)
  }

  ghost predicate NodeOk<V, M>(job: Job<V, M>, c: Cluster, i: nat, n: Node<V, M>)
  {
    && OnSchedule(job, n.superstep, n.kind)
    && Shape(job, n) && Traffic(job, c, i, n) && LocalGraph(job, c, i, n) && Counters(job, n)
  }

  // ---------- a worker against the master ----------

  ghost predicate Free<V, M>(n: Node<V, M>, r: nat)
  {
    || (Early(n) && Round(n.superstep, n.kind) == r)
    || (Late(n) && Round(n.superstep, n.kind) + 1 == r)
  }

  ghost predicate InRound<V, M>(n: Node<V, M>, m: Master)
  {
    PlaceOf(n) == Held && n.superstep == m.superstep && n.kind == m.kind
  }

  ghost predicate HasJoined(m: Master, i: nat) { exists k :: 0 <= k < |m.collected| && m.collected[k].0 == i }

  ghost predicate InStep<V, M>(m: Master, i: nat, n: Node<V, M>)
  {
    match m.pc
    case Collecting => if HasJoined(m, i) then InRound(n, m) else Free(n, Round(m.superstep, m.kind))
    case Broadcasting(_) =>
      if i in m.notified then Free(n, Round(m.superstep, m.kind) + 1) else InRound(n, m)
    case Finished => InRound(n, m)
  }

  ghost predicate MasterOk<V, M>(job: Job<V, M>, c: Cluster, m: Master)
  {
    && OnSchedule(job, m.superstep, m.kind)
    && (forall k :: 0 <= k < |m.collected| ==>
          && m.collected[k].0 < c.workers
          && m.collected[k].1.kind == m.kind && m.collected[k].1.at == m.superstep)
    && (forall k, l :: 0 <= k < l < |m.collected| ==> m.collected[k].0 != m.collected[l].0)
    && |m.collected| <= c.workers
    && (m.pc != Collecting ==> |m.collected| == c.workers)
    && (m.pc.Broadcasting? ==>
          && m.kind != Completed
          && ReplyOk(job, m.superstep, m.kind, m.pc.reply)
          && Distinct(m.notified) && |m.notified| <= c.workers
          && forall i :: i in m.notified ==> i < c.workers)
    && (m.pc == Finished ==> m.kind == Completed)
    && forall name :: m.current(name) ==
         if m.kind == Pre || (m.kind == Post && m.pc == Collecting) then Total(job, m.superstep, name)
         else Total(job, m.superstep + 1, name)
  }

  // ---------- conservation ----------

  /** The superstep whose messages may be under way. */
  ghost function Epoch(m: Master): nat
  {
    if m.kind == Pre || m.kind == Post || (m.kind == KeepRunning && m.pc == Collecting) then m.superstep
    else m.superstep + 1
  }

  /** The worker has processed its vertex `v` in superstep `e`. */
  ghost predicate Done<V, M>(n: Node<V, M>, e: nat, v: Address)
  {
    n.superstep == e && n.kind != Pre && (n.kind == Post ==> v !in n.todo)
  }

  ghost predicate DoneAt<V, M>(c: Cluster, nodes: seq<Node<V, M>>, e: nat, v: Address)
  {
    c.owner(v).Some? && c.owner(v).value < |nodes| && Done(nodes[c.owner(v).value], e, v)
  }

  ghost function IfDone<V, M>(c: Cluster, nodes: seq<Node<V, M>>, e: nat, f: Address -> int): Address -> int
  {
    v => if DoneAt(c, nodes, e, v) then f(v) else 0
  }

  ghost function RelayOf<M>(p: (Address, M)): Payload<M> -> int
  {
    (x: Payload<M>) => if x.Relay? && x.dst == p.0 && x.msg == p.1 then 1 else 0
  }

  /** Copies of message `p` a worker holds in its outbox, its links and its handler. */
  ghost function HeldBy<V, M>(n: Node<V, M>, p: (Address, M)): int
  {
    multiset(n.outbox)[p] + Sum(n.up, RelayOf(p)) + Sum(n.down, RelayOf(p))
    + (if n.handler.Forwarding? then RelayOf(p)(n.handler.relay) else 0)
  }

  ghost function InFlight<V, M>(p: (Address, M)): Node<V, M> -> int
  {
    (n: Node<V, M>) => HeldBy(n, p)
  }

  /** Copies of message `m` queued at `v` for the superstep after `e`. */
  ghost function Queued<V, M>(c: Cluster, nodes: seq<Node<V, M>>, e: nat, v: Address, m: M): int
  {
    if c.owner(v).Some? && c.owner(v).value < |nodes| && v in nodes[c.owner(v).value].vertices then
      multiset(nodes[c.owner(v).value].vertices[v].Queue(e + 1))[m]
    else 0
  }

  /** Messages sent in the epoch are in flight or queued for the next superstep, each exactly once. */
  ghost predicate MailLaw<V(!new), M(!new)>(job: Job<V, M>, c: Cluster, e: nat, nodes: seq<Node<V, M>>)
  {
    forall v: Address, m: M :: v in job.vertices ==>
      Sum(job.vertices, IfDone(c, nodes, e, Sends(job, e, (v, m))))
      == Sum(nodes, InFlight((v, m))) + Queued(c, nodes, e, v, m)
  }

  ghost function OwedBy<V, M>(job: Job<V, M>, n: Node<V, M>, e: nat, name: string): int
  {
    if n.superstep == e && n.kind == Post && !n.handler.Awaiting? then n.current(name) - Total(job, e, name) else 0
  }

  ghost function Owed<V, M>(job: Job<V, M>, e: nat, name: string): Node<V, M> -> int
  {
    (n: Node<V, M>) => OwedBy(job, n, e, name)
  }

  ghost predicate TotalsLaw<V(!new), M(!new)>(job: Job<V, M>, c: Cluster, m: Master, nodes: seq<Node<V, M>>)
  {
    m.kind == Pre || (m.kind == Post && m.pc == Collecting) ==>
      forall name ::
        Sum(job.vertices, IfDone(c, nodes, m.superstep, Gives(job, m.superstep, name)))
        == Sum(nodes, Owed(job, m.superstep, name))
           + (if m.kind == Post then Sum(m.collected, StepTotal(name)) else 0)
  }

  ghost function RanBy<V, M>(n: Node<V, M>, e: nat): int
  {
    if n.superstep == e && (n.kind == Post || (n.kind == KeepRunning && !n.handler.Awaiting?)) then n.ran else 0
  }

  ghost function Counted<V, M>(e: nat): Node<V, M> -> int
  {
    (n: Node<V, M>) => RanBy(n, e)
  }

  ghost predicate CountLaw<V(!new), M(!new)>(job: Job<V, M>, c: Cluster, m: Master, nodes: seq<Node<V, M>>)
  {
    Epoch(m) == m.superstep ==>
      Sum(job.vertices, IfDone(c, nodes, m.superstep, Ones(job, m.superstep)))
      == Sum(nodes, Counted(m.superstep))
         + (if m.kind == KeepRunning then Sum(m.collected, StepActive()) else 0)
  }

  // ---------- the invariant ----------

  ghost predicate NodesOk<V, M>(job: Job<V, M>, c: Cluster, m: Master, nodes: seq<Node<V, M>>)
  {
    && |nodes| == c.workers
    && forall i :: 0 <= i < |nodes| ==>
         NodeOk(job, c, i, nodes[i]) && InStep(m, i, nodes[i])
  }

  ghost predicate Laws<V(!new), M(!new)>(job: Job<V, M>, c: Cluster, m: Master, nodes: seq<Node<V, M>>)
  {
    MailLaw(job, c, Epoch(m), nodes) && TotalsLaw(job, c, m, nodes) && CountLaw(job, c, m, nodes)
  }

  ghost predicate Inv<V(!new), M(!new)>(job: Job<V, M>, c: Cluster, st: State<V, M>)
  {
    && !st.aborted
    && MasterOk(job, c, st.master)
    && NodesOk(job, c, st.master, st.nodes)
    && Laws(job, c, st.master, st.nodes)
  }
}
