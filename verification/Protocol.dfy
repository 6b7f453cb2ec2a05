/** The distributed job: a master and its workers as a transition system.
    A worker is three things: its main goroutine, its receive loop, and the
    handler the master runs for it. Links are bounded FIFO sequences. */
module Protocol {
  import opened Bsp

  /** `owner` is the partition lookup; `capacity` the number of payloads a link can hold. */
  datatype Cluster = Cluster(workers: nat, capacity: nat, owner: Address -> Option<nat>)

  datatype Kind = Pre | Post | KeepRunning | Executed | Persisted | Completed

  /** A barrier message. `at` records the sender's superstep; no transition reads it. */
  datatype Step = Step(kind: Kind, totals: string -> int, active: int, at: nat)

  /** The `at` of a relay records the sender's superstep; no transition reads it. */
  datatype Payload<M> = StepMsg(step: Step) | Relay(dst: Address, msg: M, at: nat)

  datatype MainPc = Working | Waiting

  datatype HandlerPc<M> =
    | Receiving
    | Forwarding(to: nat, relay: Payload<M>)
    | Joining(step: Step)
    | Awaiting(kind: Kind)
    | Replying(reply: Step)

  datatype ReceiverPc = Idle | Notifying(step: Step)

  datatype Node<!V, M> = Node(
    superstep: nat, kind: Kind, pc: MainPc,
    vertices: map<Address, Cell<V, M>>,
    todo: set<Address>, outbox: seq<(Address, M)>,
    current: string -> int, previous: string -> int, ran: int,
    up: seq<Payload<M>>, handler: HandlerPc<M>,
    down: seq<Payload<M>>, receiver: ReceiverPc)

  datatype MasterPc = Collecting | Broadcasting(reply: Step) | Finished

  /** `collected` and `notified` name the worker of each round trip; the code keeps only their lengths
      and the collected steps. */
  datatype Master = Master(
    superstep: nat, kind: Kind, pc: MasterPc, current: string -> int,
    collected: seq<(nat, Step)>, notified: seq<nat>)

  datatype State<!V, M> = State(master: Master, nodes: seq<Node<V, M>>, aborted: bool)

  datatype Event =
    | Enter(i: nat)
    | Compute(i: nat, v: Address)
    | Send(i: nat, k: nat)
    | Handle(i: nat)
    | Forward(i: nat)
    | Collect(i: nat)
    | Collected
    | Notify(i: nat)
    | Notified
    | Reply(i: nat)
    | Receive(i: nat)
    | Leave(i: nat)

  // ---------- initial state ----------

  ghost function InitialNode<V, M>(job: Job<V, M>, c: Cluster, i: nat): Node<V, M>
  {
    Node(0, Pre, Working,
         map v | v in job.vertices && c.owner(v) == Some(i) :: Cell(job.initial(v), true, [], []),
         {}, [], job.start, job.start, 0, [], Receiving, [], Idle)
  }

  ghost function Initial<V, M>(job: Job<V, M>, c: Cluster): State<V, M>
  {
    State(Master(0, Pre, Collecting, job.start, [], []),
          seq(c.workers, i requires 0 <= i => InitialNode(job, c, i)), false)
  }

  // ---------- the barrier a participant enters next ----------

  /** Shared by the master and every worker: both evaluate the same stop test. */
  ghost function Next<V, M>(job: Job<V, M>, s: nat, k: Kind, active: int): (nat, Kind)
  {
    match k
    case Pre => (s, Post)
    case Post => (s, KeepRunning)
    case KeepRunning => if job.keepRunning(s, active) then (s + 1, Pre) else (s, Executed)
    case Executed => (s, Persisted)
    case Persisted => (s, Completed)
    case Completed => (s, Completed)
  }

  // ---------- worker steps ----------

  /** The step a worker sends: deltas at POST, the local count at POST_KEEP_RUNNING. */
  ghost function EntryStep<V, M>(n: Node<V, M>): Step
  {
    Step(n.kind,
         if n.kind == Post then (name => n.current(name) - n.previous(name)) else (name => 0),
         if n.kind == KeepRunning then n.ran else 0,
         n.superstep)
  }

  ghost predicate CanEnter<V, M>(c: Cluster, n: Node<V, M>)
  {
    n.pc == Working && n.todo == {} && n.outbox == [] && |n.up| < c.capacity
  }

  ghost function DoEnter<V, M>(n: Node<V, M>): Node<V, M>
  {
    n.(pc := Waiting, up := n.up + [StepMsg(EntryStep(n))],
       previous := if n.kind == Post then n.current else n.previous)
  }

  ghost function DoCompute<V, M>(job: Job<V, M>, n: Node<V, M>, v: Address): Node<V, M>
    requires v in n.vertices
  {
    var cell := n.vertices[v];
    var q := cell.Queue(n.superstep);
    if cell.active || q != [] then
      var e := job.compute(n.superstep, v, cell.value, Reverse(q));
      n.(vertices := n.vertices[v := cell.(value := e.value, active := !e.frozen).WithQueue(n.superstep, [])],
         todo := n.todo - {v},
         outbox := n.outbox + e.sends,
         current := name => n.current(name) + e.gives(name),
         ran := n.ran + 1)
    else n.(todo := n.todo - {v})
  }

  /** A message for a local vertex enters the queue of the next superstep. */
  ghost function Deliver<V, M>(n: Node<V, M>, v: Address, m: M): Node<V, M>
    requires v in n.vertices
  {
    var cell := n.vertices[v];
    n.(vertices := n.vertices[v := cell.WithQueue(n.superstep + 1, cell.Queue(n.superstep + 1) + [m])])
  }

  /** The goroutines of one superstep send in any order, so any pending message may go next. */
  ghost predicate CanSend<V, M>(c: Cluster, n: Node<V, M>, k: nat)
  {
    && n.pc == Working && k < |n.outbox|
    && (n.outbox[k].0 in n.vertices || |n.up| < c.capacity)
  }

  ghost function DoSend<V, M>(n: Node<V, M>, k: nat): Node<V, M>
    requires k < |n.outbox|
  {
    var (dst, msg) := n.outbox[k];
    var rest := n.(outbox := n.outbox[..k] + n.outbox[k + 1..]);
    if dst in n.vertices then Deliver(rest, dst, msg)
    else rest.(up := n.up + [Relay(dst, msg, n.superstep)])
  }

  ghost predicate CanReceive<V, M>(c: Cluster, n: Node<V, M>)
  {
    && n.receiver == Idle && n.down != []
    && (n.down[0].Relay? && n.down[0].dst !in n.vertices ==> |n.up| < c.capacity)
  }

  /** A relay whose destination is unknown here goes back to the master. */
  ghost function DoReceive<V, M>(n: Node<V, M>): Node<V, M>
    requires n.down != []
  {
    var rest := n.(down := n.down[1..]);
    match n.down[0]
    case StepMsg(step) => rest.(receiver := Notifying(step))
    case Relay(dst, msg, _) =>
      if dst in n.vertices then Deliver(rest, dst, msg)
      else rest.(up := n.up + [Relay(dst, msg, n.superstep)])
  }

  ghost predicate CanLeave<V, M>(n: Node<V, M>)
  {
    n.receiver.Notifying? && n.pc == Waiting && n.kind == n.receiver.step.kind
  }

  /** The main goroutine takes the notification and goes on to the next barrier. */
  ghost function DoLeave<V, M>(job: Job<V, M>, n: Node<V, M>): Node<V, M>
    requires n.receiver.Notifying?
  {
    var step := n.receiver.step;
    var (s, k) := Next(job, n.superstep, n.kind, step.active);
    var out := n.(superstep := s, kind := k, pc := Working, receiver := Idle);
    if n.kind == Pre then out.(todo := n.vertices.Keys, ran := 0)
    else if n.kind == Post then out.(current := step.totals, previous := step.totals)
    else out
  }

  // ---------- master steps ----------

  ghost function Merged(m: Master): string -> int
  {
    if m.kind == Post then (name => m.current(name) + Sums.Sum(m.collected, StepTotal(name))) else m.current
  }

  ghost function StepTotal(name: string): ((nat, Step)) -> int
  {
    (x: (nat, Step)) => x.1.totals(name)
  }

  ghost function StepActive(): ((nat, Step)) -> int
  {
    (x: (nat, Step)) => x.1.active
  }

  /** The broadcast: global totals at POST, the global count at POST_KEEP_RUNNING. */
  ghost function BroadcastStep(m: Master): Step
  {
    Step(m.kind,
         if m.kind == Post then Merged(m) else (name => 0),
         if m.kind == KeepRunning then Sums.Sum(m.collected, StepActive()) else 0,
         m.superstep)
  }

  ghost function DoCollected(m: Master): Master
  {
    if m.kind == Completed then m.(pc := Finished)
    else m.(pc := Broadcasting(BroadcastStep(m)), current := Merged(m), notified := [])
  }

  ghost function DoNotified<V, M>(job: Job<V, M>, m: Master): Master
    requires m.pc.Broadcasting?
  {
    var (s, k) := Next(job, m.superstep, m.kind, m.pc.reply.active);
    m.(superstep := s, kind := k, pc := Collecting, collected := [], notified := [])
  }

  // ---------- the handler the master runs for worker `i` ----------

  /** The handler takes a payload: a step joins the barrier, a relay is routed by its owner. */
  ghost function DoHandle<V, M>(c: Cluster, i: nat, n: Node<V, M>): Node<V, M>
    requires n.up != []
  {
    var rest := n.(up := n.up[1..]);
    match n.up[0]
    case StepMsg(step) => rest.(handler := Joining(step))
    case Relay(dst, _, _) =>
      match c.owner(dst)
      case None => rest
      case Some(j) => if j == i then rest else rest.(handler := Forwarding(j, n.up[0]))
  }

  /** A relay with no owner, or owned by the worker that relayed it, cancels the job. */
  ghost predicate Unroutable<M>(c: Cluster, i: nat, p: Payload<M>)
  {
    p.Relay? && (c.owner(p.dst) == None || c.owner(p.dst) == Some(i))
  }

  // ---------- the transition relation ----------

  ghost predicate Enabled<V, M>(c: Cluster, st: State<V, M>, e: Event)
  {
    && !st.aborted
    && match e
       case Enter(i) => i < |st.nodes| && CanEnter(c, st.nodes[i])
       case Compute(i, v) =>
         && i < |st.nodes| && st.nodes[i].pc == Working
         && v in st.nodes[i].todo && v in st.nodes[i].vertices
       case Send(i, k) => i < |st.nodes| && CanSend(c, st.nodes[i], k)
       case Handle(i) => i < |st.nodes| && st.nodes[i].handler == Receiving && st.nodes[i].up != []
       case Forward(i) =>
         && i < |st.nodes| && st.nodes[i].handler.Forwarding?
         && st.nodes[i].handler.to < |st.nodes| && |st.nodes[st.nodes[i].handler.to].down| < c.capacity
       case Collect(i) =>
         && i < |st.nodes| && st.nodes[i].handler.Joining?
         && st.master.pc == Collecting && |st.master.collected| < c.workers
         && st.nodes[i].handler.step.kind == st.master.kind
       case Collected => st.master.pc == Collecting && |st.master.collected| == c.workers
       case Notify(i) =>
         && i < |st.nodes| && st.master.pc.Broadcasting? && |st.master.notified| < c.workers
         && st.nodes[i].handler == Awaiting(st.master.pc.reply.kind)
       case Notified => st.master.pc.Broadcasting? && |st.master.notified| == c.workers
       case Reply(i) => i < |st.nodes| && st.nodes[i].handler.Replying? && |st.nodes[i].down| < c.capacity
       case Receive(i) => i < |st.nodes| && CanReceive(c, st.nodes[i])
       case Leave(i) => i < |st.nodes| && CanLeave(st.nodes[i])
  }

  ghost function Put<V, M>(st: State<V, M>, i: nat, n: Node<V, M>): State<V, M>
    requires i < |st.nodes|
  {
    st.(nodes := st.nodes[i := n])
  }

  ghost function Apply<V, M>(job: Job<V, M>, c: Cluster, st: State<V, M>, e: Event): State<V, M>
    requires Enabled(c, st, e)
  {
    var m := st.master;
    match e
    case Enter(i) => Put(st, i, DoEnter(st.nodes[i]))
    case Compute(i, v) => Put(st, i, DoCompute(job, st.nodes[i], v))
    case Send(i, k) => Put(st, i, DoSend(st.nodes[i], k))
    case Handle(i) =>
      Put(st, i, DoHandle(c, i, st.nodes[i])).(aborted := Unroutable(c, i, st.nodes[i].up[0]))
    case Forward(i) =>
      var h := st.nodes[i].handler;
      var sent := Put(st, i, st.nodes[i].(handler := Receiving));
      Put(sent, h.to, sent.nodes[h.to].(down := sent.nodes[h.to].down + [h.relay]))
    case Collect(i) =>
      Put(st, i, st.nodes[i].(handler := Awaiting(m.kind)))
      .(master := m.(collected := m.collected + [(i, st.nodes[i].handler.step)]))
    case Collected => st.(master := DoCollected(m))
    case Notify(i) =>
      Put(st, i, st.nodes[i].(handler := Replying(m.pc.reply)))
      .(master := m.(notified := m.notified + [i]))
    case Notified => st.(master := DoNotified(job, m))
    case Reply(i) =>
      Put(st, i, st.nodes[i].(handler := Receiving, down := st.nodes[i].down + [StepMsg(st.nodes[i].handler.reply)]))
    case Receive(i) => Put(st, i, DoReceive(st.nodes[i]))
    case Leave(i) => Put(st, i, DoLeave(job, st.nodes[i]))
  }

  /** A run: the states passed through and the events between them. */
  datatype Run<!V, M> = Run(states: seq<State<V, M>>, events: seq<Event>)

  ghost predicate IsRun<V, M>(job: Job<V, M>, c: Cluster, r: Run<V, M>)
  {
    && |r.states| == |r.events| + 1
    && r.states[0] == Initial(job, c)
    && forall k {:trigger r.events[k]} :: 0 <= k < |r.events| ==>
         Enabled(c, r.states[k], r.events[k]) && r.states[k + 1] == Apply(job, c, r.states[k], r.events[k])
  }
}
