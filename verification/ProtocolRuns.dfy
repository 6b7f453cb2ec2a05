/** The invariant over whole runs. */
module ProtocolRuns {
  import opened Sums
  import opened Bsp
  import opened Protocol
  import opened ProtocolInvariant
  import opened ProtocolFrames
  import opened ProtocolSteps
  import opened ProtocolMail
  import opened ProtocolRounds

  // ---------- the initial state ----------

  lemma InitialNodeOk<V(!new), M(!new)>(job: Job<V, M>, c: Cluster, i: nat)
    ensures NodeOk(job, c, i, InitialNode(job, c, i))
    ensures InStep(Initial(job, c).master, i, InitialNode(job, c, i))
    ensures forall p :: InFlight<V, M>(p)(InitialNode(job, c, i)) == 0
  {
    var n := InitialNode(job, c, i);
    assert PlaceOf(n) == Busy;
    forall v | v in n.vertices ensures CellOk(job, n, v) {
      assert Reached(n) == 0;
    }
  }

  lemma InitialMail<V(!new), M(!new)>(job: Job<V, M>, c: Cluster, nodes: seq<Node<V, M>>)
    requires |nodes| == c.workers
    requires forall i :: 0 <= i < |nodes| ==> nodes[i] == InitialNode(job, c, i)
    ensures MailLaw(job, c, 0, nodes)
  {
    forall v: Address, x: M | v in job.vertices
      ensures Sum(job.vertices, IfDone(c, nodes, 0, Sends(job, 0, (v, x)))) == 0
      ensures Sum(nodes, InFlight((v, x))) == 0 && Queued(c, nodes, 0, v, x) == 0
    {
      SumZero(job.vertices, IfDone(c, nodes, 0, Sends(job, 0, (v, x))));
      forall n | n in nodes ensures InFlight((v, x))(n) == 0 {
        var i :| 0 <= i < |nodes| && nodes[i] == n;
        InitialNodeOk(job, c, i);
      }
      SumZero(nodes, InFlight((v, x)));
    }
  }

  lemma InitialKeeps<V(!new), M(!new)>(job: Job<V, M>, c: Cluster)
    ensures Inv(job, c, Initial(job, c))
  {
    var st := Initial(job, c);
    var nodes := st.nodes;
    assert forall i :: 0 <= i < |nodes| ==> nodes[i] == InitialNode(job, c, i);
    InitialMail(job, c, nodes);
    FreshCounts(job, c, st.master, nodes);
    forall i | 0 <= i < |nodes| ensures NodeOk(job, c, i, nodes[i]) && InStep(st.master, i, nodes[i]) {
      InitialNodeOk(job, c, i);
    }
  }

  // ---------- the events of one worker ----------

  lemma EnterKeeps<V(!new), M(!new)>(job: Job<V, M>, c: Cluster, st: State<V, M>, i: nat)
    requires Inv(job, c, st) && Enabled(c, st, Enter(i))
    ensures Inv(job, c, Apply(job, c, st, Enter(i)))
  {
    EnterNode(job, c, st.master, i, st.nodes[i]);
    EnterBooks(job, c, st.master, i, st.nodes[i]);
    ChangeKeeps(job, c, st.master, st.nodes, i, DoEnter(st.nodes[i]));
  }

  lemma HandleKeeps<V(!new), M(!new)>(job: Job<V, M>, c: Cluster, st: State<V, M>, i: nat)
    requires ValidCluster(job, c) && Inv(job, c, st) && Enabled(c, st, Handle(i))
    ensures Inv(job, c, Apply(job, c, st, Handle(i)))
  {
    HandleNode(job, c, st.master, i, st.nodes[i]);
    HandleBooks(job, c, st.master, i, st.nodes[i]);
    ChangeKeeps(job, c, st.master, st.nodes, i, DoHandle(c, i, st.nodes[i]));
  }

  lemma ReplyKeeps<V(!new), M(!new)>(job: Job<V, M>, c: Cluster, st: State<V, M>, i: nat)
    requires Inv(job, c, st) && Enabled(c, st, Reply(i))
    ensures Inv(job, c, Apply(job, c, st, Reply(i)))
  {
    ReplyNode(job, c, st.master, i, st.nodes[i]);
    ReplyBooks(job, c, st.master, i, st.nodes[i]);
    ChangeKeeps(job, c, st.master, st.nodes, i, WithAnswer(st.nodes[i]));
  }

  lemma ReceiveKeeps<V(!new), M(!new)>(job: Job<V, M>, c: Cluster, st: State<V, M>, i: nat)
    requires Inv(job, c, st) && Enabled(c, st, Receive(i))
    ensures Inv(job, c, Apply(job, c, st, Receive(i)))
  {
    var n := st.nodes[i];
    if n.down[0].StepMsg? {
      ReceiveStepNode(job, c, st.master, i, n);
    } else {
      ReceiveRelayNode(job, c, st.master, i, n);
    }
    ReceiveBooks(job, c, st.master, i, n);
    ChangeKeeps(job, c, st.master, st.nodes, i, DoReceive(n));
  }

  lemma LeaveKeeps<V(!new), M(!new)>(job: Job<V, M>, c: Cluster, st: State<V, M>, i: nat)
    requires ValidCluster(job, c) && Inv(job, c, st) && Enabled(c, st, Leave(i))
    ensures Inv(job, c, Apply(job, c, st, Leave(i)))
  {
    var n := st.nodes[i];
    LeavePlace(job, c, st.master, i, n);
    LateNotCompleted(job, c, st.master, i, n);
    if n.kind == Post {
      LeavingPost(job, c, st.master, i, n);
      AllArrived(job, c, st.master, st.nodes, i, n.superstep);
    }
    LeaveNode(job, c, st.master, i, n);
    LeaveBooks(job, c, st.master, i, n);
    ChangeKeeps(job, c, st.master, st.nodes, i, DoLeave(job, n));
  }

  lemma LeavePlace<V(!new), M(!new)>(job: Job<V, M>, c: Cluster, m: Master, i: nat, n: Node<V, M>)
    requires NodeOk(job, c, i, n) && CanLeave(n)
    ensures PlaceOf(n) == Handed
  {
  }

  lemma ComputeKeeps<V(!new), M(!new)>(job: Job<V, M>, c: Cluster, st: State<V, M>, i: nat, v: Address)
    requires ValidJob(job) && Inv(job, c, st) && Enabled(c, st, Compute(i, v))
    ensures Inv(job, c, Apply(job, c, st, Compute(i, v)))
  {
    var m, n := st.master, st.nodes[i];
    ComputeNode(job, c, m, i, n, v);
    PutNode(job, c, m, st.nodes, i, DoCompute(job, n, v));
    ComputePlace(job, c, m, i, n, v);
    ComputeLaws(job, c, m, st.nodes, i, v);
  }

  lemma ComputePlace<V(!new), M(!new)>(job: Job<V, M>, c: Cluster, m: Master, i: nat, n: Node<V, M>, v: Address)
    requires MasterOk(job, c, m) && NodeOk(job, c, i, n) && InStep(m, i, n) && n.pc == Working && v in n.todo
    ensures n.kind == Post && !n.handler.Awaiting? && Epoch(m) == n.superstep && LocalGraph(job, c, i, n)
  {
    EpochSeen(job, c, m, i, n);
  }

  lemma SendKeeps<V(!new), M(!new)>(job: Job<V, M>, c: Cluster, st: State<V, M>, i: nat, k: nat)
    requires Inv(job, c, st) && Enabled(c, st, Send(i, k))
    ensures Inv(job, c, Apply(job, c, st, Send(i, k)))
  {
    var m, n := st.master, st.nodes[i];
    SendPlace(job, c, m, i, n, k);
    SendNode(job, c, m, i, n, k);
    SendBooks(job, m, n, k);
    ChangeKeeps(job, c, m, st.nodes, i, DoSend(n, k));
  }

  lemma SendPlace<V(!new), M(!new)>(job: Job<V, M>, c: Cluster, m: Master, i: nat, n: Node<V, M>, k: nat)
    requires MasterOk(job, c, m) && NodeOk(job, c, i, n) && InStep(m, i, n) && CanSend(c, n, k)
    ensures n.kind == Post && Epoch(m) == n.superstep
  {
    EpochSeen(job, c, m, i, n);
  }

  // ---------- every event, every run ----------

  lemma EventKeeps<V(!new), M(!new)>(job: Job<V, M>, c: Cluster, st: State<V, M>, e: Event)
    requires ValidJob(job) && ValidCluster(job, c) && Inv(job, c, st) && Enabled(c, st, e)
    ensures Inv(job, c, Apply(job, c, st, e))
  {
    match e
    case Enter(i) => EnterKeeps(job, c, st, i);
    case Compute(i, v) => ComputeKeeps(job, c, st, i, v);
    case Send(i, k) => SendKeeps(job, c, st, i, k);
    case Handle(i) => HandleKeeps(job, c, st, i);
    case Forward(i) => ForwardKeeps(job, c, st, i);
    case Collect(i) => CollectKeeps(job, c, st, i);
    case Collected => CollectedKeeps(job, c, st);
    case Notify(i) => NotifyKeeps(job, c, st, i);
    case Notified => NotifiedKeeps(job, c, st);
    case Reply(i) => ReplyKeeps(job, c, st, i);
    case Receive(i) => ReceiveKeeps(job, c, st, i);
    case Leave(i) => LeaveKeeps(job, c, st, i);
  }

  /** What holds at the start and is kept by every step holds in every state of a run. */
  lemma {:induction false} Throughout<V(!new), M(!new)>(
      job: Job<V, M>, c: Cluster, r: Run<V, M>, inv: State<V, M> -> bool, k: nat)
    requires IsRun(job, c, r) && k < |r.states| && inv(Initial(job, c))
    requires forall st, e: Event :: inv(st) && Enabled(c, st, e) ==> inv(Apply(job, c, st, e))
    ensures inv(r.states[k])
  {
    if k > 0 {
      Throughout(job, c, r, inv, k - 1);
      assert Enabled(c, r.states[k - 1], r.events[k - 1]);
    }
  }

  lemma RunKeeps<V(!new), M(!new)>(job: Job<V, M>, c: Cluster, r: Run<V, M>, k: nat)
    requires ValidJob(job) && ValidCluster(job, c) && IsRun(job, c, r) && k < |r.states|
    ensures Inv(job, c, r.states[k])
  {
    forall st: State<V, M>, e: Event | Inv(job, c, st) && Enabled(c, st, e) ensures Inv(job, c, Apply(job, c, st, e)) {
      EventKeeps(job, c, st, e);
    }
    InitialKeeps(job, c);
    Throughout(job, c, r, st => Inv(job, c, st), k);
  }
}
