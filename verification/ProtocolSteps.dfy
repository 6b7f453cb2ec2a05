/** Events that move no message and no count keep the invariant. */
module ProtocolSteps {
  import opened Bsp
  import opened Protocol
  import opened ProtocolInvariant
  import opened ProtocolFrames

  /** `n'` accounts for the same processed vertices, messages and counts as `n`. */
  ghost predicate SameBooks<V, M(!new)>(job: Job<V, M>, m: Master, n: Node<V, M>, n': Node<V, M>)
  {
    && SameDone(n, n', Epoch(m)) && SameHolds(job, n, n', Epoch(m))
    && (TotalsOpen(m) ==> forall name :: OwedBy(job, n', m.superstep, name) == OwedBy(job, n, m.superstep, name))
    && (Epoch(m) == m.superstep ==> RanBy(n', m.superstep) == RanBy(n, m.superstep))
  }

  lemma ChangeKeeps<V(!new), M(!new)>(
      job: Job<V, M>, c: Cluster, m: Master, nodes: seq<Node<V, M>>, i: nat, n': Node<V, M>)
    requires NodesOk(job, c, m, nodes) && Laws(job, c, m, nodes) && i < |nodes|
    requires NodeOk(job, c, i, n') && InStep(m, i, n') && SameBooks(job, m, nodes[i], n')
    ensures NodesOk(job, c, m, nodes[i := n']) && Laws(job, c, m, nodes[i := n'])
  {
    PutNode(job, c, m, nodes, i, n');
    LawsKept(job, c, m, nodes, i, n');
  }

  /** The part of a worker only its main goroutine and its deliveries change. */
  ghost predicate SameCore<V, M>(n: Node<V, M>, n': Node<V, M>)
  {
    && n'.superstep == n.superstep && n'.kind == n.kind && n'.vertices == n.vertices && n'.todo == n.todo
    && n'.current == n.current && (n'.pc == n.pc && n'.previous == n.previous)
  }

  lemma CellKept<V, M>(job: Job<V, M>, n: Node<V, M>, n': Node<V, M>, v: Address)
    requires v in n.vertices && CellOk(job, n, v)
    requires n'.superstep == n.superstep && n'.kind == n.kind && n'.vertices == n.vertices && n'.todo == n.todo
    ensures CellOk(job, n', v)
  {
    assert Reached(n') == Reached(n);
  }

  lemma GraphKept<V, M>(job: Job<V, M>, c: Cluster, i: nat, n: Node<V, M>, n': Node<V, M>)
    requires LocalGraph(job, c, i, n)
    requires n'.superstep == n.superstep && n'.kind == n.kind && n'.vertices == n.vertices && n'.todo == n.todo
    ensures LocalGraph(job, c, i, n')
  {
    forall v | v in n'.vertices ensures CellOk(job, n', v) {
      CellKept(job, n, n', v);
    }
  }

  lemma CoreKept<V, M>(job: Job<V, M>, c: Cluster, i: nat, n: Node<V, M>, n': Node<V, M>)
    requires LocalGraph(job, c, i, n) && Counters(job, n) && SameCore(n, n')
    ensures LocalGraph(job, c, i, n') && Counters(job, n')
  {
    GraphKept(job, c, i, n, n');
  }

  // ---------- a worker enters the barrier ----------

  lemma EnterCounters<V, M>(job: Job<V, M>, n: Node<V, M>)
    requires Counters(job, n)
    ensures Counters(job, DoEnter(n))
  {
  }

  lemma EnterShape<V, M>(job: Job<V, M>, c: Cluster, n: Node<V, M>)
    requires Shape(job, n) && Counters(job, n) && CanEnter(c, n)
    ensures Shape(job, DoEnter(n)) && PlaceOf(n) == Busy && PlaceOf(DoEnter(n)) == Sent
  {
    var n' := DoEnter(n);
    assert PlaceOf(n') == Sent;
    assert n'.up[|n'.up| - 1] == StepMsg(EntryStep(n));
  }

  lemma EnterTraffic<V, M>(job: Job<V, M>, c: Cluster, i: nat, n: Node<V, M>)
    requires Traffic(job, c, i, n) && CanEnter(c, n)
    ensures Traffic(job, c, i, DoEnter(n))
  {
    var n' := DoEnter(n);
    forall k | 0 <= k < |n'.up|
      ensures Outbound(job, c, i, n', n'.up[k]) && (n.kind != Post ==> n'.up[k].StepMsg?)
    {
      if k < |n.up| { assert n'.up[k] == n.up[k] && Outbound(job, c, i, n, n.up[k]); }
    }
    forall k | 0 <= k < |n'.down| ensures Inbound(n', n'.down[k]) { assert Inbound(n, n.down[k]); }
    assert n.handler.Forwarding? ==> Outbound(job, c, i, n, n.handler.relay);
  }

  lemma EnterNode<V(!new), M(!new)>(job: Job<V, M>, c: Cluster, m: Master, i: nat, n: Node<V, M>)
    requires NodeOk(job, c, i, n) && InStep(m, i, n) && CanEnter(c, n)
    ensures NodeOk(job, c, i, DoEnter(n)) && InStep(m, i, DoEnter(n))
  {
    EnterShape(job, c, n);
    EnterTraffic(job, c, i, n);
    GraphKept(job, c, i, n, DoEnter(n));
    EnterCounters(job, n);
  }

  lemma EnterBooks<V(!new), M(!new)>(job: Job<V, M>, c: Cluster, m: Master, i: nat, n: Node<V, M>)
    requires NodeOk(job, c, i, n) && CanEnter(c, n)
    ensures SameBooks(job, m, n, DoEnter(n))
  {
    forall v: Address, x: M ensures Holds(DoEnter(n), Epoch(m), v, x) == Holds(n, Epoch(m), v, x) {
      SumPush(n.up, StepMsg(EntryStep(n)), (v, x));
    }
  }

  // ---------- the handler takes a payload ----------

  lemma HandleStepShape<V(!new), M(!new)>(job: Job<V, M>, c: Cluster, i: nat, n: Node<V, M>)
    requires Shape(job, n) && Traffic(job, c, i, n)
    requires n.handler == Receiving && n.up != [] && n.up[0].StepMsg?
    ensures PlaceOf(n) == Sent && PlaceOf(DoHandle(c, i, n)) == Joined
    ensures Shape(job, DoHandle(c, i, n)) && Traffic(job, c, i, DoHandle(c, i, n))
  {
    assert PlaceOf(n) == Sent && n.up == [n.up[0]];
  }

  lemma HandleRelayShape<V(!new), M(!new)>(job: Job<V, M>, c: Cluster, i: nat, n: Node<V, M>)
    requires ValidCluster(job, c)
    requires Shape(job, n) && Traffic(job, c, i, n)
    requires n.handler == Receiving && n.up != [] && n.up[0].Relay?
    ensures !Unroutable(c, i, n.up[0])
    ensures PlaceOf(n) in {Busy, Sent} && PlaceOf(DoHandle(c, i, n)) == PlaceOf(n)
    ensures Shape(job, DoHandle(c, i, n)) && Traffic(job, c, i, DoHandle(c, i, n))
  {
    var n' := DoHandle(c, i, n);
    assert Outbound(job, c, i, n, n.up[0]);
    assert PlaceOf(n) == Sent ==> n'.up[|n'.up| - 1] == n.up[|n.up| - 1];
  }

  lemma HandleNode<V(!new), M(!new)>(job: Job<V, M>, c: Cluster, m: Master, i: nat, n: Node<V, M>)
    requires ValidCluster(job, c)
    requires NodeOk(job, c, i, n) && InStep(m, i, n) && n.handler == Receiving && n.up != []
    ensures !Unroutable(c, i, n.up[0])
    ensures NodeOk(job, c, i, DoHandle(c, i, n)) && InStep(m, i, DoHandle(c, i, n))
  {
    if n.up[0].StepMsg? { HandleStepShape(job, c, i, n); } else { HandleRelayShape(job, c, i, n); }
    CoreKept(job, c, i, n, DoHandle(c, i, n));
  }

  lemma HandleBooks<V(!new), M(!new)>(job: Job<V, M>, c: Cluster, m: Master, i: nat, n: Node<V, M>)
    requires n.handler == Receiving && n.up != [] && !Unroutable(c, i, n.up[0])
    ensures SameBooks(job, m, n, DoHandle(c, i, n))
  {
    var n' := DoHandle(c, i, n);
    assert n.up[0].Relay? ==> n'.handler.Forwarding? && n'.handler.relay == n.up[0];
    forall v: Address, x: M ensures Holds(n', Epoch(m), v, x) == Holds(n, Epoch(m), v, x) {
      SumPop(n.up, (v, x));
    }
  }

  // ---------- the handler sends the answer ----------

  ghost function WithAnswer<V, M>(n: Node<V, M>): Node<V, M>
    requires n.handler.Replying?
  {
    n.(handler := Receiving, down := n.down + [StepMsg(n.handler.reply)])
  }

  lemma ReplyNode<V(!new), M(!new)>(job: Job<V, M>, c: Cluster, m: Master, i: nat, n: Node<V, M>)
    requires NodeOk(job, c, i, n) && InStep(m, i, n) && n.handler.Replying?
    requires MasterOk(job, c, m)
    ensures NodeOk(job, c, i, WithAnswer(n)) && InStep(m, i, WithAnswer(n))
  {
    var n' := WithAnswer(n);
    assert n'.down[|n.down|] == StepMsg(n.handler.reply);
    assert PlaceOf(n) == Place.Answered;
    assert PlaceOf(n') == Coming;
    assert AnswerAt(job, n', |n.down|);
    assert Shape(job, n');
    CoreKept(job, c, i, n, n');
  }

  lemma ReplyBooks<V(!new), M(!new)>(job: Job<V, M>, c: Cluster, m: Master, i: nat, n: Node<V, M>)
    requires n.handler.Replying?
    ensures SameBooks(job, m, n, WithAnswer(n))
  {
    forall v: Address, x: M ensures Holds(WithAnswer(n), Epoch(m), v, x) == Holds(n, Epoch(m), v, x) {
      SumPush(n.down, StepMsg(n.handler.reply), (v, x));
    }
  }

  // ---------- the receive loop takes a payload ----------

  lemma DeliverGraph<V, M>(job: Job<V, M>, c: Cluster, i: nat, n: Node<V, M>, v: Address, x: M)
    requires LocalGraph(job, c, i, n) && v in n.vertices && (n.kind == Pre || n.kind == Post)
    ensures LocalGraph(job, c, i, Deliver(n, v, x))
  {
    var n' := Deliver(n, v, x);
    var cell, cell' := n.vertices[v], n'.vertices[v];
    assert cell'.Queue(n.superstep) == cell.Queue(n.superstep);
    assert cell'.value == cell.value && cell'.active == cell.active;
    forall w | w in n'.vertices ensures CellOk(job, n', w) {
      assert CellOk(job, n, w);
    }
  }

  lemma ReceiveStepNode<V(!new), M(!new)>(job: Job<V, M>, c: Cluster, m: Master, i: nat, n: Node<V, M>)
    requires NodeOk(job, c, i, n) && InStep(m, i, n)
    requires n.receiver == Idle && n.down != [] && n.down[0].StepMsg?
    ensures NodeOk(job, c, i, DoReceive(n)) && InStep(m, i, DoReceive(n))
  {
    var n' := DoReceive(n);
    assert PlaceOf(n) == Coming;
    var j :| AnswerAt(job, n, j);
    assert j == 0;
    assert PlaceOf(n') == Handed;
    CoreKept(job, c, i, n, n');
  }

  lemma ReceiveRelayShape<V(!new), M(!new)>(job: Job<V, M>, c: Cluster, i: nat, n: Node<V, M>)
    requires Shape(job, n) && Traffic(job, c, i, n)
    requires n.receiver == Idle && n.down != [] && n.down[0].Relay?
    ensures n.down[0].dst in n.vertices && (n.kind == Pre || n.kind == Post)
    ensures PlaceOf(DoReceive(n)) == PlaceOf(n)
    ensures Shape(job, DoReceive(n)) && Traffic(job, c, i, DoReceive(n))
  {
    var n' := DoReceive(n);
    assert Inbound(n, n.down[0]);
    assert n'.kind == n.kind && n'.superstep == n.superstep && n'.vertices.Keys == n.vertices.Keys;
    if PlaceOf(n) == Coming {
      var j: nat :| AnswerAt(job, n, j);
      assert n.down[j].StepMsg?;
      assert j != 0;
      assert n'.down[j - 1] == n.down[j];
      assert AnswerAt(job, n', j - 1);
    }
  }

  lemma ReceiveRelayNode<V(!new), M(!new)>(job: Job<V, M>, c: Cluster, m: Master, i: nat, n: Node<V, M>)
    requires NodeOk(job, c, i, n) && InStep(m, i, n)
    requires n.receiver == Idle && n.down != [] && n.down[0].Relay?
    ensures n.down[0].dst in n.vertices
    ensures NodeOk(job, c, i, DoReceive(n)) && InStep(m, i, DoReceive(n))
  {
    var rest := n.(down := n.down[1..]);
    ReceiveRelayShape(job, c, i, n);
    GraphKept(job, c, i, n, rest);
    DeliverGraph(job, c, i, rest, n.down[0].dst, n.down[0].msg);
  }

  /** A delivered message enters the queue of its vertex, and only that. */
  lemma DeliverHolds<V, M>(n: Node<V, M>, dst: Address, msg: M, e: nat, v: Address, x: M)
    requires dst in n.vertices && e == n.superstep
    ensures Holds(Deliver(n, dst, msg), e, v, x) == Holds(n, e, v, x) + if v == dst && x == msg then 1 else 0
  {
    var n' := Deliver(n, dst, msg);
    assert n'.vertices[dst].Queue(e + 1) == n.vertices[dst].Queue(e + 1) + [msg];
    assert HeldBy(n', (v, x)) == HeldBy(n, (v, x));
  }

  lemma PopHolds<V, M>(n: Node<V, M>, e: nat, v: Address, x: M)
    requires n.down != []
    ensures Holds(n.(down := n.down[1..]), e, v, x) == Holds(n, e, v, x) - RelayOf((v, x))(n.down[0])
  {
    SumPop(n.down, (v, x));
  }

  lemma ReceiveHolds<V(!new), M(!new)>(job: Job<V, M>, m: Master, n: Node<V, M>)
    requires n.down != [] && n.down[0].Relay? && n.down[0].dst in n.vertices && Epoch(m) == n.superstep
    ensures SameBooks(job, m, n, DoReceive(n))
  {
    forall v: Address, x: M ensures Holds(DoReceive(n), Epoch(m), v, x) == Holds(n, Epoch(m), v, x) {
      PopHolds(n, Epoch(m), v, x);
      DeliverHolds(n.(down := n.down[1..]), n.down[0].dst, n.down[0].msg, Epoch(m), v, x);
    }
  }

  lemma ReceiveBooks<V(!new), M(!new)>(job: Job<V, M>, c: Cluster, m: Master, i: nat, n: Node<V, M>)
    requires NodeOk(job, c, i, n) && InStep(m, i, n) && MasterOk(job, c, m)
    requires n.receiver == Idle && n.down != [] && (n.down[0].Relay? ==> n.down[0].dst in n.vertices)
    ensures SameBooks(job, m, n, DoReceive(n))
  {
    if n.down[0].Relay? {
      assert Inbound(n, n.down[0]);
      EpochSeen(job, c, m, i, n);
      ReceiveHolds(job, m, n);
    } else {
      ReceiveStepBooks(job, m, n);
    }
  }

  lemma ReceiveStepBooks<V(!new), M(!new)>(job: Job<V, M>, m: Master, n: Node<V, M>)
    requires n.receiver == Idle && n.down != [] && n.down[0].StepMsg?
    ensures SameBooks(job, m, n, DoReceive(n))
  {
    forall v: Address, x: M ensures Holds(DoReceive(n), Epoch(m), v, x) == Holds(n, Epoch(m), v, x) {
      SumPop(n.down, (v, x));
    }
  }

  // ---------- the main goroutine leaves the barrier ----------

  lemma LateNotCompleted<V, M>(job: Job<V, M>, c: Cluster, m: Master, i: nat, n: Node<V, M>)
    requires MasterOk(job, c, m) && NodeOk(job, c, i, n) && InStep(m, i, n) && Late(n)
    ensures n.kind != Completed
  {
    if m.pc.Broadcasting? && n.kind == Completed {
      RoundUnique(job, m.superstep, m.kind, n.superstep, n.kind);
    } else if m.pc == Collecting && n.kind == Completed {
      var (s, k) := Before(job, m.superstep, m.kind);
      RoundUnique(job, s, k, n.superstep, n.kind);
    }
  }

  /** The messages for the next superstep have all arrived. */
  ghost predicate Arrived<V, M>(job: Job<V, M>, n: Node<V, M>, s: nat)
  {
    forall v :: v in n.vertices ==> multiset(n.vertices[v].Queue(s + 1)) == multiset(Inbox(job, s + 1, v))
  }

  lemma LeaveGraph<V, M>(job: Job<V, M>, c: Cluster, i: nat, n: Node<V, M>)
    requires LocalGraph(job, c, i, n) && n.receiver.Notifying? && n.kind != Completed
    requires n.todo == {}
    requires n.kind == Post ==> Arrived(job, n, n.superstep)
    ensures LocalGraph(job, c, i, DoLeave(job, n))
  {
    forall v | v in n.vertices ensures CellOk(job, DoLeave(job, n), v) {
      LeaveCell(job, n, v);
    }
  }

  lemma LeaveCell<V, M>(job: Job<V, M>, n: Node<V, M>, v: Address)
    requires v in n.vertices && CellOk(job, n, v)
    requires n.receiver.Notifying? && n.kind != Completed && n.todo == {}
    requires n.kind == Post ==> Arrived(job, n, n.superstep)
    ensures v in DoLeave(job, n).vertices && CellOk(job, DoLeave(job, n), v)
  {
    if n.kind == Post {
      LeavePostCell(job, n, v, n.superstep, n.superstep + 1);
    } else {
      LeaveOtherCell(job, n, v, Reached(n));
    }
  }

  lemma ArrivedAt<V, M>(job: Job<V, M>, n: Node<V, M>, v: Address, s: nat, e: nat)
    requires v in n.vertices && Arrived(job, n, s) && e == s + 1
    ensures multiset(n.vertices[v].Queue(e)) == multiset(Inbox(job, e, v))
  {
  }

  lemma LeavePostKind<V, M>(job: Job<V, M>, n: Node<V, M>)
    requires n.receiver.Notifying? && n.kind == Post
    ensures DoLeave(job, n).kind == KeepRunning && DoLeave(job, n).superstep == n.superstep
    ensures DoLeave(job, n).vertices == n.vertices
  {
  }

  lemma LeavePostCell<V, M>(job: Job<V, M>, n: Node<V, M>, v: Address, s: nat, e: nat)
    requires v in n.vertices && s == n.superstep && e == s + 1
    requires n.receiver.Notifying? && n.kind == Post && n.todo == {}
    requires CellOk(job, n, v) && Arrived(job, n, s)
    ensures CellOk(job, DoLeave(job, n), v)
  {
    LeavePostKind(job, n);
    PostCellValue(job, n, v, e);
    PostCellDrained(job, n, v, e);
    ArrivedAt(job, n, v, s, e);
    CellFits(job, DoLeave(job, n), n.vertices[v], v, e);
  }

  lemma PostCellValue<V, M>(job: Job<V, M>, n: Node<V, M>, v: Address, e: nat)
    requires v in n.vertices && e == n.superstep + 1 && n.kind == Post && v !in n.todo && CellOk(job, n, v)
    ensures Vertex(n.vertices[v].value, n.vertices[v].active) == At(job, e, v)
  {
  }

  /** The queue that was drained is the one the superstep after the next reads. */
  lemma PostCellDrained<V, M>(job: Job<V, M>, n: Node<V, M>, v: Address, e: nat)
    requires v in n.vertices && e == n.superstep + 1 && n.kind == Post && v !in n.todo && CellOk(job, n, v)
    ensures n.vertices[v].Queue(e + 1) == []
  {
    QueueParity(n.vertices[v], n.superstep);
  }

  lemma QueueParity<V, M>(cell: Cell<V, M>, s: nat)
    ensures cell.Queue(s + 2) == cell.Queue(s)
  {
  }

  lemma CellFits<V, M>(job: Job<V, M>, n: Node<V, M>, cell: Cell<V, M>, v: Address, e: nat)
    requires v in n.vertices && n.vertices[v] == cell && e == Reached(n) && (n.kind == Post ==> v in n.todo)
    requires Vertex(cell.value, cell.active) == At(job, e, v)
    requires multiset(cell.Queue(e)) == multiset(Inbox(job, e, v))
    requires n.kind != Pre && n.kind != Post ==> cell.Queue(e + 1) == []
    ensures CellOk(job, n, v)
  {
  }

  lemma OtherCellParts<V, M>(job: Job<V, M>, n: Node<V, M>, v: Address, e: nat)
    requires v in n.vertices && e == Reached(n) && n.kind != Post && CellOk(job, n, v)
    ensures Vertex(n.vertices[v].value, n.vertices[v].active) == At(job, e, v)
    ensures multiset(n.vertices[v].Queue(e)) == multiset(Inbox(job, e, v))
    ensures n.kind != Pre ==> n.vertices[v].Queue(e + 1) == []
  {
  }

  lemma LeaveOtherCell<V, M>(job: Job<V, M>, n: Node<V, M>, v: Address, e: nat)
    requires v in n.vertices && CellOk(job, n, v) && e == Reached(n)
    requires n.receiver.Notifying? && n.kind != Post && n.kind != Completed && n.todo == {}
    ensures CellOk(job, DoLeave(job, n), v)
  {
    var n' := DoLeave(job, n);
    OtherCellParts(job, n, v, e);
    CellFits(job, n', n.vertices[v], v, e);
  }

  lemma LeaveCounters<V, M>(job: Job<V, M>, n: Node<V, M>)
    requires Counters(job, n) && n.receiver.Notifying? && n.kind != Completed
    requires ReplyOk(job, n.superstep, n.kind, n.receiver.step)
    ensures Counters(job, DoLeave(job, n))
  {
  }

  lemma LeaveNode<V(!new), M(!new)>(job: Job<V, M>, c: Cluster, m: Master, i: nat, n: Node<V, M>)
    requires NodeOk(job, c, i, n) && InStep(m, i, n) && CanLeave(n) && n.kind != Completed
    requires n.kind == Post ==> Arrived(job, n, n.superstep)
    ensures NodeOk(job, c, i, DoLeave(job, n)) && InStep(m, i, DoLeave(job, n))
  {
    var n' := DoLeave(job, n);
    assert PlaceOf(n) == Handed && PlaceOf(n') == Busy;
    assert OnSchedule(job, n'.superstep, n'.kind);
    assert Shape(job, n');
    LeaveGraph(job, c, i, n);
    LeaveCounters(job, n);
    assert Traffic(job, c, i, n');
  }

  lemma LeaveMoves<V(!new), M(!new)>(job: Job<V, M>, c: Cluster, m: Master, i: nat, n: Node<V, M>)
    requires CanLeave(n) && n.kind != Completed && n.handler == Receiving && n.todo == {}
    requires Counters(job, n)
    requires n.kind == Pre || n.kind == Post ==> Epoch(m) == n.superstep
    requires n.kind == Post ==> !TotalsOpen(m)
    requires n.kind == KeepRunning || !InLoop(n.kind) ==> Epoch(m) == n.superstep + 1
    ensures SameBooks(job, m, n, DoLeave(job, n))
  {
    var n' := DoLeave(job, n);
    assert n'.vertices == n.vertices && n'.outbox == n.outbox && n'.up == n.up && n'.down == n.down;
  }

  lemma LeaveBooks<V(!new), M(!new)>(job: Job<V, M>, c: Cluster, m: Master, i: nat, n: Node<V, M>)
    requires NodeOk(job, c, i, n) && InStep(m, i, n) && MasterOk(job, c, m)
    requires CanLeave(n) && n.kind != Completed
    ensures SameBooks(job, m, n, DoLeave(job, n))
  {
    EpochSeen(job, c, m, i, n);
    assert PlaceOf(n) == Handed;
    LeaveMoves(job, c, m, i, n);
  }

  // ---------- the rendezvous with the master ----------

  lemma CollectNode<V(!new), M(!new)>(job: Job<V, M>, c: Cluster, m: Master, i: nat, n: Node<V, M>)
    requires NodeOk(job, c, i, n) && InStep(m, i, n) && MasterOk(job, c, m)
    requires m.pc == Collecting && n.handler.Joining? && n.handler.step.kind == m.kind
    ensures !HasJoined(m, i) && n.superstep == m.superstep && n.kind == m.kind
    ensures EntryOk(job, n, n.handler.step)
    ensures NodeOk(job, c, i, n.(handler := Awaiting(m.kind))) && InRound(n.(handler := Awaiting(m.kind)), m)
  {
    var n' := n.(handler := Awaiting(m.kind));
    assert PlaceOf(n) == Joined && PlaceOf(n') == Held;
    RoundUnique(job, m.superstep, m.kind, n.superstep, n.kind);
    CoreKept(job, c, i, n, n');
  }

  lemma NotifyNode<V(!new), M(!new)>(job: Job<V, M>, c: Cluster, m: Master, i: nat, n: Node<V, M>)
    requires NodeOk(job, c, i, n) && InStep(m, i, n) && MasterOk(job, c, m)
    requires m.pc.Broadcasting? && n.handler == Awaiting(m.pc.reply.kind)
    ensures i !in m.notified
    ensures NodeOk(job, c, i, n.(handler := Replying(m.pc.reply)))
    ensures Free(n.(handler := Replying(m.pc.reply)), Round(m.superstep, m.kind) + 1)
    ensures SameBooks(job, m, n, n.(handler := Replying(m.pc.reply)))
  {
    var n' := n.(handler := Replying(m.pc.reply));
    assert PlaceOf(n) == Held && PlaceOf(n') == Place.Answered;
    CoreKept(job, c, i, n, n');
  }
}
