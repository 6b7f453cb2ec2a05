/** How often a worker is notified: once in every round of the barrier. */
module ProtocolNotices {
  import opened Sums
  import opened Bsp
  import opened Protocol
  import opened ProtocolInvariant
  import opened ProtocolSteps
  import opened ProtocolRuns
  import opened ProtocolTheorems

  /** The notifications to worker `i` among the first `k` events of a run. */
  function Notices(events: seq<Event>, i: nat, k: nat): nat
    requires k <= |events|
  {
    if k == 0 then 0 else Notices(events, i, k - 1) + (if events[k - 1] == Notify(i) then 1 else 0)
  }

  /** The notifications worker `i` has acted on, which are the barriers it has left, and those on their way to it. */
  ghost function Seen<V, M>(n: Node<V, M>): int
  {
    Round(n.superstep, n.kind) + Notifications(n)
  }

  // ---------- what one step of a worker does to its notifications ----------

  lemma StepPush<M>(q: seq<Payload<M>>, x: Payload<M>)
    ensures Sum(q + [x], StepsIn()) == Sum(q, StepsIn()) + StepsIn()(x)
  {
    SumAppend(q, [x], StepsIn());
    assert Sum([x], StepsIn()) == StepsIn()(x);
  }

  lemma ReceiveSeen<V, M>(c: Cluster, n: Node<V, M>)
    requires CanReceive(c, n)
    ensures Seen(DoReceive(n)) == Seen(n)
  {
    assert n.down == [n.down[0]] + n.down[1..];
    SumAppend([n.down[0]], n.down[1..], StepsIn());
  }

  lemma ReplySeen<V, M>(n: Node<V, M>)
    requires n.handler.Replying?
    ensures Seen(n.(handler := Receiving, down := n.down + [StepMsg(n.handler.reply)])) == Seen(n)
  {
    StepPush(n.down, StepMsg(n.handler.reply));
  }

  lemma LeaveSeen<V(!new), M(!new)>(job: Job<V, M>, c: Cluster, m: Master, i: nat, n: Node<V, M>)
    requires MasterOk(job, c, m) && NodeOk(job, c, i, n) && InStep(m, i, n) && CanLeave(n)
    ensures Seen(DoLeave(job, n)) == Seen(n)
  {
    LeavePlace(job, c, m, i, n);
    LateNotCompleted(job, c, m, i, n);
  }

  lemma HandleSeen<V, M>(c: Cluster, i: nat, n: Node<V, M>)
    requires n.handler == Receiving && n.up != []
    ensures Seen(DoHandle(c, i, n)) == Seen(n)
  {
  }

  lemma ForwardSeen<V, M>(st: State<V, M>, next: State<V, M>, j: nat, to: nat, relay: Payload<M>, i: nat)
    requires j < |st.nodes| && to < |st.nodes| && i < |st.nodes| && relay.Relay? && !st.nodes[j].handler.Replying?
    requires var sent := Put(st, j, st.nodes[j].(handler := Receiving));
      next == Put(sent, to, sent.nodes[to].(down := sent.nodes[to].down + [relay]))
    ensures Seen(next.nodes[i]) == Seen(st.nodes[i])
  {
    StepPush(st.nodes[i].down, relay);
  }

  /** The steps that touch no notification, and the one that sends one. */
  lemma QuietSeen<V, M>(job: Job<V, M>, c: Cluster, st: State<V, M>, e: Event, i: nat)
    requires Enabled(c, st, e) && i < |st.nodes|
    requires e.Enter? || e.Compute? || e.Send? || e.Collect? || e.Collected? || e.Notify? || e.Notified?
    ensures Seen(Apply(job, c, st, e).nodes[i]) == Seen(st.nodes[i]) + (if e == Notify(i) then 1 else 0)
  {
  }

  /** A step of worker `j`. */
  ghost predicate Moves<V, M>(st: State<V, M>, next: State<V, M>, j: nat, n: Node<V, M>)
  {
    j < |st.nodes| && next.nodes == st.nodes[j := n] && Seen(n) == Seen(st.nodes[j])
  }

  lemma OwnSeen<V(!new), M(!new)>(job: Job<V, M>, c: Cluster, st: State<V, M>, e: Event, j: nat)
    requires j < |st.nodes| && (e == Handle(j) || e == Reply(j) || e == Receive(j) || e == Leave(j))
    requires MasterOk(job, c, st.master) && NodeOk(job, c, j, st.nodes[j]) && InStep(st.master, j, st.nodes[j])
    requires Enabled(c, st, e)
    ensures Moves(st, Apply(job, c, st, e), j, Apply(job, c, st, e).nodes[j])
  {
    match e
    case Handle(_) => HandleSeen(c, j, st.nodes[j]);
    case Reply(_) => ReplySeen(st.nodes[j]);
    case Receive(_) => ReceiveSeen(c, st.nodes[j]);
    case Leave(_) => LeaveSeen(job, c, st.master, j, st.nodes[j]);
  }

  lemma OwnStep<V(!new), M(!new)>(
      job: Job<V, M>, c: Cluster, st: State<V, M>, e: Event, next: State<V, M>, j: nat, i: nat)
    requires i < |st.nodes| && j < |st.nodes| && Enabled(c, st, e) && next == Apply(job, c, st, e)
    requires e == Handle(j) || e == Reply(j) || e == Receive(j) || e == Leave(j)
    requires MasterOk(job, c, st.master) && NodeOk(job, c, j, st.nodes[j]) && InStep(st.master, j, st.nodes[j])
    ensures |next.nodes| == |st.nodes| && Seen(next.nodes[i]) == Seen(st.nodes[i])
  {
    OwnSeen(job, c, st, e, j);
  }

  lemma InvAt<V(!new), M(!new)>(job: Job<V, M>, c: Cluster, st: State<V, M>, j: nat)
    requires Inv(job, c, st) && j < |st.nodes|
    ensures MasterOk(job, c, st.master) && NodeOk(job, c, j, st.nodes[j]) && InStep(st.master, j, st.nodes[j])
  {
  }

  /** Every step: a notification is seen once more exactly when it is sent. */
  lemma StepSeen<V(!new), M(!new)>(
      job: Job<V, M>, c: Cluster, st: State<V, M>, e: Event, next: State<V, M>, i: nat)
    requires Inv(job, c, st) && Enabled(c, st, e) && i < |st.nodes| && next == Apply(job, c, st, e)
    ensures |next.nodes| == |st.nodes|
    ensures Seen(next.nodes[i]) == Seen(st.nodes[i]) + (if e == Notify(i) then 1 else 0)
  {
    if e.Handle? || e.Reply? || e.Receive? || e.Leave? {
      InvAt(job, c, st, e.i);
      OwnStep(job, c, st, e, next, e.i, i);
    } else if e.Forward? {
      InvAt(job, c, st, e.i);
      ForwardSeen(st, next, e.i, st.nodes[e.i].handler.to, st.nodes[e.i].handler.relay, i);
    } else {
      QuietSeen(job, c, st, e, i);
    }
  }

  // ---------- whole runs ----------

  lemma InitialSeen<V, M>(job: Job<V, M>, c: Cluster, i: nat)
    ensures Seen(InitialNode<V, M>(job, c, i)) == 0
  {
  }

  ghost function SeenBy<V, M>(): Node<V, M> -> int { (n: Node<V, M>) => Seen(n) }

  lemma NextSeen<V(!new), M(!new)>(
      job: Job<V, M>, c: Cluster, st: State<V, M>, e: Event, next: State<V, M>, i: nat, seen: Node<V, M> -> int)
    requires Wellformed(job, c) && Reachable(job, c, st) && seen == SeenBy()
    requires Enabled(c, st, e) && i < |st.nodes| && next == Apply(job, c, st, e)
    ensures |next.nodes| == |st.nodes|
    ensures seen(next.nodes[i]) == seen(st.nodes[i]) + (if e == Notify(i) then 1 else 0)
  {
    ReachableInv(job, c, st);
    StepSeen(job, c, st, e, next, i);
  }

  lemma EventLink<V, M>(job: Job<V, M>, c: Cluster, r: Run<V, M>, k: nat)
      returns (st: State<V, M>, e: Event, next: State<V, M>)
    requires IsRun(job, c, r) && 0 < k < |r.states|
    ensures st == r.states[k - 1] && e == r.events[k - 1] && next == r.states[k]
    ensures Enabled(c, st, e) && next == Apply(job, c, st, e)
  {
    st, e, next := r.states[k - 1], r.events[k - 1], r.states[k];
  }

  lemma {:induction false} AllSeen<V(!new), M(!new)>(
      job: Job<V, M>, c: Cluster, r: Run<V, M>, i: nat, k: nat, seen: Node<V, M> -> int)
    requires Wellformed(job, c) && IsRun(job, c, r) && k < |r.states| && i < c.workers && seen == SeenBy()
    ensures |r.states[k].nodes| == c.workers && Notices(r.events, i, k) == seen(r.states[k].nodes[i])
  {
    if k == 0 {
      InitialSeen(job, c, i);
    } else {
      AllSeen(job, c, r, i, k - 1, seen);
      var st, e, next := EventLink(job, c, r, k);
      NextSeen(job, c, st, e, next, i, seen);
    }
  }

  /** The notifications sent to a worker are the barriers it has left and the ones on their way. */
  lemma NoticesSeen<V(!new), M(!new)>(job: Job<V, M>, c: Cluster, r: Run<V, M>, i: nat, k: nat)
    requires Wellformed(job, c) && IsRun(job, c, r) && k < |r.states| && i < c.workers
    ensures |r.states[k].nodes| == c.workers
    ensures Notices(r.events, i, k) ==
      Round(r.states[k].nodes[i].superstep, r.states[k].nodes[i].kind) + Notifications(r.states[k].nodes[i])
  {
    AllSeen(job, c, r, i, k, SeenBy());
  }

  lemma InFlightExactly<V(!new), M(!new)>(job: Job<V, M>, c: Cluster, i: nat, n: Node<V, M>)
    requires NodeOk(job, c, i, n)
    ensures Notifications(n) == if Late(n) then 1 else 0
  {
    if PlaceOf(n) == Coming {
      var j: nat :| AnswerAt(job, n, j);
      OneStepIn(n.down, j);
    } else {
      SumZero(n.down, StepsIn());
    }
  }

  /** By the time the master collects a round it has notified each worker exactly once in every round before it, and
      while it broadcasts, once more exactly those it lists as notified. */
  lemma OncePerRound<V(!new), M(!new)>(job: Job<V, M>, c: Cluster, r: Run<V, M>, i: nat, k: nat)
    requires Wellformed(job, c) && IsRun(job, c, r) && k < |r.states| && i < c.workers
    ensures var m := r.states[k].master;
      Notices(r.events, i, k) ==
        Round(m.superstep, m.kind) + (if m.pc.Broadcasting? && i in m.notified then 1 else 0)
  {
    NoticesSeen(job, c, r, i, k);
    RunKeeps(job, c, r, k);
    var st := r.states[k];
    assert NodeOk(job, c, i, st.nodes[i]) && InStep(st.master, i, st.nodes[i]);
    InFlightExactly(job, c, i, st.nodes[i]);
  }
}
