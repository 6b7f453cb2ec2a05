/** How a job ends: the agreement on EXECUTED_GRAPH, PESISTED_RESULTS and COMPLETED_JOB, when any context may
    be cancelled, any call may fail and any link may lose its contents at any moment. The superstep loop is
    abstracted to traffic of no consequence, so what is proved holds for whatever the loop does. */
module Commit {
  import opened Sums

  datatype Message = Traffic | Executed | Persisted | Completed

  datatype Outcome = Running | Ok | Failed

  datatype Handler = Receiving | Joining(m: Message) | Awaiting(m: Message) | Replying(m: Message) | Exited

  datatype Receiver = Idle | Notifying(m: Message) | Stopped

  /** `stage` counts what the worker's main goroutine has behind it: 1 sent EXECUTED, 2 answered,
      3 CompleteJob succeeded, 4 sent PERSISTED, 5 answered, 6 sent COMPLETED. */
  datatype Worker = Worker(stage: nat, outcome: Outcome, cancelled: bool,
                           up: seq<Message>, handler: Handler, down: seq<Message>, receiver: Receiver)

  /** `stage`: 1 collected EXECUTED, 2 answered all, 3 CompleteJob succeeded, 4 collected PERSISTED,
      5 answered all, 6 collected COMPLETED. `collected` names the workers of the wait under way. */
  datatype Master = Master(stage: nat, outcome: Outcome, cancelled: bool, collected: seq<nat>, notified: nat)

  datatype State = State(master: Master, workers: seq<Worker>)

  datatype Event =
    // the worker's main goroutine
    | LoopSend(i: nat) | SendStep(i: nat) | Proceed(i: nat) | CompleteJob(i: nat)
    | ReturnNil(i: nat) | ReturnError(i: nat)
    // its receive loop, and its link
    | Receive(i: nat) | Cancel(i: nat) | StopReceiver(i: nat) | Lose(i: nat)
    // the master's handler for it
    | Handle(i: nat) | Relay(i: nat) | Join(i: nat) | Notify(i: nat) | Reply(i: nat) | Drop(i: nat) | Exit(i: nat)
    // the master
    | Advance | MasterComplete | MasterNil | MasterError | MasterCancel

  /** The stage in which a step is sent. */
  function StageOf(m: Message): nat
  {
    match m case Traffic => 0 case Executed => 1 case Persisted => 4 case Completed => 6
  }

  /** What the worker sends next, if anything. */
  function Next(stage: nat): Message
  {
    if stage == 0 then Executed else if stage == 3 then Persisted else if stage == 5 then Completed else Traffic
  }

  /** What the worker waits for, if anything. */
  function Wanted(stage: nat): Message
  {
    if stage == 1 then Executed else if stage == 4 then Persisted else if stage == 6 then Completed else Traffic
  }

  /** What the master is collecting, if anything. */
  function Collecting(stage: nat): Message
  {
    if stage == 0 then Executed else if stage == 3 then Persisted else if stage == 5 then Completed else Traffic
  }

  /** What the master is answering, if anything. */
  function Answering(stage: nat): Message
  {
    if stage == 1 then Executed else if stage == 4 then Persisted else Traffic
  }

  function Initial(n: nat): State
  {
    State(Master(0, Running, false, [], 0),
          seq(n, i => Worker(0, Running, false, [], Receiving, [], Idle)))
  }

  predicate Enabled(st: State, e: Event)
  {
    var m := st.master;
    match e
    case LoopSend(i) => i < |st.workers| && st.workers[i].outcome == Running && st.workers[i].stage == 0
    case SendStep(i) =>
      i < |st.workers| && st.workers[i].outcome == Running && Next(st.workers[i].stage) != Traffic
    case Proceed(i) =>
      && i < |st.workers| && st.workers[i].outcome == Running
      && (st.workers[i].stage == 1 || st.workers[i].stage == 4)
      && st.workers[i].receiver == Notifying(Wanted(st.workers[i].stage))
    case CompleteJob(i) => i < |st.workers| && st.workers[i].outcome == Running && st.workers[i].stage == 2
    case ReturnNil(i) =>
      i < |st.workers| && st.workers[i].outcome == Running && st.workers[i].stage >= 5 && st.workers[i].cancelled
    case ReturnError(i) => i < |st.workers| && st.workers[i].outcome == Running && st.workers[i].stage < 5
    case Receive(i) => i < |st.workers| && st.workers[i].receiver == Idle && st.workers[i].down != []
    case Cancel(i) => i < |st.workers|
    case StopReceiver(i) => i < |st.workers|
    case Lose(i) => i < |st.workers|
    case Handle(i) => i < |st.workers| && st.workers[i].handler == Receiving && st.workers[i].up != []
    case Relay(i) => i < |st.workers|
    case Join(i) =>
      && i < |st.workers| && m.outcome == Running && Collecting(m.stage) != Traffic
      && st.workers[i].handler == Joining(Collecting(m.stage)) && |m.collected| < |st.workers|
    case Notify(i) =>
      && i < |st.workers| && m.outcome == Running && Answering(m.stage) != Traffic
      && st.workers[i].handler == Awaiting(Answering(m.stage)) && m.notified < |st.workers|
    case Reply(i) => i < |st.workers| && st.workers[i].handler.Replying?
    case Drop(i) => i < |st.workers| && st.workers[i].handler.Replying? && m.cancelled
    case Exit(i) => i < |st.workers| && m.cancelled
    case Advance =>
      && m.outcome == Running
      && ((Collecting(m.stage) != Traffic && m.stage < 5 && |m.collected| == |st.workers|)
          || (Answering(m.stage) != Traffic && m.notified == |st.workers|))
    case MasterComplete => m.outcome == Running && m.stage == 2
    case MasterNil => m.outcome == Running && m.stage == 5 && |m.collected| == |st.workers|
    case MasterError => m.outcome == Running
    case MasterCancel => true
  }

  function Put(st: State, i: nat, w: Worker): State
    requires i < |st.workers|
  {
    st.(workers := st.workers[i := w])
  }

  predicate IsLocal(e: Event)
  {
    !e.Join? && !e.Notify? && !e.Advance? && !e.MasterComplete? && !e.MasterNil? && !e.MasterError? && !e.MasterCancel?
  }

  /** What an event of one worker, its link or its handler does to it. */
  function Local(w: Worker, e: Event): Worker
    requires IsLocal(e)
    requires e.Receive? ==> w.down != []
    requires e.Handle? ==> w.up != []
    requires e.Reply? ==> w.handler.Replying?
  {
    match e
    case LoopSend(_) => w.(up := w.up + [Traffic])
    case SendStep(_) => w.(stage := w.stage + 1, up := w.up + [Next(w.stage)])
    case Proceed(_) => w.(stage := w.stage + 1, receiver := Idle)
    case CompleteJob(_) => w.(stage := 3)
    case ReturnNil(_) => w.(outcome := Ok)
    case ReturnError(_) => w.(outcome := Failed)
    case Receive(_) =>
      w.(down := w.down[1..], receiver := if w.down[0] == Traffic then Idle else Notifying(w.down[0]))
    case Cancel(_) => w.(cancelled := true)
    case StopReceiver(_) => w.(receiver := Stopped, cancelled := true)
    case Lose(_) => w.(up := [], down := [])
    case Handle(_) => w.(up := w.up[1..], handler := if w.up[0] == Traffic then Receiving else Joining(w.up[0]))
    case Relay(_) => w.(down := w.down + [Traffic])
    case Reply(_) => w.(handler := Receiving, down := w.down + [w.handler.m])
    case Drop(_) => w.(handler := Receiving)
    case Exit(_) => w.(handler := Exited)
  }

  function Apply(st: State, e: Event): State
    requires Enabled(st, e)
  {
    var m := st.master;
    match e
    case Join(i) =>
      Put(st, i, st.workers[i].(handler := Awaiting(Collecting(m.stage))))
      .(master := m.(collected := m.collected + [i]))
    case Notify(i) =>
      Put(st, i, st.workers[i].(handler := Replying(Answering(m.stage)))).(master := m.(notified := m.notified + 1))
    case Advance => st.(master := m.(stage := m.stage + 1, collected := [], notified := 0))
    case MasterComplete => st.(master := m.(stage := 3))
    case MasterNil => st.(master := m.(stage := 6, outcome := Ok))
    case MasterError => st.(master := m.(outcome := Failed))
    case MasterCancel => st.(master := m.(cancelled := true))
    case _ => Put(st, e.i, Local(st.workers[e.i], e))
  }

  // ---------- the invariant ----------

  predicate StepKind(m: Message) { m != Traffic }

  function Is(k: Message): Message -> int { (x: Message) => if x == k then 1 else 0 }

  /** Copies of step `k` of worker `i` that can still join, or have joined, the wait under way. */
  ghost function Tokens(m: Master, i: nat, w: Worker, k: Message): int
  {
    Sum(w.up, Is(k)) + (if w.handler == Joining(k) then 1 else 0)
    + (if i in m.collected && Collecting(m.stage) == k then 1 else 0)
  }

  /** The master stage a notification bears witness to. */
  function Witness(m: Message): nat
  {
    match m case Executed => 1 case Persisted => 4 case _ => 0
  }

  ghost predicate WorkerOk(m: Master, i: nat, w: Worker)
  {
    && w.stage <= 6
    && (w.outcome == Ok ==> w.stage >= 5) && (w.outcome == Failed ==> w.stage < 5)
    && (forall k :: StepKind(k) ==> Tokens(m, i, w, k) <= if w.stage >= StageOf(k) then 1 else 0)
    && (w.handler.Replying? ==> m.stage >= Witness(w.handler.m))
    && (forall k :: 0 <= k < |w.down| ==> m.stage >= Witness(w.down[k]))
    && (w.receiver.Notifying? ==> m.stage >= Witness(w.receiver.m))
    && (w.stage >= 2 ==> m.stage >= 1) && (w.stage >= 5 ==> m.stage >= 4)
    && (m.stage >= 1 ==> w.stage >= 1) && (m.stage >= 4 ==> w.stage >= 4) && (m.stage >= 6 ==> w.stage >= 6)
  }

  ghost predicate Inv(n: nat, st: State)
  {
    && |st.workers| == n
    && st.master.stage <= 6 && (st.master.outcome == Ok <==> st.master.stage == 6)
    && Distinct(st.master.collected)
    && (Collecting(st.master.stage) == Traffic && st.master.stage < 6 ==> st.master.collected == [])
    && (forall i :: i in st.master.collected ==> i < n)
    && forall i :: 0 <= i < n ==> WorkerOk(st.master, i, st.workers[i])
  }

  lemma Push(q: seq<Message>, x: Message, k: Message)
    ensures Sum(q + [x], Is(k)) == Sum(q, Is(k)) + Is(k)(x)
  {
    SumAppend(q, [x], Is(k));
    assert Sum([x], Is(k)) == Is(k)(x) + Sum([x][1..], Is(k));
  }

  /** A change of one worker, the master staying as it is. */
  lemma WorkerChange(n: nat, st: State, i: nat, w: Worker)
    requires Inv(n, st) && i < n && WorkerOk(st.master, i, w)
    ensures Inv(n, Put(st, i, w))
  {
  }

  lemma WorkerSends(m: Master, i: nat, w: Worker, x: Message)
    requires WorkerOk(m, i, w) && (x == Traffic || (Next(w.stage) == x && w.outcome == Running))
    ensures WorkerOk(m, i, w.(stage := if x == Traffic then w.stage else w.stage + 1, up := w.up + [x]))
  {
    forall k ensures Sum(w.up + [x], Is(k)) == Sum(w.up, Is(k)) + Is(k)(x) { Push(w.up, x, k); }
    SumNonneg(w.up);
  }

  lemma SumNonneg(q: seq<Message>)
    ensures forall k :: Sum(q, Is(k)) >= 0
  {
    forall k ensures Sum(q, Is(k)) >= 0 { SumBounds(q, Is(k)); }
  }

  lemma HandlerTakes(m: Master, i: nat, w: Worker)
    requires WorkerOk(m, i, w) && w.handler == Receiving && w.up != []
    ensures WorkerOk(m, i, w.(up := w.up[1..], handler := if w.up[0] == Traffic then Receiving else Joining(w.up[0])))
  {
    var w' := w.(up := w.up[1..], handler := if w.up[0] == Traffic then Receiving else Joining(w.up[0]));
    forall k | StepKind(k) ensures Tokens(m, i, w', k) == Tokens(m, i, w, k) { }
  }

  lemma LinkLost(m: Master, i: nat, w: Worker)
    requires WorkerOk(m, i, w)
    ensures WorkerOk(m, i, w.(up := [], down := []))
  {
    SumNonneg(w.up);
  }

  /** Events that put nothing on the worker's own link. */
  lemma QuietEvent(m: Master, i: nat, w: Worker, e: Event)
    requires WorkerOk(m, i, w) && IsLocal(e)
    requires e.Proceed? ==> (w.stage == 1 || w.stage == 4) && w.receiver == Notifying(Wanted(w.stage))
    requires e.Proceed? || e.CompleteJob? ==> w.outcome == Running
    requires e.CompleteJob? ==> w.stage == 2
    requires e.ReturnNil? ==> w.stage >= 5
    requires e.ReturnError? ==> w.stage < 5
    requires e.Receive? ==> w.down != []
    requires e.Reply? ==> w.handler.Replying?
    requires !e.LoopSend? && !e.SendStep? && !e.Handle? && !e.Lose?
    ensures WorkerOk(m, i, Local(w, e))
  {
    var w' := Local(w, e);
    assert w'.up == w.up && (w'.handler == w.handler || !w'.handler.Joining?) && w'.stage >= w.stage;
    forall k | StepKind(k) ensures Tokens(m, i, w', k) <= Tokens(m, i, w, k) { }
  }

  lemma WorkerEvents(n: nat, st: State, e: Event)
    requires Inv(n, st) && Enabled(st, e) && IsLocal(e)
    ensures Inv(n, Apply(st, e))
  {
    var i := e.i;
    var m, w := st.master, st.workers[i];
    assert WorkerOk(m, i, w);
    match e {
      case LoopSend(_) => WorkerSends(m, i, w, Traffic);
      case SendStep(_) => WorkerSends(m, i, w, Next(w.stage));
      case Handle(_) => HandlerTakes(m, i, w);
      case Lose(_) => LinkLost(m, i, w);
      case _ => QuietEvent(m, i, w, e);
    }
    WorkerChange(n, st, i, Local(w, e));
  }

  lemma JoinKeeps(n: nat, st: State, i: nat)
    requires Inv(n, st) && Enabled(st, Join(i))
    ensures Inv(n, Apply(st, Join(i)))
  {
    var m, w := st.master, st.workers[i];
    var m', w' := Apply(st, Join(i)).master, Apply(st, Join(i)).workers[i];
    var k := Collecting(m.stage);
    SumNonneg(w.up);
    assert Tokens(m, i, w, k) <= 1;
    assert i !in m.collected;
    forall j | 0 <= j < n ensures WorkerOk(m', j, Apply(st, Join(i)).workers[j]) {
      assert WorkerOk(m, j, st.workers[j]);
      forall l | StepKind(l)
        ensures Tokens(m', j, Apply(st, Join(i)).workers[j], l) == Tokens(m, j, st.workers[j], l)
      {
        assert j in m'.collected <==> j in m.collected || j == i;
      }
    }
  }

  lemma CollectedStage(n: nat, st: State)
    requires Inv(n, st) && StepKind(Collecting(st.master.stage)) && |st.master.collected| == n
    ensures forall i :: 0 <= i < n ==> st.workers[i].stage >= StageOf(Collecting(st.master.stage))
  {
    DistinctCovers(st.master.collected, n);
    forall i | 0 <= i < n ensures st.workers[i].stage >= StageOf(Collecting(st.master.stage)) {
      assert i in st.master.collected && WorkerOk(st.master, i, st.workers[i]);
      SumNonneg(st.workers[i].up);
      assert Tokens(st.master, i, st.workers[i], Collecting(st.master.stage)) >= 1;
    }
  }

  lemma MasterEvents(n: nat, st: State, e: Event)
    requires Inv(n, st) && Enabled(st, e)
    requires e.Advance? || e.MasterComplete? || e.MasterNil? || e.MasterError? || e.MasterCancel?
    ensures Inv(n, Apply(st, e))
  {
    var m, m' := st.master, Apply(st, e).master;
    if StepKind(Collecting(m.stage)) && |m.collected| == n { CollectedStage(n, st); }
    forall j | 0 <= j < n ensures WorkerOk(m', j, st.workers[j]) {
      assert WorkerOk(m, j, st.workers[j]);
      forall k | StepKind(k) ensures Tokens(m', j, st.workers[j], k) <= Tokens(m, j, st.workers[j], k) { }
    }
  }

  lemma NotifyKeeps(n: nat, st: State, i: nat)
    requires Inv(n, st) && Enabled(st, Notify(i))
    ensures Inv(n, Apply(st, Notify(i)))
  {
    var m, m' := st.master, Apply(st, Notify(i)).master;
    forall j | 0 <= j < n ensures WorkerOk(m', j, Apply(st, Notify(i)).workers[j]) {
      assert WorkerOk(m, j, st.workers[j]);
      forall k | StepKind(k)
        ensures Tokens(m', j, Apply(st, Notify(i)).workers[j], k) == Tokens(m, j, st.workers[j], k) { }
    }
  }

  lemma EventKeeps(n: nat, st: State, e: Event)
    requires Inv(n, st) && Enabled(st, e)
    ensures Inv(n, Apply(st, e))
  {
    if e.Join? {
      JoinKeeps(n, st, e.i);
    } else if e.Notify? {
      NotifyKeeps(n, st, e.i);
    } else if IsLocal(e) {
      WorkerEvents(n, st, e);
    } else {
      MasterEvents(n, st, e);
    }
  }

  // ---------- runs ----------

  ghost predicate IsRun(n: nat, states: seq<State>, events: seq<Event>)
  {
    && |states| == |events| + 1 && states[0] == Initial(n)
    && forall k {:trigger events[k]} :: 0 <= k < |events| ==>
         Enabled(states[k], events[k]) && states[k + 1] == Apply(states[k], events[k])
  }

  ghost predicate Reachable(n: nat, st: State)
  {
    exists states: seq<State>, events: seq<Event> :: IsRun(n, states, events) && states[|events|] == st
  }

  lemma {:induction false} RunKeeps(n: nat, states: seq<State>, events: seq<Event>, k: nat)
    requires IsRun(n, states, events) && k <= |events|
    ensures Inv(n, states[k])
  {
    if k == 0 {
      forall i | 0 <= i < n ensures WorkerOk(states[0].master, i, states[0].workers[i]) { }
    } else {
      RunKeeps(n, states, events, k - 1);
      EventKeeps(n, states[k - 1], events[k - 1]);
    }
  }

  lemma ReachableInv(n: nat, st: State)
    requires Reachable(n, st)
    ensures Inv(n, st)
  {
    var states: seq<State>, events: seq<Event> :| IsRun(n, states, events) && states[|events|] == st;
    RunKeeps(n, states, events, |events|);
  }

  // ---------- agreement ----------

  /** No worker is past the EXECUTED_GRAPH barrier, where it would call CompleteJob, before every worker has
      left the superstep loop without an error. */
  lemma CompleteAfterAllLeft(n: nat, st: State, i: nat, j: nat)
    requires Reachable(n, st) && i < |st.workers| && j < |st.workers| && st.workers[i].stage >= 2
    ensures st.workers[j].stage >= 1
  {
    ReachableInv(n, st);
    assert WorkerOk(st.master, i, st.workers[i]) && WorkerOk(st.master, j, st.workers[j]);
  }

  /** If the master's job or any worker's job returns nil, CompleteJob has succeeded on the master and on
      every worker. */
  lemma NilMeansAllCompleted(n: nat, st: State, i: nat)
    requires Reachable(n, st) && i < |st.workers|
    requires st.master.outcome == Ok || st.workers[i].outcome == Ok
    ensures st.master.stage >= 3 && forall j :: 0 <= j < |st.workers| ==> st.workers[j].stage >= 3
  {
    ReachableInv(n, st);
    assert WorkerOk(st.master, i, st.workers[i]);
    assert forall j :: 0 <= j < |st.workers| ==> WorkerOk(st.master, j, st.workers[j]);
  }

  /** If the master's job returns nil, no worker's job has returned or ever returns an error. */
  lemma MasterNilMeansNoError(n: nat, st: State, i: nat)
    requires Reachable(n, st) && i < |st.workers| && st.master.outcome == Ok
    ensures st.workers[i].outcome != Failed && !Enabled(st, ReturnError(i))
  {
    ReachableInv(n, st);
    assert WorkerOk(st.master, i, st.workers[i]);
  }
}
