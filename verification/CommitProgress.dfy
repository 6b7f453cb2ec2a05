/** How a job ends in which nothing goes wrong: each worker passes nineteen points, from its last superstep to the
    master's wait for COMPLETED_JOB, and the master and the others are never more than one step apart. */
module CommitProgress {
  import opened Sums
  import opened Commit

  /** Nobody is cancelled, no link loses anything and no call fails. */
  predicate Benign(e: Event)
  {
    !e.Cancel? && !e.StopReceiver? && !e.Lose? && !e.MasterCancel? && !e.MasterError? && !e.ReturnError?
  }

  // ---------- where a worker is ----------

  /** The step under way at a point. */
  function StepAt(p: nat): Message
  {
    if p <= 7 then Executed else if p <= 14 then Persisted else Completed
  }

  /** Where that step is: 1 on its way up, 2 to 4 with the handler, 5 on its way down, 6 with the receive loop. */
  function PlaceOf(p: nat): nat
  {
    if 1 <= p <= 6 then p else if 9 <= p <= 14 then p - 8 else if 16 <= p <= 18 then p - 15 else 0
  }

  function StageAt(p: nat): nat
  {
    if p == 0 then 0 else if p <= 6 then 1 else if p <= 7 then 2 else if p <= 8 then 3
    else if p <= 14 then 4 else if p <= 15 then 5 else 6
  }

  function Steps(q: seq<Message>): seq<Message>
  {
    if q == [] then [] else if q[0] == Traffic then Steps(q[1..]) else [q[0]] + Steps(q[1..])
  }

  predicate At(w: Worker, p: nat)
  {
    var (m, place) := (StepAt(p), PlaceOf(p));
    && p <= 18 && w.stage == StageAt(p) && w.outcome == Running && !w.cancelled
    && Steps(w.up) == (if place == 1 then [m] else [])
    && w.handler == (if place == 2 then Joining(m) else if place == 3 then Awaiting(m)
                     else if place == 4 then Replying(m) else Receiving)
    && Steps(w.down) == (if place == 5 then [m] else [])
    && w.receiver == (if place == 6 then Notifying(m) else Idle)
  }

  // ---------- where the master is ----------

  /** The points workers can be at in a stage of the master. */
  function Lowest(stage: nat): nat
  {
    match stage case 0 => 0 case 1 => 3 case 2 => 4 case 3 => 4 case 4 => 11 case 5 => 12 case _ => 18
  }

  function Highest(stage: nat): nat
  {
    match stage case 0 => 3 case 1 => 10 case 2 => 10 case 3 => 11 case 4 => 17 case _ => 18
  }

  function Past(p: nat): nat -> int { (x: nat) => if x >= p then 1 else 0 }

  /** The point a worker reaches by the master's act of a stage. */
  function Turn(stage: nat): nat
  {
    match stage case 0 => 3 case 1 => 4 case 3 => 11 case 4 => 12 case _ => 18
  }

  ghost predicate MasterAt(m: Master, ps: seq<nat>)
  {
    && m.stage <= 6 && !m.cancelled && m.outcome == (if m.stage == 6 then Ok else Running)
    && (forall i :: 0 <= i < |ps| ==> Lowest(m.stage) <= ps[i] <= Highest(m.stage))
    && (m.stage == 2 ==> m.collected == [])
    && (Collecting(m.stage) != Traffic ==> |m.collected| == Sum(ps, Past(Turn(m.stage))))
    && (Answering(m.stage) != Traffic ==> m.notified == Sum(ps, Past(Turn(m.stage))))
  }

  ghost predicate Calm(n: nat, st: State, ps: seq<nat>)
  {
    && |st.workers| == |ps| == n && MasterAt(st.master, ps)
    && forall i :: 0 <= i < n ==> At(st.workers[i], ps[i])
  }

  // ---------- counting ----------

  lemma {:induction false} PastBounds(ps: seq<nat>, p: nat)
    ensures 0 <= Sum(ps, Past(p)) <= |ps|
    ensures Sum(ps, Past(p)) == |ps| <==> forall i :: 0 <= i < |ps| ==> ps[i] >= p
    ensures Sum(ps, Past(p)) == 0 <==> forall i :: 0 <= i < |ps| ==> ps[i] < p
  {
    if ps != [] {
      PastBounds(ps[1..], p);
      assert ps == [ps[0]] + ps[1..];
    }
  }

  lemma StepsAppend(q: seq<Message>, x: Message)
    ensures Steps(q + [x]) == Steps(q) + if x == Traffic then [] else [x]
  {
    if q != [] {
      StepsAppend(q[1..], x);
      assert (q + [x])[1..] == q[1..] + [x];
    }
  }

  // ---------- every step ----------

  /** The point after a step. */
  function After(p: nat, w: Worker, e: Event): nat
  {
    match e
    case LoopSend(_) => p
    case Relay(_) => p
    case Receive(_) => if w.down != [] && w.down[0] == Traffic then p else p + 1
    case Handle(_) => if w.up != [] && w.up[0] == Traffic then p else p + 1
    case _ => p + 1
  }

  lemma StepsTake(q: seq<Message>)
    requires q != [] && |Steps(q)| <= 1
    ensures Steps(q[1..]) == if q[0] == Traffic then Steps(q) else []
    ensures q[0] != Traffic ==> Steps(q) == [q[0]]
  {
  }

  /** Steps that leave the worker's queues alone. */
  lemma QuietKeeps(st: State, p: nat, e: Event)
    requires Enabled(st, e) && Benign(e) && IsLocal(e) && !st.master.cancelled && At(st.workers[e.i], p)
    requires !e.LoopSend? && !e.SendStep? && !e.Relay? && !e.Reply? && !e.Handle? && !e.Receive?
    ensures At(Local(st.workers[e.i], e), p + 1) && p !in [2, 3, 10, 11, 17, 18]
  {
  }

  lemma TakingKeeps(st: State, p: nat, e: Event)
    requires Enabled(st, e) && (e.Handle? || e.Receive?) && At(st.workers[e.i], p)
    ensures At(Local(st.workers[e.i], e), After(p, st.workers[e.i], e))
    ensures After(p, st.workers[e.i], e) == p + 1 ==> p !in [2, 3, 10, 11, 17, 18]
  {
    StepsTake(if e.Handle? then st.workers[e.i].up else st.workers[e.i].down);
  }

  lemma SendingKeeps(st: State, p: nat, e: Event)
    requires Enabled(st, e) && (e.LoopSend? || e.SendStep? || e.Relay? || e.Reply?) && At(st.workers[e.i], p)
    ensures At(Local(st.workers[e.i], e), After(p, st.workers[e.i], e))
    ensures After(p, st.workers[e.i], e) == p + 1 ==> p !in [2, 3, 10, 11, 17, 18]
  {
    var w := st.workers[e.i];
    match e {
      case LoopSend(_) => StepsAppend(w.up, Traffic);
      case SendStep(_) => StepsAppend(w.up, Next(w.stage));
      case Relay(_) => StepsAppend(w.down, Traffic);
      case Reply(_) => StepsAppend(w.down, w.handler.m);
    }
  }

  /** A step of one worker, its link or its handler takes it one point on, or moves traffic. */
  lemma LocalKeeps(st: State, p: nat, e: Event)
    requires Enabled(st, e) && Benign(e) && IsLocal(e) && !st.master.cancelled && At(st.workers[e.i], p)
    ensures At(Local(st.workers[e.i], e), After(p, st.workers[e.i], e))
    ensures After(p, st.workers[e.i], e) == p + 1 ==> p !in [2, 3, 10, 11, 17, 18]
  {
    match e {
      case LoopSend(_) => SendingKeeps(st, p, e);
      case SendStep(_) => SendingKeeps(st, p, e);
      case Relay(_) => SendingKeeps(st, p, e);
      case Reply(_) => SendingKeeps(st, p, e);
      case Handle(_) => TakingKeeps(st, p, e);
      case Receive(_) => TakingKeeps(st, p, e);
      case _ => QuietKeeps(st, p, e);
    }
  }

  lemma PlaceKeeps(m: Master, ps: seq<nat>, i: nat, p: nat)
    requires MasterAt(m, ps) && i < |ps| && (p == ps[i] || (p == ps[i] + 1 && ps[i] !in [2, 3, 10, 11, 17, 18]))
    ensures MasterAt(m, ps[i := p])
  {
    SumUpdate(ps, i, p, Past(Turn(m.stage)));
  }

  /** The points after a step. */
  function Points(st: State, ps: seq<nat>, e: Event): seq<nat>
    requires Enabled(st, e) && |ps| == |st.workers|
  {
    if IsLocal(e) then ps[e.i := After(ps[e.i], st.workers[e.i], e)]
    else if e.Join? || e.Notify? then ps[e.i := ps[e.i] + 1]
    else ps
  }

  lemma JoinPoint(st: State, i: nat, p: nat)
    requires Enabled(st, Join(i)) && At(st.workers[i], p)
    ensures At(st.workers[i].(handler := Awaiting(Collecting(st.master.stage))), p + 1)
    ensures st.master.stage in [0, 3, 5] && p + 1 == Turn(st.master.stage)
  {
  }

  lemma NotifyPoint(st: State, i: nat, p: nat)
    requires Enabled(st, Notify(i)) && At(st.workers[i], p)
    ensures At(st.workers[i].(handler := Replying(Answering(st.master.stage))), p + 1)
    ensures st.master.stage in [1, 4] && p + 1 == Turn(st.master.stage)
  {
  }

  lemma JoinKeeps(n: nat, st: State, ps: seq<nat>, i: nat)
    requires Calm(n, st, ps) && Enabled(st, Join(i))
    ensures Calm(n, Apply(st, Join(i)), ps[i := ps[i] + 1])
  {
    JoinPoint(st, i, ps[i]);
    SumUpdate(ps, i, ps[i] + 1, Past(Turn(st.master.stage)));
  }

  lemma NotifyKeeps(n: nat, st: State, ps: seq<nat>, i: nat)
    requires Calm(n, st, ps) && Enabled(st, Notify(i))
    ensures Calm(n, Apply(st, Notify(i)), ps[i := ps[i] + 1])
  {
    NotifyPoint(st, i, ps[i]);
    SumUpdate(ps, i, ps[i] + 1, Past(Turn(st.master.stage)));
  }

  lemma MasterMoves(st: State, ps: seq<nat>, e: Event)
    requires MasterAt(st.master, ps) && |ps| == |st.workers|
    requires Enabled(st, e) && (e.Advance? || e.MasterComplete? || e.MasterNil?)
    ensures MasterAt(Apply(st, e).master, ps)
  {
    PastBounds(ps, Turn(st.master.stage));
    PastBounds(ps, Turn(Apply(st, e).master.stage));
  }

  lemma MasterKeeps(n: nat, st: State, ps: seq<nat>, e: Event)
    requires Calm(n, st, ps) && Enabled(st, e) && (e.Advance? || e.MasterComplete? || e.MasterNil?)
    ensures Calm(n, Apply(st, e), ps)
  {
    MasterMoves(st, ps, e);
  }

  /** A change of one worker, the master staying as it is. */
  lemma WorkerKeeps(n: nat, st: State, ps: seq<nat>, i: nat, w: Worker, p: nat)
    requires Calm(n, st, ps) && i < n && At(w, p)
    requires p == ps[i] || (p == ps[i] + 1 && ps[i] !in [2, 3, 10, 11, 17, 18])
    ensures Calm(n, Put(st, i, w), ps[i := p])
  {
    PlaceKeeps(st.master, ps, i, p);
  }

  lemma EventKeeps(n: nat, st: State, ps: seq<nat>, e: Event)
    requires Calm(n, st, ps) && Enabled(st, e) && Benign(e)
    ensures Calm(n, Apply(st, e), Points(st, ps, e))
  {
    if e.Join? {
      JoinKeeps(n, st, ps, e.i);
    } else if e.Notify? {
      NotifyKeeps(n, st, ps, e.i);
    } else if IsLocal(e) {
      LocalKeeps(st, ps[e.i], e);
      WorkerKeeps(n, st, ps, e.i, Local(st.workers[e.i], e), After(ps[e.i], st.workers[e.i], e));
    } else {
      MasterKeeps(n, st, ps, e);
    }
  }

  // ---------- progress ----------

  function Ahead(): nat -> int { (p: nat) => 2 * (18 - p) }

  function Queued(): Worker -> int { (w: Worker) => |w.up| + |w.down| }

  /** Points ahead and messages on their way: what is left to do. */
  ghost function Work(st: State, ps: seq<nat>): int
  {
    Sum(ps, Ahead()) + Sum(st.workers, Queued()) + 6 - st.master.stage
  }

  lemma WorkPositive(n: nat, st: State, ps: seq<nat>)
    requires Calm(n, st, ps)
    ensures Work(st, ps) >= 0
  {
    SumBounds(ps, Ahead());
    SumBounds(st.workers, Queued());
  }

  lemma EventLess(n: nat, st: State, ps: seq<nat>, e: Event)
    requires Calm(n, st, ps) && Enabled(st, e) && Benign(e) && !e.LoopSend? && !e.Relay?
    ensures Work(Apply(st, e), Points(st, ps, e)) < Work(st, ps)
  {
    if IsLocal(e) || e.Join? || e.Notify? {
      SumUpdate(ps, e.i, Points(st, ps, e)[e.i], Ahead());
      SumUpdate(st.workers, e.i, Apply(st, e).workers[e.i], Queued());
    }
  }

  /** What a worker at a point does next on its own; at the other points it is the master's turn. */
  function OwnStep(i: nat, p: nat): Event
  {
    match PlaceOf(p)
    case 0 => if p == 7 then CompleteJob(i) else SendStep(i)
    case 1 => Handle(i)
    case 4 => Reply(i)
    case 5 => Receive(i)
    case _ => Proceed(i)
  }

  lemma OwnStepEnabled(st: State, i: nat, p: nat)
    requires i < |st.workers| && At(st.workers[i], p) && p !in [2, 3, 10, 11, 17, 18]
    ensures Enabled(st, OwnStep(i, p))
  {
  }

  lemma MastersTurn(st: State, i: nat, p: nat)
    requires i < |st.workers| && At(st.workers[i], p) && p in [2, 3, 10, 11, 17, 18]
    requires st.master.stage <= 5 && st.master.stage != 2 && st.master.outcome == Running
    requires Lowest(st.master.stage) <= p < Turn(st.master.stage)
    requires Collecting(st.master.stage) != Traffic ==> |st.master.collected| < |st.workers|
    requires Answering(st.master.stage) != Traffic ==> st.master.notified < |st.workers|
    ensures Enabled(st, if Collecting(st.master.stage) != Traffic then Join(i) else Notify(i))
  {
  }

  lemma WorkerGoesOn(n: nat, st: State, ps: seq<nat>, i: nat) returns (e: Event)
    requires Calm(n, st, ps) && st.master.stage < 6 && st.master.stage != 2
    requires i < n && ps[i] < Turn(st.master.stage) && Sum(ps, Past(Turn(st.master.stage))) < n
    ensures Enabled(st, e) && Benign(e) && !e.LoopSend? && !e.Relay?
  {
    if ps[i] !in [2, 3, 10, 11, 17, 18] {
      OwnStepEnabled(st, i, ps[i]);
      e := OwnStep(i, ps[i]);
    } else {
      MastersTurn(st, i, ps[i]);
      e := if Collecting(st.master.stage) != Traffic then Join(i) else Notify(i);
    }
  }

  /** Until the master has returned, somebody can go on without anything going wrong. */
  lemma SomeoneGoesOn(n: nat, st: State, ps: seq<nat>) returns (e: Event)
    requires Calm(n, st, ps) && st.master.stage < 6
    ensures Enabled(st, e) && Benign(e) && !e.LoopSend? && !e.Relay?
  {
    var s := st.master.stage;
    PastBounds(ps, Turn(s));
    if s == 2 {
      e := MasterComplete;
    } else if forall i :: 0 <= i < n ==> ps[i] >= Turn(s) {
      e := if s == 5 then MasterNil else Advance;
    } else {
      var i :| 0 <= i < n && ps[i] < Turn(s);
      e := WorkerGoesOn(n, st, ps, i);
    }
  }

  // ---------- whole runs ----------

  ghost predicate IsBenignRun(n: nat, states: seq<State>, events: seq<Event>)
  {
    IsRun(n, states, events) && forall k :: 0 <= k < |events| ==> Benign(events[k])
  }

  lemma {:induction false} RunCalm(n: nat, states: seq<State>, events: seq<Event>, k: nat) returns (ps: seq<nat>)
    requires IsBenignRun(n, states, events) && k <= |events|
    ensures Calm(n, states[k], ps)
  {
    if k == 0 {
      ps := seq(n, i => 0);
      PastBounds(ps, Turn(0));
    } else {
      ps := RunCalm(n, states, events, k - 1);
      EventKeeps(n, states[k - 1], ps, events[k - 1]);
      ps := Points(states[k - 1], ps, events[k - 1]);
    }
  }

  /** Where nobody is cancelled, no link loses anything and no call fails, no job ever returns an error. */
  lemma NothingFails(n: nat, states: seq<State>, events: seq<Event>, k: nat, i: nat)
    requires IsBenignRun(n, states, events) && k <= |events| && i < n
    ensures states[k].master.outcome != Failed && |states[k].workers| == n && states[k].workers[i].outcome != Failed
  {
    var ps := RunCalm(n, states, events, k);
    assert At(states[k].workers[i], ps[i]);
  }

  lemma RunGrows(n: nat, states: seq<State>, events: seq<Event>, e: Event)
    requires IsBenignRun(n, states, events) && Enabled(states[|events|], e) && Benign(e)
    ensures IsBenignRun(n, states + [Apply(states[|events|], e)], events + [e])
  {
  }

  lemma OneMore(n: nat, states: seq<State>, events: seq<Event>, ps: seq<nat>) returns (e: Event)
    requires IsBenignRun(n, states, events) && Calm(n, states[|events|], ps) && states[|events|].master.stage < 6
    ensures Enabled(states[|events|], e)
    ensures IsBenignRun(n, states + [Apply(states[|events|], e)], events + [e])
    ensures Calm(n, Apply(states[|events|], e), Points(states[|events|], ps, e))
    ensures 0 <= Work(Apply(states[|events|], e), Points(states[|events|], ps, e)) < Work(states[|events|], ps)
  {
    e := SomeoneGoesOn(n, states[|events|], ps);
    RunGrows(n, states, events, e);
    EventKeeps(n, states[|events|], ps, e);
    EventLess(n, states[|events|], ps, e);
    WorkPositive(n, Apply(states[|events|], e), Points(states[|events|], ps, e));
  }

  lemma {:induction false} CommitsFrom(
    n: nat, states: seq<State>, events: seq<Event>, ps: seq<nat>
  ) returns (longer: seq<State>, more: seq<Event>)
    requires IsBenignRun(n, states, events) && Calm(n, states[|events|], ps)
    ensures IsBenignRun(n, longer, more) && events <= more && longer[|more|].master.outcome == Ok
    decreases Work(states[|events|], ps)
  {
    longer, more := states, events;
    var st := states[|events|];
    if st.master.stage < 6 {
      var e := OneMore(n, states, events, ps);
      longer, more := CommitsFrom(n, states + [Apply(st, e)], events + [e], Points(st, ps, e));
    }
  }

  /** Any run in which nothing has gone wrong can go on, without anything going wrong, until the master's job has
      returned nil and every worker is through COMPLETED_JOB. */
  lemma AlwaysCommits(n: nat, states: seq<State>, events: seq<Event>)
      returns (longer: seq<State>, more: seq<Event>)
    requires IsBenignRun(n, states, events)
    ensures IsBenignRun(n, longer, more) && events <= more
    ensures longer[|more|].master.outcome == Ok && |longer[|more|].workers| == n
    ensures forall i :: 0 <= i < n ==> longer[|more|].workers[i].stage == 6
  {
    var ps := RunCalm(n, states, events, |events|);
    longer, more := CommitsFrom(n, states, events, ps);
    ps := RunCalm(n, longer, more, |more|);
    assert forall i :: 0 <= i < n ==> At(longer[|more|].workers[i], ps[i]);
  }

  lemma {:induction false} LinksEnd(n: nat, states: seq<State>, events: seq<Event>, d: nat)
      returns (longer: seq<State>, more: seq<Event>)
    requires IsRun(n, states, events) && d <= n && |states[|events|].workers| == n
    requires forall i :: 0 <= i < n ==> states[|events|].workers[i].stage == 6
    requires forall i :: 0 <= i < d ==> states[|events|].workers[i].outcome == Ok
    requires forall i :: d <= i < n ==> states[|events|].workers[i].outcome == Running
    ensures IsRun(n, longer, more) && states <= longer && events <= more
    ensures longer[|more|].master == states[|events|].master
    ensures forall k :: |events| <= k < |more| ==> more[k].Cancel? || more[k].ReturnNil?
    ensures |longer[|more|].workers| == n && forall i :: 0 <= i < n ==> longer[|more|].workers[i].outcome == Ok
    decreases n - d
  {
    longer, more := states, events;
    if d < n {
      var st := Apply(states[|events|], Cancel(d));
      longer, more := states + [st, Apply(st, ReturnNil(d))], events + [Cancel(d), ReturnNil(d)];
      assert IsRun(n, longer, more);
      longer, more := LinksEnd(n, longer, more, d + 1);
    }
  }

  /** And then, as the master ends the workers' streams, every worker's job returns nil. */
  lemma AllReturnNil(n: nat, states: seq<State>, events: seq<Event>)
      returns (committed: nat, longer: seq<State>, more: seq<Event>)
    requires IsBenignRun(n, states, events)
    ensures IsRun(n, longer, more) && events <= more && |events| <= committed <= |more|
    ensures forall k :: 0 <= k < committed ==> Benign(more[k])
    ensures longer[committed].master.outcome == Ok
    ensures forall k :: committed <= k < |more| ==> more[k].Cancel? || more[k].ReturnNil?
    ensures longer[|more|].master.outcome == Ok && |longer[|more|].workers| == n
    ensures forall i :: 0 <= i < n ==> longer[|more|].workers[i].outcome == Ok
  {
    longer, more := AlwaysCommits(n, states, events);
    var ps := RunCalm(n, longer, more, |more|);
    assert forall i :: 0 <= i < n ==> At(longer[|more|].workers[i], ps[i]);
    committed := |more|;
    longer, more := LinksEnd(n, longer, more, 0);
  }
}
