/** What callers can do to be safe: stop at the first error. */
module CacheCallers {
  import opened CacheProtocol
  import opened CacheInvariant
  import opened CacheTheorems

  /** A call that waited for its lock enters the store. */
  predicate Enters(st: State, e: Event)
  {
    e.Acquire? && e.i < |st.writers| && st.writers[e.i].Entering?
  }

  /** No call enters the store after one has returned an error. */
  ghost predicate StopsOnError(states: seq<State>, events: seq<Event>)
    requires |states| == |events| + 1
  {
    forall j, k :: 0 <= j < k < |events| && events[j].Fail? ==> !Enters(states[k], events[k])
  }

  /** No array was rewritten under a leftover, and nobody is about to write one. */
  ghost predicate Steady(st: State)
  {
    && (forall z :: 0 <= z < |st.left| ==> !Stale(st.CacheOf(st.left[z].table), st.left[z]))
    && forall z, i :: 0 <= z < |st.left| && 0 <= i < |st.writers| && st.writers[i].Inside? ==>
         st.writers[i].op != st.left[z].table
  }

  lemma PutSteady(c: Config, st: State, i: nat)
    requires Steady(st) && Enabled(c, st, Put(i))
    ensures Steady(Apply(c, st, Put(i)))
  {
    var op, next := st.writers[i].op, Apply(c, st, Put(i));
    assert forall u :: u != op ==> next.CacheOf(u) == st.CacheOf(u);
  }

  /** A failing flush has locked its table, so nobody is inside it. */
  lemma FailSteady(c: Config, st: State, i: nat, slices: seq<(nat, nat)>)
    requires Shape(c, st) && Steady(st) && Enabled(c, st, Fail(i, slices))
    ensures Steady(Apply(c, st, Fail(i, slices)))
  {
    var t, next := st.writers[i].table, Apply(c, st, Fail(i, slices));
    assert WriterShape(c, st, st.writers[i]) && Holds(st.writers[i], t);
    assert forall u :: next.CacheOf(u) == st.CacheOf(u);
    forall z, j | 0 <= z < |next.left| && 0 <= j < |next.writers| && next.writers[j].Inside?
      ensures next.writers[j].op != next.left[z].table
    {
      assert j != i && Holds(st.writers[j], st.writers[j].op);
    }
  }

  lemma FlushedSteady(c: Config, st: State, i: nat)
    requires Steady(st) && Enabled(c, st, Flushed(i))
    ensures Steady(Apply(c, st, Flushed(i)))
  {
    var t, next := st.writers[i].table, Apply(c, st, Flushed(i));
    assert next.CacheOf(t) == st.CacheOf(t).Reset() && forall u :: u != t ==> next.CacheOf(u) == st.CacheOf(u);
  }

  lemma LateSteady(c: Config, st: State, e: Event)
    requires Steady(st) && Enabled(c, st, e) && (e.LateRead? || e.LateExec?)
    ensures Steady(Apply(c, st, e))
  {
    var next := Apply(c, st, e);
    assert forall u :: next.CacheOf(u) == st.CacheOf(u);
    assert forall y :: 0 <= y < |next.left| ==>
      next.left[y].table == st.left[y].table && next.left[y].base == st.left[y].base
      && next.left[y].rewrites == st.left[y].rewrites;
  }

  lemma PlaceSteady(c: Config, st: State, e: Event)
    requires Steady(st) && Enabled(c, st, e) && (st.left != [] ==> !Enters(st, e))
    requires e.Call? || e.Acquire? || e.Decide? || e.Write? || e.Hide?
    ensures Steady(Apply(c, st, e))
  {
    var next := Apply(c, st, e);
    assert next.left == st.left && forall u :: next.CacheOf(u) == st.CacheOf(u);
    assert forall i :: 0 <= i < |next.writers| && next.writers[i].Inside? && st.left != [] ==>
      st.writers[i] == next.writers[i];
  }

  lemma StepSteady(c: Config, st: State, e: Event)
    requires Shape(c, st) && Steady(st) && Enabled(c, st, e) && (st.left != [] ==> !Enters(st, e))
    ensures Steady(Apply(c, st, e))
  {
    match e
    case Put(i) => PutSteady(c, st, i);
    case Fail(i, slices) => FailSteady(c, st, i, slices);
    case Flushed(i) => FlushedSteady(c, st, i);
    case LateRead(_) => LateSteady(c, st, e);
    case LateExec(_) => LateSteady(c, st, e);
    case _ => PlaceSteady(c, st, e);
  }

  lemma {:induction false} RunSteady(
      c: Config, f: Faults, n: nat, db: map<Key, Row>, states: seq<State>, events: seq<Event>, k: nat)
    requires IsRun(c, f, n, db, states, events) && Consistent(c, db) && StopsOnError(states, events) && k < |states|
    ensures Steady(states[k])
    ensures states[k].left != [] ==> exists j :: 0 <= j < k && events[j].Fail?
  {
    if k > 0 {
      RunSteady(c, f, n, db, states, events, k - 1);
      RunKeeps(c, f, n, db, states, events, k - 1);
      StepSteady(c, states[k - 1], events[k - 1]);
    }
  }

  /** If no call enters the store after an error, no leftover reads late. */
  lemma StoppingIsPunctual(
      c: Config, f: Faults, n: nat, db: map<Key, Row>, states: seq<State>, events: seq<Event>)
    requires IsRun(c, f, n, db, states, events) && Consistent(c, db) && StopsOnError(states, events)
    ensures IsRun(c, Faults({}, f.hidden), n, db, states, events)
  {
    forall k {:trigger events[k]} | 0 <= k < |events| ensures Within(Faults({}, f.hidden), states[k], events[k]) {
      RunSteady(c, f, n, db, states, events, k);
    }
  }

  /** Then, if no flush hides an error either, every processed block has its transactions stored and no statement
      breaks a foreign key, whatever leftovers do. */
  lemma StoppingIsSafe(
      c: Config, f: Faults, n: nat, db: map<Key, Row>, states: seq<State>, events: seq<Event>, k: nat)
    requires IsRun(c, f, n, db, states, events) && Consistent(c, db) && StopsOnError(states, events) && !f.hidden
    requires k < |states|
    ensures BlocksStored(c, states[k].db) && StatementsLegal(states[k])
  {
    var punctual := Faults({}, false);
    StoppingIsPunctual(c, f, n, db, states, events);
    RunKeeps(c, punctual, n, db, states, events, k);
    assert Grounded(c, states[k], Blocks);
    AllLegal(c, punctual, states[k]);
  }

  // ---------- one caller ----------

  lemma {:induction false} IdleAfter(
      c: Config, f: Faults, db: map<Key, Row>, states: seq<State>, events: seq<Event>, j: nat, k: nat)
    requires IsRun(c, f, 1, db, states, events) && j < k < |states| && events[j].Fail?
    requires forall l :: j < l < |events| ==> !events[l].Call?
    ensures states[k].writers == [Idle]
  {
    OneWriter(c, f, db, states, events, k - 1);
    assert Enabled(c, states[k - 1], events[k - 1]);
    if k > j + 1 { IdleAfter(c, f, db, states, events, j, k - 1); }
  }

  lemma {:induction false} OneWriter(
      c: Config, f: Faults, db: map<Key, Row>, states: seq<State>, events: seq<Event>, k: nat)
    requires IsRun(c, f, 1, db, states, events) && k < |states|
    ensures |states[k].writers| == 1
  {
    if k > 0 {
      OneWriter(c, f, db, states, events, k - 1);
      assert Enabled(c, states[k - 1], events[k - 1]);
    }
  }

  /** A single caller that makes no call after an error is such a run. */
  lemma SingleCallerStops(
      c: Config, f: Faults, db: map<Key, Row>, states: seq<State>, events: seq<Event>)
    requires IsRun(c, f, 1, db, states, events)
    requires forall j, k :: 0 <= j < k < |events| && events[j].Fail? ==> !events[k].Call?
    ensures StopsOnError(states, events)
  {
    forall j, k | 0 <= j < k < |events| && events[j].Fail? ensures !Enters(states[k], events[k]) {
      IdleAfter(c, f, db, states, events, j, k);
    }
  }
}
