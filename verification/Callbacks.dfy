/** The loops of the executor callbacks: merging, serialising and setting aggregator values and counting active
    vertices. They compute what the protocol's steps say. */
module Callbacks {
  import opened Sums
  import opened Bsp
  import opened Protocol

  /** The two sums of an integer accumulator. */
  datatype Accumulator = Accumulator(cur: int, prev: int)

  /** The user's serializer, which may refuse a value either way. */
  datatype Serializer<!A> = Serializer(encode: int -> Option<A>, decode: A -> Option<int>)

  ghost function DeltaOf<A>(s: Serializer<A>, name: string): map<string, A> -> int
  {
    (step: map<string, A>) => if name in step && s.decode(step[name]).Some? then s.decode(step[name]).value else 0
  }

  /** All names are known and all values can be decoded. */
  ghost predicate Acceptable<A>(s: Serializer<A>, step: map<string, A>, names: set<string>)
  {
    step.Keys <= names && forall name :: name in step ==> s.decode(step[name]).Some?
  }

  /** What is sent for an accumulator, and what becomes of it: sending its change restarts the change. */
  function Shown(a: Accumulator, deltas: bool): int { if deltas then a.cur - a.prev else a.cur }

  function Restarted(a: Accumulator, deltas: bool): Accumulator { if deltas then Accumulator(a.cur, a.cur) else a }

  /** Every value, or with `deltas` every change, can be encoded. */
  ghost predicate AllEncodable<A>(s: Serializer<A>, deltas: bool, was: map<string, Accumulator>)
  {
    forall name :: name in was ==>
      if deltas then s.encode(was[name].cur - was[name].prev).Some? else s.encode(was[name].cur).Some?
  }

  /** Each aggregator is as it was, or with `deltas` has its change restarted. */
  ghost predicate PartlyRestarted(deltas: bool, was: map<string, Accumulator>, now: map<string, Accumulator>)
  {
    && now.Keys == was.Keys
    && forall name :: name in now ==>
         now[name] == was[name] || (deltas && now[name].cur == now[name].prev == was[name].cur)
  }

  /** `sent` is the encoded change, which restarts, or the encoded value. */
  ghost predicate Sent<A>(s: Serializer<A>, was: Accumulator, deltas: bool, sent: A, now: Accumulator)
  {
    if deltas then s.encode(was.cur - was.prev) == Some(sent) && now.cur == now.prev == was.cur
    else s.encode(was.cur) == Some(sent) && now == was
  }

  /** Everything was sent, as encoded. */
  ghost predicate AllSent<A>(
      s: Serializer<A>, deltas: bool, was: map<string, Accumulator>, now: map<string, Accumulator>, out: map<string, A>)
  {
    && now.Keys == was.Keys && out.Keys == was.Keys
    && forall name :: name in out ==> Sent(s, was[name], deltas, out[name], now[name])
  }

  /** Between two values: those of `todo` are still to be sent. */
  ghost predicate Sending<A>(
      s: Serializer<A>, deltas: bool, was: map<string, Accumulator>, todo: set<string>,
      now: map<string, Accumulator>, out: map<string, A>)
  {
    && now.Keys == was.Keys && todo <= was.Keys && out.Keys == was.Keys - todo
    && (forall name :: name in now ==> now[name] == if name in todo then was[name] else Restarted(was[name], deltas))
    && forall name :: name in out ==> Sent(s, was[name], deltas, out[name], now[name])
  }

  lemma SendOne<A>(
      s: Serializer<A>, deltas: bool, was: map<string, Accumulator>, todo: set<string>,
      now: map<string, Accumulator>, out: map<string, A>, name: string)
    requires Sending(s, deltas, was, todo, now, out) && name in todo
    ensures name in was && name in now && now[name] == was[name]
    ensures var next, sent := now[name := Restarted(was[name], deltas)], s.encode(Shown(was[name], deltas));
      && PartlyRestarted(deltas, was, next)
      && (sent.None? ==> !AllEncodable(s, deltas, was))
      && (sent.Some? ==> Sending(s, deltas, was, todo - {name}, next, out[name := sent.value]))
  {
  }

  lemma SendDone<A>(
      s: Serializer<A>, deltas: bool, was: map<string, Accumulator>, now: map<string, Accumulator>, out: map<string, A>)
    requires Sending(s, deltas, was, {}, now, out)
    ensures PartlyRestarted(deltas, was, now) && AllEncodable(s, deltas, was) && AllSent(s, deltas, was, now, out)
  {
    assert forall name :: name in was ==> Sent(s, was[name], deltas, out[name], now[name]);
  }

  class Aggregators {
    var values: map<string, Accumulator>

    constructor (values: map<string, Accumulator>)
      ensures this.values == values
    {
      this.values := values;
    }

    /** Adds a worker's deltas. An unknown name or a value that cannot be decoded ends the loop; what was added before
        stays. */
    method MergeDeltas<A>(s: Serializer<A>, deltas: map<string, A>) returns (ok: bool)
      modifies this
      ensures ok <==> Acceptable(s, deltas, old(values).Keys)
      ensures values.Keys == old(values).Keys
      ensures forall name :: name in values ==> values[name].prev == old(values)[name].prev
      ensures ok ==> forall name :: name in values ==>
        values[name].cur == old(values)[name].cur + DeltaOf(s, name)(deltas)
      ensures forall name :: name in values ==>
        values[name].cur in {old(values)[name].cur, old(values)[name].cur + DeltaOf(s, name)(deltas)}
    {
      var todo := deltas.Keys;
      ghost var was := values;
      while todo != {}
        invariant todo <= deltas.Keys && values.Keys == was.Keys && deltas.Keys - todo <= was.Keys
        invariant forall name :: name in deltas && name !in todo ==> s.decode(deltas[name]).Some?
        invariant forall name :: name in values ==> values[name].prev == was[name].prev
        invariant forall name :: name in values ==>
          values[name].cur == was[name].cur + if name in todo then 0 else DeltaOf(s, name)(deltas)
        decreases |todo|
      {
        var name: string :| name in todo;
        if name !in values { return false; }
        var delta := s.decode(deltas[name]);
        if delta.None? { return false; }
        values := values[name := values[name].(cur := values[name].cur + delta.value)];
        todo := todo - {name};
      }
      return true;
    }

    /** The loop over the collected steps. */
    method MergeAll<A>(s: Serializer<A>, steps: seq<map<string, A>>) returns (ok: bool)
      modifies this
      ensures ok <==> forall k :: 0 <= k < |steps| ==> Acceptable(s, steps[k], old(values).Keys)
      ensures ok ==> values.Keys == old(values).Keys && forall name :: name in values ==>
        values[name] == Accumulator(old(values)[name].cur + Sum(steps, DeltaOf(s, name)), old(values)[name].prev)
    {
      ghost var was := values;
      var k := 0;
      while k < |steps|
        invariant 0 <= k <= |steps| && values.Keys == was.Keys
        invariant forall j :: 0 <= j < k ==> Acceptable(s, steps[j], was.Keys)
        invariant forall name :: name in values ==>
          values[name] == Accumulator(was[name].cur + Sum(steps[..k], DeltaOf(s, name)), was[name].prev)
      {
        var merged := MergeDeltas(s, steps[k]);
        if !merged { return false; }
        assert steps[..k + 1] == steps[..k] + [steps[k]];
        forall name: string
          ensures Sum(steps[..k + 1], DeltaOf(s, name)) ==
            Sum(steps[..k], DeltaOf(s, name)) + DeltaOf(s, name)(steps[k])
        {
          SumAppend(steps[..k], [steps[k]], DeltaOf(s, name));
        }
        k := k + 1;
      }
      assert steps[..k] == steps;
      return true;
    }

    /** The values, or the deltas, which restarts the deltas. A value that cannot be encoded ends the loop; the deltas
        restarted before it are lost. */
    method Serialize<A>(s: Serializer<A>, deltas: bool) returns (out: map<string, A>, ok: bool)
      modifies this
      ensures ok <==> AllEncodable(s, deltas, old(values))
      ensures PartlyRestarted(deltas, old(values), values)
      ensures ok ==> AllSent(s, deltas, old(values), values, out)
    {
      out := map[];
      var todo := values.Keys;
      ghost var was := values;
      while todo != {}
        invariant Sending(s, deltas, was, todo, values, out)
        decreases |todo|
      {
        var name: string :| name in todo;
        SendOne(s, deltas, was, todo, values, out, name);
        var a := values[name];
        values := values[name := Restarted(a, deltas)];
        todo := todo - {name};
        var sent := s.encode(Shown(a, deltas));
        if sent.None? { return out, false; }
        out := out[name := sent.value];
      }
      SendDone(s, deltas, was, values, out);
      ok := true;
    }

    /** Installs the broadcast values. */
    method SetValues<A>(s: Serializer<A>, global: map<string, A>) returns (ok: bool)
      modifies this
      ensures ok <==> Acceptable(s, global, old(values).Keys)
      ensures values.Keys == old(values).Keys
      ensures forall name :: name in values ==>
        values[name] == old(values)[name] || (name in global && Installed(s, global[name], values[name]))
      ensures ok ==> forall name :: name in values ==>
        if name in global then Installed(s, global[name], values[name]) else values[name] == old(values)[name]
    {
      var todo := global.Keys;
      ghost var was := values;
      while todo != {}
        invariant todo <= global.Keys && values.Keys == was.Keys && global.Keys - todo <= was.Keys
        invariant forall name :: name in global && name !in todo ==> s.decode(global[name]).Some?
        invariant forall name :: name in values ==>
          if name in global && name !in todo then Installed(s, global[name], values[name])
          else values[name] == was[name]
        decreases |todo|
      {
        var name: string :| name in todo;
        if name !in values { return false; }
        var value := s.decode(global[name]);
        if value.None? { return false; }
        values := values[name := Accumulator(value.value, value.value)];
        todo := todo - {name};
      }
      return true;
    }
  }

  predicate Installed<A>(s: Serializer<A>, sent: A, now: Accumulator)
  {
    s.decode(sent).Some? && now == Accumulator(s.decode(sent).value, s.decode(sent).value)
  }

  ghost function Count(): int -> int { x => x }

  method CountActive(own: int, steps: seq<int>) returns (active: int)
    ensures active == own + Sum(steps, Count())
  {
    active := own;
    var k := 0;
    while k < |steps|
      invariant 0 <= k <= |steps| && active == own + Sum(steps[..k], Count())
    {
      assert steps[..k + 1] == steps[..k] + [steps[k]];
      SumAppend(steps[..k], [steps[k]], Count());
      active := active + steps[k];
      k := k + 1;
    }
    assert steps[..k] == steps;
  }

  // ---------- the protocol's steps ----------

  /** The step's values for the registered aggregators, as a serializer that knows them encodes them. */
  predicate Carries<A>(s: Serializer<A>, names: set<string>, step: Step, sent: map<string, A>)
  {
    sent.Keys == names && forall name :: name in names ==> s.decode(sent[name]) == Some(step.totals(name))
  }

  function Actives(collected: seq<(nat, Step)>): seq<int>
  {
    if collected == [] then [] else [collected[0].1.active] + Actives(collected[1..])
  }

  lemma {:induction false} CarriedSum<A>(
      s: Serializer<A>, names: set<string>, collected: seq<(nat, Step)>, sent: seq<map<string, A>>, name: string)
    requires name in names && |sent| == |collected|
    requires forall k :: 0 <= k < |sent| ==> Carries(s, names, collected[k].1, sent[k])
    ensures Sum(sent, DeltaOf(s, name)) == Sum(collected, StepTotal(name))
  {
    if collected != [] { CarriedSum(s, names, collected[1..], sent[1..], name); }
  }

  lemma {:induction false} ActiveSum(collected: seq<(nat, Step)>)
    ensures Sum(Actives(collected), Count()) == Sum(collected, StepActive())
  {
    if collected != [] { ActiveSum(collected[1..]); }
  }

  /** What `Serialize` has sent and left: with `deltas` the change since the last time, which restarts, otherwise the
      value. */
  lemma SerializedValues<A>(
      s: Serializer<A>, deltas: bool, was: map<string, Accumulator>, now: map<string, Accumulator>, out: map<string, A>,
      name: string)
    requires AllSent(s, deltas, was, now, out)
    ensures name in out <==> name in was
    ensures name in was && deltas ==> s.encode(was[name].cur - was[name].prev) == Some(out[name])
    ensures name in was && !deltas ==> s.encode(was[name].cur) == Some(out[name])
    ensures name in was ==> now[name] == if deltas then Accumulator(was[name].cur, was[name].cur) else was[name]
  {
    assert name in was ==> Sent(s, was[name], deltas, out[name], now[name]);
  }

  /** The accumulators hold a worker's current and previous totals. */
  ghost predicate Holds<V, M>(values: map<string, Accumulator>, n: Node<V, M>)
  {
    forall name :: name in values ==> values[name].cur == n.current(name) && values[name].prev == n.previous(name)
  }

  /** What a worker serializes at the POST barrier is what its step in the protocol carries, if the serializer can
      read what it wrote; and what is left in its accumulators is what the protocol leaves in the worker. */
  lemma WorkerCarries<V, M, A>(
      s: Serializer<A>, n: Node<V, M>, was: map<string, Accumulator>, now: map<string, Accumulator>,
      sent: map<string, A>)
    requires n.kind == Post && Holds(was, n) && AllSent(s, true, was, now, sent) && ReadsBack(s)
    ensures Carries(s, was.Keys, EntryStep(n), sent) && Holds(now, DoEnter(n))
  {
  }

  /** What the master serializes is what its broadcast carries, once its accumulators hold the merged totals. */
  lemma MasterCarries<A>(
      s: Serializer<A>, m: Master, was: map<string, Accumulator>, now: map<string, Accumulator>, sent: map<string, A>)
    requires m.kind == Post && (forall name :: name in was ==> was[name].cur == Merged(m)(name))
    requires AllSent(s, false, was, now, sent) && ReadsBack(s)
    ensures Carries(s, was.Keys, BroadcastStep(m), sent) && now == was
  {
  }

  ghost predicate ReadsBack<A>(s: Serializer<A>)
  {
    forall x :: s.encode(x).Some? ==> s.decode(s.encode(x).value) == Some(x)
  }

  /** What a worker installs after the barrier is what the protocol leaves in it. */
  lemma WorkerInstalls<V, M, A>(
      job: Job<V, M>, s: Serializer<A>, n: Node<V, M>, was: map<string, Accumulator>, now: map<string, Accumulator>,
      sent: map<string, A>)
    requires n.kind == Post && n.receiver.Notifying? && Carries(s, was.Keys, n.receiver.step, sent)
    requires now.Keys == was.Keys && forall name :: name in now ==> Installed(s, sent[name], now[name])
    ensures Holds(now, DoLeave(job, n))
  {
  }

  /** Merging the collected steps, as they were sent, into the master's values gives what its broadcast says. */
  lemma MergingIsBroadcast<A>(s: Serializer<A>, names: set<string>, m: Master, sent: seq<map<string, A>>, name: string)
    requires m.kind == Post && name in names && |sent| == |m.collected|
    requires forall k :: 0 <= k < |sent| ==> Carries(s, names, m.collected[k].1, sent[k])
    ensures m.current(name) + Sum(sent, DeltaOf(s, name)) == BroadcastStep(m).totals(name)
  {
    CarriedSum(s, names, m.collected, sent, name);
  }

  /** Counting the collected steps, the master's own graph being empty, gives what its broadcast says. */
  lemma CountingIsBroadcast(m: Master)
    requires m.kind == KeepRunning
    ensures Sum(Actives(m.collected), Count()) == BroadcastStep(m).active
  {
    ActiveSum(m.collected);
  }
}
