/** The local engine: message queues, one superstep over the vertices in any order, and the superstep loop. */
module Engine {
  import opened Sums
  import opened Bsp

  /** The in-memory queue; its iterator hands out the newest message first. */
  class MemoryQueue<M> {
    var msgs: seq<M>
    var latched: Option<M>

    constructor ()
      ensures msgs == [] && latched == None
    {
      msgs := [];
      latched := None;
    }

    method Enqueue(msg: M)
      modifies this`msgs
      ensures msgs == old(msgs) + [msg]
    {
      msgs := msgs + [msg];
    }

    method PendingMessages() returns (pending: bool)
      ensures pending <==> msgs != []
    {
      pending := |msgs| != 0;
    }

    method DiscardMessages()
      modifies this
      ensures msgs == [] && latched == None
    {
      msgs := [];
      latched := None;
    }

    method Next() returns (more: bool)
      modifies this
      ensures more <==> old(msgs) != []
      ensures more ==> latched.Some? && old(msgs) == msgs + [latched.value]
      ensures !more ==> msgs == old(msgs) && latched == old(latched)
    {
      if |msgs| == 0 { return false; }
      latched := Some(msgs[|msgs| - 1]);
      msgs := msgs[..|msgs| - 1];
      return true;
    }

    /** Iterating until Next fails yields every message once, newest first, and leaves the queue empty. */
    method Drain() returns (seen: seq<M>)
      modifies this
      ensures seen == Reverse(old(msgs)) && msgs == []
    {
      seen := [];
      var more := Next();
      if more { ReverseLast(msgs, latched.value); }
      while more
        invariant more ==> latched.Some? && Reverse(old(msgs)) == seen + [latched.value] + Reverse(msgs)
        invariant !more ==> Reverse(old(msgs)) == seen && msgs == []
        decreases |msgs|, more
      {
        seen := seen + [latched.value];
        more := Next();
        if more { ReverseLast(msgs, latched.value); }
      }
    }
  }

  lemma {:induction false} ReverseLast<T>(xs: seq<T>, x: T)
    ensures Reverse(xs + [x]) == [x] + Reverse(xs)
  {
    if xs != [] {
      ReverseLast(xs[1..], x);
      assert (xs + [x])[1..] == xs[1..] + [x];
    }
  }

  // ---------- the graph ----------

  /** `f` over the vertices in `p`. */
  ghost function Among(p: set<Address>, f: Address -> int): Address -> int
  {
    v => if v in p then f(v) else 0
  }

  lemma AmongAdds(vertices: seq<Address>, p: set<Address>, v: Address, f: Address -> int)
    requires Distinct(vertices) && v in vertices && v !in p
    ensures Sum(vertices, Among(p + {v}, f)) == Sum(vertices, Among(p, f)) + f(v)
  {
    var k :| 0 <= k < |vertices| && vertices[k] == v;
    SumChange(vertices, k, Among(p, f), Among(p + {v}, f));
  }

  lemma AmongAll(vertices: seq<Address>, p: set<Address>, f: Address -> int)
    requires forall v :: v in vertices ==> v in p
    ensures Sum(vertices, Among(p, f)) == Sum(vertices, f)
  {
    SumEqual(vertices, Among(p, f), f);
  }

  lemma AmongNone(vertices: seq<Address>, f: Address -> int)
    ensures Sum(vertices, Among({}, f)) == 0
  {
    SumZero(vertices, Among({}, f));
  }

  /** The cell is vertex `v` of the single-graph run before superstep `s`, its other queue empty. */
  ghost predicate Before<V, M>(job: Job<V, M>, s: nat, v: Address, cell: Cell<V, M>)
  {
    && Vertex(cell.value, cell.active) == At(job, s, v)
    && multiset(cell.Queue(s)) == multiset(Inbox(job, s, v))
  }

  /** The cell has been processed in superstep `s`. */
  ghost predicate After<V, M>(job: Job<V, M>, s: nat, v: Address, cell: Cell<V, M>)
  {
    Vertex(cell.value, cell.active) == At(job, s + 1, v) && cell.Queue(s) == []
  }

  /** Every message `v` sends in superstep `s` is for one of `known`. */
  ghost predicate Deliverable<V, M>(job: Job<V, M>, s: nat, v: Address, known: set<Address>)
  {
    forall k :: 0 <= k < |Out(job, s, v)| ==> Out(job, s, v)[k].0 in known
  }

  lemma SameDeliverable<V, M>(job: Job<V, M>, s: nat, v: Address, known: set<Address>, sends: seq<(Address, M)>)
    requires multiset(sends) == multiset(Out(job, s, v))
    ensures Deliverable(job, s, v, known) <==> forall k :: 0 <= k < |sends| ==> sends[k].0 in known
  {
    forall k | 0 <= k < |sends| ensures sends[k] in Out(job, s, v) {
      assert sends[k] in multiset(sends);
    }
    forall k | 0 <= k < |Out(job, s, v)| ensures Out(job, s, v)[k] in sends {
      assert Out(job, s, v)[k] in multiset(Out(job, s, v));
    }
  }

  /** What vertices `p` contribute to superstep `s`, when `v` is added to them. */
  lemma Added<V(!new), M(!new)>(job: Job<V, M>, s: nat, p: set<Address>, v: Address)
    requires Distinct(job.vertices) && v in job.vertices && v !in p
    ensures Sum(job.vertices, Among(p + {v}, Ones(job, s)))
         == Sum(job.vertices, Among(p, Ones(job, s))) + Ones(job, s)(v)
    ensures forall name ::
      Sum(job.vertices, Among(p + {v}, Gives(job, s, name)))
      == Sum(job.vertices, Among(p, Gives(job, s, name))) + Gives(job, s, name)(v)
    ensures forall w, m ::
      Sum(job.vertices, Among(p + {v}, Sends(job, s, (w, m))))
      == Sum(job.vertices, Among(p, Sends(job, s, (w, m)))) + Sends(job, s, (w, m))(v)
  {
    AmongAdds(job.vertices, p, v, Ones(job, s));
    forall name
      ensures Sum(job.vertices, Among(p + {v}, Gives(job, s, name)))
           == Sum(job.vertices, Among(p, Gives(job, s, name))) + Gives(job, s, name)(v)
    {
      AmongAdds(job.vertices, p, v, Gives(job, s, name));
    }
    forall w, m
      ensures Sum(job.vertices, Among(p + {v}, Sends(job, s, (w, m))))
           == Sum(job.vertices, Among(p, Sends(job, s, (w, m)))) + Sends(job, s, (w, m))(v)
    {
      AmongAdds(job.vertices, p, v, Sends(job, s, (w, m)));
    }
  }

  lemma NoneYet<V(!new), M(!new)>(job: Job<V, M>, s: nat)
    ensures Sum(job.vertices, Among({}, Ones(job, s))) == 0
    ensures forall name :: Sum(job.vertices, Among({}, Gives(job, s, name))) == 0
    ensures forall w, m :: Sum(job.vertices, Among({}, Sends(job, s, (w, m)))) == 0
  {
    AmongNone(job.vertices, Ones(job, s));
    forall name ensures Sum(job.vertices, Among({}, Gives(job, s, name))) == 0 {
      AmongNone(job.vertices, Gives(job, s, name));
    }
    forall w, m ensures Sum(job.vertices, Among({}, Sends(job, s, (w, m)))) == 0 {
      AmongNone(job.vertices, Sends(job, s, (w, m)));
    }
  }

  lemma AllDone<V(!new), M(!new)>(job: Job<V, M>, s: nat, p: set<Address>)
    requires forall v :: v in job.vertices ==> v in p
    ensures Sum(job.vertices, Among(p, Ones(job, s))) == Ran(job, s)
    ensures forall name ::
      Total(job, s, name) + Sum(job.vertices, Among(p, Gives(job, s, name))) == Total(job, s + 1, name)
    ensures forall w, m ::
      Sum(job.vertices, Among(p, Sends(job, s, (w, m)))) == multiset(Inbox(job, s + 1, w))[m]
  {
    AmongAll(job.vertices, p, Ones(job, s));
    forall name
      ensures Total(job, s, name) + Sum(job.vertices, Among(p, Gives(job, s, name))) == Total(job, s + 1, name)
    {
      AmongAll(job.vertices, p, Gives(job, s, name));
    }
    forall w, m ensures Sum(job.vertices, Among(p, Sends(job, s, (w, m)))) == multiset(Inbox(job, s + 1, w))[m] {
      AmongAll(job.vertices, p, Sends(job, s, (w, m)));
      InboxCounts(job, s, w, m);
    }
  }

  ghost predicate AllIn<M>(sends: seq<(Address, M)>, known: set<Address>)
  {
    forall k :: 0 <= k < |sends| ==> sends[k].0 in known
  }

  /** How many sends are accepted before one is refused. */
  ghost function Accepted<M>(sends: seq<(Address, M)>, known: set<Address>): (r: nat)
    ensures r <= |sends|
  {
    if sends == [] then 0
    else if AllIn(sends, known) then |sends| else Accepted(sends[..|sends| - 1], known)
  }

  lemma {:induction false} AcceptedAt<M>(sends: seq<(Address, M)>, known: set<Address>, k: nat)
    requires k < |sends| && AllIn(sends[..k], known) && sends[k].0 !in known
    ensures Accepted(sends, known) == k && !AllIn(sends, known)
  {
    if |sends| == k + 1 {
      assert sends[..|sends| - 1] == sends[..k];
    } else {
      assert sends[..|sends| - 1][..k] == sends[..k];
      AcceptedAt(sends[..|sends| - 1], known, k);
    }
  }

  function Enqueue<V, M>(cells: map<Address, Cell<V, M>>, s: nat, p: (Address, M)): map<Address, Cell<V, M>>
  {
    if p.0 !in cells then cells
    else cells[p.0 := cells[p.0].WithQueue(s + 1, cells[p.0].Queue(s + 1) + [p.1])]
  }

  function EnqueueAll<V, M>(cells: map<Address, Cell<V, M>>, s: nat, sends: seq<(Address, M)>)
    : map<Address, Cell<V, M>>
  {
    if sends == [] then cells
    else Enqueue(EnqueueAll(cells, s, sends[..|sends| - 1]), s, sends[|sends| - 1])
  }

  lemma {:induction false} EnqueueAllKeys<V, M>(
      cells: map<Address, Cell<V, M>>, s: nat, sends: seq<(Address, M)>)
    ensures EnqueueAll(cells, s, sends).Keys == cells.Keys
  {
    if sends != [] { EnqueueAllKeys(cells, s, sends[..|sends| - 1]); }
  }

  /** A cell apart from the queue of the next superstep. */
  ghost predicate SameNow<V, M>(s: nat, a: Cell<V, M>, b: Cell<V, M>)
  {
    a.value == b.value && a.active == b.active && a.Queue(s) == b.Queue(s)
  }

  /** Sending touches only the queues of the next superstep, and adds exactly what is sent. */
  lemma {:induction false} EnqueueAllCell<V, M>(
      cells: map<Address, Cell<V, M>>, s: nat, sends: seq<(Address, M)>, w: Address)
    requires w in cells
    ensures w in EnqueueAll(cells, s, sends)
    ensures SameNow(s, EnqueueAll(cells, s, sends)[w], cells[w])
    ensures EnqueueAll(cells, s, sends)[w].Queue(s + 1) == cells[w].Queue(s + 1) + For(sends, w)
  {
    if sends != [] {
      var front, last := sends[..|sends| - 1], sends[|sends| - 1];
      EnqueueAllCell(cells, s, front, w);
      EnqueueOne(EnqueueAll(cells, s, front), s, last, w);
      ForAppend(front, [last], w);
      assert sends == front + [last];
      assert For([last], w) == (if last.0 == w then [last.1] else []) + For([last][1..], w);
    }
  }

  lemma EnqueueOne<V, M>(cells: map<Address, Cell<V, M>>, s: nat, p: (Address, M), w: Address)
    requires w in cells
    ensures w in Enqueue(cells, s, p) && SameNow(s, Enqueue(cells, s, p)[w], cells[w])
    ensures Enqueue(cells, s, p)[w].Queue(s + 1) == cells[w].Queue(s + 1) + if p.0 == w then [p.1] else []
  {
  }

  // ---------- one compute call ----------

  ghost function Call<V, M>(job: Job<V, M>, s: nat, v: Address, cell: Cell<V, M>): Effect<V, M>
  {
    job.compute(s, v, cell.value, Reverse(cell.Queue(s)))
  }

  /** A vertex that is run is active again. */
  function Started<V, M>(cells: map<Address, Cell<V, M>>, v: Address): map<Address, Cell<V, M>>
    requires v in cells
  {
    cells[v := cells[v].(active := true)]
  }

  /** The messages are sent, the value and the flag are set, the inbox is discarded. */
  ghost function AfterCall<V, M>(job: Job<V, M>, s: nat, cells: map<Address, Cell<V, M>>, v: Address)
    : map<Address, Cell<V, M>>
    requires v in cells
  {
    var e := Call(job, s, v, cells[v]);
    var sent := EnqueueAll(Started(cells, v), s, e.sends);
    if v in sent then sent[v := sent[v].(value := e.value, active := !e.frozen).WithQueue(s, [])] else sent
  }

  /** A refused message ends the call before its value and its flag are set; its inbox is kept. */
  ghost function FailedCall<V, M>(job: Job<V, M>, s: nat, cells: map<Address, Cell<V, M>>, v: Address)
    : map<Address, Cell<V, M>>
    requires v in cells
  {
    var e := Call(job, s, v, cells[v]);
    EnqueueAll(Started(cells, v), s, e.sends[..Accepted(e.sends, cells.Keys)])
  }

  lemma CallIsOutcome<V(!new), M(!new)>(job: Job<V, M>, s: nat, v: Address, cell: Cell<V, M>)
    requires OrderInsensitive(job) && Before(job, s, v, cell)
    ensures Runs(job, s, v) <==> cell.active || cell.Queue(s) != []
    ensures SameEffect(Call(job, s, v, cell), Outcome(job, s, v))
  {
    var q := cell.Queue(s);
    ReverseBag(q);
    assert |multiset(q)| == |q| && |multiset(Inbox(job, s, v))| == |Inbox(job, s, v)|;
  }

  lemma AfterCallCell<V(!new), M(!new)>(
      job: Job<V, M>, s: nat, cells: map<Address, Cell<V, M>>, v: Address, w: Address)
    requires v in cells && w in cells
    ensures var after := AfterCall(job, s, cells, v);
      && w in after
      && (w != v ==> SameNow(s, after[w], cells[w]))
      && (w == v ==> after[w].Queue(s) == [] && after[w].value == Call(job, s, v, cells[v]).value
                     && after[w].active == !Call(job, s, v, cells[v]).frozen)
      && after[w].Queue(s + 1) == cells[w].Queue(s + 1) + For(Call(job, s, v, cells[v]).sends, w)
  {
    var e := Call(job, s, v, cells[v]);
    EnqueueAllCell(Started(cells, v), s, e.sends, w);
    EnqueueAllCell(Started(cells, v), s, e.sends, v);
    Drained(EnqueueAll(Started(cells, v), s, e.sends)[v].(value := e.value, active := !e.frozen), s);
  }

  /** A call whose message number `k` is the first to be refused: what was sent before it has arrived, the vertex is
      active, and nothing else has changed. */
  lemma FailedCallCell<V(!new), M(!new)>(
      job: Job<V, M>, s: nat, cells: map<Address, Cell<V, M>>, v: Address, w: Address, k: nat)
    requires v in cells && w in cells && k < |Call(job, s, v, cells[v]).sends|
    requires Call(job, s, v, cells[v]).sends[k].0 !in cells
    requires forall j :: 0 <= j < k ==> Call(job, s, v, cells[v]).sends[j].0 in cells
    ensures var (after, sends) := (FailedCall(job, s, cells, v), Call(job, s, v, cells[v]).sends);
      && after.Keys == cells.Keys && after[w].value == cells[w].value && after[w].Queue(s) == cells[w].Queue(s)
      && after[w].active == (w == v || cells[w].active)
      && after[w].Queue(s + 1) == cells[w].Queue(s + 1) + For(sends[..k], w)
  {
    var sends := Call(job, s, v, cells[v]).sends;
    AcceptedAt(sends, cells.Keys, k);
    EnqueueAllKeys(Started(cells, v), s, sends[..k]);
    EnqueueAllCell(Started(cells, v), s, sends[..k], w);
  }

  lemma Drained<V, M>(cell: Cell<V, M>, s: nat)
    ensures cell.WithQueue(s, []).Queue(s) == [] && cell.WithQueue(s, []).Queue(s + 1) == cell.Queue(s + 1)
    ensures cell.WithQueue(s, []).value == cell.value && cell.WithQueue(s, []).active == cell.active
  {
  }

  lemma CallCounts<V(!new), M(!new)>(job: Job<V, M>, s: nat, v: Address, cell: Cell<V, M>, w: Address, m: M)
    requires OrderInsensitive(job) && Before(job, s, v, cell) && Runs(job, s, v)
    ensures multiset(For(Call(job, s, v, cell).sends, w))[m] == Sends(job, s, (w, m))(v)
  {
    CallIsOutcome(job, s, v, cell);
    ForCounts(Call(job, s, v, cell).sends, w, m);
  }

  /** What one pool worker does with vertex `v`, seen from outside. */
  ghost predicate VertexStep<V, M>(
      job: Job<V, M>, s: nat, v: Address, before: map<Address, Cell<V, M>>, sums: string -> int,
      after: map<Address, Cell<V, M>>, totals: string -> int, ran: bool, ok: bool)
    requires v in before
  {
    && (ran <==> before[v].active || before[v].Queue(s) != [])
    && (!ran ==> ok && after == before && totals == sums)
    && (ran ==> ok == AllIn(Call(job, s, v, before[v]).sends, before.Keys))
    && (ran ==> after == if ok then AfterCall(job, s, before, v) else FailedCall(job, s, before, v))
    && (ran ==> forall name ::
          totals(name) == if ok then sums(name) + Call(job, s, v, before[v]).gives(name) else sums(name))
  }

  // ---------- a superstep in progress ----------

  /** The vertices still to be taken are untouched. */
  ghost predicate Waiting<V, M>(job: Job<V, M>, s: nat, rest: set<Address>, cells: map<Address, Cell<V, M>>)
  {
    forall v :: v in rest ==> v in cells && Before(job, s, v, cells[v])
  }

  /** The vertices taken have done their part, and only theirs has been done. */
  ghost predicate Progress<V, M(!new)>(
      job: Job<V, M>, s: nat, done: set<Address>, cells: map<Address, Cell<V, M>>, totals: string -> int, active: int)
  {
    && (forall v :: v in done ==> v in cells && After(job, s, v, cells[v]))
    && active == Sum(job.vertices, Among(done, Ones(job, s)))
    && (forall name :: totals(name) == Total(job, s, name) + Sum(job.vertices, Among(done, Gives(job, s, name))))
    && forall w, m :: w in cells ==>
         multiset(cells[w].Queue(s + 1))[m] == Sum(job.vertices, Among(done, Sends(job, s, (w, m))))
  }

  lemma RunKeepsWaiting<V(!new), M(!new)>(
      job: Job<V, M>, s: nat, rest: set<Address>, before: map<Address, Cell<V, M>>, v: Address,
      sums: string -> int, after: map<Address, Cell<V, M>>, totals: string -> int, ran: bool, ok: bool)
    requires OrderInsensitive(job) && Waiting(job, s, rest, before) && v in rest
    requires VertexStep(job, s, v, before, sums, after, totals, ran, ok)
    ensures after.Keys == before.Keys && Waiting(job, s, rest - {v}, after)
    ensures ok <==> Deliverable(job, s, v, before.Keys)
    ensures ran <==> Runs(job, s, v)
  {
    var e := Call(job, s, v, before[v]);
    CallIsOutcome(job, s, v, before[v]);
    if ran { SameDeliverable(job, s, v, before.Keys, e.sends); }
    EnqueueAllKeys(Started(before, v), s, e.sends);
    EnqueueAllKeys(Started(before, v), s, e.sends[..Accepted(e.sends, before.Keys)]);
    forall w | w in rest - {v} ensures w in after && Before(job, s, w, after[w]) {
      AfterCallCell(job, s, before, v, w);
      EnqueueAllCell(Started(before, v), s, e.sends[..Accepted(e.sends, before.Keys)], w);
    }
  }

  lemma RunAdds<V(!new), M(!new)>(
      job: Job<V, M>, s: nat, done: set<Address>, before: map<Address, Cell<V, M>>, sums: string -> int, active: int,
      v: Address, after: map<Address, Cell<V, M>>, totals: string -> int, ran: bool)
    requires Distinct(job.vertices) && OrderInsensitive(job) && v in job.vertices && v !in done && v in before
    requires Before(job, s, v, before[v]) && Progress(job, s, done, before, sums, active)
    requires VertexStep(job, s, v, before, sums, after, totals, ran, true) && after.Keys == before.Keys
    ensures Progress(job, s, done + {v}, after, totals, if ran then active + 1 else active)
  {
    Added(job, s, done, v);
    CallIsOutcome(job, s, v, before[v]);
    forall w | w in done + {v} ensures w in after && After(job, s, w, after[w]) {
      RunAddsCell(job, s, done, before, v, after, ran, w);
    }
    forall w, m | w in after
      ensures multiset(after[w].Queue(s + 1))[m] == Sum(job.vertices, Among(done + {v}, Sends(job, s, (w, m))))
    {
      assert multiset(before[w].Queue(s + 1))[m] == Sum(job.vertices, Among(done, Sends(job, s, (w, m))));
      if ran {
        AfterCallCell(job, s, before, v, w);
        CallCounts(job, s, v, before[v], w, m);
      }
    }
  }

  lemma RunAddsCell<V(!new), M(!new)>(
      job: Job<V, M>, s: nat, done: set<Address>, before: map<Address, Cell<V, M>>,
      v: Address, after: map<Address, Cell<V, M>>, ran: bool, w: Address)
    requires OrderInsensitive(job) && v in before && v !in done && w in done + {v}
    requires Before(job, s, v, before[v]) && (w in done ==> w in before && After(job, s, w, before[w]))
    requires ran <==> Runs(job, s, v)
    requires !ran ==> after == before
    requires ran ==> after == AfterCall(job, s, before, v)
    ensures w in after && After(job, s, w, after[w])
  {
    CallIsOutcome(job, s, v, before[v]);
    if ran { AfterCallCell(job, s, before, v, w); }
  }

  /** The whole state of a superstep in progress. */
  ghost predicate Underway<V, M(!new)>(
      job: Job<V, M>, s: nat, known: set<Address>, rest: set<Address>,
      cells: map<Address, Cell<V, M>>, totals: string -> int, active: int, ok: bool)
  {
    && cells.Keys == known && rest <= known && (forall v :: v in known <==> v in job.vertices)
    && (ok <==> forall v :: v in known - rest ==> Deliverable(job, s, v, known))
    && Waiting(job, s, rest, cells)
    && (ok ==> Progress(job, s, known - rest, cells, totals, active))
  }

  /** Every vertex and every aggregate is as in the single-graph run before superstep `s`. */
  ghost predicate AsBefore<V, M(!new)>(
      job: Job<V, M>, s: nat, cells: map<Address, Cell<V, M>>, totals: string -> int)
  {
    && (forall v :: v in cells <==> v in job.vertices)
    && (forall v :: v in cells ==> Before(job, s, v, cells[v]) && cells[v].Queue(s + 1) == [])
    && forall name :: totals(name) == Total(job, s, name)
  }

  lemma Begin<V(!new), M(!new)>(
      job: Job<V, M>, s: nat, cells: map<Address, Cell<V, M>>, totals: string -> int)
    requires AsBefore(job, s, cells, totals)
    ensures Underway(job, s, cells.Keys, cells.Keys, cells, totals, 0, true)
  {
    NoneYet(job, s);
    assert cells.Keys - cells.Keys == {};
  }

  lemma Take<V(!new), M(!new)>(
      job: Job<V, M>, s: nat, known: set<Address>, rest: set<Address>, before: map<Address, Cell<V, M>>,
      sums: string -> int, active: int, ok: bool, v: Address,
      after: map<Address, Cell<V, M>>, totals: string -> int, ran: bool, fine: bool)
    requires Distinct(job.vertices) && OrderInsensitive(job)
    requires Underway(job, s, known, rest, before, sums, active, ok) && v in rest && v in before
    requires VertexStep(job, s, v, before, sums, after, totals, ran, fine)
    ensures Underway(job, s, known, rest - {v}, after, totals, if ran then active + 1 else active, ok && fine)
  {
    var done := known - rest;
    assert known - (rest - {v}) == done + {v};
    RunKeepsWaiting(job, s, rest, before, v, sums, after, totals, ran, fine);
    if ok && fine { RunAdds(job, s, done, before, sums, active, v, after, totals, ran); }
  }

  /** Every vertex and every aggregate is as in the single-graph run after superstep `s`. */
  ghost predicate Computed<V, M>(job: Job<V, M>, s: nat, cells: map<Address, Cell<V, M>>, totals: string -> int)
  {
    && (forall v :: v in cells <==> v in job.vertices)
    && (forall v :: v in cells ==> Before(job, s + 1, v, cells[v]) && cells[v].Queue(s) == [])
    && forall name :: totals(name) == Total(job, s + 1, name)
  }

  lemma End<V(!new), M(!new)>(
      job: Job<V, M>, s: nat, known: set<Address>, cells: map<Address, Cell<V, M>>, totals: string -> int,
      active: int, ok: bool)
    requires Underway(job, s, known, {}, cells, totals, active, ok)
    ensures ok <==> forall v :: v in job.vertices ==> Deliverable(job, s, v, known)
    ensures ok ==> active == Ran(job, s) && Computed(job, s, cells, totals)
  {
    assert known - {} == known;
    if ok { StepDone(job, s, known, cells, totals, active); }
  }

  lemma StepDone<V(!new), M(!new)>(
      job: Job<V, M>, s: nat, done: set<Address>, cells: map<Address, Cell<V, M>>, totals: string -> int, active: int)
    requires Progress(job, s, done, cells, totals, active) && done == cells.Keys
    requires forall v :: v in job.vertices ==> v in done
    ensures active == Ran(job, s)
    ensures forall v :: v in cells ==> Before(job, s + 1, v, cells[v]) && cells[v].Queue(s) == []
    ensures forall name :: totals(name) == Total(job, s + 1, name)
  {
    AllDone(job, s, done);
    forall v | v in cells ensures Before(job, s + 1, v, cells[v]) {
      var a, b := multiset(cells[v].Queue(s + 1)), multiset(Inbox(job, s + 1, v));
      forall m ensures a[m] == b[m] {
        assert Sum(job.vertices, Among(done, Sends(job, s, (v, m)))) == b[m];
      }
    }
  }

  /** Two supersteps share a queue. */
  lemma Turn<V, M(!new)>(
      job: Job<V, M>, s: nat, t: nat, cells: map<Address, Cell<V, M>>, totals: string -> int)
    requires t == s + 1 && Computed(job, s, cells, totals)
    ensures AsBefore(job, t, cells, totals)
  {
    forall v | v in cells ensures Before(job, t, v, cells[v]) && cells[v].Queue(t + 1) == [] {
      TurnCell(job, s, t, v, cells[v]);
    }
  }

  lemma TurnCell<V, M>(job: Job<V, M>, s: nat, t: nat, v: Address, cell: Cell<V, M>)
    requires t == s + 1 && Before(job, s + 1, v, cell) && cell.Queue(s) == []
    ensures Before(job, t, v, cell) && cell.Queue(t + 1) == []
  {
    assert t % 2 == (s + 1) % 2 && (t + 1) % 2 == s % 2;
  }

  class Graph<V(!new), M(!new)> {
    const job: Job<V, M>
    var superstep: nat
    var cells: map<Address, Cell<V, M>>
    var totals: string -> int

    /** The graph is about to compute superstep `s`. */
    ghost predicate Matches(s: nat)
      reads this
    {
      superstep == s && AsBefore(job, s, cells, totals)
    }

    /** Superstep `s` has been computed; the counter has not moved on yet. */
    ghost predicate Stepped(s: nat)
      reads this
    {
      Computed(job, s, cells, totals)
    }

    constructor (job: Job<V, M>)
      ensures this.job == job && Matches(0)
    {
      this.job := job;
      superstep := 0;
      cells := map v | v in job.vertices :: Cell(job.initial(v), true, [], []);
      totals := job.start;
    }

    /** A message for a known vertex is queued for the next superstep; any other is refused. */
    method SendMessage(dst: Address, msg: M) returns (ok: bool)
      modifies this`cells
      ensures ok <==> dst in old(cells)
      ensures !ok ==> cells == old(cells)
      ensures ok ==> var was := old(cells)[dst];
        cells == old(cells)[dst := was.WithQueue(superstep + 1, was.Queue(superstep + 1) + [msg])]
    {
      if dst !in cells { return false; }
      var cell := cells[dst];
      cells := cells[dst := cell.WithQueue(superstep + 1, cell.Queue(superstep + 1) + [msg])];
      return true;
    }

    /** The sends of one compute call, up to the first that is refused. */
    method SendAll(sends: seq<(Address, M)>) returns (ok: bool)
      modifies this`cells
      ensures ok <==> AllIn(sends, old(cells.Keys))
      ensures ok ==> cells == EnqueueAll(old(cells), superstep, sends)
      ensures cells == EnqueueAll(old(cells), superstep, sends[..Accepted(sends, old(cells.Keys))])
    {
      for k := 0 to |sends|
        invariant AllIn(sends[..k], old(cells.Keys)) && cells.Keys == old(cells.Keys)
        invariant cells == EnqueueAll(old(cells), superstep, sends[..k])
      {
        assert sends[..k + 1][..k] == sends[..k];
        ok := SendMessage(sends[k].0, sends[k].1);
        if !ok {
          AcceptedAt(sends, old(cells.Keys), k);
          return;
        }
        EnqueueAllKeys(old(cells), superstep, sends[..k + 1]);
      }
      assert sends[..|sends|] == sends;
      ok := true;
    }

    /** What one pool worker does with one vertex. */
    method RunVertex(v: Address) returns (ran: bool, ok: bool)
      requires v in cells
      modifies this`cells, this`totals
      ensures VertexStep(job, superstep, v, old(cells), old(totals), cells, totals, ran, ok)
    {
      var cell := cells[v];
      if !cell.active && |cell.Queue(superstep)| == 0 { return false, true; }
      ok := CallCompute(v);
      ran := true;
    }

    /** A refused message ends the call: what it was to set and to aggregate afterwards is left undone. */
    method CallCompute(v: Address) returns (ok: bool)
      requires v in cells
      modifies this`cells, this`totals
      ensures ok == AllIn(Call(job, superstep, v, old(cells)[v]).sends, old(cells.Keys))
      ensures ok ==> cells == AfterCall(job, superstep, old(cells), v)
      ensures !ok ==> cells == FailedCall(job, superstep, old(cells), v) && totals == old(totals)
      ensures ok ==> forall name ::
        totals(name) == old(totals)(name) + Call(job, superstep, v, old(cells)[v]).gives(name)
    {
      ghost var start := cells;
      cells := Started(cells, v);
      var e := job.compute(superstep, v, cells[v].value, Reverse(cells[v].Queue(superstep)));
      assert cells.Keys == start.Keys && cells[v].Queue(superstep) == start[v].Queue(superstep);
      assert e == Call(job, superstep, v, start[v]);
      ghost var started := cells;
      ok := SendAll(e.sends);
      EnqueueAllKeys(started, superstep, e.sends);
      if !ok { return; }
      cells := cells[v := cells[v].(value := e.value, active := !e.frozen).WithQueue(superstep, [])];
      var before := totals;
      totals := name => before(name) + e.gives(name);
    }

    /** One superstep: the vertices are taken in an arbitrary order. */
    method Step() returns (active: int, ok: bool)
      requires Distinct(job.vertices) && OrderInsensitive(job) && Matches(superstep)
      modifies this`cells, this`totals
      ensures ok <==> forall v :: v in job.vertices ==> Deliverable(job, superstep, v, old(cells.Keys))
      ensures ok ==> active == Ran(job, superstep) && Stepped(superstep)
    {
      ghost var s := superstep;
      ghost var known := cells.Keys;
      var rest := cells.Keys;
      active, ok := 0, true;
      Starting();
      while rest != {}
        invariant Underway(job, s, known, rest, cells, totals, active, ok)
        decreases rest
      {
        var v :| v in rest;
        ghost var before, sums, count, sofar := cells, totals, active, ok;
        var ran, fine := RunVertex(v);
        ok := ok && fine;
        if ran { active := active + 1; }
        Take(job, s, known, rest, before, sums, count, sofar, v, cells, totals, ran, fine);
        rest := rest - {v};
      }
      Ending(known, active, ok);
    }

    lemma Starting()
      requires Matches(superstep)
      ensures Underway(job, superstep, cells.Keys, cells.Keys, cells, totals, 0, true)
    {
      Begin(job, superstep, cells, totals);
    }

    lemma Ending(known: set<Address>, active: int, ok: bool)
      requires Underway(job, superstep, known, {}, cells, totals, active, ok)
      ensures ok <==> forall v :: v in job.vertices ==> Deliverable(job, superstep, v, known)
      ensures ok ==> active == Ran(job, superstep) && Stepped(superstep)
    {
      End(job, superstep, known, cells, totals, active, ok);
    }

    /** The counter moves on; the other queue is the next one. */
    method Advance()
      requires Stepped(superstep)
      modifies this`superstep
      ensures superstep == old(superstep) + 1 && Matches(superstep)
    {
      ghost var s := superstep;
      superstep := superstep + 1;
      Turn(job, s, superstep, cells, totals);
    }
  }

  /** Nothing failed in the supersteps before `s`. */
  ghost predicate Undisturbed(before: nat -> bool, after: nat -> bool, s: nat)
  {
    forall t :: 0 <= t < s ==> !before(t) && !after(t)
  }

  /** Every superstep before `s` is followed by another one. */
  ghost predicate KeepsUntil<V, M>(job: Job<V, M>, s: nat) { forall t: nat :: t < s ==> Keeps(job, t) }

  class Executor<V(!new), M(!new)> {
    const g: Graph<V, M>

    constructor (g: Graph<V, M>)
      ensures this.g == g
    {
      this.g := g;
    }

    /** Runs supersteps until the stop test fails, `maxSteps` are done or something fails: `before` says in which
        supersteps the context has expired or PreStep fails, `after` in which PostStep or the stop test fails. A
        negative `maxSteps` is no bound, and then the job must be one that stops. */
    method Run(maxSteps: int, before: nat -> bool, after: nat -> bool, ghost last: nat) returns (ok: bool)
      requires Distinct(g.job.vertices) && OrderInsensitive(g.job) && g.Matches(0)
      requires maxSteps < 0 ==> LastSuperstep(g.job, last)
      modifies g
      ensures ValidDestinations(g.job) && !ok ==>
        || (before(g.superstep) && g.Matches(g.superstep))
        || (!before(g.superstep) && after(g.superstep) && g.Stepped(g.superstep))
      ensures ok ==> Undisturbed(before, after, g.superstep)
      ensures ok && LastSuperstep(g.job, last) && (maxSteps < 0 || last < maxSteps) ==>
        g.superstep == last && g.Stepped(last) && !before(last) && !after(last)
      ensures ok && 0 <= maxSteps && KeepsUntil(g.job, maxSteps) ==> g.Matches(maxSteps)
    {
      var left := maxSteps;
      while left != 0
        invariant g.Matches(g.superstep) && KeepsUntil(g.job, g.superstep)
        invariant left == maxSteps - g.superstep
        invariant maxSteps < 0 || 0 <= left
        invariant maxSteps < 0 ==> g.superstep <= last
        invariant Undisturbed(before, after, g.superstep)
        decreases if maxSteps < 0 then last - g.superstep else left
      {
        ghost var s := g.superstep;
        if before(g.superstep) { return false; }
        var active, fine := g.Step();
        if !fine { return false; }
        assert active == Ran(g.job, s);
        if after(g.superstep) { return false; }
        var keep := g.job.keepRunning(g.superstep, active);
        assert keep <==> Keeps(g.job, s);
        if !keep { return true; }
        assert maxSteps < 0 ==> s != last;
        g.Advance();
        left := left - 1;
      }
      ok := true;
    }
  }
}
