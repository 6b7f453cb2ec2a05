/** Each event of the cache keeps the invariant. */
module CacheSteps {
  import opened CacheProtocol
  import opened CacheInvariant

  // ---------- steps that change one writer's place only ----------

  /** Everything but the writers and what is accepted stays. */
  ghost predicate OnlyWriters(st: State, next: State)
  {
    && next.db == st.db && next.left == st.left
    && next.blocks == st.blocks && next.txs == st.txs && next.wallets == st.wallets
  }

  lemma PlaceKeeps(c: Config, f: Faults, st: State, next: State, i: nat, t: Table)
    requires Inv(c, f, st) && StepOf(st, next, i) && TakesFree(st, next, i, t) && OnlyWriters(st, next)
    requires WriterShape(c, next, next.writers[i])
    requires !f.hidden ==> WriterKept(c, next, next.writers[i]) && AllPresent(next, next.accepted)
    ensures Inv(c, f, next)
  {
    assert forall u :: next.CacheOf(u) == st.CacheOf(u);
    ShapeStep(c, st, next, i, t);
    if !f.hidden {
      forall u ensures ListKept(c, next, u) { ListStays(c, st, next, u); }
      KeptStep(c, st, next, i);
      forall u | u !in f.late ensures Grounded(c, next, u) { assert Grounded(c, st, u); }
    }
  }

  lemma CallKeeps(c: Config, f: Faults, st: State, i: nat, op: Table, items: seq<Row>)
    requires Inv(c, f, st) && Enabled(c, st, Call(i, op, items))
    ensures Inv(c, f, Apply(c, st, Call(i, op, items)))
  {
    var next := Apply(c, st, Call(i, op, items));
    assert forall k :: 0 <= k < |items| ==> items[k] in items;
    PlaceKeeps(c, f, st, next, i, op);
  }

  /** Every row of a list is in one of its slices. */
  lemma SlicesCover(c: Config, t: Table, l: seq<Row>)
    ensures forall k: nat :: k < |l| ==> InSlices(Slices(c, t, l), k)
  {
    forall k: nat | k < |l| ensures InSlices(Slices(c, t, l), k) {
      Batches.CutsCover(0, |l|, c.batch(t), k);
      var s :| s in Batches.Cuts(0, |l|, c.batch(t)) && s.0 <= k < s.1;
      assert s in Slices(c, t, l);
    }
  }

  lemma AcquireKeeps(c: Config, f: Faults, st: State, i: nat)
    requires Inv(c, f, st) && Enabled(c, st, Acquire(i))
    ensures Inv(c, f, Apply(c, st, Acquire(i)))
  {
    var pc, next := st.writers[i], Apply(c, st, Acquire(i));
    assert WriterShape(c, st, pc) && (!f.hidden ==> WriterKept(c, st, pc));
    SlicesCover(c, Wallets, st.wallets.list);
    PlaceKeeps(c, f, st, next, i, if pc.Entering? then pc.op else pc.next);
  }

  lemma PutAll(c: Config, st: State, op: Table, items: seq<Row>, put: nat)
    requires WriterKept(c, st, Inside(op, items, put)) && put >= |items|
    ensures AllPresent(st, Keys(items))
  {
    forall k | k in Keys(items) ensures Present(st, k) {
      var j :| 0 <= j < |items| && KeyOf(items[j]) == k;
      assert Present(st, KeyOf(items[j]));
    }
  }

  /** Where a writer goes once its items are put. */
  lemma DecidedOk(c: Config, st: State, next: State, pc: Pc, op: Table, items: seq<Row>)
    requires OnlyWriters(st, next)
    requires pc == Idle || pc == StartFlush(c, st, op, items) || pc == Locking(op, items, After(op))
    requires pc.Locking? ==> op != Wallets
    ensures WriterShape(c, next, pc)
    ensures AllPresent(st, Keys(items)) ==> WriterKept(c, next, pc)
  {
    SlicesCover(c, Wallets, st.wallets.list);
  }

  lemma DecideKeeps(c: Config, f: Faults, st: State, i: nat)
    requires Inv(c, f, st) && Enabled(c, st, Decide(i))
    ensures Inv(c, f, Apply(c, st, Decide(i)))
  {
    var pc, next := st.writers[i], Apply(c, st, Decide(i));
    assert WriterShape(c, st, pc);
    if !f.hidden {
      PutAll(c, st, pc.op, pc.items, pc.put);
      assert next.accepted <= st.accepted + Keys(pc.items);
    }
    DecidedOk(c, st, next, next.writers[i], pc.op, pc.items);
    PlaceKeeps(c, f, st, next, i, pc.op);
  }

  lemma HideKeeps(c: Config, f: Faults, st: State, i: nat, s: (nat, nat))
    requires Inv(c, f, st) && Enabled(c, st, Hide(i, s)) && f.hidden
    ensures Inv(c, f, Apply(c, st, Hide(i, s)))
  {
    assert WriterShape(c, st, st.writers[i]);
    PlaceKeeps(c, f, st, Apply(c, st, Hide(i, s)), i, Blocks);
  }

  // ---------- putting an item ----------

  lemma AddOneOk(c: Config, l: CacheList, r: Row, t: Table)
    requires CacheOk(l, t) && TableOf(r) == t
    ensures CacheOk(AddOne(c, l, r), t)
    ensures Keys(AddOne(c, l, r).list) == Keys(l.list) + {KeyOf(r)}
    ensures AddOne(c, l, r).list == l.list || AddOne(c, l, r).list == l.list + [r]
  {
    assert forall k :: 0 <= k < |l.list| ==> l.list[k] in l.list && KeyOf(l.list[k]) in Keys(l.list);
    assert Keys(l.list + [r]) == Keys(l.list) + {KeyOf(r)};
  }

  lemma AddOneFollows(c: Config, l: CacheList, r: Row, z: Leftover)
    requires Fits(l, z)
    ensures Follows(l, AddOne(c, l, r), z)
  {
    AppendFollows(l, r, c.grown, z);
  }

  /** What a step that replaces one cache by another and moves one writer needs to keep the shape. */
  lemma CacheShape(c: Config, st: State, next: State, i: nat, t: Table)
    requires Shape(c, st) && StepOf(st, next, i) && TakesFree(st, next, i, t) && next.left == st.left
    requires next.db == st.db && WriterShape(c, next, next.writers[i])
    requires CacheOk(next.CacheOf(t), t) && forall u :: u != t ==> next.CacheOf(u) == st.CacheOf(u)
    requires forall z :: 0 <= z < |st.left| && st.left[z].table == t ==>
      Follows(st.CacheOf(t), next.CacheOf(t), st.left[z])
    ensures Shape(c, next)
  {
    forall z | 0 <= z < |st.left| ensures Fits(next.CacheOf(st.left[z].table), st.left[z]) {
      assert Fits(st.CacheOf(st.left[z].table), st.left[z]);
      if st.left[z].table == t { assert Follows(st.CacheOf(t), next.CacheOf(t), st.left[z]); }
    }
    forall u ensures CacheOk(next.CacheOf(u), u) { assert CacheOk(st.CacheOf(u), u); }
    ShapeStep(c, st, next, i, t);
  }

  lemma CacheGrounded(c: Config, st: State, next: State, t: Table, u: Table)
    requires Shape(c, st) && next.left == st.left && next.db == st.db
    requires forall v :: v != t ==> next.CacheOf(v) == st.CacheOf(v)
    requires forall z :: 0 <= z < |st.left| && st.left[z].table == t ==>
      Follows(st.CacheOf(t), next.CacheOf(t), st.left[z])
    requires Grounded(c, st, u)
    ensures Grounded(c, next, u)
  {
    forall z | 0 <= z < |st.left| && st.left[z].table == u ensures Follows(st.CacheOf(u), next.CacheOf(u), st.left[z]) {
      assert Fits(st.CacheOf(u), st.left[z]);
    }
    GroundedStep(c, st, next, u);
  }

  lemma PutFollows(c: Config, st: State, t: Table, r: Row)
    requires Shape(c, st)
    ensures forall z :: 0 <= z < |st.left| && st.left[z].table == t ==>
      Follows(st.CacheOf(t), AddOne(c, st.CacheOf(t), r), st.left[z])
  {
    forall z | 0 <= z < |st.left| && st.left[z].table == t
      ensures Follows(st.CacheOf(t), AddOne(c, st.CacheOf(t), r), st.left[z])
    {
      assert Fits(st.CacheOf(t), st.left[z]);
      AddOneFollows(c, st.CacheOf(t), r, st.left[z]);
    }
  }

  /** The state once an item is in the list. */
  lemma PutKept(c: Config, st: State, next: State, i: nat, t: Table, items: seq<Row>, put: nat)
    requires Shape(c, st) && Kept(c, st) && StepOf(st, next, i) && next.db == st.db && next.accepted == st.accepted
    requires st.writers[i] == Inside(t, items, put) && put < |items|
    requires next.writers[i] == Inside(t, items, put + 1) && next.CacheOf(t) == AddOne(c, st.CacheOf(t), items[put])
    requires forall u :: u != t ==> next.CacheOf(u) == st.CacheOf(u)
    ensures Kept(c, next)
  {
    assert WriterShape(c, st, st.writers[i]) && WriterKept(c, st, st.writers[i]);
    AddOneOk(c, st.CacheOf(t), items[put], t);
    forall k | Present(st, k) ensures Present(next, k) {
      assert TableOfKey(k) != t ==> next.CacheOf(TableOfKey(k)) == st.CacheOf(TableOfKey(k));
    }
    assert items[put] in items && Present(next, KeyOf(items[put]));
    assert ListKept(c, st, t) && NeedsPresent(c, st, items);
    forall k | 0 <= k < |next.List(t)| ensures AllPresent(next, Needs(c, next.List(t)[k])) {
      assert k < |st.List(t)| ==> next.List(t)[k] == st.List(t)[k] && AllPresent(st, Needs(c, st.List(t)[k]));
      assert k >= |st.List(t)| ==> next.List(t)[k] == items[put] && AllPresent(st, Needs(c, items[put]));
    }
    forall u ensures ListKept(c, next, u) {
      if u != t { ListStays(c, st, next, u); }
    }
    KeptStep(c, st, next, i);
  }

  lemma PutKeeps(c: Config, f: Faults, st: State, i: nat)
    requires Inv(c, f, st) && Enabled(c, st, Put(i))
    ensures Inv(c, f, Apply(c, st, Put(i)))
  {
    var pc, next := st.writers[i], Apply(c, st, Put(i));
    var t, r := pc.op, pc.items[pc.put];
    assert WriterShape(c, st, pc);
    AddOneOk(c, st.CacheOf(t), r, t);
    PutFollows(c, st, t, r);
    assert next.CacheOf(t) == AddOne(c, st.CacheOf(t), r) && forall u :: u != t ==> next.CacheOf(u) == st.CacheOf(u);
    CacheShape(c, st, next, i, t);
    if !f.hidden {
      PutKept(c, st, next, i, t, pc.items, pc.put);
      forall u | u !in f.late ensures Grounded(c, next, u) { CacheGrounded(c, st, next, t, u); }
    }
  }

  // ---------- writing a slice ----------

  /** A row being flushed needs nothing that is not stored: the lists flushed before its own are empty. */
  lemma NeedsStored(c: Config, st: State, i: nat, k: nat)
    requires Shape(c, st) && Kept(c, st) && i < |st.writers| && st.writers[i].Flushing?
    requires k < |st.List(st.writers[i].table)|
    ensures Needs(c, st.List(st.writers[i].table)[k]) <= st.db.Keys
  {
    var pc := st.writers[i];
    assert WriterShape(c, st, pc) && ListKept(c, st, pc.table) && CacheOk(st.CacheOf(pc.table), pc.table);
    forall x | x in Needs(c, st.List(pc.table)[k]) ensures x in st.db.Keys {
      assert Present(st, x) && st.List(TableOfKey(x)) == [];
    }
  }

  lemma StatementNeeds(c: Config, st: State, i: nat, s: (nat, nat))
    requires Shape(c, st) && Kept(c, st) && Pending(st, i, s)
    ensures forall r :: r in Statement(st, i, s) ==> Needs(c, r) <= st.db.Keys && References(r) <= st.db.Keys
  {
    var l := st.List(st.writers[i].table);
    forall r | r in Statement(st, i, s) ensures Needs(c, r) <= st.db.Keys && References(r) <= st.db.Keys {
      var k: nat :| k < |l| && l[k] == r;
      NeedsStored(c, st, i, k);
    }
  }

  lemma {:induction false} StoreAllOk(db: map<Key, Row>, rows: seq<Row>)
    requires DbShape(db) && Legal(db, rows)
    ensures DbShape(StoreAll(db, rows)) && StoreAll(db, rows).Keys == db.Keys + Keys(rows)
    ensures forall k :: k in StoreAll(db, rows) ==>
      StoreAll(db, rows)[k] in rows || (k in db && StoreAll(db, rows)[k] == db[k])
    decreases |rows|
  {
    if rows != [] {
      var r := rows[0];
      assert rows == [r] + rows[1..];
      StoreAllOk(db[KeyOf(r) := r], rows[1..]);
    }
  }

  lemma WriteShape(c: Config, st: State, i: nat, s: (nat, nat))
    requires Shape(c, st) && Enabled(c, st, Write(i, s))
    ensures Shape(c, Apply(c, st, Write(i, s)))
  {
    var next := Apply(c, st, Write(i, s));
    assert WriterShape(c, st, st.writers[i]);
    StoreAllOk(st.db, Statement(st, i, s));
    assert forall u :: next.CacheOf(u) == st.CacheOf(u);
    ShapeStep(c, st, next, i, Blocks);
  }

  /** What was written, and what need not be. */
  lemma WrittenRows(l: seq<Row>, todo: set<(nat, nat)>, s: (nat, nat), db: map<Key, Row>, now: map<Key, Row>)
    requires s.0 <= s.1 <= |l| && now.Keys == db.Keys + Keys(RowsOf(l, s))
    requires forall k: nat :: k < |l| && !InSlices(todo, k) ==> KeyOf(l[k]) in db
    ensures forall k: nat :: k < |l| && !InSlices(todo - {s}, k) ==> KeyOf(l[k]) in now
  {
    forall k: nat | k < |l| && !InSlices(todo - {s}, k) ensures KeyOf(l[k]) in now {
      if InSlices(todo, k) {
        assert s.0 <= k < s.1 && RowsOf(l, s)[k - s.0] == l[k];
        assert l[k] in RowsOf(l, s);
      }
    }
  }

  lemma WriteKept(c: Config, st: State, i: nat, s: (nat, nat))
    requires Shape(c, st) && Kept(c, st) && Enabled(c, st, Write(i, s))
    ensures Kept(c, Apply(c, st, Write(i, s)))
  {
    var pc, next := st.writers[i], Apply(c, st, Write(i, s));
    var l := st.List(pc.table);
    assert WriterKept(c, st, pc) && WriterShape(c, st, pc);
    Batches.CutsBound(0, |l|, c.batch(pc.table), s);
    StoreAllKeys(st.db, Statement(st, i, s));
    WrittenRows(l, pc.todo, s, st.db, next.db);
    assert forall u :: next.CacheOf(u) == st.CacheOf(u);
    forall u ensures ListKept(c, next, u) { ListStays(c, st, next, u); }
    KeptStep(c, st, next, i);
  }

  lemma WriteKeeps(c: Config, f: Faults, st: State, i: nat, s: (nat, nat))
    requires Inv(c, f, st) && Enabled(c, st, Write(i, s))
    ensures Inv(c, f, Apply(c, st, Write(i, s)))
  {
    WriteShape(c, st, i, s);
    if !f.hidden {
      var next := Apply(c, st, Write(i, s));
      WriteKept(c, st, i, s);
      StatementNeeds(c, st, i, s);
      StoreAllOk(st.db, Statement(st, i, s));
      forall u | u !in f.late ensures Grounded(c, next, u) {
        assert next.CacheOf(u) == st.CacheOf(u) && Grounded(c, st, u);
        GroundedStep(c, st, next, u);
      }
    }
  }

  // ---------- the end of a table's flush ----------

  lemma EmptiedFollows(c: Config, st: State, t: Table)
    requires Shape(c, st)
    ensures forall z :: 0 <= z < |st.left| && st.left[z].table == t ==>
      Follows(st.CacheOf(t), st.CacheOf(t).Reset(), st.left[z])
  {
    forall z | 0 <= z < |st.left| && st.left[z].table == t
      ensures Follows(st.CacheOf(t), st.CacheOf(t).Reset(), st.left[z])
    {
      assert Fits(st.CacheOf(t), st.left[z]);
      ResetFollows(st.CacheOf(t), st.left[z]);
    }
  }

  lemma FlushedKept(c: Config, st: State, next: State, i: nat, t: Table)
    requires Shape(c, st) && Kept(c, st) && StepOf(st, next, i) && next.db == st.db
    requires st.writers[i].Flushing? && st.writers[i].table == t && st.writers[i].todo == {} && next.List(t) == []
    requires forall u :: u != t ==> next.CacheOf(u) == st.CacheOf(u)
    requires next.accepted <= st.accepted + Keys(st.writers[i].items)
    requires next.writers[i] == Idle || (t != Blocks && next.writers[i] ==
      Flushing(st.writers[i].op, st.writers[i].items, Before(t), Slices(c, Before(t), st.List(Before(t)))))
    ensures Kept(c, next)
  {
    assert WriterShape(c, st, st.writers[i]) && WriterKept(c, st, st.writers[i]);
    SlicesCover(c, Before(t), st.List(Before(t)));
    assert forall j: nat :: j < |st.List(t)| ==> KeyOf(st.List(t)[j]) in st.db;
    assert forall k :: k in Keys(st.List(t)) ==> k in st.db;
    assert Grows(st, next);
    forall u ensures ListKept(c, next, u) { if u != t { ListStays(c, st, next, u); } }
    KeptStep(c, st, next, i);
  }

  lemma FlushedShape(c: Config, st: State, i: nat)
    requires Shape(c, st) && Enabled(c, st, Flushed(i))
    ensures Shape(c, Apply(c, st, Flushed(i)))
  {
    var pc, next := st.writers[i], Apply(c, st, Flushed(i));
    var t := pc.table;
    assert WriterShape(c, st, pc) && CacheOk(st.CacheOf(t), t);
    EmptiedFollows(c, st, t);
    FlushedOthers(c, st, i);
    CacheShape(c, st, next, i, t);
  }

  lemma FlushedOthers(c: Config, st: State, i: nat)
    requires Enabled(c, st, Flushed(i))
    ensures var t, next := st.writers[i].table, Apply(c, st, Flushed(i));
      next.CacheOf(t) == st.CacheOf(t).Reset() && forall u :: u != t ==> next.CacheOf(u) == st.CacheOf(u)
  {
  }

  lemma FlushedGrounded(c: Config, st: State, i: nat, u: Table)
    requires Shape(c, st) && Enabled(c, st, Flushed(i)) && Grounded(c, st, u)
    ensures Grounded(c, Apply(c, st, Flushed(i)), u)
  {
    FlushedOthers(c, st, i);
    EmptiedFollows(c, st, st.writers[i].table);
    CacheGrounded(c, st, Apply(c, st, Flushed(i)), st.writers[i].table, u);
  }

  lemma FlushedKeeps(c: Config, f: Faults, st: State, i: nat)
    requires Inv(c, f, st) && Enabled(c, st, Flushed(i))
    ensures Inv(c, f, Apply(c, st, Flushed(i)))
  {
    FlushedShape(c, st, i);
    if !f.hidden {
      FlushedOthers(c, st, i);
      FlushedKept(c, st, Apply(c, st, Flushed(i)), i, st.writers[i].table);
      forall u | u !in f.late ensures Grounded(c, Apply(c, st, Flushed(i)), u) { FlushedGrounded(c, st, i, u); }
    }
  }

  // ---------- a flush that fails ----------

  lemma FailShape(c: Config, st: State, i: nat, slices: seq<(nat, nat)>)
    requires Shape(c, st) && Enabled(c, st, Fail(i, slices))
    ensures Shape(c, Apply(c, st, Fail(i, slices)))
  {
    var pc, next := st.writers[i], Apply(c, st, Fail(i, slices));
    assert WriterShape(c, st, pc);
    assert forall u :: next.CacheOf(u) == st.CacheOf(u);
    forall z | 0 <= z < |next.left| ensures Fits(next.CacheOf(next.left[z].table), next.left[z]) {
      if z >= |st.left| {
        assert slices[z - |st.left|] in slices && slices[z - |st.left|] in pc.todo;
        Batches.CutsBound(0, |st.List(pc.table)|, c.batch(pc.table), slices[z - |st.left|]);
      }
    }
    ShapeStep(c, st, next, i, Blocks);
  }

  lemma FailGrounded(c: Config, st: State, i: nat, slices: seq<(nat, nat)>, t: Table)
    requires Shape(c, st) && Kept(c, st) && Enabled(c, st, Fail(i, slices)) && Grounded(c, st, t)
    ensures Grounded(c, Apply(c, st, Fail(i, slices)), t)
  {
    var pc, next := st.writers[i], Apply(c, st, Fail(i, slices));
    assert WriterShape(c, st, pc) && next.CacheOf(t) == st.CacheOf(t);
    forall z | 0 <= z < |next.left| && next.left[z].table == t
      ensures LeftGrounded(c, next.db, next.CacheOf(t), next.left[z])
    {
      if z >= |st.left| {
        assert slices[z - |st.left|] in slices && slices[z - |st.left|] in pc.todo;
        Batches.CutsBound(0, |st.List(pc.table)|, c.batch(pc.table), slices[z - |st.left|]);
        forall k: nat | next.left[z].next <= k < next.left[z].until
          ensures Needs(c, Cells(st.CacheOf(t), next.left[z])[k]) <= st.db.Keys
        {
          NeedsStored(c, st, i, k);
        }
      }
    }
  }

  lemma FailKeeps(c: Config, f: Faults, st: State, i: nat, slices: seq<(nat, nat)>)
    requires Inv(c, f, st) && Enabled(c, st, Fail(i, slices))
    ensures Inv(c, f, Apply(c, st, Fail(i, slices)))
  {
    var next := Apply(c, st, Fail(i, slices));
    FailShape(c, st, i, slices);
    if !f.hidden {
      forall u ensures ListKept(c, next, u) { ListStays(c, st, next, u); }
      KeptStep(c, st, next, i);
      forall u | u !in f.late ensures Grounded(c, next, u) { FailGrounded(c, st, i, slices, u); }
    }
  }

  // ---------- a leftover goes on ----------

  lemma LeftKept(c: Config, st: State, next: State)
    requires Kept(c, st) && Grows(st, next) && next.writers == st.writers && next.accepted == st.accepted
    requires forall u :: next.CacheOf(u) == st.CacheOf(u)
    requires Shape(c, st)
    ensures Kept(c, next)
  {
    forall u ensures ListKept(c, next, u) { ListStays(c, st, next, u); }
    forall i | 0 <= i < |st.writers| ensures WriterKept(c, next, st.writers[i]) {
      KeptWriter(c, st, next, st.writers[i]);
    }
  }

  lemma LateReadShape(c: Config, st: State, z: nat)
    requires Shape(c, st) && Enabled(c, st, LateRead(z))
    ensures Shape(c, Apply(c, st, LateRead(z)))
  {
    var l, next := st.left[z], Apply(c, st, LateRead(z));
    var cache := st.CacheOf(l.table);
    assert forall u :: next.CacheOf(u) == st.CacheOf(u);
    assert Fits(cache, l) && CacheOk(cache, l.table);
    assert TableOf(Cells(cache, l)[l.next]) == l.table;
    assert Fits(cache, next.left[z]);
    assert forall i :: 0 <= i < |st.writers| ==> WriterShape(c, st, st.writers[i]);
  }

  lemma LateReadGrounded(c: Config, f: Faults, st: State, z: nat, t: Table)
    requires Shape(c, st) && Enabled(c, st, LateRead(z)) && Within(f, st, LateRead(z))
    requires Grounded(c, st, t) && t !in f.late
    ensures Grounded(c, Apply(c, st, LateRead(z)), t)
  {
    var next := Apply(c, st, LateRead(z));
    assert next.CacheOf(t) == st.CacheOf(t);
    forall y | 0 <= y < |next.left| && next.left[y].table == t
      ensures LeftGrounded(c, next.db, next.CacheOf(t), next.left[y])
    {
      assert LeftGrounded(c, st.db, st.CacheOf(t), st.left[y]);
    }
  }

  lemma LateReadKeeps(c: Config, f: Faults, st: State, z: nat)
    requires Inv(c, f, st) && Enabled(c, st, LateRead(z)) && Within(f, st, LateRead(z))
    ensures Inv(c, f, Apply(c, st, LateRead(z)))
  {
    LateReadShape(c, st, z);
    if !f.hidden {
      LeftKept(c, st, Apply(c, st, LateRead(z)));
      forall u | u !in f.late ensures Grounded(c, Apply(c, st, LateRead(z)), u) { LateReadGrounded(c, f, st, z, u); }
    }
  }

  lemma LateExecShape(c: Config, st: State, z: nat)
    requires Shape(c, st) && Enabled(c, st, LateExec(z))
    ensures Shape(c, Apply(c, st, LateExec(z))) && st.db.Keys <= Apply(c, st, LateExec(z)).db.Keys
  {
    var l, next := st.left[z], Apply(c, st, LateExec(z));
    assert forall u :: next.CacheOf(u) == st.CacheOf(u);
    if Legal(st.db, l.got) { StoreAllOk(st.db, l.got); }
    assert Fits(st.CacheOf(l.table), l);
    assert Fits(st.CacheOf(l.table), next.left[z]);
    assert forall i :: 0 <= i < |st.writers| ==> WriterShape(c, st, st.writers[i]);
  }

  /** A late statement stores rows of its own table only. */
  lemma LateExecBlocks(c: Config, st: State, z: nat)
    requires Shape(c, st) && Enabled(c, st, LateExec(z)) && Grounded(c, st, Blocks)
    ensures BlocksStored(c, Apply(c, st, LateExec(z)).db)
  {
    var l, next := st.left[z], Apply(c, st, LateExec(z));
    LateExecShape(c, st, z);
    if Legal(st.db, l.got) {
      StoreAllOk(st.db, l.got);
      forall k | k in next.db && next.db[k].BlockRow? ensures Needs(c, next.db[k]) <= next.db.Keys {
        if next.db[k] in l.got {
          assert Fits(st.CacheOf(l.table), l) && TableOf(next.db[k]) == l.table;
          assert LeftGrounded(c, st.db, st.CacheOf(Blocks), l);
        }
      }
    }
  }

  lemma LateExecKeeps(c: Config, f: Faults, st: State, z: nat)
    requires Inv(c, f, st) && Enabled(c, st, LateExec(z))
    ensures Inv(c, f, Apply(c, st, LateExec(z)))
  {
    var next := Apply(c, st, LateExec(z));
    LateExecShape(c, st, z);
    assert forall u :: next.CacheOf(u) == st.CacheOf(u);
    if !f.hidden {
      LeftKept(c, st, next);
      forall u | u !in f.late ensures Grounded(c, next, u) {
        assert Grounded(c, st, u);
        if u == Blocks { LateExecBlocks(c, st, z); }
        forall y | 0 <= y < |next.left| && next.left[y].table == u
          ensures LeftGrounded(c, next.db, next.CacheOf(u), next.left[y])
        {
          assert LeftGrounded(c, st.db, st.CacheOf(u), st.left[y]);
        }
      }
    }
  }

  // ---------- all of them ----------

  lemma EventKeeps(c: Config, f: Faults, st: State, e: Event)
    requires Inv(c, f, st) && Enabled(c, st, e) && Within(f, st, e)
    ensures Inv(c, f, Apply(c, st, e))
  {
    match e
    case Call(i, op, items) => CallKeeps(c, f, st, i, op, items);
    case Acquire(i) => AcquireKeeps(c, f, st, i);
    case Put(i) => PutKeeps(c, f, st, i);
    case Decide(i) => DecideKeeps(c, f, st, i);
    case Write(i, s) => WriteKeeps(c, f, st, i, s);
    case Hide(i, s) => HideKeeps(c, f, st, i, s);
    case Flushed(i) => FlushedKeeps(c, f, st, i);
    case Fail(i, slices) => FailKeeps(c, f, st, i, slices);
    case LateRead(z) => LateReadKeeps(c, f, st, z);
    case LateExec(z) => LateExecKeeps(c, f, st, z);
  }
}
