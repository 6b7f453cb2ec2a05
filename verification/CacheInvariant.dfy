/** What every step of the cache keeps, under each kind of fault. */
module CacheInvariant {
  import opened CacheProtocol

  ghost predicate Typed(t: Table, l: seq<Row>) { forall k :: 0 <= k < |l| ==> TableOf(l[k]) == t }

  // ---------- the shape of a state, whatever goes wrong ----------

  /** Rows are in their own table's arrays, and each key is in the list once. */
  ghost predicate CacheOk(c: CacheList, t: Table)
  {
    && Typed(t, c.list) && Typed(t, c.rest) && (forall k :: 0 <= k < |c.dropped| ==> Typed(t, c.dropped[k].cells))
    && forall j, k :: 0 <= j < k < |c.list| ==> KeyOf(c.list[j]) != KeyOf(c.list[k])
  }

  /** A leftover's cells exist. */
  ghost predicate Fits(c: CacheList, z: Leftover)
  {
    && z.base <= |c.dropped| && z.rewrites <= c.Array(z.base).rewrites && z.next <= z.until <= |Cells(c, z)|
    && Typed(z.table, z.got)
  }

  ghost predicate WriterShape(c: Config, st: State, pc: Pc)
  {
    match pc
    case Idle => true
    case Entering(op, items) => Typed(op, items)
    case Inside(op, items, put) => Typed(op, items) && put <= |items|
    case Locking(op, items, next) => Rank(op) < Rank(next)
    case Flushing(op, items, table, todo) =>
      && Rank(op) <= Rank(table) && (forall t :: Rank(t) > Rank(table) ==> st.List(t) == [])
      && todo <= Slices(c, table, st.List(table))
  }

  ghost predicate Exclusive(st: State)
  {
    forall i, j, t :: 0 <= i < j < |st.writers| && Holds(st.writers[i], t) ==> !Holds(st.writers[j], t)
  }

  /** The database's own foreign keys. */
  ghost predicate DbShape(db: map<Key, Row>)
  {
    forall k :: k in db ==> KeyOf(db[k]) == k && References(db[k]) <= db.Keys
  }

  ghost predicate AllFit(st: State)
  {
    forall z :: 0 <= z < |st.left| ==> Fits(st.CacheOf(st.left[z].table), st.left[z])
  }

  ghost predicate Shape(c: Config, st: State)
  {
    && Exclusive(st) && DbShape(st.db) && AllFit(st)
    && (forall t :: CacheOk(st.CacheOf(t), t))
    && forall i :: 0 <= i < |st.writers| ==> WriterShape(c, st, st.writers[i])
  }

  // ---------- nothing is lost, unless an error is hidden ----------

  ghost predicate ListKept(c: Config, st: State, t: Table)
  {
    forall k :: 0 <= k < |st.List(t)| ==> AllPresent(st, Needs(c, st.List(t)[k]))
  }

  ghost predicate NeedsPresent(c: Config, st: State, items: seq<Row>)
  {
    forall r :: r in items ==> AllPresent(st, Needs(c, r))
  }

  predicate InSlices(slices: set<(nat, nat)>, k: nat) { exists s :: s in slices && s.0 <= k < s.1 }

  ghost predicate WriterKept(c: Config, st: State, pc: Pc)
  {
    match pc
    case Idle => true
    case Entering(op, items) => NeedsPresent(c, st, items)
    case Inside(op, items, put) =>
      NeedsPresent(c, st, items) && forall k :: 0 <= k < put && k < |items| ==> Present(st, KeyOf(items[k]))
    case Locking(op, items, next) => AllPresent(st, Keys(items))
    case Flushing(op, items, table, todo) =>
      && AllPresent(st, Keys(items))
      && forall k: nat :: k < |st.List(table)| && !InSlices(todo, k) ==> KeyOf(st.List(table)[k]) in st.db
  }

  ghost predicate Kept(c: Config, st: State)
  {
    && AllPresent(st, st.accepted) && (forall t :: ListKept(c, st, t))
    && forall i :: 0 <= i < |st.writers| ==> WriterKept(c, st, st.writers[i])
  }

  // ---------- leftovers write nothing too early, unless they read late ----------

  /** What the rows need is stored: those read, and those yet to be read from an array that was not rewritten. */
  ghost predicate LeftGrounded(c: Config, db: map<Key, Row>, cache: CacheList, z: Leftover)
  {
    && (forall r :: r in z.got ==> Needs(c, r) <= db.Keys)
    && (!Stale(cache, z) ==>
          forall k :: z.next <= k < z.until && k < |Cells(cache, z)| ==> Needs(c, Cells(cache, z)[k]) <= db.Keys)
  }

  ghost predicate Grounded(c: Config, st: State, t: Table)
  {
    && (t == Blocks ==> BlocksStored(c, st.db))
    && forall z :: 0 <= z < |st.left| && st.left[z].table == t ==>
         LeftGrounded(c, st.db, st.CacheOf(t), st.left[z])
  }

  ghost predicate Inv(c: Config, f: Faults, st: State)
  {
    && Shape(c, st)
    && (!f.hidden ==> Kept(c, st) && forall t :: t !in f.late ==> Grounded(c, st, t))
  }

  // ---------- what appending and resetting do to a leftover ----------

  /** From `c` to `d` a leftover stays within bounds, and sees the same cells unless it has become stale. */
  ghost predicate Follows(c: CacheList, d: CacheList, z: Leftover)
  {
    && Fits(c, z) && Fits(d, z) && (Stale(c, z) ==> Stale(d, z))
    && (!Stale(d, z) ==> forall k :: z.next <= k < z.until ==> Cells(d, z)[k] == Cells(c, z)[k])
  }

  lemma AppendFollows(c: CacheList, r: Row, grown: nat -> nat, z: Leftover)
    requires Fits(c, z)
    ensures Follows(c, c.Append(r, grown), z)
  {
    var d := c.Append(r, grown);
    if z.base == |c.dropped| {
      assert c.rest != [] ==> d.list + d.rest == (c.list + c.rest)[|c.list| := r];
      assert c.rest == [] ==> c.list + c.rest == c.list && d.list + d.rest == d.list;
    }
  }

  lemma ResetFollows(c: CacheList, z: Leftover)
    requires Fits(c, z)
    ensures Follows(c, c.Reset(), z)
  {
    assert c.Reset().list + c.Reset().rest == c.list + c.rest;
  }

  // ---------- a step of one writer ----------

  /** A step of writer `i` changes only writer `i` and, of the caches, only those it has locked. */
  ghost predicate StepOf(st: State, next: State, i: nat)
  {
    && i < |st.writers| && |next.writers| == |st.writers|
    && (forall j :: 0 <= j < |st.writers| && j != i ==> next.writers[j] == st.writers[j])
    && (forall t :: Holds(st.writers[i], t) || next.CacheOf(t) == st.CacheOf(t))
  }

  /** It takes at most one lock, which was free. */
  ghost predicate TakesFree(st: State, next: State, i: nat, t: Table)
    requires StepOf(st, next, i)
  {
    forall u :: Holds(next.writers[i], u) ==> Holds(st.writers[i], u) || (u == t && Free(st, t))
  }

  lemma StillExclusive(st: State, next: State, i: nat, t: Table)
    requires Exclusive(st) && StepOf(st, next, i) && TakesFree(st, next, i, t)
    ensures Exclusive(next)
  {
    forall j, k, u | 0 <= j < k < |next.writers| && Holds(next.writers[j], u) ensures !Holds(next.writers[k], u) {
      assert Holds(st.writers[j], u) ==> !Holds(st.writers[k], u);
      assert Free(st, u) ==> !Holds(st.writers[j], u) && !Holds(st.writers[k], u);
    }
  }

  /** What another writer has locked stays as it is. */
  lemma OthersSee(st: State, next: State, i: nat, j: nat)
    requires Exclusive(st) && StepOf(st, next, i) && j < |st.writers| && j != i
    ensures forall t :: Holds(st.writers[j], t) ==> next.CacheOf(t) == st.CacheOf(t)
  {
    forall t | Holds(st.writers[j], t) ensures next.CacheOf(t) == st.CacheOf(t) {
      assert !Holds(st.writers[i], t);
    }
  }

  lemma ShapeStep(c: Config, st: State, next: State, i: nat, t: Table)
    requires Shape(c, st) && StepOf(st, next, i) && TakesFree(st, next, i, t)
    requires WriterShape(c, next, next.writers[i]) && DbShape(next.db) && AllFit(next)
    requires forall u :: CacheOk(next.CacheOf(u), u)
    ensures Shape(c, next)
  {
    StillExclusive(st, next, i, t);
    forall j | 0 <= j < |next.writers| ensures WriterShape(c, next, next.writers[j]) {
      if j != i {
        assert WriterShape(c, st, st.writers[j]);
        OthersSee(st, next, i, j);
      }
    }
  }

  /** No key present in `st` is lost in `next`. */
  ghost predicate Grows(st: State, next: State)
  {
    st.db.Keys <= next.db.Keys && forall k :: Present(st, k) ==> Present(next, k)
  }

  lemma KeptWriter(c: Config, st: State, next: State, pc: Pc)
    requires WriterKept(c, st, pc) && Grows(st, next)
    requires forall t :: Holds(pc, t) ==> next.CacheOf(t) == st.CacheOf(t)
    requires WriterShape(c, st, pc)
    ensures WriterKept(c, next, pc)
  {
  }

  lemma KeptStep(c: Config, st: State, next: State, i: nat)
    requires Shape(c, st) && Kept(c, st) && StepOf(st, next, i) && Grows(st, next)
    requires WriterKept(c, next, next.writers[i]) && AllPresent(next, next.accepted)
    requires forall t :: ListKept(c, next, t)
    ensures Kept(c, next)
  {
    forall j | 0 <= j < |next.writers| ensures WriterKept(c, next, next.writers[j]) {
      if j != i {
        OthersSee(st, next, i, j);
        KeptWriter(c, st, next, st.writers[j]);
      }
    }
  }

  lemma ListStays(c: Config, st: State, next: State, t: Table)
    requires ListKept(c, st, t) && Grows(st, next) && next.List(t) == st.List(t)
    ensures ListKept(c, next, t)
  {
  }

  lemma GroundedStep(c: Config, st: State, next: State, t: Table)
    requires Grounded(c, st, t) && st.db.Keys <= next.db.Keys && next.left == st.left
    requires forall z :: 0 <= z < |st.left| && st.left[z].table == t ==>
      Follows(st.CacheOf(t), next.CacheOf(t), st.left[z])
    requires t == Blocks ==> BlocksStored(c, next.db)
    ensures Grounded(c, next, t)
  {
    forall z | 0 <= z < |st.left| && st.left[z].table == t
      ensures LeftGrounded(c, next.db, next.CacheOf(t), st.left[z])
    {
      assert Follows(st.CacheOf(t), next.CacheOf(t), st.left[z]);
    }
  }
}
