/** The write-back cache under concurrent writers, as a transition system: any number of writers, three cache
    lists with their locks and the arrays behind them, the inserters a failed flush leaves behind, and the
    database. */
module CacheProtocol {
  import Batches = BatchUpsert

  datatype Table = Blocks | Txs | Wallets

  datatype Key = Number(n: int) | Hash(h: string) | Address(a: string)

  datatype Row =
    | BlockRow(number: int, processed: bool)
    | TxRow(hash: string, from: string, to: string)
    | WalletRow(address: string)

  function KeyOf(r: Row): Key
  {
    match r case BlockRow(n, _) => Number(n) case TxRow(h, _, _) => Hash(h) case WalletRow(a) => Address(a)
  }

  function TableOf(r: Row): Table
  {
    match r case BlockRow(_, _) => Blocks case TxRow(_, _, _) => Txs case WalletRow(_) => Wallets
  }

  function TableOfKey(k: Key): Table
  {
    match k case Number(_) => Blocks case Hash(_) => Txs case Address(_) => Wallets
  }

  /** Locks are taken in this order; rows are flushed in the opposite one. */
  function Rank(t: Table): nat { match t case Blocks => 0 case Txs => 1 case Wallets => 2 }

  function After(t: Table): Table { match t case Blocks => Txs case Txs => Wallets case Wallets => Wallets }

  function Before(t: Table): Table { match t case Wallets => Txs case Txs => Blocks case Blocks => Blocks }

  type Size = n: nat | n > 0 witness 1

  /** The cache sizes, the rows of one statement, the transactions of each block, and the capacity of the array that
      `append` moves the rows of a full one to. */
  datatype Config = Config(limit: Table -> nat, batch: Table -> Size, contents: int -> set<string>, grown: nat -> nat)

  function Keys(l: seq<Row>): set<Key> { set r | r in l :: KeyOf(r) }

  /** What must be stored before a row: a transaction's wallets, a processed block's transactions. */
  function Needs(c: Config, r: Row): set<Key>
  {
    match r
    case BlockRow(n, processed) => if processed then set h | h in c.contents(n) :: Hash(h) else {}
    case TxRow(_, from, to) => {Address(from), Address(to)}
    case WalletRow(_) => {}
  }

  /** The foreign keys of a row: the wallets of a transaction. The block table has none. */
  function References(r: Row): set<Key>
  {
    match r case TxRow(_, from, to) => {Address(from), Address(to)} case _ => {}
  }

  predicate Legal(db: map<Key, Row>, rows: seq<Row>) { forall r :: r in rows ==> References(r) <= db.Keys }

  /** An upsert statement run row by row. */
  function StoreAll(db: map<Key, Row>, rows: seq<Row>): map<Key, Row>
    decreases |rows|
  {
    if rows == [] then db else StoreAll(db[KeyOf(rows[0]) := rows[0]], rows[1..])
  }

  ghost predicate Distinct(rows: seq<Row>)
  {
    forall j, k :: 0 <= j < k < |rows| ==> KeyOf(rows[j]) != KeyOf(rows[k])
  }

  lemma {:induction false} StoreAllKeys(db: map<Key, Row>, rows: seq<Row>)
    ensures StoreAll(db, rows).Keys == db.Keys + Keys(rows)
    decreases |rows|
  {
    if rows != [] {
      StoreAllKeys(db[KeyOf(rows[0]) := rows[0]], rows[1..]);
      assert rows == [rows[0]] + rows[1..];
    }
  }

  lemma {:induction false} StoreAllAppend(db: map<Key, Row>, a: seq<Row>, b: seq<Row>)
    ensures StoreAll(db, a + b) == StoreAll(StoreAll(db, a), b)
    decreases |a|
  {
    if a == [] {
      assert a + b == b;
    } else {
      assert (a + b)[1..] == a[1..] + b;
      StoreAllAppend(db[KeyOf(a[0]) := a[0]], a[1..], b);
    }
  }

  lemma {:induction false} StoredElse(db: map<Key, Row>, rows: seq<Row>, k: Key)
    requires k !in Keys(rows)
    ensures k in StoreAll(db, rows) <==> k in db
    ensures k in db ==> StoreAll(db, rows)[k] == db[k]
    decreases |rows|
  {
    if rows != [] {
      assert rows == [rows[0]] + rows[1..];
      StoredElse(db[KeyOf(rows[0]) := rows[0]], rows[1..], k);
    }
  }

  lemma {:induction false} StoredEach(db: map<Key, Row>, rows: seq<Row>, r: Row)
    requires Distinct(rows) && r in rows
    ensures KeyOf(r) in StoreAll(db, rows) && StoreAll(db, rows)[KeyOf(r)] == r
    decreases |rows|
  {
    if r == rows[0] {
      StoredElse(db[KeyOf(r) := r], rows[1..], KeyOf(r));
    } else {
      StoredEach(db[KeyOf(rows[0]) := rows[0]], rows[1..], r);
    }
  }

  // ---------- the lists and their arrays ----------

  datatype Backing = Backing(cells: seq<Row>, rewrites: nat)

  /** A cache list is the front of the last of its arrays; `rest` are that array's cells after the list, `cap` its
      capacity, `rewrites` how often a cell left over from an earlier list was written. `dropped` are the arrays it has
      outgrown. */
  datatype CacheList = CacheList(dropped: seq<Backing>, list: seq<Row>, rest: seq<Row>, cap: nat, rewrites: nat)
  {
    function Array(k: nat): Backing
      requires k <= |dropped|
    {
      if k < |dropped| then dropped[k] else Backing(list + rest, rewrites)
    }

    /** Go's `append`: into the next cell of the array, or into a copy when the array is full. */
    function Append(r: Row, grown: nat -> nat): CacheList
    {
      if rest != [] then this.(list := list + [r], rest := rest[1..], rewrites := rewrites + 1)
      else if |list| < cap then this.(list := list + [r])
      else CacheList(dropped + [Backing(list, rewrites)], list + [r], [], grown(cap), 0)
    }

    /** `list[:0]`: the array stays, and so do its cells. */
    function Reset(): CacheList { this.(list := [], rest := list + rest) }
  }

  /** An inserter that was still at work, or still to start, when its flush returned an error: it has read `got`,
      and has yet to read the cells `next` to `until` of array `base`, of which `rewrites` cells had been rewritten. */
  datatype Leftover = Leftover(
    table: Table, base: nat, rewrites: nat, next: nat, until: nat, got: seq<Row>, done: bool)

  /** A writer's place in a call that adds `items` to table `op`; `todo` are the slices of the list to be written. */
  datatype Pc =
    | Idle
    | Entering(op: Table, items: seq<Row>)
    | Inside(op: Table, items: seq<Row>, put: nat)
    | Locking(op: Table, items: seq<Row>, next: Table)
    | Flushing(op: Table, items: seq<Row>, table: Table, todo: set<(nat, nat)>)

  /** `accepted` records the keys of all calls that returned nil, which is all that callers go by. The `rewrites`
      of arrays and leftovers record whether an array was rewritten under a leftover; no transition reads them. */
  datatype State = State(
    db: map<Key, Row>, blocks: CacheList, txs: CacheList, wallets: CacheList, writers: seq<Pc>, left: seq<Leftover>,
    accepted: set<Key>)
  {
    function CacheOf(t: Table): CacheList { match t case Blocks => blocks case Txs => txs case Wallets => wallets }

    function List(t: Table): seq<Row> { CacheOf(t).list }

    function WithCache(t: Table, c: CacheList): State
    {
      match t case Blocks => this.(blocks := c) case Txs => this.(txs := c) case Wallets => this.(wallets := c)
    }

    function WithWriter(i: nat, pc: Pc): State
      requires i < |writers|
    {
      this.(writers := writers[i := pc])
    }
  }

  datatype Event =
    | Call(i: nat, op: Table, items: seq<Row>)
    | Acquire(i: nat)
    | Put(i: nat)
    | Decide(i: nat)
    | Write(i: nat, s: (nat, nat))
    | Hide(i: nat, s: (nat, nat))
    | Flushed(i: nat)
    | Fail(i: nat, slices: seq<(nat, nat)>)
    | LateRead(z: nat)
    | LateExec(z: nat)

  // ---------- locks ----------

  predicate Holds(pc: Pc, t: Table)
  {
    match pc
    case Idle => false
    case Entering(_, _) => false
    case Inside(op, _, _) => t == op
    case Locking(op, _, next) => Rank(op) <= Rank(t) < Rank(next)
    case Flushing(op, _, _, _) => Rank(op) <= Rank(t)
  }

  predicate Free(st: State, t: Table)
  {
    forall j :: 0 <= j < |st.writers| ==> !Holds(st.writers[j], t)
  }

  // ---------- the steps ----------

  /** The slices a list is flushed in. */
  function Slices(c: Config, t: Table, l: seq<Row>): set<(nat, nat)>
  {
    set s | s in Batches.Cuts(0, |l|, c.batch(t))
  }

  function RowsOf(l: seq<Row>, s: (nat, nat)): seq<Row> { if s.0 <= s.1 <= |l| then l[s.0..s.1] else [] }

  function StartFlush(c: Config, st: State, op: Table, items: seq<Row>): Pc
  {
    Flushing(op, items, Wallets, Slices(c, Wallets, st.List(Wallets)))
  }

  /** The slices still to be written when a flush fails leave out the slice of the statement that failed. */
  ghost predicate LeavesBehind(todo: set<(nat, nat)>, all: set<(nat, nat)>, slices: seq<(nat, nat)>)
  {
    && (forall j, k :: 0 <= j < k < |slices| ==> slices[j] != slices[k])
    && (forall s :: s in slices ==> s in todo)
    && exists s :: s in all && s !in slices
  }

  function Leftovers(c: CacheList, t: Table, slices: seq<(nat, nat)>): (left: seq<Leftover>)
    ensures |left| == |slices|
  {
    seq(|slices|, k requires 0 <= k < |slices| =>
      Leftover(t, |c.dropped|, c.rewrites, slices[k].0, slices[k].1, [], false))
  }

  /** The cells of the array a leftover reads. */
  function Cells(c: CacheList, z: Leftover): seq<Row>
  {
    if z.base <= |c.dropped| then c.Array(z.base).cells else []
  }

  /** The array a leftover reads was rewritten since its flush failed. */
  predicate Stale(c: CacheList, z: Leftover)
  {
    z.base <= |c.dropped| && c.Array(z.base).rewrites != z.rewrites
  }

  ghost predicate Enabled(c: Config, st: State, e: Event)
  {
    match e
    case Call(i, op, items) =>
      && i < |st.writers| && st.writers[i] == Idle
      && forall r :: r in items ==> TableOf(r) == op && Needs(c, r) <= st.accepted
    case Acquire(i) =>
      && i < |st.writers|
      && (match st.writers[i]
          case Entering(op, _) => Free(st, op)
          case Locking(_, _, next) => Free(st, next)
          case _ => false)
    case Put(i) => i < |st.writers| && st.writers[i].Inside? && st.writers[i].put < |st.writers[i].items|
    case Decide(i) => i < |st.writers| && st.writers[i].Inside? && st.writers[i].put >= |st.writers[i].items|
    case Write(i, s) => Pending(st, i, s) && Legal(st.db, Statement(st, i, s))
    case Hide(i, s) => Pending(st, i, s)
    case Flushed(i) => i < |st.writers| && st.writers[i].Flushing? && st.writers[i].todo == {}
    case Fail(i, slices) =>
      && i < |st.writers| && st.writers[i].Flushing?
      && LeavesBehind(st.writers[i].todo, Slices(c, st.writers[i].table, st.List(st.writers[i].table)), slices)
    case LateRead(z) =>
      && z < |st.left| && st.left[z].next < st.left[z].until
      && st.left[z].next < |Cells(st.CacheOf(st.left[z].table), st.left[z])|
    case LateExec(z) => z < |st.left| && Issued(st.left[z])
  }

  /** Slice `s` of the list that writer `i` is flushing is not written yet. */
  predicate Pending(st: State, i: nat, s: (nat, nat))
  {
    i < |st.writers| && st.writers[i].Flushing? && s in st.writers[i].todo
  }

  function Statement(st: State, i: nat, s: (nat, nat)): seq<Row>
    requires i < |st.writers| && st.writers[i].Flushing?
  {
    RowsOf(st.List(st.writers[i].table), s)
  }

  /** A leftover has read its slice and will execute its statement next. */
  predicate Issued(z: Leftover) { z.next >= z.until && !z.done }

  function Accepting(st: State, i: nat, items: seq<Row>): State
    requires i < |st.writers|
  {
    st.WithWriter(i, Idle).(accepted := st.accepted + Keys(items))
  }

  /** One item: dropped when its key is cached, appended otherwise. */
  function AddOne(c: Config, l: CacheList, r: Row): CacheList
  {
    if KeyOf(r) in Keys(l.list) then l else l.Append(r, c.grown)
  }

  function WithLeft(st: State, z: nat, l: Leftover): State
    requires z < |st.left|
  {
    st.(left := st.left[z := l])
  }

  ghost function Apply(c: Config, st: State, e: Event): State
    requires Enabled(c, st, e)
  {
    match e
    case Call(i, op, items) => st.WithWriter(i, Entering(op, items))
    case Acquire(i) =>
      (match st.writers[i]
       case Entering(op, items) => st.WithWriter(i, Inside(op, items, 0))
       case Locking(op, items, next) =>
         st.WithWriter(i, if next == Wallets then StartFlush(c, st, op, items) else Locking(op, items, After(next))))
    case Put(i) =>
      var pc := st.writers[i];
      st.WithCache(pc.op, AddOne(c, st.CacheOf(pc.op), pc.items[pc.put])).WithWriter(i, pc.(put := pc.put + 1))
    case Decide(i) =>
      var (op, items) := (st.writers[i].op, st.writers[i].items);
      if |st.List(op)| < c.limit(op) then Accepting(st, i, items)
      else st.WithWriter(i, if op == Wallets then StartFlush(c, st, op, items) else Locking(op, items, After(op)))
    case Write(i, s) =>
      st.(db := StoreAll(st.db, Statement(st, i, s))).WithWriter(i, st.writers[i].(todo := st.writers[i].todo - {s}))
    case Hide(i, s) => st.WithWriter(i, st.writers[i].(todo := st.writers[i].todo - {s}))
    case Flushed(i) =>
      var pc := st.writers[i];
      var cleared := st.WithCache(pc.table, st.CacheOf(pc.table).Reset());
      if pc.table == pc.op then Accepting(cleared, i, pc.items)
      else
        var next := Before(pc.table);
        cleared.WithWriter(i, Flushing(pc.op, pc.items, next, Slices(c, next, st.List(next))))
    case Fail(i, slices) =>
      var t := st.writers[i].table;
      st.WithWriter(i, Idle).(left := st.left + Leftovers(st.CacheOf(t), t, slices))
    case LateRead(z) =>
      var l := st.left[z];
      WithLeft(st, z, l.(next := l.next + 1, got := l.got + [Cells(st.CacheOf(l.table), l)[l.next]]))
    case LateExec(z) =>
      var l := st.left[z];
      WithLeft(st, z, l.(done := true)).(db := if Legal(st.db, l.got) then StoreAll(st.db, l.got) else st.db)
  }

  // ---------- runs ----------

  /** What a run may see: on which tables a leftover reads an array rewritten since its flush failed, and whether a
      flush can return nil although a statement failed. */
  datatype Faults = Faults(late: set<Table>, hidden: bool)

  predicate Within(f: Faults, st: State, e: Event)
  {
    match e
    case LateRead(z) => z < |st.left| && Stale(st.CacheOf(st.left[z].table), st.left[z]) ==> st.left[z].table in f.late
    case Hide(_, _) => f.hidden
    case _ => true
  }

  function Empty(c: Config, t: Table): CacheList { CacheList([], [], [], c.limit(t), 0) }

  /** `n` writers over a database that may hold rows already, which count as accepted. */
  function Initial(c: Config, n: nat, db: map<Key, Row>): State
  {
    State(db, Empty(c, Blocks), Empty(c, Txs), Empty(c, Wallets), seq(n, _ => Idle), [], db.Keys)
  }

  ghost predicate IsRun(
      c: Config, f: Faults, n: nat, db: map<Key, Row>, states: seq<State>, events: seq<Event>)
  {
    && |states| == |events| + 1 && states[0] == Initial(c, n, db)
    && forall k {:trigger events[k]} :: 0 <= k < |events| ==>
         && Enabled(c, states[k], events[k]) && Within(f, states[k], events[k])
         && states[k + 1] == Apply(c, states[k], events[k])
  }

  /** A database in which nothing stored lacks what it needs. */
  ghost predicate Consistent(c: Config, db: map<Key, Row>)
  {
    forall k :: k in db ==> KeyOf(db[k]) == k && Needs(c, db[k]) <= db.Keys
  }

  ghost predicate Reachable(c: Config, f: Faults, st: State)
  {
    exists n, db, states, events ::
      IsRun(c, f, n, db, states, events) && Consistent(c, db) && states[|events|] == st
  }

  lemma OneMore(c: Config, f: Faults, st: State, e: Event)
    requires Reachable(c, f, st) && Enabled(c, st, e) && Within(f, st, e)
    ensures Reachable(c, f, Apply(c, st, e))
  {
    var n, db, states, events :|
      IsRun(c, f, n, db, states, events) && Consistent(c, db) && states[|events|] == st;
    var longer, more := states + [Apply(c, st, e)], events + [e];
    assert IsRun(c, f, n, db, longer, more) && longer[|more|] == Apply(c, st, e);
  }

  lemma Start(c: Config, f: Faults, n: nat, db: map<Key, Row>)
    requires Consistent(c, db)
    ensures Reachable(c, f, Initial(c, n, db))
  {
    var none: seq<Event> := [];
    assert IsRun(c, f, n, db, [Initial(c, n, db)], none);
    assert [Initial(c, n, db)][|none|] == Initial(c, n, db);
  }

  // ---------- what the theorems say of a state ----------

  /** Every block marked processed has all its transactions in the database. */
  ghost predicate BlocksStored(c: Config, db: map<Key, Row>)
  {
    forall k :: k in db && db[k].BlockRow? ==> Needs(c, db[k]) <= db.Keys
  }

  /** The row is in the database or in its cache list. */
  ghost predicate Present(st: State, k: Key)
  {
    k in st.db || k in Keys(st.List(TableOfKey(k)))
  }

  ghost predicate AllPresent(st: State, ks: set<Key>) { forall k :: k in ks ==> Present(st, k) }

  /** No statement about to be issued, by a flush or by a leftover, breaks a foreign key. */
  ghost predicate StatementsLegal(st: State)
  {
    && (forall i: nat, s :: Pending(st, i, s) ==> Legal(st.db, Statement(st, i, s)))
    && forall z :: 0 <= z < |st.left| && Issued(st.left[z]) ==> Legal(st.db, st.left[z].got)
  }
}
