/** The runs in which the cache fails, and so the exact conditions under which it does not. */
module CacheFailures {
  import opened CacheProtocol
  import opened CacheInvariant
  import opened CacheSteps
  import opened CacheTheorems

  /** A full list takes more than one statement: the code's sizes are 6000 blocks in batches of 750, 6000 transactions
      in batches of 125 and 1500 wallets in batches of 250. */
  ghost predicate Caching(c: Config) { forall t :: c.limit(t) > c.batch(t) }

  // ---------- a single writer ----------

  function Alone(s: State, pc: Pc): State { s.(writers := [pc]) }

  /** With one writer, which is at `pc`, the rest of the state can be that of `s`. */
  ghost predicate At(c: Config, f: Faults, s: State, pc: Pc) { Reachable(c, f, Alone(s, pc)) }

  lemma Next(c: Config, f: Faults, s: State, pc: Pc, e: Event, s': State, pc': Pc)
    requires At(c, f, s, pc) && Enabled(c, Alone(s, pc), e) && Within(f, Alone(s, pc), e)
    requires Apply(c, Alone(s, pc), e) == Alone(s', pc')
    ensures At(c, f, s', pc')
  {
    OneMore(c, f, Alone(s, pc), e);
  }

  lemma Enter(c: Config, f: Faults, s: State, op: Table, items: seq<Row>)
    requires At(c, f, s, Idle) && forall r :: r in items ==> TableOf(r) == op && Needs(c, r) <= s.accepted
    ensures At(c, f, s, Inside(op, items, 0))
  {
    Next(c, f, s, Idle, Call(0, op, items), s, Entering(op, items));
    Next(c, f, s, Entering(op, items), Acquire(0), s, Inside(op, items, 0));
  }

  lemma PutOne(c: Config, f: Faults, s: State, op: Table, items: seq<Row>, put: nat)
    requires At(c, f, s, Inside(op, items, put)) && put < |items|
    ensures At(c, f, s.WithCache(op, AddOne(c, s.CacheOf(op), items[put])), Inside(op, items, put + 1))
  {
    Next(c, f, s, Inside(op, items, put), Put(0),
         s.WithCache(op, AddOne(c, s.CacheOf(op), items[put])), Inside(op, items, put + 1));
  }

  /** New rows fill an array that has room for them. */
  lemma {:induction false} Fill(c: Config, f: Faults, s: State, op: Table, items: seq<Row>, put: nat)
    requires put <= |items| <= c.limit(op) && Distinct(items)
    requires At(c, f, s.WithCache(op, CacheList([], items[..put], [], c.limit(op), 0)), Inside(op, items, put))
    ensures At(c, f, s.WithCache(op, CacheList([], items, [], c.limit(op), 0)), Inside(op, items, |items|))
    decreases |items| - put
  {
    if put == |items| {
      assert items[..put] == items;
    } else {
      var now := CacheList([], items[..put], [], c.limit(op), 0);
      assert KeyOf(items[put]) !in Keys(items[..put]);
      assert items[..put + 1] == items[..put] + [items[put]];
      PutOne(c, f, s.WithCache(op, now), op, items, put);
      Fill(c, f, s, op, items, put + 1);
    }
  }

  /** The caches flushed before `op` have been emptied. */
  function ResetAbove(s: State, op: Table): State
  {
    match op
    case Wallets => s
    case Txs => s.(wallets := s.wallets.Reset())
    case Blocks => s.(wallets := s.wallets.Reset(), txs := s.txs.Reset())
  }

  lemma NoSlices(c: Config, t: Table)
    ensures Slices(c, t, []) == {}
  {
  }

  /** A flush of empty lists comes to its own list at once. */
  lemma ToOwn(c: Config, f: Faults, s: State, op: Table, items: seq<Row>)
    requires At(c, f, s, Inside(op, items, |items|)) && |s.List(op)| >= c.limit(op)
    requires forall t :: Rank(t) > Rank(op) ==> s.List(t) == []
    ensures At(c, f, ResetAbove(s, op), Flushing(op, items, op, Slices(c, op, s.List(op))))
  {
    var full := Inside(op, items, |items|);
    assert (op != Wallets ==> s.List(Wallets) == []) && (op == Blocks ==> s.List(Txs) == []);
    match op
    case Wallets => Next(c, f, s, full, Decide(0), s, Flushing(op, items, Wallets, Slices(c, Wallets, s.wallets.list)));
    case Txs =>
      Next(c, f, s, full, Decide(0), s, Locking(op, items, Wallets));
      FromWallets(c, f, s, op, items);
    case Blocks =>
      Next(c, f, s, full, Decide(0), s, Locking(op, items, Txs));
      Next(c, f, s, Locking(op, items, Txs), Acquire(0), s, Locking(op, items, Wallets));
      FromWallets(c, f, s, op, items);
      NoSlices(c, Txs);
      var noWallets := s.(wallets := s.wallets.Reset());
      Next(c, f, noWallets, Flushing(op, items, Txs, {}), Flushed(0),
           ResetAbove(s, op), Flushing(op, items, Blocks, Slices(c, Blocks, s.blocks.list)));
  }

  lemma FromWallets(c: Config, f: Faults, s: State, op: Table, items: seq<Row>)
    requires At(c, f, s, Locking(op, items, Wallets)) && s.wallets.list == [] && op != Wallets
    ensures At(c, f, s.(wallets := s.wallets.Reset()), Flushing(op, items, Txs, Slices(c, Txs, s.txs.list)))
  {
    NoSlices(c, Wallets);
    Next(c, f, s, Locking(op, items, Wallets), Acquire(0), s, Flushing(op, items, Wallets, {}));
    Next(c, f, s, Flushing(op, items, Wallets, {}), Flushed(0),
         s.(wallets := s.wallets.Reset()), Flushing(op, items, Txs, Slices(c, Txs, s.txs.list)));
  }

  /** The slices from row `from` on. */
  function SlicesFrom(c: Config, t: Table, l: seq<Row>, from: nat): set<(nat, nat)>
  {
    set s | s in Batches.Cuts(from, |l|, c.batch(t))
  }

  lemma FirstSlice(c: Config, t: Table, l: seq<Row>, from: nat)
    requires from < |l|
    ensures var s := (from, if from + c.batch(t) < |l| then from + c.batch(t) else |l|);
      s in SlicesFrom(c, t, l, from) && SlicesFrom(c, t, l, from) - {s} == SlicesFrom(c, t, l, s.1)
  {
    var b := c.batch(t);
    var s := (from, if from + b < |l| then from + b else |l|);
    var rest := Batches.Cuts(from + b, |l|, b);
    assert Batches.Cuts(from, |l|, b) == [s] + rest;
    assert rest == Batches.Cuts(s.1, |l|, b);
    if s in rest { Batches.CutsBound(from + b, |l|, b, s); }
  }

  /** The flush writes its slices from row `from` on. */
  lemma {:induction false} WriteAll(
      c: Config, f: Faults, s: State, op: Table, items: seq<Row>, todo: set<(nat, nat)>, from: nat)
    requires from <= |s.List(op)| && todo == SlicesFrom(c, op, s.List(op), from) && Legal(s.db, s.List(op)[from..])
    requires At(c, f, s, Flushing(op, items, op, todo))
    ensures At(c, f, s.(db := StoreAll(s.db, s.List(op)[from..])), Flushing(op, items, op, {}))
    decreases |s.List(op)| - from
  {
    var l := s.List(op);
    if from == |l| {
      assert todo == {};
      assert s.(db := StoreAll(s.db, l[from..])) == s;
    } else {
      var until := if from + c.batch(op) < |l| then from + c.batch(op) else |l|;
      FirstSlice(c, op, l, from);
      assert l[from..] == l[from..until] + l[until..];
      StoreAllAppend(s.db, l[from..until], l[until..]);
      StoreAllKeys(s.db, l[from..until]);
      var stored := s.(db := StoreAll(s.db, l[from..until]));
      WriteOne(c, f, s, op, items, todo, (from, until));
      WriteAll(c, f, stored, op, items, todo - {(from, until)}, until);
    }
  }

  lemma WriteOne(
      c: Config, f: Faults, s: State, op: Table, items: seq<Row>, todo: set<(nat, nat)>, slice: (nat, nat))
    requires At(c, f, s, Flushing(op, items, op, todo)) && slice in todo && Legal(s.db, RowsOf(s.List(op), slice))
    ensures At(c, f, s.(db := StoreAll(s.db, RowsOf(s.List(op), slice))), Flushing(op, items, op, todo - {slice}))
  {
    Next(c, f, s, Flushing(op, items, op, todo), Write(0, slice),
         s.(db := StoreAll(s.db, RowsOf(s.List(op), slice))), Flushing(op, items, op, todo - {slice}));
  }

  /** What a successful call leaves: the list emptied in place and its items accepted. */
  function Emptied(s: State, op: Table, items: seq<Row>): State
  {
    s.WithCache(op, s.CacheOf(op).Reset()).(accepted := s.accepted + Keys(items))
  }

  lemma Finish(c: Config, f: Faults, s: State, op: Table, items: seq<Row>)
    requires At(c, f, s, Flushing(op, items, op, {}))
    ensures At(c, f, Emptied(s, op, items), Idle)
  {
    Next(c, f, s, Flushing(op, items, op, {}), Flushed(0), Emptied(s, op, items), Idle);
  }

  /** A call that adds one new row to a cache with room. */
  function WithRow(c: Config, s: State, op: Table, r: Row): State
  {
    s.WithCache(op, s.CacheOf(op).Append(r, c.grown)).(accepted := s.accepted + {KeyOf(r)})
  }

  lemma CacheRow(c: Config, f: Faults, s: State, op: Table, r: Row)
    requires At(c, f, s, Idle) && s.List(op) == [] && Caching(c) && TableOf(r) == op && Needs(c, r) <= s.accepted
    ensures At(c, f, WithRow(c, s, op, r), Idle)
  {
    Enter(c, f, s, op, [r]);
    PutOne(c, f, s, op, [r], 0);
    var put := s.WithCache(op, s.CacheOf(op).Append(r, c.grown));
    assert put.List(op) == [r] && Keys([r]) == {KeyOf(r)};
    Next(c, f, put, Inside(op, [r], 1), Decide(0), WithRow(c, s, op, r), Idle);
  }

  // ---------- rows to fill a list with ----------

  function Filler(r: Row, k: nat): Row
  {
    match r
    case BlockRow(n, _) => BlockRow(n + k, false)
    case TxRow(h, from, to) => TxRow(h + seq(k, _ => '+'), from, to)
    case WalletRow(a) => WalletRow(a + seq(k, _ => '+'))
  }

  /** `n` rows with different keys, of which `r` is the first. */
  function Series(r: Row, n: nat): seq<Row>
  {
    seq(n, k requires 0 <= k < n => if k == 0 then r else Filler(r, k))
  }

  lemma SeriesOk(c: Config, r: Row, n: nat)
    requires n > 0
    ensures Distinct(Series(r, n)) && |Series(r, n)| == n && Series(r, n)[0] == r
    ensures forall x :: x in Series(r, n) ==> TableOf(x) == TableOf(r) && References(x) == References(r)
    ensures forall x :: x in Series(r, n) ==> Needs(c, x) <= Needs(c, r)
  {
    var l := Series(r, n);
    forall j, k | 0 <= j < k < n ensures KeyOf(l[j]) != KeyOf(l[k]) {
      var x, y := seq(j, _ => '+'), seq(k, _ => '+');
      match r
      case BlockRow(_, _) =>
      case TxRow(h, _, _) => assert |h + x| < |h + y|;
      case WalletRow(a) => assert |a + x| < |a + y|;
    }
  }

  // ---------- a flush of a full list ----------

  /** The list of `op` has just been filled and comes to be flushed. */
  function Opened(c: Config, s: State, op: Table, items: seq<Row>): State
  {
    ResetAbove(s.WithCache(op, CacheList([], items, [], c.limit(op), 0)), op)
  }

  lemma Opens(c: Config, f: Faults, s: State, op: Table, items: seq<Row>)
    requires At(c, f, s, Idle) && s.CacheOf(op) == Empty(c, op) && |items| == c.limit(op) && Distinct(items)
    requires forall r :: r in items ==> TableOf(r) == op && Needs(c, r) <= s.accepted
    requires forall t :: Rank(t) > Rank(op) ==> s.List(t) == []
    ensures At(c, f, Opened(c, s, op, items), Flushing(op, items, op, Slices(c, op, items)))
    ensures Opened(c, s, op, items).CacheOf(op) == CacheList([], items, [], c.limit(op), 0)
  {
    Enter(c, f, s, op, items);
    assert s.WithCache(op, CacheList([], items[..0], [], c.limit(op), 0)) == s;
    Fill(c, f, s, op, items, 0);
    var full := s.WithCache(op, CacheList([], items, [], c.limit(op), 0));
    assert forall t :: t != op ==> full.List(t) == s.List(t);
    ToOwn(c, f, full, op, items);
  }

  // ---------- a leftover reads after its array was rewritten ----------

  /** The flush of `op` failed with its first slice still to be read. */
  function Failed(c: Config, s: State, op: Table, items: seq<Row>): State
  {
    Opened(c, s, op, items).(left := [Leftover(op, 0, 0, 0, c.batch(op), [], false)])
  }

  /** The call was made again, and succeeded. */
  function Retried(c: Config, s: State, op: Table, items: seq<Row>): State
    requires items != []
  {
    var again := ResetAbove(Failed(c, s, op, items), op);
    Emptied(again.(db := StoreAll(s.db, items)), op, [items[|items| - 1]])
  }

  lemma FirstFails(c: Config, f: Faults, s: State, op: Table, items: seq<Row>)
    requires At(c, f, s, Idle) && s.CacheOf(op) == Empty(c, op) && Distinct(items)
    requires |items| == c.limit(op) > c.batch(op)
    requires forall r :: r in items ==> TableOf(r) == op && Needs(c, r) <= s.accepted
    requires (forall t :: Rank(t) > Rank(op) ==> s.List(t) == []) && s.left == []
    ensures At(c, f, Failed(c, s, op, items), Idle)
  {
    Opens(c, f, s, op, items);
    var b, all := c.batch(op), Slices(c, op, items);
    var slices := [(0, b)];
    FirstSlice(c, op, items, 0);
    FirstSlice(c, op, items, b);
    assert all == SlicesFrom(c, op, items, 0);
    assert exists s :: s in SlicesFrom(c, op, items, b);
    assert LeavesBehind(all, all, slices);
    assert Leftovers(Opened(c, s, op, items).CacheOf(op), op, slices) == [Leftover(op, 0, 0, 0, b, [], false)];
    Next(c, f, Opened(c, s, op, items), Flushing(op, items, op, all), Fail(0, slices), Failed(c, s, op, items), Idle);
  }

  lemma RetrySucceeds(c: Config, f: Faults, s: State, op: Table, items: seq<Row>)
    requires At(c, f, s, Idle) && s.CacheOf(op) == Empty(c, op) && Distinct(items)
    requires |items| == c.limit(op) > c.batch(op)
    requires forall r :: r in items ==> TableOf(r) == op && Needs(c, r) <= s.accepted
    requires (forall t :: Rank(t) > Rank(op) ==> s.List(t) == []) && s.left == [] && Legal(s.db, items)
    ensures At(c, f, Retried(c, s, op, items), Idle)
  {
    FirstFails(c, f, s, op, items);
    var failed, last := Failed(c, s, op, items), items[|items| - 1];
    assert failed.CacheOf(op) == CacheList([], items, [], c.limit(op), 0);
    assert forall t :: Rank(t) > Rank(op) ==> failed.List(t) == [];
    Repeat(c, f, failed, op, last);
    var again := ResetAbove(failed, op);
    assert items[0..] == items && Slices(c, op, items) == SlicesFrom(c, op, items, 0);
    WriteAll(c, f, again, op, [last], Slices(c, op, items), 0);
    Finish(c, f, again.(db := StoreAll(s.db, items)), op, [last]);
  }

  /** A call with a row that is cached already comes to flush the list as it is. */
  lemma Repeat(c: Config, f: Faults, s: State, op: Table, r: Row)
    requires At(c, f, s, Idle) && TableOf(r) == op && Needs(c, r) <= s.accepted && r in s.List(op)
    requires |s.List(op)| >= c.limit(op) && forall t :: Rank(t) > Rank(op) ==> s.List(t) == []
    ensures At(c, f, ResetAbove(s, op), Flushing(op, [r], op, Slices(c, op, s.List(op))))
  {
    Enter(c, f, s, op, [r]);
    assert KeyOf(r) in Keys(s.List(op));
    PutOne(c, f, s, op, [r], 0);
    assert s.WithCache(op, s.CacheOf(op)) == s;
    ToOwn(c, f, s, op, [r]);
  }

  /** Afterwards the first row cached is where the leftover reads. */
  lemma RetriedOk(c: Config, s: State, op: Table, items: seq<Row>)
    requires s.CacheOf(op) == Empty(c, op) && DbShape(s.db) && Legal(s.db, items)
    requires |items| == c.limit(op) > c.batch(op)
    ensures var s' := Retried(c, s, op, items);
      && s'.CacheOf(op) == CacheList([], [], items, c.limit(op), 0)
      && s'.left == [Leftover(op, 0, 0, 0, c.batch(op), [], false)]
      && s'.db.Keys == s.db.Keys + Keys(items)
      && s.accepted <= s'.accepted
      && (forall t :: t != op && s.List(t) == [] ==> s'.List(t) == [])
  {
    StoreAllOk(s.db, items);
  }

  /** A database that holds some transactions of a wallet. */
  function Prepared(hashes: set<string>, a: string): map<Key, Row>
  {
    (map h | h in hashes :: Hash(h) := TxRow(h, a, a)) + map[Address(a) := WalletRow(a)]
  }

  const Someone := "0000000000000000000000000000000000000000"

  const Another := "0000000000000000000000000000000000000001"

  lemma PreparedOk(c: Config, hashes: set<string>, a: string)
    ensures Consistent(c, Prepared(hashes, a)) && DbShape(Prepared(hashes, a))
    ensures Prepared(hashes, a).Keys == (set h | h in hashes :: Hash(h)) + {Address(a)}
  {
  }

  /** So stands a run of one writer, over a database that `hashes` prepare, in which the flush of a list full of
      fillers failed, was repeated and succeeded. */
  ghost predicate Repeated(c: Config, f: Faults, s: State, op: Table, first: Row, hashes: set<string>)
  {
    && At(c, f, s, Idle) && s.left == [Leftover(op, 0, 0, 0, c.batch(op), [], false)]
    && s.CacheOf(op) == CacheList([], [], Series(first, c.limit(op)), c.limit(op), 0)
    && (forall t :: s.List(t) == [])
    && s.db.Keys == Prepared(hashes, Someone).Keys + Keys(Series(first, c.limit(op)))
    && Prepared(hashes, Someone).Keys <= s.accepted
  }

  lemma Repeats(c: Config, f: Faults, op: Table, first: Row, hashes: set<string>) returns (s: State)
    requires Caching(c) && TableOf(first) == op && Needs(c, first) == References(first) <= {Address(Someone)}
    ensures Repeated(c, f, s, op, first, hashes)
  {
    var db, items := Prepared(hashes, Someone), Series(first, c.limit(op));
    SeriesOk(c, first, c.limit(op));
    PreparedOk(c, hashes, Someone);
    Start(c, f, 1, db);
    var s0 := Initial(c, 1, db);
    assert s0.writers == [Idle] && Alone(s0, Idle) == s0;
    RetrySucceeds(c, f, s0, op, items);
    RetriedOk(c, s0, op, items);
    s := Retried(c, s0, op, items);
    assert forall t :: s0.List(t) == [];
  }

  /** What the leftover reads once row `r` has been written over the first of the rows. */
  function Mixed(c: Config, op: Table, r: Row, items: seq<Row>): seq<Row>
    requires |items| > c.batch(op)
  {
    [r] + items[1..c.batch(op)]
  }

  /** The next row cached lands in the first cell the leftover reads. */
  function Misread(c: Config, s: State, op: Table, r: Row, items: seq<Row>): State
    requires |items| > c.batch(op)
  {
    var b := c.batch(op);
    WithRow(c, s, op, r).(left := [Leftover(op, 0, 0, b, b, Mixed(c, op, r, items), false)])
  }

  function Reading(s: State, op: Table, cells: seq<Row>, next: nat, until: nat): State
    requires next <= |cells|
  {
    s.(left := [Leftover(op, 0, 0, next, until, cells[..next], false)])
  }

  lemma {:induction false} ReadOn(
      c: Config, f: Faults, s: State, op: Table, cells: seq<Row>, next: nat, until: nat)
    requires next <= until <= |cells| && At(c, f, Reading(s, op, cells, next, until), Idle) && op in f.late
    requires s.CacheOf(op).dropped == [] && s.List(op) + s.CacheOf(op).rest == cells
    ensures At(c, f, Reading(s, op, cells, until, until), Idle)
    decreases until - next
  {
    if next < until {
      var now, z := Reading(s, op, cells, next, until), Leftover(op, 0, 0, next, until, cells[..next], false);
      assert Cells(now.CacheOf(op), z) == cells && z.got + [cells[next]] == cells[..next + 1];
      assert Apply(c, Alone(now, Idle), LateRead(0)).left == [z.(next := next + 1, got := cells[..next + 1])];
      Next(c, f, now, Idle, LateRead(0), Reading(s, op, cells, next + 1, until), Idle);
      ReadOn(c, f, s, op, cells, next + 1, until);
    }
  }

  lemma ReadsLate(c: Config, f: Faults, s: State, op: Table, r: Row, items: seq<Row>)
    requires At(c, f, s, Idle) && s.left == [Leftover(op, 0, 0, 0, c.batch(op), [], false)] && op in f.late
    requires |items| == c.limit(op) && s.CacheOf(op) == CacheList([], [], items, c.limit(op), 0)
    requires Caching(c) && TableOf(r) == op && Needs(c, r) <= s.accepted
    ensures At(c, f, Misread(c, s, op, r, items), Idle)
  {
    CacheRow(c, f, s, op, r);
    var put, cells := WithRow(c, s, op, r), [r] + items[1..];
    assert put.CacheOf(op) == CacheList([], [r], items[1..], c.limit(op), 1);
    assert cells[..0] == [] && Reading(put, op, cells, 0, c.batch(op)) == put;
    ReadOn(c, f, put, op, cells, 0, c.batch(op));
    assert cells[..c.batch(op)] == Mixed(c, op, r, items);
  }

  /** A full list of blocks is flushed and one of its inserters stalls before it reads its slice, the first one, while
      the statement of another one fails. The caller repeats the call, which succeeds. A processed block is cached,
      whose transaction is cached only. The inserter goes on: the block is stored, its transaction is not. */
  lemma LateBlock(c: Config, f: Faults, n: int, h: string)
    requires Caching(c) && h in c.contents(n) && Blocks in f.late
    ensures exists st :: Reachable(c, f, st) && Premature(c, st, n, h)
  {
    var tx, block, first := TxRow(h, Someone, Someone), BlockRow(n, true), BlockRow(n + 1, false);
    var items := Series(first, c.limit(Blocks));
    var s := Repeats(c, f, Blocks, first, c.contents(n) - {h});
    SeriesOk(c, first, c.limit(Blocks));
    PreparedOk(c, c.contents(n) - {h}, Someone);
    assert Hash(h) !in s.db;
    CacheRow(c, f, s, Txs, tx);
    var cached := WithRow(c, s, Txs, tx);
    ReadsLate(c, f, cached, Blocks, block, items);
    assert cached.txs.list == [tx];
    MixedBlocks(c, n, items);
    StoresBlock(c, f, Misread(c, cached, Blocks, block, items), Mixed(c, Blocks, block, items), n, h);
  }

  lemma MixedBlocks(c: Config, n: int, items: seq<Row>)
    requires |items| > c.batch(Blocks) && items == Series(BlockRow(n + 1, false), |items|)
    ensures Distinct(Mixed(c, Blocks, BlockRow(n, true), items))
    ensures forall r :: r in Mixed(c, Blocks, BlockRow(n, true), items) ==> r.BlockRow?
  {
    SeriesOk(c, BlockRow(n + 1, false), |items|);
    assert forall k :: 0 <= k < |items| ==> items[k].BlockRow? && items[k].number == n + 1 + k;
  }

  /** Block `n` is stored as processed while transaction `h` of it is still in its cache. */
  ghost predicate Premature(c: Config, st: State, n: int, h: string)
  {
    && Number(n) in st.db && st.db[Number(n)] == BlockRow(n, true)
    && h in c.contents(n) && Hash(h) !in st.db && Hash(h) in Keys(st.txs.list)
  }

  lemma StoresBlock(c: Config, f: Faults, s: State, rows: seq<Row>, n: int, h: string)
    requires At(c, f, s, Idle) && s.left == [Leftover(Blocks, 0, 0, c.batch(Blocks), c.batch(Blocks), rows, false)]
    requires BlockRow(n, true) in rows && Distinct(rows) && forall r :: r in rows ==> r.BlockRow?
    requires h in c.contents(n) && Hash(h) !in s.db && Present(s, Hash(h))
    ensures exists st :: Reachable(c, f, st) && Premature(c, st, n, h)
  {
    var z := s.left[0];
    var stored := s.(left := [z.(done := true)], db := StoreAll(s.db, rows));
    StoreAllKeys(s.db, rows);
    StoredEach(s.db, rows, BlockRow(n, true));
    Next(c, f, s, Idle, LateExec(0), stored, Idle);
    assert Premature(c, Alone(stored, Idle), n, h);
  }

  /** The same with transactions: the late statement is for one whose wallet is cached only. */
  lemma LateTx(c: Config, f: Faults)
    requires Caching(c) && Txs in f.late
    ensures exists st :: Reachable(c, f, st) && !StatementsLegal(st)
  {
    var first, wallet, tx := TxRow("", Someone, Someone), WalletRow(Another), TxRow("", Another, Another);
    var s := Repeats(c, f, Txs, first, {});
    SeriesOk(c, first, c.limit(Txs));
    PreparedOk(c, {}, Someone);
    assert Address(Another) !in s.db;
    CacheRow(c, f, s, Wallets, wallet);
    var cached := WithRow(c, s, Wallets, wallet);
    var items := Series(first, c.limit(Txs));
    ReadsLate(c, f, cached, Txs, tx, items);
    var bad := Alone(Misread(c, cached, Txs, tx, items), Idle);
    assert Issued(bad.left[0]) && tx in bad.left[0].got && Address(Another) in References(tx);
    assert !StatementsLegal(bad);
  }

  // ---------- a flush that hides an error ----------

  /** The call returned nil although its first slice was not written. */
  function Lossy(c: Config, s: State, op: Table, items: seq<Row>): State
    requires |items| > c.batch(op)
  {
    Emptied(Opened(c, s, op, items).(db := StoreAll(s.db, items[c.batch(op)..])), op, items)
  }

  lemma Loses(c: Config, f: Faults, s: State, op: Table, items: seq<Row>)
    requires At(c, f, s, Idle) && s.CacheOf(op) == Empty(c, op) && Distinct(items)
    requires |items| == c.limit(op) > c.batch(op)
    requires forall r :: r in items ==> TableOf(r) == op && Needs(c, r) <= s.accepted
    requires (forall t :: Rank(t) > Rank(op) ==> s.List(t) == []) && Legal(s.db, items[c.batch(op)..]) && f.hidden
    ensures At(c, f, Lossy(c, s, op, items), Idle)
  {
    Opens(c, f, s, op, items);
    var full, todo, slice := Opened(c, s, op, items), Slices(c, op, items), (0, c.batch(op));
    FirstSlice(c, op, items, 0);
    assert todo == SlicesFrom(c, op, items, 0);
    Next(c, f, full, Flushing(op, items, op, todo), Hide(0, slice), full, Flushing(op, items, op, todo - {slice}));
    WriteAll(c, f, full, op, items, todo - {slice}, c.batch(op));
    Finish(c, f, full.(db := StoreAll(s.db, items[c.batch(op)..])), op, items);
  }

  lemma LossyOk(c: Config, s: State, op: Table, items: seq<Row>)
    requires s.CacheOf(op) == Empty(c, op) && |items| == c.limit(op) > c.batch(op) && Distinct(items)
    requires DbShape(s.db) && Legal(s.db, items[c.batch(op)..]) && KeyOf(items[0]) !in s.db
    ensures var s' := Lossy(c, s, op, items);
      && KeyOf(items[0]) !in s'.db && s.db.Keys <= s'.db.Keys <= s.db.Keys + Keys(items) && DbShape(s'.db)
      && s'.accepted == s.accepted + Keys(items)
      && (forall t :: s.List(t) == [] ==> s'.List(t) == [])
      && (forall t :: Rank(t) < Rank(op) ==> s'.CacheOf(t) == s.CacheOf(t))
  {
    var rest := items[c.batch(op)..];
    StoreAllOk(s.db, rest);
    assert forall r :: r in rest ==> r in items;
    assert KeyOf(items[0]) !in Keys(rest);
  }

  /** A hidden error loses an accepted row. */
  lemma HiddenLoses(c: Config, f: Faults)
    requires Caching(c) && f.hidden
    ensures exists st, k :: Reachable(c, f, st) && k in st.accepted && !Present(st, k)
  {
    var items := Series(WalletRow(Another), c.limit(Wallets));
    var s := Single(c, f, {});
    SeriesOk(c, WalletRow(Another), c.limit(Wallets));
    Loses(c, f, s, Wallets, items);
    LossyOk(c, s, Wallets, items);
    var lost := Alone(Lossy(c, s, Wallets, items), Idle);
    assert items[0] in items && KeyOf(items[0]) in lost.accepted && !Present(lost, KeyOf(items[0]));
  }

  /** The beginning of a run of one writer over a prepared database. */
  lemma Single(c: Config, f: Faults, hashes: set<string>) returns (s: State)
    ensures s == Initial(c, 1, Prepared(hashes, Someone)) && At(c, f, s, Idle) && DbShape(s.db)
    ensures s.db.Keys == s.accepted == (set h | h in hashes :: Hash(h)) + {Address(Someone)}
    ensures forall t :: s.List(t) == [] && s.CacheOf(t) == Empty(c, t)
  {
    PreparedOk(c, hashes, Someone);
    Start(c, f, 1, Prepared(hashes, Someone));
    s := Initial(c, 1, Prepared(hashes, Someone));
    assert s.writers == [Idle] && Alone(s, Idle) == s;
  }

  /** After a hidden error for a wallet, a flush of transactions breaks a foreign key. */
  lemma HiddenWallet(c: Config, f: Faults)
    requires Caching(c) && f.hidden
    ensures exists st :: Reachable(c, f, st) && !StatementsLegal(st)
  {
    var wallets, txs := Series(WalletRow(Another), c.limit(Wallets)), Series(TxRow("", Another, Another), c.limit(Txs));
    var s := Single(c, f, {});
    SeriesOk(c, WalletRow(Another), c.limit(Wallets));
    SeriesOk(c, TxRow("", Another, Another), c.limit(Txs));
    Loses(c, f, s, Wallets, wallets);
    LossyOk(c, s, Wallets, wallets);
    assert wallets[0] in wallets && Address(Another) in Keys(wallets);
    var lost := Lossy(c, s, Wallets, wallets);
    Opens(c, f, lost, Txs, txs);
    var bad, slice := Alone(Opened(c, lost, Txs, txs), Flushing(Txs, txs, Txs, Slices(c, Txs, txs))), (0, c.batch(Txs));
    FirstSlice(c, Txs, txs, 0);
    assert slice in SlicesFrom(c, Txs, txs, 0) && Pending(bad, 0, slice);
    assert bad.List(Txs) == txs && txs[0] in Statement(bad, 0, slice) && Address(Another) in References(txs[0]);
    assert !Legal(bad.db, Statement(bad, 0, slice));
  }

  /** After a hidden error for a transaction, a flush of blocks stores its block all the same. */
  lemma HiddenTx(c: Config, f: Faults, n: int, h: string)
    requires Caching(c) && h in c.contents(n) && f.hidden
    ensures exists st :: Reachable(c, f, st) && !BlocksStored(c, st.db)
  {
    var tx := TxRow(h, Someone, Someone);
    var txs := Series(tx, c.limit(Txs));
    var s := Single(c, f, c.contents(n) - {h});
    SeriesOk(c, tx, c.limit(Txs));
    Loses(c, f, s, Txs, txs);
    LossyOk(c, s, Txs, txs);
    assert txs[0] in txs && Hash(h) in Keys(txs);
    FlushesBlock(c, f, Lossy(c, s, Txs, txs), n, h);
  }

  lemma FlushesBlock(c: Config, f: Faults, s: State, n: int, h: string)
    requires Caching(c) && At(c, f, s, Idle) && s.blocks == Empty(c, Blocks) && s.txs.list == s.wallets.list == []
    requires DbShape(s.db) && h in c.contents(n) && Hash(h) !in s.db
    requires forall x :: x in c.contents(n) ==> Hash(x) in s.accepted
    ensures exists st :: Reachable(c, f, st) && !BlocksStored(c, st.db)
  {
    var block := BlockRow(n, true);
    var blocks := Series(block, c.limit(Blocks));
    SeriesOk(c, block, c.limit(Blocks));
    Flushes(c, f, s, Blocks, blocks);
    StoreAllOk(s.db, blocks);
    StoredEach(s.db, blocks, blocks[0]);
    var bad := Alone(Stored(c, s, Blocks, blocks), Flushing(Blocks, blocks, Blocks, {}));
    assert bad.db == StoreAll(s.db, blocks);
    assert Hash(h) in Needs(c, bad.db[Number(n)]) && Hash(h) !in bad.db;
    assert !BlocksStored(c, bad.db);
  }

  /** A flush that writes every row of its list. */
  function Stored(c: Config, s: State, op: Table, items: seq<Row>): State
  {
    Opened(c, s, op, items).(db := StoreAll(s.db, items))
  }

  lemma Flushes(c: Config, f: Faults, s: State, op: Table, items: seq<Row>)
    requires At(c, f, s, Idle) && s.CacheOf(op) == Empty(c, op) && |items| == c.limit(op) && Distinct(items)
    requires forall r :: r in items ==> TableOf(r) == op && Needs(c, r) <= s.accepted
    requires (forall t :: Rank(t) > Rank(op) ==> s.List(t) == []) && Legal(s.db, items)
    ensures At(c, f, Stored(c, s, op, items), Flushing(op, items, op, {}))
  {
    Opens(c, f, s, op, items);
    assert items[0..] == items && Slices(c, op, items) == SlicesFrom(c, op, items, 0);
    WriteAll(c, f, Opened(c, s, op, items), op, items, Slices(c, op, items), 0);
  }

  // ---------- exactly when the cache is safe ----------

  /** In every state of every run with at most these faults, a processed block has its transactions stored. */
  ghost predicate BlocksAlwaysStored(c: Config, f: Faults)
  {
    forall st :: Reachable(c, f, st) ==> BlocksStored(c, st.db)
  }

  ghost predicate StatementsAlwaysLegal(c: Config, f: Faults)
  {
    forall st :: Reachable(c, f, st) ==> StatementsLegal(st)
  }

  ghost predicate NeverLosing(c: Config, f: Faults)
  {
    forall st :: Reachable(c, f, st) ==> AllPresent(st, st.accepted)
  }

  /** No processed block is ever stored before its transactions if and only if no inserter of a failed block flush
      reads an array rewritten since, and no flush hides an error. */
  lemma BlocksStoredExactly(c: Config, f: Faults, n: int, h: string)
    requires Caching(c) && h in c.contents(n)
    ensures BlocksAlwaysStored(c, f) <==> Blocks !in f.late && !f.hidden
  {
    if Blocks in f.late {
      LateBlock(c, f, n, h);
      var st :| Reachable(c, f, st) && Premature(c, st, n, h);
      assert Hash(h) in Needs(c, st.db[Number(n)]) && !BlocksStored(c, st.db);
    } else if f.hidden {
      HiddenTx(c, f, n, h);
    } else {
      forall st | Reachable(c, f, st) ensures BlocksStored(c, st.db) {
        forall k | k in st.db && st.db[k].BlockRow? ensures Needs(c, st.db[k]) <= st.db.Keys {
          if st.db[k].processed { DatabaseSafe(c, f, st, k); }
        }
      }
    }
  }

  /** No statement ever breaks a foreign key if and only if no inserter of a failed transaction flush reads an array
      rewritten since, and no flush hides an error. */
  lemma StatementsLegalExactly(c: Config, f: Faults)
    requires Caching(c)
    ensures StatementsAlwaysLegal(c, f) <==> Txs !in f.late && !f.hidden
  {
    if Txs in f.late {
      LateTx(c, f);
    } else if f.hidden {
      HiddenWallet(c, f);
    } else {
      forall st | Reachable(c, f, st) ensures StatementsLegal(st) { ForeignKeysHold(c, f, st); }
    }
  }

  /** No accepted row is ever lost if and only if no flush hides an error; leftovers do not matter. */
  lemma NeverLosingExactly(c: Config, f: Faults)
    requires Caching(c)
    ensures NeverLosing(c, f) <==> !f.hidden
  {
    if f.hidden {
      HiddenLoses(c, f);
    } else {
      forall st, k | Reachable(c, f, st) && k in st.accepted ensures Present(st, k) { NothingLost(c, f, st, k); }
    }
  }
}
