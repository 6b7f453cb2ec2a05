/** The cached store itself, one call at a time: its lists, key maps and tables, updated in place. */
module Cdb {
  import opened CacheProtocol

  /** `cacheMap` is meant to hold exactly the keys of `cacheList`. */
  datatype Cache = Cache(maxSize: nat, cacheMap: set<Key>, cacheList: seq<Row>)
  {
    ghost predicate Valid(t: Table)
    {
      && maxSize > 0 && cacheMap == Keys(cacheList)
      && (forall k :: 0 <= k < |cacheList| ==> TableOf(cacheList[k]) == t)
      && forall j, k :: 0 <= j < k < |cacheList| ==> KeyOf(cacheList[j]) != KeyOf(cacheList[k])
    }
  }

  /** Items whose key is already cached are dropped. */
  function AddAll(l: seq<Row>, items: seq<Row>): seq<Row>
    decreases |items|
  {
    if items == [] then l
    else if KeyOf(items[0]) in Keys(l) then AddAll(l, items[1..])
    else AddAll(l + [items[0]], items[1..])
  }

  /** A row goes to the end of the list unless its key is there, and rows go one after the other. */
  lemma {:induction false} AddAllInOrder(l: seq<Row>, items: seq<Row>, r: Row)
    ensures AddAll(l, [r]) == if exists x :: x in l && KeyOf(x) == KeyOf(r) then l else l + [r]
    ensures AddAll(l, items + [r]) == AddAll(AddAll(l, items), [r])
    decreases |items|
  {
    assert AddAll(l, [r]) == if KeyOf(r) in Keys(l) then l else l + [r];
    if items == [] {
      assert items + [r] == [r];
    } else {
      assert (items + [r])[1..] == items[1..] + [r];
      AddAllInOrder(if KeyOf(items[0]) in Keys(l) then l else l + [items[0]], items[1..], r);
    }
  }

  lemma {:induction false} AddAllKeeps(l: seq<Row>, items: seq<Row>, t: Table)
    requires forall k :: 0 <= k < |l| ==> TableOf(l[k]) == t
    requires forall r :: r in items ==> TableOf(r) == t
    requires forall j, k :: 0 <= j < k < |l| ==> KeyOf(l[j]) != KeyOf(l[k])
    ensures var m := AddAll(l, items);
      && (forall k :: 0 <= k < |m| ==> TableOf(m[k]) == t && (m[k] in l || m[k] in items))
      && (forall j, k :: 0 <= j < k < |m| ==> KeyOf(m[j]) != KeyOf(m[k]))
      && Keys(m) == Keys(l) + Keys(items)
    decreases |items|
  {
    if items != [] {
      var r := items[0];
      assert items == [r] + items[1..];
      if KeyOf(r) in Keys(l) {
        AddAllKeeps(l, items[1..], t);
      } else {
        assert forall k :: 0 <= k < |l| ==> l[k] in l && KeyOf(l[k]) in Keys(l);
        AddAllKeeps(l + [r], items[1..], t);
        assert Keys(l + [r]) == Keys(l) + {KeyOf(r)};
      }
      assert Keys(items) == {KeyOf(r)} + Keys(items[1..]);
    }
  }

  lemma FillOne(c: Cache, t: Table, r: Row)
    requires c.Valid(t) && TableOf(r) == t && KeyOf(r) !in c.cacheMap
    ensures Cache(c.maxSize, c.cacheMap + {KeyOf(r)}, c.cacheList + [r]).Valid(t)
  {
    assert Keys(c.cacheList + [r]) == Keys(c.cacheList) + {KeyOf(r)};
    assert forall k :: 0 <= k < |c.cacheList| ==> c.cacheList[k] in c.cacheList && KeyOf(c.cacheList[k]) in c.cacheMap;
  }

  /** Which statements the database refuses, apart from those that break a foreign key or hold a bad address. */
  type Refusals = seq<Row> -> bool

  predicate WellFormed(r: Row) { r.WalletRow? ==> |r.address| == 40 }

  /** The statement fails on the database `db`. */
  ghost predicate Fails(db: map<Key, Row>, rows: seq<Row>, refuses: Refusals)
  {
    refuses(rows) || exists r :: r in rows && !(WellFormed(r) && References(r) <= db.Keys)
  }

  function Below(n: nat): (s: set<nat>)
    ensures forall k: nat :: k in s <==> k < n
  {
    if n == 0 then {} else Below(n - 1) + {n - 1}
  }

  ghost predicate SomeSliceFails(db: map<Key, Row>, rows: seq<Row>, refuses: Refusals)
  {
    exists from: nat, until: nat :: from < until <= |rows| && Fails(db, rows[from..until], refuses)
  }

  /** Rows no statement fails for: addresses of 40 characters, and foreign keys that are known. */
  ghost predicate Good(rows: seq<Row>, known: set<Key>)
  {
    forall r :: r in rows ==> (r.WalletRow? ==> |r.address| == 40) && References(r) <= known
  }

  ghost predicate Willing(refuses: Refusals) { forall rows :: !refuses(rows) }

  lemma GoodSucceeds(db: map<Key, Row>, rows: seq<Row>, refuses: Refusals)
    requires Willing(refuses) && Good(rows, db.Keys)
    ensures !SomeSliceFails(db, rows, refuses)
  {
  }

  /** A statement fails as wallets, then transactions, then blocks are stored. */
  ghost predicate FlushFails(db: map<Key, Row>, w: seq<Row>, t: seq<Row>, l: seq<Row>, refuses: Refusals)
  {
    || SomeSliceFails(db, w, refuses) || SomeSliceFails(StoreAll(db, w), t, refuses)
    || SomeSliceFails(StoreAll(StoreAll(db, w), t), l, refuses)
  }

  lemma FlushSucceeds(db: map<Key, Row>, w: seq<Row>, t: seq<Row>, l: seq<Row>, refuses: Refusals)
    requires Willing(refuses) && Good(w, {}) && Good(t, db.Keys + Keys(w)) && Good(l, {})
    ensures !FlushFails(db, w, t, l, refuses)
  {
    StoreAllKeys(db, w);
    GoodSucceeds(db, w, refuses);
    GoodSucceeds(StoreAll(db, w), t, refuses);
    GoodSucceeds(StoreAll(StoreAll(db, w), t), l, refuses);
  }

  lemma GoodAdded(l: seq<Row>, items: seq<Row>, t: Table, known: set<Key>, more: set<Key>)
    requires Good(l, known) && Good(items, known) && known <= more
    requires (forall k :: 0 <= k < |l| ==> TableOf(l[k]) == t) && forall r :: r in items ==> TableOf(r) == t
    requires Distinct(l)
    ensures Good(AddAll(l, items), more) && Keys(AddAll(l, items)) == Keys(l) + Keys(items)
  {
    AddAllKeeps(l, items, t);
  }

  // ---------- statements in any order ----------

  function Slice(rows: seq<Row>, s: (nat, nat)): seq<Row> { if s.0 <= s.1 <= |rows| then rows[s.0..s.1] else [] }

  /** The slices stored one after the other. */
  function StoreSlices(db: map<Key, Row>, rows: seq<Row>, done: seq<(nat, nat)>): map<Key, Row>
  {
    if done == [] then db
    else StoreAll(StoreSlices(db, rows, done[..|done| - 1]), Slice(rows, done[|done| - 1]))
  }

  /** `done` are slices of the rows, each once and none of them refused; `complete`: all the slices. */
  ghost predicate Chosen(
      rows: seq<Row>, size: nat, refuses: Refusals, cuts: seq<(nat, nat)>, done: seq<(nat, nat)>, complete: bool)
  {
    && Batches.Slices(cuts, 0, |rows|, size) && (complete ==> forall s :: s in cuts ==> s in done)
    && (forall j, k :: 0 <= j < k < |done| ==> done[j] != done[k])
    && (forall s :: s in done ==> s in cuts && !refuses(Slice(rows, s)))
  }

  /** Some of the slices of the rows were stored, in some order. */
  ghost predicate Executed(
      was: map<Key, Row>, now: map<Key, Row>, rows: seq<Row>, size: nat, refuses: Refusals, complete: bool)
  {
    exists cuts, done :: Chosen(rows, size, refuses, cuts, done, complete) && now == StoreSlices(was, rows, done)
  }

  /** Whatever was executed, keys of the rows only were added, and no other row was touched. */
  lemma {:induction false} SlicesElse(db: map<Key, Row>, rows: seq<Row>, done: seq<(nat, nat)>, k: Key)
    ensures db.Keys <= StoreSlices(db, rows, done).Keys <= db.Keys + Keys(rows)
    ensures k !in Keys(rows) && k in db ==> StoreSlices(db, rows, done)[k] == db[k]
  {
    if done != [] {
      var before, slice := StoreSlices(db, rows, done[..|done| - 1]), Slice(rows, done[|done| - 1]);
      SlicesElse(db, rows, done[..|done| - 1], k);
      StoreAllKeys(before, slice);
      assert forall r :: r in slice ==> r in rows;
      if k !in Keys(rows) { StoredElse(before, slice, k); }
    }
  }

  lemma SliceDistinct(rows: seq<Row>, s: (nat, nat))
    requires Distinct(rows)
    ensures Distinct(Slice(rows, s)) && forall r :: r in Slice(rows, s) ==> r in rows
  {
  }

  /** A row of a slice that was executed is stored. */
  lemma {:induction false} SlicesEach(db: map<Key, Row>, rows: seq<Row>, done: seq<(nat, nat)>, s: (nat, nat), r: Row)
    requires Distinct(rows) && s in done && r in Slice(rows, s)
    ensures KeyOf(r) in StoreSlices(db, rows, done) && StoreSlices(db, rows, done)[KeyOf(r)] == r
  {
    var before, last := StoreSlices(db, rows, done[..|done| - 1]), done[|done| - 1];
    SliceDistinct(rows, last);
    SliceDistinct(rows, s);
    if r in Slice(rows, last) {
      StoredEach(before, Slice(rows, last), r);
    } else {
      SlicesEach(db, rows, done[..|done| - 1], s, r);
      forall x | x in Slice(rows, last) ensures KeyOf(x) != KeyOf(r) { assert x in rows && r in rows; }
      StoredElse(before, Slice(rows, last), KeyOf(r));
    }
  }

  /** All slices of rows with different keys, in whatever order, store what one statement would. */
  lemma CompleteIsAll(
      was: map<Key, Row>, rows: seq<Row>, size: nat, refuses: Refusals, cuts: seq<(nat, nat)>, done: seq<(nat, nat)>)
    requires Chosen(rows, size, refuses, cuts, done, true) && Distinct(rows)
    ensures StoreSlices(was, rows, done) == StoreAll(was, rows)
  {
    var now, all := StoreSlices(was, rows, done), StoreAll(was, rows);
    StoreAllKeys(was, rows);
    SlicesElse(was, rows, done, Number(0));
    forall k | k in all ensures k in now && now[k] == all[k] { CompleteAt(was, rows, size, refuses, cuts, done, k); }
    assert now.Keys == all.Keys;
  }

  lemma CompleteAt(
      was: map<Key, Row>, rows: seq<Row>, size: nat, refuses: Refusals, cuts: seq<(nat, nat)>, done: seq<(nat, nat)>,
      k: Key)
    requires Chosen(rows, size, refuses, cuts, done, true) && Distinct(rows) && k in StoreAll(was, rows)
    ensures k in StoreSlices(was, rows, done) && StoreSlices(was, rows, done)[k] == StoreAll(was, rows)[k]
  {
    if r :| r in rows && KeyOf(r) == k {
      InSomeSlice(was, rows, size, refuses, cuts, done, r);
      StoredEach(was, rows, r);
    } else {
      StoredElse(was, rows, k);
      SlicesElse(was, rows, done, k);
    }
  }

  lemma InSomeSlice(
      was: map<Key, Row>, rows: seq<Row>, size: nat, refuses: Refusals, cuts: seq<(nat, nat)>, done: seq<(nat, nat)>,
      r: Row)
    requires Chosen(rows, size, refuses, cuts, done, true) && Distinct(rows) && r in rows
    ensures KeyOf(r) in StoreSlices(was, rows, done) && StoreSlices(was, rows, done)[KeyOf(r)] == r
  {
    var i: nat :| i < |rows| && rows[i] == r;
    Batches.EachRowOnce(cuts, 0, |rows|, size, i);
    var k :| Batches.In(cuts, k, i);
    CutBounds(cuts, |rows|, size, k);
    assert Slice(rows, cuts[k])[i - cuts[k].0] == r;
    SlicesEach(was, rows, done, cuts[k], r);
  }

  /** A flush of wallets, then transactions. */
  ghost predicate TxsExecuted(
      was: map<Key, Row>, now: map<Key, Row>, wallets: seq<Row>, txs: seq<Row>, refuses: Refusals, complete: bool)
  {
    exists mid :: Executed(was, mid, wallets, 250, refuses, complete) && Executed(mid, now, txs, 125, refuses, complete)
  }

  /** And then blocks. */
  ghost predicate BlocksExecuted(
      was: map<Key, Row>, now: map<Key, Row>, wallets: seq<Row>, txs: seq<Row>, blocks: seq<Row>, refuses: Refusals,
      complete: bool)
  {
    exists mid ::
      && TxsExecuted(was, mid, wallets, txs, refuses, complete)
      && Executed(mid, now, blocks, 750, refuses, complete)
  }

  class CDBGraph {
    var db: map<Key, Row>
    var blockC: Cache
    var txC: Cache
    var walletC: Cache

    ghost predicate Valid() reads this
    {
      blockC.Valid(Blocks) && txC.Valid(Txs) && walletC.Valid(Wallets)
    }

    ghost predicate Present(k: Key) reads this
    {
      k in db || k in blockC.cacheMap || k in txC.cacheMap || k in walletC.cacheMap
    }

    /** Nothing is refused, and whatever is cached can be stored, wallets first. */
    ghost predicate Healthy(refuses: Refusals) reads this
    {
      Willing(refuses) && Good(walletC.cacheList, {}) && Good(txC.cacheList, db.Keys + walletC.cacheMap)
    }

    constructor (db: map<Key, Row>, blocks: nat, txs: nat, wallets: nat)
      requires blocks > 0 && txs > 0 && wallets > 0
      ensures Valid() && this.db == db && blockC.cacheList == [] && txC.cacheList == [] && walletC.cacheList == []
      ensures blockC.maxSize == blocks && txC.maxSize == txs && walletC.maxSize == wallets
    {
      this.db := db;
      blockC, txC, walletC := Cache(blocks, {}, []), Cache(txs, {}, []), Cache(wallets, {}, []);
    }

    /** One statement: all of its rows or none. */
    method Exec(rows: seq<Row>, refuses: Refusals) returns (err: bool)
      modifies this`db
      ensures err <==> Fails(old(db), rows, refuses)
      ensures db == if err then old(db) else StoreAll(old(db), rows)
    {
      if refuses(rows) || exists r :: r in rows && !(WellFormed(r) && References(r) <= db.Keys) { return true; }
      var i := 0;
      ghost var was := db;
      assert rows[..0] == [];
      while i < |rows|
        invariant i <= |rows| && db == StoreAll(was, rows[..i])
      {
        assert rows[..i + 1] == rows[..i] + [rows[i]];
        StoreAllAppend(was, rows[..i], [rows[i]]);
        db := db[KeyOf(rows[i]) := rows[i]];
        i := i + 1;
      }
      assert rows[..i] == rows;
      return false;
    }

    /** The slices are executed in any order. Once one has failed the call may return with some of the others not
        executed: mostly with the error, but nil, which is `hidden`, when the last inserter to end is seen first. */
    method BatchUpsert(rows: seq<Row>, size: nat, refuses: Refusals) returns (err: bool, ghost hidden: bool)
      requires size > 0
      modifies this`db
      ensures Executed(old(db), db, rows, size, refuses, !err && !hidden) && (hidden ==> !err)
      ensures err || hidden ==> SomeSliceFails(old(db), rows, refuses)
    {
      var cuts := Batches.Cut(|rows|, size);
      var todo, failed := Below(|cuts|), false;
      ghost var was, done := db, [];
      while todo != {}
        invariant db == StoreSlices(was, rows, done) && was.Keys <= db.Keys
        invariant Underway(rows, size, refuses, cuts, todo, done, failed)
        invariant failed ==> SomeSliceFails(was, rows, refuses)
        decreases |todo|
      {
        if failed { if * { break; } }
        var k: nat :| k in todo;
        CutBounds(cuts, |rows|, size, k);
        Advance(rows, size, refuses, cuts, todo, done, failed, k);
        todo := todo - {k};
        ExecOne(was, db, rows, refuses, done, cuts[k]);
        var e := Exec(Slice(rows, cuts[k]), refuses);
        if e {
          failed := true;
        } else {
          done := done + [cuts[k]];
        }
      }
      assert Chosen(rows, size, refuses, cuts, done, !failed);
      err, hidden := failed, false;
      if failed { if * { err, hidden := false, true; } }
    }

    /** Stores the cached blocks and empties their cache; on an error the cache stays. */
    method UpsertBlockCache(refuses: Refusals) returns (err: bool, ghost hidden: bool)
      requires Valid()
      modifies this`db, this`blockC
      ensures Valid() && blockC.maxSize == old(blockC.maxSize) && (hidden ==> !err)
      ensures Executed(old(db), db, old(blockC.cacheList), 750, refuses, !err && !hidden)
      ensures err || hidden ==> SomeSliceFails(old(db), old(blockC.cacheList), refuses)
      ensures !err ==> blockC.cacheList == []
      ensures !err && !hidden ==> db == StoreAll(old(db), old(blockC.cacheList))
      ensures err ==> blockC == old(blockC)
      ensures !err && !hidden ==> Keys(old(blockC.cacheList)) <= db.Keys
      ensures old(db).Keys <= db.Keys <= old(db).Keys + Keys(old(blockC.cacheList))
    {
      err, hidden := BatchUpsert(blockC.cacheList, 750, refuses);
      PartlyStored(old(db), blockC.cacheList, 750, refuses, !err && !hidden, db);
      if err { return; }
      blockC := blockC.(cacheList := [], cacheMap := {});
    }

    /** The same for transactions. */
    method UpsertTxCache(refuses: Refusals) returns (err: bool, ghost hidden: bool)
      requires Valid()
      modifies this`db, this`txC
      ensures Valid() && txC.maxSize == old(txC.maxSize) && (hidden ==> !err)
      ensures Executed(old(db), db, old(txC.cacheList), 125, refuses, !err && !hidden)
      ensures err || hidden ==> SomeSliceFails(old(db), old(txC.cacheList), refuses)
      ensures !err ==> txC.cacheList == []
      ensures !err && !hidden ==> db == StoreAll(old(db), old(txC.cacheList))
      ensures err ==> txC == old(txC)
      ensures !err && !hidden ==> Keys(old(txC.cacheList)) <= db.Keys
      ensures old(db).Keys <= db.Keys <= old(db).Keys + Keys(old(txC.cacheList))
    {
      err, hidden := BatchUpsert(txC.cacheList, 125, refuses);
      PartlyStored(old(db), txC.cacheList, 125, refuses, !err && !hidden, db);
      if err { return; }
      txC := txC.(cacheList := [], cacheMap := {});
    }

    /** The same for wallets. */
    method UpsertWalletCache(refuses: Refusals) returns (err: bool, ghost hidden: bool)
      requires Valid()
      modifies this`db, this`walletC
      ensures Valid() && walletC.maxSize == old(walletC.maxSize) && (hidden ==> !err)
      ensures Executed(old(db), db, old(walletC.cacheList), 250, refuses, !err && !hidden)
      ensures err || hidden ==> SomeSliceFails(old(db), old(walletC.cacheList), refuses)
      ensures !err ==> walletC.cacheList == []
      ensures !err && !hidden ==> db == StoreAll(old(db), old(walletC.cacheList))
      ensures err ==> walletC == old(walletC)
      ensures !err && !hidden ==> Keys(old(walletC.cacheList)) <= db.Keys
      ensures old(db).Keys <= db.Keys <= old(db).Keys + Keys(old(walletC.cacheList))
    {
      err, hidden := BatchUpsert(walletC.cacheList, 250, refuses);
      PartlyStored(old(db), walletC.cacheList, 250, refuses, !err && !hidden, db);
      if err { return; }
      walletC := walletC.(cacheList := [], cacheMap := {});
    }

    /** The loop of `cacheItems`: appends the items whose key is not cached yet. */
    static method Fill(c: Cache, t: Table, items: seq<Row>) returns (d: Cache)
      requires c.Valid(t) && forall r :: r in items ==> TableOf(r) == t
      ensures d.Valid(t) && d.maxSize == c.maxSize && d.cacheList == AddAll(c.cacheList, items)
      ensures d.cacheMap == c.cacheMap + Keys(items)
    {
      var i := 0;
      d := c;
      AddAllKeeps(c.cacheList, items, t);
      assert items[0..] == items;
      while i < |items|
        invariant i <= |items| && d.Valid(t) && d.maxSize == c.maxSize
        invariant AddAll(d.cacheList, items[i..]) == AddAll(c.cacheList, items)
      {
        assert items[i..][1..] == items[i + 1..] && items[i] in items;
        if KeyOf(items[i]) !in d.cacheMap {
          FillOne(d, t, items[i]);
          d := Cache(d.maxSize, d.cacheMap + {KeyOf(items[i])}, d.cacheList + [items[i]]);
        }
        i := i + 1;
      }
    }

    /** What every call keeps: the caches fit together and no stored row goes; unless an error was hidden, no key
        that was cached or stored is lost. */
    twostate predicate Kept(hidden: bool) reads this
    {
      && Valid()
      && blockC.maxSize == old(blockC.maxSize) && txC.maxSize == old(txC.maxSize)
      && walletC.maxSize == old(walletC.maxSize)
      && old(db).Keys <= db.Keys
      && (!hidden ==> forall k :: old(Present(k)) ==> Present(k))
    }

    method UpsertWallets(items: seq<Row>, refuses: Refusals) returns (err: bool, ghost hidden: bool)
      requires Valid() && forall r :: r in items ==> TableOf(r) == Wallets
      modifies this`db, this`walletC
      ensures Kept(hidden) && (!hidden ==> forall r :: r in items ==> Present(KeyOf(r))) && (hidden ==> !err)
      ensures !err ==> |walletC.cacheList| < walletC.maxSize
      ensures var l := AddAll(old(walletC.cacheList), items);
        if |l| < walletC.maxSize then !err && !hidden && walletC.cacheList == l && db == old(db)
        else
          && walletC.cacheList == (if err then l else []) && Executed(old(db), db, l, 250, refuses, !err && !hidden)
          && (!err && !hidden ==> db == StoreAll(old(db), l))
          && (err || hidden ==> SomeSliceFails(old(db), l, refuses))
      ensures old(Healthy(refuses)) && Good(items, {}) ==> !err && !hidden && Healthy(refuses)
    {
      ghost var good := Healthy(refuses) && Good(items, {});
      if good { GoodAdded(walletC.cacheList, items, Wallets, {}, {}); }
      walletC := Fill(walletC, Wallets, items);
      if good { GoodSucceeds(db, walletC.cacheList, refuses); }
      if |walletC.cacheList| < walletC.maxSize { return false, false; }
      StoreAllKeys(db, walletC.cacheList);
      err, hidden := UpsertWalletCache(refuses);
    }

    method InsertTxs(items: seq<Row>, refuses: Refusals) returns (err: bool, ghost hidden: bool)
      requires Valid() && forall r :: r in items ==> TableOf(r) == Txs
      modifies this`db, this`txC, this`walletC
      ensures Kept(hidden) && (!hidden ==> forall r :: r in items ==> Present(KeyOf(r)))
      ensures !err ==> |txC.cacheList| < txC.maxSize
      ensures var l := AddAll(old(txC.cacheList), items);
        if |l| < txC.maxSize then
          !err && !hidden && txC.cacheList == l && walletC == old(walletC) && db == old(db)
        else if err then
          && txC.cacheList == l && (walletC == old(walletC) || walletC.cacheList == [])
          && TxsExecuted(old(db), db, old(walletC.cacheList), l, refuses, false)
        else
          && txC.cacheList == [] && walletC.cacheList == []
          && TxsExecuted(old(db), db, old(walletC.cacheList), l, refuses, !hidden)
          && (!hidden ==> db == StoreAll(StoreAll(old(db), old(walletC.cacheList)), l))
      ensures err || hidden ==>
        FlushFails(old(db), old(walletC.cacheList), AddAll(old(txC.cacheList), items), [], refuses)
      ensures old(Healthy(refuses)) && Good(items, old(db).Keys + old(walletC.cacheMap)) ==>
        !err && !hidden && Healthy(refuses)
    {
      ghost var known := db.Keys + walletC.cacheMap;
      ghost var good := Healthy(refuses) && Good(items, known);
      if good { GoodAdded(txC.cacheList, items, Txs, known, known); }
      txC := Fill(txC, Txs, items);
      if |txC.cacheList| < txC.maxSize { return false, false; }
      ghost var w, l := walletC.cacheList, txC.cacheList;
      if good { FlushSucceeds(db, w, l, [], refuses); }
      err, hidden := UpsertWalletCache(refuses);
      ghost var mid, more := db, false;
      if err {
        WalletsOnly(old(db), db, w, l, refuses);
        return;
      }
      err, more := UpsertTxCache(refuses);
      TxsDone(old(db), mid, db, w, l, refuses, !hidden, !err && !more);
      hidden := hidden || more;
    }

    method UpsertBlocks(items: seq<Row>, refuses: Refusals) returns (err: bool, ghost hidden: bool)
      requires Valid() && forall r :: r in items ==> TableOf(r) == Blocks
      modifies this`db, this`blockC, this`txC, this`walletC
      ensures Kept(hidden) && (!hidden ==> forall r :: r in items ==> Present(KeyOf(r)))
      ensures !err ==> |blockC.cacheList| < blockC.maxSize
      ensures var l := AddAll(old(blockC.cacheList), items);
        if |l| < blockC.maxSize then
          !err && !hidden && blockC.cacheList == l && txC == old(txC) && walletC == old(walletC) && db == old(db)
        else if err then
          && blockC.cacheList == l
          && BlocksExecuted(old(db), db, old(walletC.cacheList), old(txC.cacheList), l, refuses, false)
        else
          && blockC.cacheList == [] && txC.cacheList == [] && walletC.cacheList == []
          && BlocksExecuted(old(db), db, old(walletC.cacheList), old(txC.cacheList), l, refuses, !hidden)
          && (!hidden ==>
                db == StoreAll(StoreAll(StoreAll(old(db), old(walletC.cacheList)), old(txC.cacheList)), l))
      ensures err || hidden ==>
        FlushFails(old(db), old(walletC.cacheList), old(txC.cacheList), AddAll(old(blockC.cacheList), items), refuses)
      ensures old(Healthy(refuses)) ==> !err && !hidden && Healthy(refuses)
    {
      ghost var good := Healthy(refuses);
      blockC := Fill(blockC, Blocks, items);
      if |blockC.cacheList| < blockC.maxSize { return false, false; }
      ghost var w, t, l := walletC.cacheList, txC.cacheList, blockC.cacheList;
      ghost var fails := FlushFails(db, w, t, l, refuses);
      if good { FlushSucceeds(db, w, t, l, refuses); }
      err, hidden := UpsertWalletCache(refuses);
      ghost var mid, more := db, false;
      assert (err || hidden) ==> fails;
      if err {
        WalletsOnly(old(db), db, w, t, refuses);
        TxsOnly(old(db), db, w, t, l, refuses);
        return;
      }
      err, more := UpsertTxCache(refuses);
      TxsDone(old(db), mid, db, w, t, refuses, !hidden, !err && !more);
      hidden, mid := hidden || more, db;
      assert (err || hidden) ==> fails;
      if err {
        TxsOnly(old(db), db, w, t, l, refuses);
        return;
      }
      err, more := UpsertBlockCache(refuses);
      BlocksDone(old(db), mid, db, w, t, l, refuses, !hidden, !err && !more);
      hidden := hidden || more;
    }
  }

  lemma Fewer(was: map<Key, Row>, now: map<Key, Row>, rows: seq<Row>, size: nat, refuses: Refusals, complete: bool)
    requires Executed(was, now, rows, size, refuses, complete)
    ensures Executed(was, now, rows, size, refuses, false)
  {
    var cuts, done :| Chosen(rows, size, refuses, cuts, done, complete) && now == StoreSlices(was, rows, done);
    assert Chosen(rows, size, refuses, cuts, done, false);
  }

  lemma TxsDone(
      was: map<Key, Row>, mid: map<Key, Row>, now: map<Key, Row>, w: seq<Row>, l: seq<Row>, refuses: Refusals,
      first: bool, second: bool)
    requires Executed(was, mid, w, 250, refuses, first) && Executed(mid, now, l, 125, refuses, second)
    ensures TxsExecuted(was, now, w, l, refuses, false) && TxsExecuted(was, now, w, l, refuses, first && second)
  {
    Fewer(was, mid, w, 250, refuses, first);
    Fewer(mid, now, l, 125, refuses, second);
  }

  lemma BlocksDone(
      was: map<Key, Row>, mid: map<Key, Row>, now: map<Key, Row>, w: seq<Row>, t: seq<Row>, l: seq<Row>,
      refuses: Refusals, first: bool, second: bool)
    requires TxsExecuted(was, mid, w, t, refuses, false) && TxsExecuted(was, mid, w, t, refuses, first)
    requires Executed(mid, now, l, 750, refuses, second)
    ensures BlocksExecuted(was, now, w, t, l, refuses, false)
    ensures BlocksExecuted(was, now, w, t, l, refuses, first && second)
  {
    Fewer(mid, now, l, 750, refuses, second);
  }

  lemma WalletsOnly(was: map<Key, Row>, now: map<Key, Row>, w: seq<Row>, l: seq<Row>, refuses: Refusals)
    requires Executed(was, now, w, 250, refuses, false)
    ensures TxsExecuted(was, now, w, l, refuses, false)
  {
    NoneExecuted(now, l, 125, refuses);
  }

  lemma TxsOnly(was: map<Key, Row>, now: map<Key, Row>, w: seq<Row>, t: seq<Row>, l: seq<Row>, refuses: Refusals)
    requires TxsExecuted(was, now, w, t, refuses, false)
    ensures BlocksExecuted(was, now, w, t, l, refuses, false)
  {
    NoneExecuted(now, l, 750, refuses);
  }

  /** Storing some of the rows adds keys of the rows only, and loses none; storing all is one statement's work. */
  lemma PartlyStored(
      was: map<Key, Row>, rows: seq<Row>, size: nat, refuses: Refusals, complete: bool, now: map<Key, Row>)
    requires Executed(was, now, rows, size, refuses, complete) && Distinct(rows)
    ensures was.Keys <= now.Keys <= was.Keys + Keys(rows)
    ensures complete ==> now == StoreAll(was, rows) && Keys(rows) <= now.Keys
  {
    var cuts, done :| Chosen(rows, size, refuses, cuts, done, complete) && now == StoreSlices(was, rows, done);
    SlicesElse(was, rows, done, Number(0));
    if complete {
      CompleteIsAll(was, rows, size, refuses, cuts, done);
      StoreAllKeys(was, rows);
    }
  }

  /** Nothing may have been executed at all. */
  lemma NoneExecuted(was: map<Key, Row>, rows: seq<Row>, size: nat, refuses: Refusals)
    requires size > 0
    ensures Executed(was, was, rows, size, refuses, false)
  {
    var cuts := Batches.Cuts(0, |rows|, size);
    Batches.CutsAreSlices(0, |rows|, size);
    assert Chosen(rows, size, refuses, cuts, [], false) && was == StoreSlices(was, rows, []);
  }

  lemma CutsDiffer(cuts: seq<(nat, nat)>, n: nat, size: nat)
    requires Batches.Slices(cuts, 0, n, size)
    ensures forall j, k :: 0 <= j < k < |cuts| ==> cuts[j] != cuts[k]
  {
    forall j, k | 0 <= j < k < |cuts| ensures cuts[j] != cuts[k] { CutStarts(cuts, n, size, j, k); }
  }

  /** Between two statements: `todo` are the slices not yet executed. */
  ghost predicate Underway(
      rows: seq<Row>, size: nat, refuses: Refusals, cuts: seq<(nat, nat)>, todo: set<nat>, done: seq<(nat, nat)>,
      failed: bool)
  {
    && Chosen(rows, size, refuses, cuts, done, false) && (forall k :: k in todo ==> k < |cuts| && cuts[k] !in done)
    && (!failed ==> forall k: nat :: k < |cuts| && k !in todo ==> cuts[k] in done)
  }

  lemma Advance(
      rows: seq<Row>, size: nat, refuses: Refusals, cuts: seq<(nat, nat)>, todo: set<nat>, done: seq<(nat, nat)>,
      failed: bool, k: nat)
    requires Underway(rows, size, refuses, cuts, todo, done, failed) && k in todo
    ensures Underway(rows, size, refuses, cuts, todo - {k}, done, true)
    ensures !refuses(Slice(rows, cuts[k])) ==>
      Underway(rows, size, refuses, cuts, todo - {k}, done + [cuts[k]], failed)
  {
    CutsDiffer(cuts, |rows|, size);
    assert forall j :: j in todo && j != k ==> cuts[j] != cuts[k];
  }

  lemma ExecOne(
      was: map<Key, Row>, db: map<Key, Row>, rows: seq<Row>, refuses: Refusals, done: seq<(nat, nat)>, s: (nat, nat))
    requires s.0 < s.1 <= |rows| && db == StoreSlices(was, rows, done) && was.Keys <= db.Keys
    ensures Fails(db, Slice(rows, s), refuses) ==> SomeSliceFails(was, rows, refuses)
    ensures !Fails(db, Slice(rows, s), refuses) ==> !refuses(Slice(rows, s))
    ensures StoreSlices(was, rows, done + [s]) == StoreAll(db, Slice(rows, s))
    ensures was.Keys <= StoreAll(db, Slice(rows, s)).Keys
  {
    StoreAllKeys(db, Slice(rows, s));
    assert (done + [s])[..|done|] == done;
    assert Fails(db, Slice(rows, s), refuses) ==> Fails(was, rows[s.0..s.1], refuses);
  }

  lemma {:induction false} CutStarts(cuts: seq<(nat, nat)>, n: nat, size: nat, j: nat, k: nat)
    requires Batches.Slices(cuts, 0, n, size) && j < k < |cuts|
    ensures cuts[j].1 <= cuts[k].0
  {
    if j + 1 < k { CutStarts(cuts, n, size, j, k - 1); }
  }

  lemma CutBounds(cuts: seq<(nat, nat)>, n: nat, size: nat, k: nat)
    requires Batches.Slices(cuts, 0, n, size) && k < |cuts|
    ensures cuts[k].0 < cuts[k].1 <= n && (k + 1 < |cuts| ==> cuts[k + 1].0 == cuts[k].1)
    ensures k + 1 == |cuts| ==> cuts[k].1 == n
  {
    CutMonotone(cuts, n, size, k, |cuts| - 1);
  }

  lemma {:induction false} CutMonotone(cuts: seq<(nat, nat)>, n: nat, size: nat, j: nat, k: nat)
    requires Batches.Slices(cuts, 0, n, size) && j <= k < |cuts|
    ensures cuts[j].1 <= cuts[k].1
  {
    if j < k { CutMonotone(cuts, n, size, j, k - 1); }
  }
}
