/** The scanner's two writers: the parser stores a block's wallets, then its transactions; the sink marks the
    block processed. */
module Scanner {
  import opened Bsp
  import opened CacheProtocol
  import opened Cdb

  const ZeroAddress := "0000000000000000000000000000000000000000"

  /** What the parser reads of a transaction: its hash, and its receiver unless it creates a contract. */
  datatype EthTx = EthTx(hash: string, to: Option<string>)

  function ParseTo(tx: EthTx): string { if tx.to.Some? then tx.to.value else ZeroAddress }

  function ParseTx(tx: EthTx): Row { TxRow(tx.hash, ZeroAddress, ParseTo(tx)) }

  function ParseAll(txs: seq<EthTx>): seq<Row>
  {
    if txs == [] then [] else ParseAll(txs[..|txs| - 1]) + [ParseTx(txs[|txs| - 1])]
  }

  /** The addresses a list of rows mentions. */
  function Mentioned(rows: seq<Row>): set<Key>
  {
    if rows == [] then {} else Mentioned(rows[..|rows| - 1]) + References(rows[|rows| - 1])
  }

  lemma {:induction false} MentionedAll(rows: seq<Row>, r: Row)
    requires r in rows
    ensures References(r) <= Mentioned(rows)
  {
    if r != rows[|rows| - 1] { MentionedAll(rows[..|rows| - 1], r); }
  }

  lemma {:induction false} ParsedRows(txs: seq<EthTx>, r: Row)
    requires r in ParseAll(txs)
    ensures r.TxRow? && exists k :: 0 <= k < |txs| && r == ParseTx(txs[k])
  {
    if r in ParseAll(txs[..|txs| - 1]) { ParsedRows(txs[..|txs| - 1], r); }
  }

  lemma {:induction false} ParsedEach(txs: seq<EthTx>)
    ensures |ParseAll(txs)| == |txs| && forall k :: 0 <= k < |txs| ==> ParseAll(txs)[k] == ParseTx(txs[k])
  {
    if txs != [] { ParsedEach(txs[..|txs| - 1]); }
  }

  ghost predicate Names(rows: seq<Row>, a: string)
    requires forall r :: r in rows ==> r.TxRow?
  {
    exists k :: 0 <= k < |rows| && (a == rows[k].from || a == rows[k].to)
  }

  lemma {:induction false} MentionedBy(rows: seq<Row>, a: string) returns (k: nat)
    requires Address(a) in Mentioned(rows)
    ensures k < |rows| && Address(a) in References(rows[k])
  {
    k := |rows| - 1;
    if Address(a) !in References(rows[k]) { k := MentionedBy(rows[..k], a); }
  }

  /** The addresses mentioned are the senders and receivers. */
  lemma MentionedExactly(rows: seq<Row>, a: string)
    requires forall r :: r in rows ==> r.TxRow?
    ensures Address(a) in Mentioned(rows) <==> Names(rows, a)
  {
    if Address(a) in Mentioned(rows) {
      var k := MentionedBy(rows, a);
    } else if Names(rows, a) {
      var k :| 0 <= k < |rows| && (a == rows[k].from || a == rows[k].to);
      MentionedAll(rows, rows[k]);
    }
  }

  function AddressKeys(addresses: set<string>): set<Key> { set a | a in addresses :: Address(a) }

  lemma NamedExactly(rows: seq<Row>, addresses: set<string>)
    requires (forall r :: r in rows ==> r.TxRow?) && AddressKeys(addresses) == Mentioned(rows)
    ensures forall a :: a in addresses <==> Names(rows, a)
  {
    forall a ensures a in addresses <==> Names(rows, a) {
      MentionedExactly(rows, a);
      assert a in addresses <==> Address(a) in AddressKeys(addresses);
    }
  }

  /** The loop over a block's transactions: their rows, and the set of addresses they mention. */
  method Parse(txs: seq<EthTx>) returns (addresses: set<string>, rows: seq<Row>)
    ensures rows == ParseAll(txs) && AddressKeys(addresses) == Mentioned(rows)
    ensures |rows| == |txs|
    ensures forall k :: 0 <= k < |txs| ==>
      rows[k].TxRow? && rows[k].hash == txs[k].hash && rows[k].from == "0000000000000000000000000000000000000000"
      && rows[k].to == if txs[k].to.Some? then txs[k].to.value else "0000000000000000000000000000000000000000"
    ensures forall a :: a in addresses <==> exists k :: 0 <= k < |rows| && (a == rows[k].from || a == rows[k].to)
  {
    addresses, rows := {}, [];
    var i := 0;
    assert txs[..0] == [];
    while i < |txs|
      invariant 0 <= i <= |txs| && rows == ParseAll(txs[..i]) && AddressKeys(addresses) == Mentioned(rows)
    {
      assert txs[..i + 1][..i] == txs[..i];
      assert (rows + [ParseTx(txs[i])])[..|rows|] == rows;
      addresses := addresses + {ZeroAddress, ParseTo(txs[i])};
      rows := rows + [ParseTx(txs[i])];
      i := i + 1;
    }
    assert txs[..i] == txs;
    ParsedEach(txs);
    NamedExactly(rows, addresses);
  }

  /** Stores the wallets a block's transactions mention before the transactions themselves. */
  method Process(g: CDBGraph, txs: seq<EthTx>, refuses: Refusals) returns (err: bool, ghost hidden: bool)
    requires g.Valid()
    modifies g`db, g`txC, g`walletC
    ensures g.Kept(hidden)
    ensures !err && !hidden ==> forall k :: k in Mentioned(ParseAll(txs)) ==> g.Present(k)
    ensures !err && !hidden ==> forall r :: r in ParseAll(txs) ==> g.Present(KeyOf(r))
    ensures old(g.Healthy(refuses)) && (forall tx :: tx in txs && tx.to.Some? ==> |tx.to.value| == 40) ==>
      !err && !hidden && g.Healthy(refuses)
  {
    var addresses, rows := Parse(txs);
    if |rows| == 0 { return false, false; }
    var wallets := WalletRows(addresses);
    forall r | r in rows ensures r.TxRow? && TableOf(r) == Txs { ParsedRows(txs, r); }
    ghost var good := g.Healthy(refuses) && Addresses40(txs);
    if good { WalletsGood(txs, addresses, wallets); }
    err, hidden := g.UpsertWallets(wallets, refuses);
    if err { return; }
    if !hidden { MentionedPresent(g, addresses, rows, wallets); }
    if good { MentionedKnown(g, rows); }
    ghost var more;
    err, more := g.InsertTxs(rows, refuses);
    hidden := hidden || more;
  }

  lemma MentionedPresent(g: CDBGraph, addresses: set<string>, rows: seq<Row>, wallets: seq<Row>)
    requires AddressKeys(addresses) == Mentioned(rows) && forall a :: a in addresses ==> WalletRow(a) in wallets
    requires forall r :: r in wallets ==> g.Present(KeyOf(r))
    ensures forall k :: k in Mentioned(rows) ==> g.Present(k)
  {
    forall k | k in Mentioned(rows) ensures g.Present(k) {
      var a :| a in addresses && k == Address(a);
      assert WalletRow(a) in wallets;
    }
  }

  ghost predicate Addresses40(txs: seq<EthTx>) { forall tx :: tx in txs && tx.to.Some? ==> |tx.to.value| == 40 }

  lemma {:induction false} Mentions40(txs: seq<EthTx>, k: Key)
    requires Addresses40(txs) && k in Mentioned(ParseAll(txs))
    ensures k.Address? && |k.a| == 40
  {
    var last := |txs| - 1;
    ParsedEach(txs);
    assert ParseAll(txs)[..last] == ParseAll(txs[..last]) && ParseAll(txs)[last] == ParseTx(txs[last]);
    if k !in References(ParseTx(txs[last])) { Mentions40(txs[..last], k); }
  }

  lemma WalletsGood(txs: seq<EthTx>, addresses: set<string>, wallets: seq<Row>)
    requires Addresses40(txs) && AddressKeys(addresses) == Mentioned(ParseAll(txs))
    requires forall r :: r in wallets ==> r.WalletRow? && WalletRow(r.address) in wallets
    requires forall a :: WalletRow(a) in wallets ==> a in addresses
    ensures Good(wallets, {})
  {
    forall r | r in wallets ensures |r.address| == 40 {
      assert Address(r.address) in AddressKeys(addresses);
      Mentions40(txs, Address(r.address));
    }
  }

  lemma MentionedKnown(g: CDBGraph, rows: seq<Row>)
    requires g.Valid() && (forall k :: k in Mentioned(rows) ==> g.Present(k)) && forall r :: r in rows ==> r.TxRow?
    ensures Good(rows, g.db.Keys + g.walletC.cacheMap)
  {
    forall r, k | r in rows && k in References(r) ensures k in g.db.Keys + g.walletC.cacheMap {
      MentionedAll(rows, r);
      assert k.Address? && g.Present(k);
    }
  }

  /** The wallet rows in some order, each once. */
  method WalletRows(addresses: set<string>) returns (rows: seq<Row>)
    ensures forall a :: WalletRow(a) in rows <==> a in addresses
    ensures |rows| == |addresses| && forall r :: r in rows ==> r.WalletRow? && TableOf(r) == Wallets
  {
    rows := [];
    var todo := addresses;
    while todo != {}
      invariant todo <= addresses && |rows| + |todo| == |addresses|
      invariant forall r :: r in rows ==> r.WalletRow?
      invariant forall a :: WalletRow(a) in rows <==> a in addresses - todo
      decreases |todo|
    {
      var a :| a in todo;
      rows := rows + [WalletRow(a)];
      todo := todo - {a};
    }
  }

  /** The row with key `k` of a cache list. */
  ghost function Cached(rows: seq<Row>, k: Key): Option<Row>
  {
    if rows == [] then None else if KeyOf(rows[0]) == k then Some(rows[0]) else Cached(rows[1..], k)
  }

  lemma {:induction false} CachedIs(rows: seq<Row>, r: Row)
    requires Distinct(rows) && r in rows
    ensures Cached(rows, KeyOf(r)) == Some(r)
  {
    if r != rows[0] { CachedIs(rows[1..], r); }
  }

  /** The row of block `n` the table holds, or will hold once the cache is flushed. */
  ghost function BlockOf(g: CDBGraph, n: int): Option<Row>
    reads g
  {
    var c := Cached(g.blockC.cacheList, Number(n));
    if c.Some? then c else if Number(n) in g.db then Some(g.db[Number(n)]) else None
  }

  /** What a processed block's row becomes: the cache keeps the row of that number it already has. */
  ghost function Marked(was: seq<Row>, number: int): Row
  {
    if BlockRow(number, false) in was then BlockRow(number, false) else BlockRow(number, true)
  }

  /** Called once all stages are done with a block: marks it processed, unless the cache holds it as unprocessed;
      then the mark is dropped. */
  method Consume(g: CDBGraph, number: int, refuses: Refusals) returns (err: bool, ghost hidden: bool)
    requires g.Valid()
    modifies g`db, g`blockC, g`txC, g`walletC
    ensures g.Kept(hidden) && (!hidden ==> g.Present(Number(number)))
    ensures !hidden ==> BlockOf(g, number) == Some(Marked(old(g.blockC.cacheList), number))
  {
    ghost var was := g.blockC.cacheList;
    ghost var before := StoreAll(StoreAll(g.db, g.walletC.cacheList), g.txC.cacheList);
    ghost var l := AddAll(was, [BlockRow(number, true)]);
    MarkAdded(was, number);
    err, hidden := g.UpsertBlocks([BlockRow(number, true)], refuses);
    if g.blockC.cacheList == l {
      CachedIs(l, Marked(was, number));
    } else if !hidden {
      StoredEach(before, l, Marked(was, number));
    }
  }

  /** The list once a block is added: it holds the block as it was, if it was there. */
  lemma MarkAdded(was: seq<Row>, number: int)
    requires Distinct(was) && forall k :: 0 <= k < |was| ==> TableOf(was[k]) == Blocks
    ensures Distinct(AddAll(was, [BlockRow(number, true)]))
    ensures Marked(was, number) in AddAll(was, [BlockRow(number, true)])
  {
    var row := BlockRow(number, true);
    AddAllKeeps(was, [row], Blocks);
    if KeyOf(row) in Keys(was) {
      var r :| r in was && KeyOf(r) == KeyOf(row);
      var j :| 0 <= j < |was| && was[j] == r;
      assert AddAll(was, [row]) == was;
      assert forall k :: 0 <= k < |was| && k != j ==> KeyOf(was[k]) != KeyOf(was[j]);
    } else {
      assert AddAll(was, [row]) == was + [row];
      assert BlockRow(number, false) in was ==> KeyOf(BlockRow(number, false)) in Keys(was);
    }
  }

  /** The parser's wallets are all its transactions need, which is what the concurrent cache asks of its callers. */
  lemma ParserDisciplined(c: Config, txs: seq<EthTx>, accepted: set<Key>)
    requires Mentioned(ParseAll(txs)) <= accepted
    ensures forall r :: r in ParseAll(txs) ==> TableOf(r) == Txs && Needs(c, r) <= accepted
  {
    forall r | r in ParseAll(txs) ensures TableOf(r) == Txs && Needs(c, r) <= accepted {
      ParsedRows(txs, r);
      MentionedAll(ParseAll(txs), r);
    }
  }
}
