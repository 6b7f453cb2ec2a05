/** The in-memory transaction graph: three tables and the per-wallet index over one of them. */
module MemoryStore {
  import opened Sums
  import opened Strings

  datatype Tx = Tx(hash: string, from: string, to: string)

  datatype Block = Block(number: int, processed: bool)

  /** The number of leading transactions whose wallets are known. */
  function Accepted(wallets: set<string>, txs: seq<Tx>): (n: nat)
    ensures n <= |txs|
    ensures forall k :: 0 <= k < n ==> txs[k].from in wallets && txs[k].to in wallets
    ensures n < |txs| ==> txs[n].from !in wallets || txs[n].to !in wallets
  {
    if txs == [] || txs[0].from !in wallets || txs[0].to !in wallets then 0 else 1 + Accepted(wallets, txs[1..])
  }

  /** The first transaction with a hash stays. */
  function AddTxs(table: map<string, Tx>, txs: seq<Tx>): map<string, Tx>
  {
    if txs == [] then table
    else
      var rest := AddTxs(table, txs[..|txs| - 1]);
      var tx := txs[|txs| - 1];
      if tx.hash in rest then rest else rest[tx.hash := tx]
  }

  /** The number of leading addresses of the right length. */
  function WellFormed(addresses: seq<string>): (n: nat)
    ensures n <= |addresses|
    ensures forall k :: 0 <= k < n ==> |addresses[k]| == 40
    ensures n < |addresses| ==> |addresses[n]| != 40
  {
    if addresses == [] || |addresses[0]| != 40 then 0 else 1 + WellFormed(addresses[1..])
  }

  /** A block once processed stays so. */
  function Upserted(table: map<int, bool>, b: Block): map<int, bool>
  {
    table[b.number := b.processed || (b.number in table && table[b.number])]
  }

  function UpsertAll(table: map<int, bool>, bs: seq<Block>): map<int, bool>
  {
    if bs == [] then table else Upserted(UpsertAll(table, bs[..|bs| - 1]), bs[|bs| - 1])
  }

  ghost predicate FirstWith(txs: seq<Tx>, h: string, k: int)
  {
    0 <= k < |txs| && txs[k].hash == h && forall j :: 0 <= j < k ==> txs[j].hash != h
  }

  /** A transaction with a known hash changes nothing; of several new ones with one hash the first is stored. */
  lemma {:induction false} AddTxsMeaning(table: map<string, Tx>, txs: seq<Tx>, h: string)
    ensures h in AddTxs(table, txs) <==> h in table || exists k :: 0 <= k < |txs| && txs[k].hash == h
    ensures h in table ==> AddTxs(table, txs)[h] == table[h]
    ensures forall k :: h !in table && FirstWith(txs, h, k) ==> AddTxs(table, txs)[h] == txs[k]
    decreases |txs|
  {
    if txs != [] {
      var front := txs[..|txs| - 1];
      AddTxsMeaning(table, front, h);
      assert forall k :: 0 <= k < |front| ==> front[k] == txs[k];
      assert txs[|txs| - 1].hash == h || (forall k :: 0 <= k < |txs| && txs[k].hash == h ==> k < |front|);
      forall k | h !in table && FirstWith(txs, h, k) ensures AddTxs(table, txs)[h] == txs[k] {
        if k < |front| { assert FirstWith(front, h, k); }
      }
    }
  }

  /** A block is processed exactly if it was or some upsert says so: the flag never reverts. */
  lemma {:induction false} UpsertAllMeaning(table: map<int, bool>, bs: seq<Block>, n: int)
    ensures n in UpsertAll(table, bs) <==> n in table || exists k :: 0 <= k < |bs| && bs[k].number == n
    ensures n in UpsertAll(table, bs) && UpsertAll(table, bs)[n] <==>
      (n in table && table[n]) || exists k :: 0 <= k < |bs| && bs[k] == Block(n, true)
    decreases |bs|
  {
    if bs != [] {
      var front, last := bs[..|bs| - 1], bs[|bs| - 1];
      UpsertAllMeaning(table, front, n);
      assert forall k :: 0 <= k < |front| ==> front[k] == bs[k];
      assert bs[|bs| - 1] == last;
    }
  }

  /** A positive number not above some block's. */
  ghost predicate IsGap(table: map<int, bool>, n: int) { 1 <= n && exists m :: m in table && n <= m }

  class InMemoryGraph {
    var blocks: map<int, bool>
    var txs: map<string, Tx>
    var wallets: set<string>
    var walletTxs: map<string, seq<string>>

    function Index(a: string): seq<string> reads this`walletTxs { if a in walletTxs then walletTxs[a] else [] }

    /** The index of a wallet lists, once each, the stored transactions it sent. */
    ghost predicate IndexOk(a: string) reads this`txs, this`walletTxs
    {
      Distinct(Index(a)) && forall h :: h in Index(a) <==> h in txs && txs[h].from == a
    }

    ghost predicate Valid() reads this`txs, this`walletTxs, this`wallets
    {
      && (forall h :: h in txs ==> txs[h].hash == h && txs[h].from in wallets && txs[h].to in wallets)
      && (forall a :: IndexOk(a))
      && forall a :: a in wallets ==> |a| == 40
    }

    constructor ()
      ensures Valid() && blocks == map[] && txs == map[] && wallets == {}
    {
      blocks, txs, wallets, walletTxs := map[], map[], {}, map[];
      new;
      forall a ensures IndexOk(a) { assert Index(a) == []; }
    }

    method UpsertBlock(b: Block)
      modifies this`blocks
      ensures blocks == Upserted(old(blocks), b)
    {
      if b.number in blocks {
        if !blocks[b.number] && b.processed { blocks := blocks[b.number := true]; }
        return;
      }
      blocks := blocks[b.number := b.processed];
    }

    method UpsertBlocks(bs: seq<Block>)
      requires Valid()
      modifies this`blocks
      ensures Valid() && blocks == UpsertAll(old(blocks), bs)
    {
      var i := 0;
      ghost var was := blocks;
      assert bs[..0] == [];
      while i < |bs|
        invariant i <= |bs| && blocks == UpsertAll(was, bs[..i])
      {
        UpsertBlock(bs[i]);
        assert bs[..i + 1][..i] == bs[..i];
        i := i + 1;
      }
      assert bs[..i] == bs;
    }

    /** Stops at the first transaction with an unknown wallet; those before it stay. */
    method InsertTxs(items: seq<Tx>) returns (unknown: bool)
      requires Valid()
      modifies this`txs, this`walletTxs
      ensures Valid() && unknown == (Accepted(wallets, items) < |items|)
      ensures txs == AddTxs(old(txs), items[..Accepted(wallets, items)])
    {
      var i := 0;
      ghost var was, n := txs, Accepted(wallets, items);
      assert items[..0] == [];
      while i < |items|
        invariant i <= n && Valid() && txs == AddTxs(was, items[..i])
      {
        if items[i].from !in wallets || items[i].to !in wallets { return true; }
        NextTx(was, items, i);
        InsertTx(items[i]);
        i := i + 1;
      }
      return false;
    }

    method InsertTx(tx: Tx)
      requires Valid() && tx.from in wallets && tx.to in wallets
      modifies this`txs, this`walletTxs
      ensures Valid() && txs == if tx.hash in old(txs) then old(txs) else old(txs)[tx.hash := tx]
    {
      if tx.hash in txs { return; }
      ghost var index := Index(tx.from);
      assert IndexOk(tx.from);
      txs := txs[tx.hash := tx];
      walletTxs := walletTxs[tx.from := Index(tx.from) + [tx.hash]];
      forall a ensures IndexOk(a) {
        assert old(IndexOk(a));
        if a == tx.from { assert Index(a) == index + [tx.hash]; } else { assert Index(a) == old(Index(a)); }
      }
    }

    /** Stops at the first malformed address; those before it stay. */
    method UpsertWallets(addresses: seq<string>) returns (invalid: bool)
      requires Valid()
      modifies this`wallets
      ensures Valid() && invalid == (WellFormed(addresses) < |addresses|)
      ensures wallets == old(wallets) + set k | 0 <= k < WellFormed(addresses) :: addresses[k]
    {
      var i := 0;
      ghost var was, n := wallets, WellFormed(addresses);
      while i < |addresses|
        invariant i <= n && Valid() && wallets == was + set k | 0 <= k < i :: addresses[k]
      {
        if |addresses[i]| != 40 { return true; }
        wallets := wallets + {addresses[i]};
        i := i + 1;
      }
      return false;
    }

    /** The stored transactions a wallet sent, each once. */
    method WalletTxs(address: string) returns (list: seq<Tx>)
      requires Valid()
      ensures Distinct(list)
      ensures forall tx: Tx :: tx in list <==> tx.hash in txs && txs[tx.hash] == tx && tx.from == address
    {
      list := [];
      var hashes := Index(address);
      assert IndexOk(address);
      var i := 0;
      while i < |hashes|
        invariant i <= |hashes| == |Index(address)| && hashes == Index(address)
        invariant |list| == i && forall k :: 0 <= k < i ==> list[k] == txs[hashes[k]] && list[k].hash == hashes[k]
      {
        assert hashes[i] in Index(address);
        list := list + [txs[hashes[i]]];
        i := i + 1;
      }
      forall tx: Tx | tx.hash in txs && txs[tx.hash] == tx && tx.from == address ensures tx in list {
        assert tx.hash in Index(address);
        var k :| 0 <= k < |hashes| && hashes[k] == tx.hash;
        assert list[k] == tx;
      }
      forall tx: Tx | tx in list ensures tx.hash in txs && txs[tx.hash] == tx && tx.from == address {
        var k :| 0 <= k < |list| && list[k] == tx;
        assert hashes[k] in Index(address);
      }
    }

    /** The wallets of a range, each once. */
    method Wallets(from: string, until: string) returns (list: seq<string>)
      ensures Distinct(list)
      ensures forall a :: a in list <==> a in wallets && !Less(a, from) && Less(a, until)
    {
      list := [];
      var todo := wallets;
      while todo != {}
        invariant todo <= wallets && Distinct(list)
        invariant forall a :: a in list <==> a in wallets - todo && !Less(a, from) && Less(a, until)
        decreases |todo|
      {
        var a :| a in todo;
        if !Less(a, from) && Less(a, until) { list := list + [a]; }
        todo := todo - {a};
      }
    }

    /** The largest positive block number, or zero. */
    method LargestBlock() returns (largest: int)
      ensures largest >= 0 && (largest > 0 ==> largest in blocks) && forall n :: n in blocks ==> n <= largest
    {
      largest := 0;
      var todo := blocks.Keys;
      while |todo| > 0
        invariant todo <= blocks.Keys && largest >= 0 && (largest > 0 ==> largest in blocks)
        invariant forall n :: n in blocks && n !in todo ==> n <= largest
        decreases |todo|
      {
        SomeNumber(todo);
        var n :| n in todo;
        if n > largest { largest := n; }
        todo := todo - {n};
      }
    }

    /** Inserts every missing block from 1 to the largest, unprocessed. */
    method RefreshBlocks()
      requires Valid()
      modifies this`blocks
      ensures Valid() && forall n :: n in blocks <==> n in old(blocks) || IsGap(old(blocks), n)
      ensures forall n :: n in blocks ==> blocks[n] == (n in old(blocks) && old(blocks)[n])
    {
      ghost var was := blocks;
      var largest := LargestBlock();
      var i := 1;
      while i < largest
        invariant 1 <= i && (i <= largest || i == 1)
        invariant forall n :: n in blocks <==> n in was || 1 <= n < i
        invariant forall n :: n in blocks ==> blocks[n] == (n in was && was[n])
      {
        if i !in blocks { UpsertBlock(Block(i, false)); }
        i := i + 1;
      }
      forall n ensures n in blocks <==> n in was || IsGap(was, n) {
        assert IsGap(was, n) ==> n <= largest;
        if 1 <= n < i { assert largest in was && n <= largest; }
      }
    }

    /** Exactly the blocks not processed yet, each once, after the gaps have been filled. */
    method Blocks() returns (list: seq<int>)
      requires Valid()
      modifies this`blocks
      ensures Valid() && Distinct(list) && forall n :: n in list <==> n in blocks && !blocks[n]
      ensures forall n :: n in blocks <==> n in old(blocks) || IsGap(old(blocks), n)
      ensures forall n :: n in blocks ==> blocks[n] == (n in old(blocks) && old(blocks)[n])
    {
      RefreshBlocks();
      ghost var filled := blocks;
      list := [];
      var todo := blocks.Keys;
      while |todo| > 0
        invariant blocks == filled && todo <= blocks.Keys && Distinct(list)
        invariant forall n :: n in list <==> n in blocks.Keys - todo && !blocks[n]
        decreases |todo|
      {
        SomeNumber(todo);
        var n :| n in todo;
        if !blocks[n] { list := list + [n]; }
        todo := todo - {n};
      }
    }
  }

  lemma SomeNumber(s: set<int>)
    requires s != {}
    ensures exists n :: n in s
  {
    assert (forall n :: n !in s) ==> s == {};
  }

  lemma NextTx(table: map<string, Tx>, txs: seq<Tx>, i: nat)
    requires i < |txs|
    ensures AddTxs(table, txs[..i + 1]) ==
      var rest := AddTxs(table, txs[..i]);
      if txs[i].hash in rest then rest else rest[txs[i].hash := txs[i]]
  {
    assert txs[..i + 1][..i] == txs[..i];
  }
}
