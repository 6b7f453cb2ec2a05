/** Gravitas on the partitioned address space: the distributed job, its routing and its compute function together. */
module Deployment {
  import opened Sums
  import opened Bsp
  import opened Partition
  import opened Gravitas
  import opened Protocol
  import opened ProtocolInvariant
  import opened ProtocolTheorems
  import opened ProtocolProgress

  /** `n` workers over the full range; each loads the wallets inside its part. */
  function Workers(w: nat, n: nat, capacity: nat): Cluster
    requires n > 0
  {
    Cluster(n, capacity, Owner(Full(w, n)))
  }

  ghost predicate Located(w: nat, n: nat, wallets: seq<Address>)
    requires n > 0
  {
    forall v :: v in wallets ==> Inside(v, Extents(Full(w, n)))
  }

  /** Up to 16 parts discharge what the protocol asks of the partition lookup. */
  lemma RangeIsCluster<V, M>(w: nat, n: nat, capacity: nat, job: Job<V, M>)
    requires 1 < w && 0 < n <= 16 && capacity >= 1 && Located(w, n, job.vertices)
    ensures ValidCluster(job, Workers(w, n, capacity))
  {
    var r := Full(w, n);
    FewIncrease(w, n);
    forall v | v in job.vertices ensures Owner(r)(v).Some? && Owner(r)(v).value < n {
      OwnerIsPart(r, v);
      assert InPart(r, Owner(r)(v).value, v);
    }
  }

  /** What a worker loads is what the master routes to it. */
  lemma LoadedIsRouted<V, M>(w: nat, n: nat, capacity: nat, job: Job<V, M>, i: nat, v: Address)
    requires 1 < w && i < n <= 16 && v in job.vertices
    ensures v in InitialNode(job, Workers(w, n, capacity), i).vertices <==> InPart(Full(w, n), i, v)
  {
    FewIncrease(w, n);
    OwnerIsPart(Full(w, n), v);
  }

  /** Whatever the interleaving, a finished distributed run took at most four supersteps and left every
      wallet's score on the worker whose part holds the wallet. */
  lemma DistributedScores(
      w: nat, n: nat, capacity: nat, wallets: seq<Address>, txs: Address -> seq<Tx>,
      st: State<VertexData, int>, v: Address, i: nat)
    requires 1 < w && i < n <= 16 && capacity >= 1 && Closed(wallets, txs) && Located(w, n, wallets)
    requires Reachable(GravitasJob(wallets, txs), Workers(w, n, capacity), st) && st.master.pc == Finished
    requires v in wallets && InPart(Full(w, n), i, v)
    ensures st.master.superstep == Last(wallets, txs) <= 3
    ensures i < |st.nodes| && v in st.nodes[i].vertices
    ensures st.nodes[i].vertices[v].value.value == Score(wallets, txs)(v)
  {
    var job, c := GravitasJob(wallets, txs), Workers(w, n, capacity);
    GravitasValid(wallets, txs);
    RangeIsCluster(w, n, capacity, job);
    FinishedResult(job, c, st, v);
    Stops(wallets, txs);
    LastUnique(job, st.master.superstep, Last(wallets, txs));
    Gravitas.Result(wallets, txs, v);
    FewIncrease(w, n);
    OwnerIsPart(Full(w, n), v);
  }

  /** The aggregators of the master end as the number of wallets and of transactions. */
  lemma DistributedCounters(
      w: nat, n: nat, capacity: nat, wallets: seq<Address>, txs: Address -> seq<Tx>, st: State<VertexData, int>)
    requires 1 < w && 0 < n <= 16 && capacity >= 1 && Closed(wallets, txs) && Located(w, n, wallets)
    requires Reachable(GravitasJob(wallets, txs), Workers(w, n, capacity), st) && st.master.pc == Finished
    ensures st.master.current("wallet_count") == |wallets|
    ensures st.master.current("tx_count") == Sum(wallets, TxCount(txs))
  {
    var job, c := GravitasJob(wallets, txs), Workers(w, n, capacity);
    GravitasValid(wallets, txs);
    RangeIsCluster(w, n, capacity, job);
    FinishedTotals(job, c, st, "wallet_count");
    FinishedTotals(job, c, st, "tx_count");
    Gravitas.Counters(wallets, txs, st.master.superstep + 1);
  }

  /** And it does finish: every run is bounded by the work of the job, and any run can be continued to its end. */
  lemma DistributedTerminates(
      w: nat, n: nat, capacity: nat, wallets: seq<Address>, txs: Address -> seq<Tx>, r: Run<VertexData, int>)
      returns (longer: Run<VertexData, int>)
    requires 1 < w && 0 < n <= 16 && capacity >= 1 && Closed(wallets, txs) && Located(w, n, wallets)
    requires IsRun(GravitasJob(wallets, txs), Workers(w, n, capacity), r)
    ensures |r.events| <= Work(GravitasJob(wallets, txs), Workers(w, n, capacity), Last(wallets, txs))
    ensures IsRun(GravitasJob(wallets, txs), Workers(w, n, capacity), longer) && Extends(longer, r)
    ensures longer.states[|longer.events|].master.pc == Finished
  {
    var job, c := GravitasJob(wallets, txs), Workers(w, n, capacity);
    GravitasValid(wallets, txs);
    RangeIsCluster(w, n, capacity, job);
    Stops(wallets, txs);
    RunsAreBounded(job, c, r, Last(wallets, txs));
    longer := AlwaysFinishes(job, c, r, Last(wallets, txs));
  }
}
