/** The Gravitas score: the compute function, the stop rule, and what a run of them yields. Amounts are exact
    integers. */
module Gravitas {
  import opened Sums
  import opened Bsp
  import opened Engine

  datatype Tx = Tx(from: Address, to: Address, value: int, fee: int)

  datatype VertexData = VertexData(value: int, txs: seq<Tx>)

  // ---------- sums ----------

  function Added(xs: seq<int>): int { if xs == [] then 0 else xs[0] + Added(xs[1..]) }

  function Cost(txs: seq<Tx>): int { if txs == [] then 0 else txs[0].value + txs[0].fee + Cost(txs[1..]) }

  function Fees(txs: seq<Tx>): int { if txs == [] then 0 else txs[0].fee + Fees(txs[1..]) }

  /** The values `txs` pay to `v`. */
  function Paid(txs: seq<Tx>, v: Address): int
  {
    if txs == [] then 0 else (if txs[0].to == v then txs[0].value else 0) + Paid(txs[1..], v)
  }

  function Messages(txs: seq<Tx>): seq<(Address, int)>
  {
    if txs == [] then [] else [(txs[0].to, txs[0].value)] + Messages(txs[1..])
  }

  lemma {:induction false} AddedAppend(a: seq<int>, b: seq<int>)
    ensures Added(a + b) == Added(a) + Added(b)
  {
    if a == [] {
      assert a + b == b;
    } else {
      AddedAppend(a[1..], b);
      assert (a + b)[1..] == a[1..] + b;
    }
  }

  /** A sum depends only on the bag of its terms. */
  lemma {:induction false} AddedOfBag(a: seq<int>, b: seq<int>)
    requires multiset(a) == multiset(b)
    ensures Added(a) == Added(b)
  {
    if a == [] {
      assert |multiset(b)| == 0;
    } else {
      assert a == [a[0]] + a[1..];
      assert a[0] in multiset(b);
      var k :| 0 <= k < |b| && b[k] == a[0];
      var rest := b[..k] + b[k + 1..];
      BagRemove(b, k);
      assert multiset(a) == multiset{a[0]} + multiset(a[1..]);
      AddedOfBag(a[1..], rest);
      AddedSplit(b, k);
    }
  }

  lemma AddedParts(b: seq<int>, front: seq<int>, x: int, back: seq<int>)
    requires b == front + ([x] + back)
    ensures Added(b) == x + Added(front + back)
  {
    AddedAppend(front, [x] + back);
    AddedAppend(front, back);
    assert ([x] + back)[1..] == back;
  }

  lemma PartsOf(b: seq<int>, k: nat)
    requires k < |b|
    ensures b == b[..k] + ([b[k]] + b[k + 1..])
  {
  }

  lemma AddedSplit(b: seq<int>, k: nat)
    requires k < |b|
    ensures Added(b) == b[k] + Added(b[..k] + b[k + 1..])
  {
    PartsOf(b, k);
    AddedParts(b, b[..k], b[k], b[k + 1..]);
  }

  lemma {:induction false} AddedPaid(txs: seq<Tx>, v: Address)
    ensures Added(For(Messages(txs), v)) == Paid(txs, v)
  {
    if txs != [] {
      AddedPaid(txs[1..], v);
      assert Messages(txs)[1..] == Messages(txs[1..]);
      AddedAppend(if txs[0].to == v then [txs[0].value] else [], For(Messages(txs[1..]), v));
    }
  }

  // ---------- the compute function ----------

  function Counts(wallets: int, txs: int): string -> int
  {
    name => if name == "wallet_count" then wallets else if name == "tx_count" then txs else 0
  }

  /** One call: count in superstep 0, pay in superstep 1, collect in superstep 2, then only freeze. */
  function Compute(s: nat, v: Address, data: VertexData, msgs: seq<int>): Effect<VertexData, int>
  {
    if s == 0 then Effect(data, false, [], Counts(1, |data.txs|))
    else if s == 1 then Effect(VertexData(data.value - Cost(data.txs), []), true, Messages(data.txs), Counts(0, 0))
    else if s == 2 then Effect(data.(value := data.value + Added(msgs)), true, [], Counts(0, 0))
    else Effect(data, true, [], Counts(0, 0))
  }

  /** The code's own loops compute it, draining the message queue newest first. */
  method ComputeVertex(s: nat, v: Address, data: VertexData, inbox: MemoryQueue<int>)
      returns (e: Effect<VertexData, int>)
    modifies inbox
    ensures e == Effect(Compute(s, v, data, Reverse(old(inbox.msgs))).value,
                        Compute(s, v, data, Reverse(old(inbox.msgs))).frozen,
                        Compute(s, v, data, Reverse(old(inbox.msgs))).sends, e.gives)
    ensures forall name :: e.gives(name) == Compute(s, v, data, Reverse(old(inbox.msgs))).gives(name)
  {
    if s == 0 {
      return Effect(data, false, [], Counts(1, |data.txs|));
    } else if s == 1 {
      var sum, sends := 0, [];
      for i := 0 to |data.txs|
        invariant sum + Cost(data.txs[i..]) == Cost(data.txs)
        invariant sends + Messages(data.txs[i..]) == Messages(data.txs)
      {
        assert data.txs[i..][1..] == data.txs[i + 1..];
        sum := sum + data.txs[i].value;
        sum := sum + data.txs[i].fee;
        sends := sends + [(data.txs[i].to, data.txs[i].value)];
      }
      return Effect(VertexData(data.value - sum, []), true, sends, Counts(0, 0));
    } else if s == 2 {
      ghost var all := Reverse(inbox.msgs);
      var sum := data.value;
      var more := inbox.Next();
      if more { ReverseLast(inbox.msgs, inbox.latched.value); }
      while more
        invariant more ==> inbox.latched.Some?
        invariant more ==> sum + inbox.latched.value + Added(Reverse(inbox.msgs)) == data.value + Added(all)
        invariant !more ==> sum == data.value + Added(all)
        decreases |inbox.msgs|, more
      {
        sum := sum + inbox.latched.value;
        more := inbox.Next();
        if more {
          ReverseLast(inbox.msgs, inbox.latched.value);
          AddedAppend([inbox.latched.value], Reverse(inbox.msgs));
        }
      }
      return Effect(data.(value := sum), true, [], Counts(0, 0));
    }
    e := Effect(data, true, [], Counts(0, 0));
  }

  // ---------- a run ----------

  ghost function GravitasJob(wallets: seq<Address>, txs: Address -> seq<Tx>): Job<VertexData, int>
  {
    Job(wallets, v => VertexData(0, txs(v)), (s, v, data, msgs) => Compute(s, v, data, msgs),
        (s, active) => active != 0, name => 0)
  }

  /** Every vertex holds its outgoing transactions, and every receiver is a vertex. */
  ghost predicate Closed(wallets: seq<Address>, txs: Address -> seq<Tx>)
  {
    && Distinct(wallets)
    && forall v, k :: v in wallets && 0 <= k < |txs(v)| ==> txs(v)[k].from == v && txs(v)[k].to in wallets
  }

  ghost function PaidTo(txs: Address -> seq<Tx>, v: Address): Address -> int { u => Paid(txs(u), v) }

  ghost function Incoming(wallets: seq<Address>, txs: Address -> seq<Tx>, v: Address): int
  {
    Sum(wallets, PaidTo(txs, v))
  }

  /** Incoming values minus outgoing values and fees. */
  ghost function Score(wallets: seq<Address>, txs: Address -> seq<Tx>): Address -> int
  {
    v => Incoming(wallets, txs, v) - Cost(txs(v))
  }

  lemma GravitasInsensitive(wallets: seq<Address>, txs: Address -> seq<Tx>)
    ensures OrderInsensitive(GravitasJob(wallets, txs))
  {
    forall s: nat, v: Address, x: VertexData, p: seq<int>, q: seq<int> | multiset(p) == multiset(q)
      ensures SameEffect(Compute(s, v, x, p), Compute(s, v, x, q))
    {
      AddedOfBag(p, q);
    }
  }

  lemma {:induction false} NoMail(job: Job<VertexData, int>, s: nat, k: nat)
    requires k <= |job.vertices| && forall v :: Out(job, s, v) == []
    ensures MailUpTo(job, s, k) == []
  {
    if k > 0 { NoMail(job, s, k - 1); }
  }

  // The superstep is a parameter of each lemma so that one superstep is unfolded at a time.

  lemma AfterPaying(wallets: seq<Address>, txs: Address -> seq<Tx>, s: nat, v: Address)
    requires s == 1
    ensures At(GravitasJob(wallets, txs), s + 1, v) == Vertex(VertexData(-Cost(txs(v)), []), false)
    ensures Out(GravitasJob(wallets, txs), s, v) == Messages(txs(v)) && Runs(GravitasJob(wallets, txs), s, v)
  {
  }

  lemma {:induction false} PaidUpTo(wallets: seq<Address>, txs: Address -> seq<Tx>, s: nat, k: nat, v: Address)
    requires s == 1 && k <= |wallets|
    ensures Added(For(MailUpTo(GravitasJob(wallets, txs), s, k), v)) == Sum(wallets[..k], PaidTo(txs, v))
  {
    if k > 0 {
      var job, u := GravitasJob(wallets, txs), wallets[k - 1];
      PaidUpTo(wallets, txs, s, k - 1, v);
      AfterPaying(wallets, txs, s, u);
      PaidNext(MailUpTo(job, s, k - 1), txs, wallets[..k - 1], u, v);
      assert wallets[..k] == wallets[..k - 1] + [u];
    }
  }

  lemma PaidNext(mail: seq<(Address, int)>, txs: Address -> seq<Tx>, before: seq<Address>, u: Address, v: Address)
    requires Added(For(mail, v)) == Sum(before, PaidTo(txs, v))
    ensures Added(For(mail + Messages(txs(u)), v)) == Sum(before + [u], PaidTo(txs, v))
  {
    ForAppend(mail, Messages(txs(u)), v);
    AddedAppend(For(mail, v), For(Messages(txs(u)), v));
    AddedPaid(txs(u), v);
    SumAppend(before, [u], PaidTo(txs, v));
    assert Sum([u], PaidTo(txs, v)) == PaidTo(txs, v)(u);
  }

  lemma Received(wallets: seq<Address>, txs: Address -> seq<Tx>, s: nat, v: Address)
    requires s == 2
    ensures Added(Inbox(GravitasJob(wallets, txs), s, v)) == Incoming(wallets, txs, v)
  {
    PaidUpTo(wallets, txs, s - 1, |wallets|, v);
    assert wallets[..|wallets|] == wallets;
  }

  lemma AfterCollecting(wallets: seq<Address>, txs: Address -> seq<Tx>, s: nat, v: Address)
    requires s == 2
    ensures At(GravitasJob(wallets, txs), s + 1, v) == Vertex(VertexData(Score(wallets, txs)(v), []), false)
  {
    AfterPaying(wallets, txs, s - 1, v);
    Received(wallets, txs, s, v);
    Collect(GravitasJob(wallets, txs), s, v);
  }

  lemma Collect(job: Job<VertexData, int>, s: nat, v: Address)
    requires s == 2 && At(job, s, v) == Vertex(VertexData(At(job, s, v).value.value, []), false)
    requires forall x, msgs :: job.compute(s, v, x, msgs) == Compute(s, v, x, msgs)
    ensures At(job, s + 1, v) ==
      Vertex(VertexData(At(job, s, v).value.value + Added(Inbox(job, s, v)), []), false)
  {
  }

  lemma Quiet(wallets: seq<Address>, txs: Address -> seq<Tx>, s: nat, v: Address)
    requires s == 2
    ensures !Runs(GravitasJob(wallets, txs), s + 1, v)
  {
    var job := GravitasJob(wallets, txs);
    AfterCollecting(wallets, txs, s, v);
    forall u ensures Out(job, s, u) == [] { OnlyPaymentsSend(wallets, txs, s, u); }
    NoMail(job, s, |wallets|);
  }

  lemma OnlyPaymentsSend(wallets: seq<Address>, txs: Address -> seq<Tx>, s: nat, v: Address)
    requires s != 1
    ensures Out(GravitasJob(wallets, txs), s, v) == []
  {
  }

  lemma GravitasValid(wallets: seq<Address>, txs: Address -> seq<Tx>)
    requires Closed(wallets, txs)
    ensures ValidJob(GravitasJob(wallets, txs))
  {
    var job := GravitasJob(wallets, txs);
    GravitasInsensitive(wallets, txs);
    forall s: nat, v: Address, k: nat | v in job.vertices && k < |Out(job, s, v)|
      ensures Out(job, s, v)[k].0 in job.vertices
    {
      if s != 1 { OnlyPaymentsSend(wallets, txs, s, v); }
      AfterPaying(wallets, txs, 1, v);
      MessageAt(txs(v), k);
    }
  }

  lemma {:induction false} MessageAt(txs: seq<Tx>, k: nat)
    requires k < |Messages(txs)|
    ensures |Messages(txs)| == |txs| && Messages(txs)[k] == (txs[k].to, txs[k].value)
  {
    if k == 0 {
      MessagesSize(txs);
    } else {
      MessageAt(txs[1..], k - 1);
    }
  }

  lemma MessagesSize(txs: seq<Tx>)
    ensures |Messages(txs)| == |txs|
  {
  }

  // ---------- when the run stops ----------

  ghost predicate SomeTx(wallets: seq<Address>, txs: Address -> seq<Tx>)
  {
    exists v :: v in wallets && txs(v) != []
  }

  /** A run with transactions takes four supersteps, 0 to 3; the last one processes no vertex. */
  ghost function Last(wallets: seq<Address>, txs: Address -> seq<Tx>): nat
  {
    if wallets == [] then 0 else if SomeTx(wallets, txs) then 3 else 2
  }

  lemma RanSome(job: Job<VertexData, int>, s: nat, v: Address)
    requires v in job.vertices && Runs(job, s, v)
    ensures Ran(job, s) > 0
  {
    SumBounds(job.vertices, Ones(job, s));
    assert Ones(job, s)(v) == 1;
  }

  lemma RanNone(job: Job<VertexData, int>, s: nat)
    requires forall v :: v in job.vertices ==> !Runs(job, s, v)
    ensures Ran(job, s) == 0
  {
    SumZero(job.vertices, Ones(job, s));
  }

  lemma {:induction false} MailHas(job: Job<VertexData, int>, s: nat, k: nat, j: nat, i: nat)
    requires j < k <= |job.vertices| && i < |Out(job, s, job.vertices[j])|
    ensures Out(job, s, job.vertices[j])[i] in MailUpTo(job, s, k)
  {
    if j < k - 1 { MailHas(job, s, k - 1, j, i); }
  }

  lemma {:induction false} ForHas(mail: seq<(Address, int)>, p: (Address, int))
    requires p in mail
    ensures For(mail, p.0) != []
  {
    if mail[0] != p { ForHas(mail[1..], p); }
  }

  /** With a transaction there is a vertex with mail in superstep 2. */
  lemma SomeoneCollects(wallets: seq<Address>, txs: Address -> seq<Tx>, s: nat)
    requires s == 1 && Closed(wallets, txs) && SomeTx(wallets, txs)
    ensures Ran(GravitasJob(wallets, txs), s + 1) > 0
  {
    var job := GravitasJob(wallets, txs);
    var v :| v in wallets && txs(v) != [];
    var j :| 0 <= j < |wallets| && wallets[j] == v;
    AfterPaying(wallets, txs, s, v);
    MailHas(job, s, |wallets|, j, 0);
    ForHas(MailUpTo(job, s, |wallets|), Messages(txs(v))[0]);
    RanSome(job, s + 1, txs(v)[0].to);
  }

  /** Without one, nobody has mail. */
  lemma NobodyCollects(wallets: seq<Address>, txs: Address -> seq<Tx>, s: nat)
    requires s == 1 && !SomeTx(wallets, txs)
    ensures Ran(GravitasJob(wallets, txs), s + 1) == 0
  {
    var job := GravitasJob(wallets, txs);
    NothingPaid(wallets, txs, s, |wallets|);
    forall v | v in wallets ensures !Runs(job, s + 1, v) { AfterPaying(wallets, txs, s, v); }
    RanNone(job, s + 1);
  }

  lemma {:induction false} NothingPaid(wallets: seq<Address>, txs: Address -> seq<Tx>, s: nat, k: nat)
    requires s == 1 && !SomeTx(wallets, txs) && k <= |wallets|
    ensures MailUpTo(GravitasJob(wallets, txs), s, k) == []
  {
    if k > 0 {
      AfterPaying(wallets, txs, s, wallets[k - 1]);
      NothingPaid(wallets, txs, s, k - 1);
    }
  }

  lemma FirstTwo(wallets: seq<Address>, txs: Address -> seq<Tx>, s: nat)
    requires s < 2 && wallets != []
    ensures Ran(GravitasJob(wallets, txs), s) > 0
  {
    if s == 1 { AfterPaying(wallets, txs, s, wallets[0]); }
    RanSome(GravitasJob(wallets, txs), s, wallets[0]);
  }

  lemma Stops(wallets: seq<Address>, txs: Address -> seq<Tx>)
    requires Closed(wallets, txs)
    ensures LastSuperstep(GravitasJob(wallets, txs), Last(wallets, txs))
  {
    var job, last := GravitasJob(wallets, txs), Last(wallets, txs);
    forall s: nat | s < last ensures Ran(job, s) > 0 {
      if s < 2 { FirstTwo(wallets, txs, s); } else { SomeoneCollects(wallets, txs, s - 1); }
    }
    if last == 3 {
      forall v | v in wallets ensures !Runs(job, last, v) { Quiet(wallets, txs, last - 1, v); }
      RanNone(job, last);
    } else if last == 2 {
      NobodyCollects(wallets, txs, last - 1);
    }
  }

  /** Every vertex ends with its score. */
  lemma Result(wallets: seq<Address>, txs: Address -> seq<Tx>, v: Address)
    requires Closed(wallets, txs) && v in wallets
    ensures At(GravitasJob(wallets, txs), Last(wallets, txs) + 1, v).value.value == Score(wallets, txs)(v)
  {
    var two: nat := 2;
    AfterCollecting(wallets, txs, two, v);
    if SomeTx(wallets, txs) { Quiet(wallets, txs, two, v); }
  }

  // ---------- conservation ----------

  function Value(txs: seq<Tx>): int { if txs == [] then 0 else txs[0].value + Value(txs[1..]) }

  lemma {:induction false} CostSplits(txs: seq<Tx>)
    ensures Cost(txs) == Value(txs) + Fees(txs)
  {
    if txs != [] { CostSplits(txs[1..]); }
  }

  ghost function PaidBy(txs: seq<Tx>): Address -> int { v => Paid(txs, v) }

  /** What one list pays is received in full by the wallets. */
  lemma {:induction false} PaidInFull(wallets: seq<Address>, txs: seq<Tx>)
    requires Distinct(wallets) && forall k :: 0 <= k < |txs| ==> txs[k].to in wallets
    ensures Sum(wallets, PaidBy(txs)) == Value(txs)
  {
    if txs == [] {
      SumZero(wallets, PaidBy(txs));
    } else {
      assert forall k :: 0 <= k < |txs[1..]| ==> txs[1..][k] == txs[k + 1];
      PaidInFull(wallets, txs[1..]);
      assert txs[0].to in wallets;
      var j :| 0 <= j < |wallets| && wallets[j] == txs[0].to;
      SumChange(wallets, j, PaidBy(txs[1..]), PaidBy(txs));
    }
  }

  ghost function ValueOf(txs: Address -> seq<Tx>): Address -> int { v => Value(txs(v)) }
  ghost function FeesOf(txs: Address -> seq<Tx>): Address -> int { v => Fees(txs(v)) }
  ghost function TxCount(txs: Address -> seq<Tx>): Address -> int { v => |txs(v)| }

  ghost function PaidToFrom(senders: seq<Address>, txs: Address -> seq<Tx>): Address -> int
  {
    v => Sum(senders, PaidTo(txs, v))
  }

  /** Summing over receivers, then senders, is summing over senders, then receivers. */
  lemma {:induction false} Exchange(senders: seq<Address>, wallets: seq<Address>, txs: Address -> seq<Tx>)
    requires Distinct(wallets) && forall v, k :: v in senders && 0 <= k < |txs(v)| ==> txs(v)[k].to in wallets
    ensures Sum(wallets, PaidToFrom(senders, txs)) == Sum(senders, ValueOf(txs))
  {
    if senders == [] {
      SumZero(wallets, PaidToFrom(senders, txs));
    } else {
      var u := senders[0];
      Exchange(senders[1..], wallets, txs);
      assert u in senders;
      PaidInFull(wallets, txs(u));
      SumPlus(wallets, PaidBy(txs(u)), PaidToFrom(senders[1..], txs), PaidToFrom(senders, txs));
    }
  }

  /** The scores of all wallets add up to minus the fees paid. */
  lemma Conservation(wallets: seq<Address>, txs: Address -> seq<Tx>)
    requires Closed(wallets, txs)
    ensures Sum(wallets, Score(wallets, txs)) == -Sum(wallets, FeesOf(txs))
  {
    var cost := v => Cost(txs(v));
    Exchange(wallets, wallets, txs);
    forall v ensures cost(v) == ValueOf(txs)(v) + FeesOf(txs)(v) { CostSplits(txs(v)); }
    SumPlus(wallets, ValueOf(txs), FeesOf(txs), cost);
    SumPlus(wallets, Score(wallets, txs), cost, PaidToFrom(wallets, txs));
  }

  // ---------- the two counters ----------

  ghost function Counted(txs: Address -> seq<Tx>, name: string): Address -> int
  {
    v => Counts(1, |txs(v)|)(name)
  }

  lemma {:induction false} TotalCounted(wallets: seq<Address>, txs: Address -> seq<Tx>, s: nat, name: string)
    requires s > 0
    ensures Total(GravitasJob(wallets, txs), s, name) == Sum(wallets, Counted(txs, name))
  {
    if s == 1 {
      CountedFirst(wallets, txs, s - 1, name);
    } else {
      TotalCounted(wallets, txs, s - 1, name);
      LaterGivesNothing(wallets, txs, s - 1, name);
    }
  }

  /** After the first superstep the aggregators hold the number of wallets and of transactions. */
  lemma Counters(wallets: seq<Address>, txs: Address -> seq<Tx>, s: nat)
    requires s > 0
    ensures Total(GravitasJob(wallets, txs), s, "wallet_count") == |wallets|
    ensures Total(GravitasJob(wallets, txs), s, "tx_count") == Sum(wallets, TxCount(txs))
  {
    TotalCounted(wallets, txs, s, "wallet_count");
    TotalCounted(wallets, txs, s, "tx_count");
    SumOnes(wallets, Counted(txs, "wallet_count"));
    SumEqual(wallets, Counted(txs, "tx_count"), TxCount(txs));
  }

  lemma GivesInFirst(wallets: seq<Address>, txs: Address -> seq<Tx>, s: nat, name: string, v: Address)
    ensures Gives(GravitasJob(wallets, txs), s, name)(v) == if s == 0 then Counts(1, |txs(v)|)(name) else 0
  {
    var job := GravitasJob(wallets, txs);
    assert Outcome(job, s, v) == Compute(s, v, At(job, s, v).value, Inbox(job, s, v));
    if s == 0 {
      assert At(job, s, v) == Vertex(VertexData(0, txs(v)), true);
      assert Outcome(job, s, v).gives == Counts(1, |txs(v)|);
    }
  }

  lemma LaterGivesNothing(wallets: seq<Address>, txs: Address -> seq<Tx>, s: nat, name: string)
    requires s > 0
    ensures Sum(wallets, Gives(GravitasJob(wallets, txs), s, name)) == 0
  {
    var gives := Gives(GravitasJob(wallets, txs), s, name);
    forall v | v in wallets ensures gives(v) == 0 { GivesInFirst(wallets, txs, s, name, v); }
    SumZero(wallets, gives);
  }

  lemma CountedFirst(wallets: seq<Address>, txs: Address -> seq<Tx>, s: nat, name: string)
    requires s == 0
    ensures Sum(wallets, Gives(GravitasJob(wallets, txs), s, name)) == Sum(wallets, Counted(txs, name))
  {
    var gives := Gives(GravitasJob(wallets, txs), s, name);
    forall v | v in wallets ensures gives(v) == Counted(txs, name)(v) { GivesInFirst(wallets, txs, s, name, v); }
    SumEqual(wallets, gives, Counted(txs, name));
  }
}
