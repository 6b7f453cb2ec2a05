/** The meaning of a bulk-synchronous job: what one graph holding every vertex computes. */
module Bsp {
  import opened Sums

  type Address = string

  datatype Option<+T> = None | Some(value: T)

  /** What one call of the compute function does. */
  datatype Effect<V, M> = Effect(value: V, frozen: bool, sends: seq<(Address, M)>, gives: string -> int)

  datatype Vertex<V> = Vertex(value: V, active: bool)

  datatype Job<!V, !M> = Job(
    vertices: seq<Address>,
    initial: Address -> V,
    compute: (nat, Address, V, seq<M>) -> Effect<V, M>,
    keepRunning: (nat, int) -> bool,
    start: string -> int)

  /** A vertex with its two message queues. */
  datatype Cell<V, M> = Cell(value: V, active: bool, even: seq<M>, odd: seq<M>)
  {
    function Queue(s: nat): seq<M> { if s % 2 == 0 then even else odd }

    function WithQueue(s: nat, q: seq<M>): Cell<V, M>
    {
      if s % 2 == 0 then this.(even := q) else this.(odd := q)
    }
  }

  function Reverse<T>(xs: seq<T>): seq<T>
  {
    if xs == [] then [] else Reverse(xs[1..]) + [xs[0]]
  }

  lemma {:induction false} ReverseBag<T>(xs: seq<T>)
    ensures multiset(Reverse(xs)) == multiset(xs)
  {
    if xs != [] {
      ReverseBag(xs[1..]);
      assert xs == [xs[0]] + xs[1..];
    }
  }

  ghost predicate SameEffect<V, M>(a: Effect<V, M>, b: Effect<V, M>)
  {
    && a.value == b.value && a.frozen == b.frozen
    && multiset(a.sends) == multiset(b.sends)
    && forall name :: a.gives(name) == b.gives(name)
  }

  /** The compute function reads its messages as a bag. */
  ghost predicate OrderInsensitive<V(!new), M(!new)>(job: Job<V, M>)
  {
    forall s: nat, v: Address, x: V, p: seq<M>, q: seq<M> :: multiset(p) == multiset(q) ==>
      SameEffect(job.compute(s, v, x, p), job.compute(s, v, x, q))
  }

  /** The messages of `mail` addressed to `v`, in order. */
  function For<M>(mail: seq<(Address, M)>, v: Address): (r: seq<M>)
  {
    if mail == [] then []
    else (if mail[0].0 == v then [mail[0].1] else []) + For(mail[1..], v)
  }

  /** Vertex `v` before superstep `s`. */
  ghost function At<V, M>(job: Job<V, M>, s: nat, v: Address): Vertex<V>
    decreases s, 0
  {
    if s == 0 then Vertex(job.initial(v), true)
    else if Runs(job, s - 1, v) then
      var e := Outcome(job, s - 1, v);
      Vertex(e.value, !e.frozen)
    else At(job, s - 1, v)
  }

  ghost function Inbox<V, M>(job: Job<V, M>, s: nat, v: Address): seq<M>
    decreases s, 1
  {
    if s == 0 then [] else For(MailUpTo(job, s - 1, |job.vertices|), v)
  }

  ghost predicate Runs<V, M>(job: Job<V, M>, s: nat, v: Address)
    decreases s, 2
  {
    At(job, s, v).active || Inbox(job, s, v) != []
  }

  ghost function Outcome<V, M>(job: Job<V, M>, s: nat, v: Address): Effect<V, M>
    decreases s, 3
  {
    job.compute(s, v, At(job, s, v).value, Inbox(job, s, v))
  }

  ghost function Out<V, M>(job: Job<V, M>, s: nat, v: Address): seq<(Address, M)>
    decreases s, 4
  {
    if Runs(job, s, v) then Outcome(job, s, v).sends else []
  }

  /** What the first `k` vertices send in superstep `s`. */
  ghost function MailUpTo<V, M>(job: Job<V, M>, s: nat, k: nat): seq<(Address, M)>
    requires k <= |job.vertices|
    decreases s, 5, k
  {
    if k == 0 then [] else MailUpTo(job, s, k - 1) + Out(job, s, job.vertices[k - 1])
  }

  /** Every message sent in the run is addressed to a vertex of the job. */
  ghost predicate ValidDestinations<V, M>(job: Job<V, M>)
  {
    forall s: nat, v: Address, k: nat ::
      v in job.vertices && k < |Out(job, s, v)| ==> Out(job, s, v)[k].0 in job.vertices
  }

  ghost predicate ValidJob<V(!new), M(!new)>(job: Job<V, M>)
  {
    Distinct(job.vertices) && OrderInsensitive(job) && ValidDestinations(job)
  }

  ghost function Sends<V, M>(job: Job<V, M>, s: nat, p: (Address, M)): Address -> int
  {
    v => multiset(Out(job, s, v))[p]
  }

  ghost function Gives<V, M>(job: Job<V, M>, s: nat, name: string): Address -> int
  {
    v => if Runs(job, s, v) then Outcome(job, s, v).gives(name) else 0
  }

  ghost function Ones<V, M>(job: Job<V, M>, s: nat): Address -> int
  {
    v => if Runs(job, s, v) then 1 else 0
  }

  /** The number of vertices processed in superstep `s`. */
  ghost function Ran<V, M>(job: Job<V, M>, s: nat): int
  {
    Sum(job.vertices, Ones(job, s))
  }

  /** The value of aggregator `name` before superstep `s`. */
  ghost function Total<V, M>(job: Job<V, M>, s: nat, name: string): int
  {
    if s == 0 then job.start(name)
    else Total(job, s - 1, name) + Sum(job.vertices, Gives(job, s - 1, name))
  }

  /** The stop test after superstep `s`. */
  ghost predicate Keeps<V, M>(job: Job<V, M>, s: nat)
  {
    job.keepRunning(s, Ran(job, s))
  }

  /** The last superstep of a run that stops. */
  ghost predicate LastSuperstep<V, M>(job: Job<V, M>, s: nat)
  {
    !Keeps(job, s) && forall t: nat :: t < s ==> Keeps(job, t)
  }

  // ---------- counting messages ----------

  lemma {:induction false} ForAppend<M>(a: seq<(Address, M)>, b: seq<(Address, M)>, v: Address)
    ensures For(a + b, v) == For(a, v) + For(b, v)
  {
    if a == [] {
      assert a + b == b;
    } else {
      var first := if a[0].0 == v then [a[0].1] else [];
      ForAppend(a[1..], b, v);
      assert (a + b)[1..] == a[1..] + b;
      Associates(first, For(a[1..], v), For(b, v));
    }
  }

  lemma Associates<T>(x: seq<T>, y: seq<T>, z: seq<T>)
    ensures x + y + z == x + (y + z)
  {
  }

  lemma {:induction false} ForCounts<M>(mail: seq<(Address, M)>, v: Address, m: M)
    ensures multiset(For(mail, v))[m] == multiset(mail)[(v, m)]
  {
    if mail != [] {
      ForCounts(mail[1..], v, m);
      assert mail == [mail[0]] + mail[1..];
    }
  }

  lemma {:induction false} MailCounts<V, M>(job: Job<V, M>, s: nat, k: nat, p: (Address, M))
    requires k <= |job.vertices|
    ensures multiset(MailUpTo(job, s, k))[p] == Sum(job.vertices[..k], Sends(job, s, p))
  {
    if k > 0 {
      MailCounts(job, s, k - 1, p);
      var v := job.vertices[k - 1];
      assert job.vertices[..k] == job.vertices[..k - 1] + [v];
      SumAppend(job.vertices[..k - 1], [v], Sends(job, s, p));
      assert Sum([v], Sends(job, s, p)) == Sends(job, s, p)(v);
    }
  }

  /** The inbox of a vertex counts exactly what all vertices sent it one superstep earlier. */
  lemma InboxCounts<V, M>(job: Job<V, M>, s: nat, v: Address, m: M)
    ensures multiset(Inbox(job, s + 1, v))[m] == Sum(job.vertices, Sends(job, s, (v, m)))
  {
    ForCounts(MailUpTo(job, s, |job.vertices|), v, m);
    MailCounts(job, s, |job.vertices|, (v, m));
    assert job.vertices[..|job.vertices|] == job.vertices;
  }
}
