/** One `batchUpsert` call: the main goroutine cuts the rows into batches, the workers execute them. */
module BatchUpsert {

  // ---------- cutting ----------

  /** Consecutive non-empty slices of at most `size` rows from `from` to `n`. */
  ghost predicate Slices(cuts: seq<(nat, nat)>, from: nat, n: nat, size: nat)
  {
    && (cuts == [] ==> from == n)
    && (cuts != [] ==> cuts[0].0 == from && cuts[|cuts| - 1].1 == n)
    && (forall k :: 0 <= k < |cuts| ==> cuts[k].0 < cuts[k].1 <= cuts[k].0 + size)
    && forall j, k :: 0 <= j < k < |cuts| && k == j + 1 ==> cuts[j].1 == cuts[k].0
  }

  /** The slices of rows `from` to `n`: `size` rows each, the last one what is left. */
  function Cuts(from: nat, n: nat, size: nat): seq<(nat, nat)>
    decreases n - from
  {
    if from >= n || size == 0 then []
    else [(from, if from + size < n then from + size else n)] + Cuts(from + size, n, size)
  }

  /** Every slice has `size` rows, or is the last. */
  ghost predicate Full(cuts: seq<(nat, nat)>, n: nat, size: nat)
  {
    forall k :: 0 <= k < |cuts| ==> cuts[k].1 == cuts[k].0 + size || cuts[k].1 == n
  }

  /** The batching loop, whose batch size shrinks to what is left. */
  method Cut(n: nat, size: nat) returns (cuts: seq<(nat, nat)>)
    requires size > 0
    ensures cuts == Cuts(0, n, size) && Slices(cuts, 0, n, size)
  {
    var i, batch := 0, size;
    cuts := [];
    while i < n
      invariant 0 <= i <= n && Slices(cuts, 0, i, size) && Full(cuts, n, size) && (i < n ==> batch == size)
    {
      batch := if batch < n - i then batch else n - i;
      cuts := cuts + [(i, i + batch)];
      i := i + batch;
    }
    FullIsCuts(cuts, 0, n, size);
  }

  lemma {:induction false} FullIsCuts(cuts: seq<(nat, nat)>, from: nat, n: nat, size: nat)
    requires Slices(cuts, from, n, size) && Full(cuts, n, size) && from <= n && size > 0
    ensures cuts == Cuts(from, n, size)
    decreases |cuts|
  {
    if cuts != [] {
      var rest := cuts[1..];
      assert forall k {:trigger rest[k]} :: 0 <= k < |rest| ==> rest[k] == cuts[k + 1];
      Later(cuts, from, n, size);
      SlicesEnd(rest, cuts[0].1, n, size);
      FullIsCuts(rest, cuts[0].1, n, size);
      assert Cuts(from + size, n, size) == Cuts(cuts[0].1, n, size);
      assert cuts == [cuts[0]] + rest;
    }
  }

  /** Slices do not begin behind their end. */
  lemma SlicesEnd(cuts: seq<(nat, nat)>, from: nat, n: nat, size: nat)
    requires Slices(cuts, from, n, size)
    ensures from <= n && (cuts != [] ==> from < n)
  {
    if cuts != [] { SlicesRise(cuts, from, n, size, |cuts| - 1); }
  }

  lemma {:induction false} SlicesRise(cuts: seq<(nat, nat)>, from: nat, n: nat, size: nat, k: nat)
    requires Slices(cuts, from, n, size) && k < |cuts|
    ensures from <= cuts[k].0
  {
    if k > 0 { SlicesRise(cuts, from, n, size, k - 1); }
  }

  lemma {:induction false} CutsAreSlices(from: nat, n: nat, size: nat)
    requires from <= n && size > 0
    ensures Slices(Cuts(from, n, size), from, n, size)
    decreases n - from
  {
    if from < n {
      var next := if from + size < n then from + size else n;
      assert Cuts(from + size, n, size) == Cuts(next, n, size);
      CutsAreSlices(next, n, size);
    }
  }

  lemma {:induction false} CutsBound(from: nat, n: nat, size: nat, s: (nat, nat))
    requires s in Cuts(from, n, size)
    ensures from <= s.0 < s.1 <= n
    decreases n - from
  {
    if s in Cuts(from + size, n, size) { CutsBound(from + size, n, size, s); }
  }

  lemma {:induction false} CutsCover(from: nat, n: nat, size: nat, row: nat)
    requires from <= row < n && size > 0
    ensures exists s :: s in Cuts(from, n, size) && s.0 <= row < s.1
    decreases n - from
  {
    if row < from + size {
      assert Cuts(from, n, size)[0] in Cuts(from, n, size);
    } else {
      CutsCover(from + size, n, size, row);
    }
  }

  ghost predicate In(cuts: seq<(nat, nat)>, k: int, row: nat)
  {
    0 <= k < |cuts| && cuts[k].0 <= row < cuts[k].1
  }

  /** Slices are disjoint and cover every row: each row lies in exactly one. */
  lemma {:induction false} EachRowOnce(cuts: seq<(nat, nat)>, from: nat, n: nat, size: nat, row: nat)
    requires Slices(cuts, from, n, size) && from <= row < n
    ensures exists k :: In(cuts, k, row)
    ensures forall j, k :: In(cuts, j, row) && In(cuts, k, row) ==> j == k
    decreases |cuts|
  {
    if cuts != [] {
      var rest := cuts[1..];
      assert forall k {:trigger rest[k]} :: 0 <= k < |rest| ==> rest[k] == cuts[k + 1];
      Later(cuts, from, n, size);
      if row < cuts[0].1 {
        assert In(cuts, 0, row);
      } else {
        EachRowOnce(rest, cuts[0].1, n, size, row);
        var k :| In(rest, k, row);
        assert In(cuts, k + 1, row);
        forall j, k | In(cuts, j, row) && In(cuts, k, row) ensures j == k {
          assert In(rest, j - 1, row) && In(rest, k - 1, row);
        }
      }
    }
  }

  /** Later slices begin no earlier than the first one ends. */
  lemma {:induction false} Later(cuts: seq<(nat, nat)>, from: nat, n: nat, size: nat)
    requires Slices(cuts, from, n, size) && cuts != []
    ensures forall k :: 0 < k < |cuts| ==> cuts[0].1 <= cuts[k].0
    ensures Slices(cuts[1..], cuts[0].1, n, size)
    decreases |cuts|
  {
    var rest := cuts[1..];
    assert forall k {:trigger rest[k]} :: 0 <= k < |rest| ==> rest[k] == cuts[k + 1];
    if rest != [] {
      assert cuts[1].0 == cuts[0].1;
      Later(rest, cuts[0].1, n, size);
      forall k | 0 < k < |cuts| ensures cuts[0].1 <= cuts[k].0 {
        assert k > 1 ==> rest[0].1 <= rest[k - 1].0;
      }
    }
  }

  // ---------- executing ----------

  datatype Worker = Ready | Writing(batch: nat) | Exiting | Gone

  datatype Main = Sending | Draining(received: nat) | Returned(nil: bool)

  /** `next` is the first batch not yet sent; `slot` the slice channel, and `closed` whether it was closed; `done`
      counts the tokens in the done channel; `error` is the error channel, which holds one. `written` and `failed`
      record what became of each batch; no transition reads them. */
  datatype State = State(
    main: Main, next: nat, slot: seq<nat>, closed: bool, workers: seq<Worker>, done: nat, error: bool,
    written: set<nat>, failed: set<nat>)

  datatype Event =
    | Send | Close | TakeError | TakeDone | Return
    | Take(w: nat) | SeeClosed(w: nat) | Write(w: nat) | Fail(w: nat) | Exit(w: nat)

  /** `m` batches, sent to the workers over a channel of capacity one. */
  predicate Enabled(m: nat, st: State, e: Event)
  {
    match e
    case Send => st.main == Sending && st.next < m && st.slot == []
    case Close => st.main == Sending && st.next == m
    case TakeError => st.error && ((st.main == Sending && st.next < m)
                                   || (st.main.Draining? && st.main.received < |st.workers|))
    case TakeDone => st.main.Draining? && st.main.received < |st.workers| && st.done > 0
    case Return => st.main.Draining? && st.main.received == |st.workers|
    case Take(w) => w < |st.workers| && st.workers[w] == Ready && st.slot != []
    case SeeClosed(w) => w < |st.workers| && st.workers[w] == Ready && st.slot == [] && st.closed
    case Write(w) => w < |st.workers| && st.workers[w].Writing?
    case Fail(w) => w < |st.workers| && st.workers[w].Writing?
    case Exit(w) => w < |st.workers| && st.workers[w] == Exiting
  }

  function Apply(m: nat, st: State, e: Event): State
    requires Enabled(m, st, e)
  {
    match e
    case Send => st.(slot := [st.next], next := st.next + 1)
    case Close => st.(main := Draining(0), closed := true)
    case TakeError => st.(main := Returned(false), error := false)
    case TakeDone => st.(main := Draining(st.main.received + 1), done := st.done - 1)
    case Return => st.(main := Returned(true))
    case Take(w) => st.(slot := st.slot[1..], workers := st.workers[w := Writing(st.slot[0])])
    case SeeClosed(w) => st.(workers := st.workers[w := Exiting])
    case Write(w) => st.(workers := st.workers[w := Ready], written := st.written + {st.workers[w].batch})
    case Fail(w) =>
      st.(workers := st.workers[w := Exiting], error := true, failed := st.failed + {st.workers[w].batch})
    case Exit(w) => st.(workers := st.workers[w := Gone], done := st.done + 1)
  }

  function Initial(n: nat): State { State(Sending, 0, [], false, seq(n, _ => Ready), 0, false, {}, {}) }

  ghost predicate IsRun(m: nat, n: nat, states: seq<State>, events: seq<Event>)
  {
    && |states| == |events| + 1 && states[0] == Initial(n)
    && forall k {:trigger events[k]} :: 0 <= k < |events| ==>
         Enabled(m, states[k], events[k]) && states[k + 1] == Apply(m, states[k], events[k])
  }

  function Gones(ws: seq<Worker>): nat
  {
    if ws == [] then 0 else (if ws[0] == Gone then 1 else 0) + Gones(ws[1..])
  }

  ghost predicate Received(st: State)
  {
    match st.main
    case Draining(r) => r + st.done == Gones(st.workers)
    case Sending => st.done == Gones(st.workers)
    case Returned(nil) => nil ==> Gones(st.workers) == |st.workers|
  }

  /** Where a sent batch is. */
  ghost predicate Somewhere(st: State, b: nat)
  {
    || b in st.slot || b in st.written || b in st.failed
    || exists w :: 0 <= w < |st.workers| && st.workers[w] == Writing(b)
  }

  /** Batches sent but not yet written or failed are in one place each. */
  ghost predicate OncePlaced(st: State)
  {
    && st.written !! st.failed
    && (forall b :: b in st.written || b in st.failed || b in st.slot ==> b < st.next)
    && (forall b :: b in st.slot ==> b !in st.written && b !in st.failed)
    && (forall w :: 0 <= w < |st.workers| && st.workers[w].Writing? ==> Held(st, st.workers[w].batch))
    && (forall v, w :: 0 <= v < w < |st.workers| && st.workers[v].Writing? ==> st.workers[w] != st.workers[v])
  }

  ghost predicate Held(st: State, b: nat)
  {
    b < st.next && b !in st.written && b !in st.failed && b !in st.slot
  }

  ghost predicate Inv(m: nat, st: State)
  {
    && st.next <= m && |st.slot| <= 1 && Received(st) && OncePlaced(st)
    && (forall b: nat :: b < st.next ==> Somewhere(st, b))
    && (st.closed ==> st.next == m) && (st.main == Sending ==> !st.closed)
    && (st.main.Draining? || st.main == Returned(true) ==> st.closed)
    // A worker that has not failed leaves only when the channel is closed and empty.
    && (st.failed == {} ==> forall w :: 0 <= w < |st.workers| && st.workers[w] in {Exiting, Gone} ==>
          st.closed && st.slot == [])
    // An error stays in its channel until the main goroutine takes it, and then it returns it.
    && (st.main != Returned(false) ==> (st.error <==> st.failed != {}))
    && (st.main == Returned(false) ==> st.failed != {})
  }

  lemma {:induction false} GonesUpdate(ws: seq<Worker>, w: nat, x: Worker)
    requires w < |ws|
    ensures Gones(ws[w := x]) == Gones(ws) - (if ws[w] == Gone then 1 else 0) + (if x == Gone then 1 else 0)
  {
    if w == 0 {
      assert ws[w := x][1..] == ws[1..];
    } else {
      GonesUpdate(ws[1..], w - 1, x);
      assert ws[w := x][1..] == ws[1..][w - 1 := x];
    }
  }

  lemma {:induction false} GonesAll(ws: seq<Worker>)
    ensures Gones(ws) <= |ws|
    ensures Gones(ws) == |ws| <==> forall w :: 0 <= w < |ws| ==> ws[w] == Gone
  {
    if ws != [] {
      GonesAll(ws[1..]);
      assert forall w :: 0 < w < |ws| ==> ws[w] == ws[1..][w - 1];
    }
  }

  /** A batch that is not the one moved stays where it is. */
  lemma Elsewhere(st: State, next: State, w: nat, b: nat)
    requires w < |st.workers| && |next.workers| == |st.workers| && st.workers[w] != Writing(b) && Somewhere(st, b)
    requires forall v :: 0 <= v < |st.workers| && v != w ==> next.workers[v] == st.workers[v]
    requires st.written <= next.written && st.failed <= next.failed && (b in st.slot ==> b in next.slot)
    ensures Somewhere(next, b)
  {
    if v :| 0 <= v < |st.workers| && st.workers[v] == Writing(b) { assert next.workers[v] == Writing(b); }
  }

  lemma TakeKeeps(m: nat, st: State, w: nat)
    requires Inv(m, st) && Enabled(m, st, Take(w))
    ensures Inv(m, Apply(m, st, Take(w)))
  {
    var next := Apply(m, st, Take(w));
    GonesUpdate(st.workers, w, next.workers[w]);
    GonesAll(st.workers);
    assert next.slot == [] && st.slot == [st.slot[0]] && st.slot[0] in st.slot;
    forall b: nat | b < st.next ensures Somewhere(next, b) {
      if b == st.slot[0] { assert next.workers[w] == Writing(b); } else { Elsewhere(st, next, w, b); }
    }
  }

  lemma SeeClosedKeeps(m: nat, st: State, w: nat)
    requires Inv(m, st) && Enabled(m, st, SeeClosed(w))
    ensures Inv(m, Apply(m, st, SeeClosed(w)))
  {
    var next := Apply(m, st, SeeClosed(w));
    GonesUpdate(st.workers, w, next.workers[w]);
    GonesAll(st.workers);
    forall b: nat | b < st.next ensures Somewhere(next, b) {
      Elsewhere(st, next, w, b);
    }
  }

  lemma WriteKeeps(m: nat, st: State, w: nat)
    requires Inv(m, st) && Enabled(m, st, Write(w))
    ensures Inv(m, Apply(m, st, Write(w)))
  {
    var next := Apply(m, st, Write(w));
    GonesUpdate(st.workers, w, next.workers[w]);
    GonesAll(st.workers);
    forall b: nat | b < st.next ensures Somewhere(next, b) {
      if b != st.workers[w].batch { Elsewhere(st, next, w, b); }
    }
  }

  lemma FailKeeps(m: nat, st: State, w: nat)
    requires Inv(m, st) && Enabled(m, st, Fail(w))
    ensures Inv(m, Apply(m, st, Fail(w)))
  {
    var next := Apply(m, st, Fail(w));
    GonesUpdate(st.workers, w, next.workers[w]);
    GonesAll(st.workers);
    forall b: nat | b < st.next ensures Somewhere(next, b) {
      if b != st.workers[w].batch { Elsewhere(st, next, w, b); }
    }
  }

  lemma ExitKeeps(m: nat, st: State, w: nat)
    requires Inv(m, st) && Enabled(m, st, Exit(w))
    ensures Inv(m, Apply(m, st, Exit(w)))
  {
    var next := Apply(m, st, Exit(w));
    GonesUpdate(st.workers, w, next.workers[w]);
    GonesAll(st.workers);
    forall b: nat | b < st.next ensures Somewhere(next, b) {
      Elsewhere(st, next, w, b);
    }
  }

  lemma MainKeeps(m: nat, st: State, e: Event)
    requires Inv(m, st) && Enabled(m, st, e)
    requires e == Send || e == Close || e == TakeError || e == TakeDone || e == Return
    ensures Inv(m, Apply(m, st, e))
  {
    var next := Apply(m, st, e);
    GonesAll(st.workers);
    forall b: nat | b < next.next ensures Somewhere(next, b) {
      assert b < st.next ==> Somewhere(st, b);
    }
  }

  lemma {:induction false} RunKeeps(m: nat, n: nat, states: seq<State>, events: seq<Event>, k: nat)
    requires IsRun(m, n, states, events) && k < |states|
    ensures Inv(m, states[k]) && |states[k].workers| == n
  {
    if k == 0 {
      InitialOk(m, n);
    } else {
      RunKeeps(m, n, states, events, k - 1);
      var e := events[k - 1];
      match e
      case Take(w) => TakeKeeps(m, states[k - 1], w);
      case SeeClosed(w) => SeeClosedKeeps(m, states[k - 1], w);
      case Write(w) => WriteKeeps(m, states[k - 1], w);
      case Fail(w) => FailKeeps(m, states[k - 1], w);
      case Exit(w) => ExitKeeps(m, states[k - 1], w);
      case _ => MainKeeps(m, states[k - 1], e);
    }
  }

  lemma {:induction false} NoGones(n: nat)
    ensures Gones(seq(n, _ => Ready)) == 0
  {
    if n > 0 {
      NoGones(n - 1);
      assert seq(n, _ => Ready)[1..] == seq(n - 1, _ => Ready);
    }
  }

  lemma InitialOk(m: nat, n: nat)
    ensures Inv(m, Initial(n))
  {
    NoGones(n);
  }

  // ---------- what a nil return means ----------

  /** `batchUpsert` returned nil: every batch was written if and only if no batch failed, which is if and only
      if no error is left unread in the error channel. */
  lemma NilMeaning(m: nat, n: nat, states: seq<State>, events: seq<Event>, k: nat)
    requires IsRun(m, n, states, events) && k < |states| && n > 0 && states[k].main == Returned(true)
    ensures (forall b: nat :: b < m ==> b in states[k].written) <==> states[k].failed == {}
    ensures states[k].error <==> states[k].failed != {}
  {
    RunKeeps(m, n, states, events, k);
    var st := states[k];
    GonesAll(st.workers);
    forall b: nat | b < m && st.failed == {} ensures b in st.written {
      assert Somewhere(st, b) && st.workers[0] == Gone;
    }
    if st.failed != {} {
      var b :| b in st.failed;
      assert b !in st.written && b < m;
    }
  }

  /** An error return means a batch failed. */
  lemma ErrorMeaning(m: nat, n: nat, states: seq<State>, events: seq<Event>, k: nat)
    requires IsRun(m, n, states, events) && k < |states| && states[k].main == Returned(false)
    ensures states[k].failed != {}
  {
    RunKeeps(m, n, states, events, k);
  }

  /** The call never hangs: until it returns, the main goroutine or a worker can go on. */
  lemma NeverHangs(m: nat, n: nat, states: seq<State>, events: seq<Event>, k: nat)
    requires IsRun(m, n, states, events) && k < |states| && n > 0 && !states[k].main.Returned?
    ensures exists e :: Enabled(m, states[k], e)
  {
    RunKeeps(m, n, states, events, k);
    var st := states[k];
    GonesAll(st.workers);
    if w: nat :| w < |st.workers| && st.workers[w].Writing? {
      assert Enabled(m, st, Write(w));
    } else if w: nat :| w < |st.workers| && st.workers[w] == Exiting {
      assert Enabled(m, st, Exit(w));
    } else if st.main == Sending && st.next == m {
      assert Enabled(m, st, Close);
    } else if st.main == Sending && st.slot == [] {
      assert Enabled(m, st, Send);
    } else if st.main.Draining? && st.main.received >= |st.workers| {
      assert st.main.received == |st.workers|;
      assert Enabled(m, st, Return);
    } else if st.main.Draining? && st.done > 0 {
      assert Enabled(m, st, TakeDone);
    } else if w: nat :| w < |st.workers| && st.workers[w] == Ready {
      if st.slot != [] { assert Enabled(m, st, Take(w)); } else { assert Enabled(m, st, SeeClosed(w)); }
    } else {
      assert st.workers[0] == Gone;
      assert Enabled(m, st, TakeError);
    }
  }

  /** After an error return, what the workers still have to execute are batches that were neither written nor
      failed, each with one worker or in the channel: they go on with them. */
  lemma LeftBehind(m: nat, n: nat, states: seq<State>, events: seq<Event>, k: nat, b: nat)
    requires IsRun(m, n, states, events) && k < |states| && states[k].main == Returned(false)
    requires Underway(states[k], b)
    ensures b !in states[k].failed && b !in states[k].written && states[k].failed != {}
    ensures forall v, w :: 0 <= v < w < |states[k].workers| && states[k].workers[v] == Writing(b) ==>
      states[k].workers[w] != Writing(b)
    ensures b in states[k].slot ==> Writing(b) !in states[k].workers
  {
    RunKeeps(m, n, states, events, k);
  }

  /** After a nil return nobody goes on: no worker is left. */
  lemma NobodyLeft(m: nat, n: nat, states: seq<State>, events: seq<Event>, k: nat)
    requires IsRun(m, n, states, events) && k < |states| && states[k].main == Returned(true)
    ensures forall e :: !Enabled(m, states[k], e)
  {
    RunKeeps(m, n, states, events, k);
    GonesAll(states[k].workers);
  }

  /** A batch that a worker is writing, or that one can still take. */
  ghost predicate Underway(st: State, b: nat) { b in st.slot || Writing(b) in st.workers }

  // ---------- the call ends ----------

  function Steps(w: Worker): nat
  {
    match w case Writing(_) => 3 case Ready => 2 case Exiting => 1 case Gone => 0
  }

  function WorkerSteps(ws: seq<Worker>): nat
  {
    if ws == [] then 0 else Steps(ws[0]) + WorkerSteps(ws[1..])
  }

  function MainSteps(n: nat, main: Main): int
  {
    match main case Sending => n + 2 case Draining(r) => n - r + 1 case Returned(_) => 0
  }

  /** A bound on the steps a call can still make, main goroutine and workers together. */
  function Remaining(m: nat, st: State): int
  {
    3 * (m - st.next) + 2 * |st.slot| + WorkerSteps(st.workers) + MainSteps(|st.workers|, st.main)
  }

  lemma {:induction false} StepsUpdate(ws: seq<Worker>, w: nat, x: Worker)
    requires w < |ws|
    ensures WorkerSteps(ws[w := x]) == WorkerSteps(ws) - Steps(ws[w]) + Steps(x)
  {
    if w == 0 {
      assert ws[w := x][1..] == ws[1..];
    } else {
      StepsUpdate(ws[1..], w - 1, x);
      assert ws[w := x][1..] == ws[1..][w - 1 := x];
    }
  }

  /** Every step lowers the bound. */
  lemma EventLess(m: nat, st: State, e: Event)
    requires Inv(m, st) && Enabled(m, st, e)
    ensures 0 <= Remaining(m, Apply(m, st, e)) < Remaining(m, st)
  {
    GonesAll(st.workers);
    match e
    case Take(w) => StepsUpdate(st.workers, w, Writing(st.slot[0]));
    case SeeClosed(w) => StepsUpdate(st.workers, w, Exiting);
    case Write(w) => StepsUpdate(st.workers, w, Ready);
    case Fail(w) => StepsUpdate(st.workers, w, Exiting);
    case Exit(w) => StepsUpdate(st.workers, w, Gone);
    case _ =>
  }

  lemma {:induction false} RunUsesSteps(m: nat, n: nat, states: seq<State>, events: seq<Event>, k: nat)
    requires IsRun(m, n, states, events) && k < |states|
    ensures 0 <= Remaining(m, states[k]) <= 3 * (m + n) + 2 - k
  {
    if k == 0 {
      AllReady(n);
    } else {
      RunUsesSteps(m, n, states, events, k - 1);
      RunKeeps(m, n, states, events, k - 1);
      EventLess(m, states[k - 1], events[k - 1]);
    }
  }

  lemma {:induction false} AllReady(n: nat)
    ensures WorkerSteps(seq(n, _ => Ready)) == 2 * n
  {
    if n > 0 {
      AllReady(n - 1);
      assert seq(n, _ => Ready)[1..] == seq(n - 1, _ => Ready);
    }
  }

  /** No call, its workers included, takes more steps than its batches and workers allow. */
  lemma RunsAreBounded(m: nat, n: nat, states: seq<State>, events: seq<Event>)
    requires IsRun(m, n, states, events)
    ensures |events| <= 3 * (m + n) + 2
  {
    RunUsesSteps(m, n, states, events, |events|);
  }

  /** Every run can be continued until the call has returned. */
  lemma {:induction false} AlwaysReturns(m: nat, n: nat, states: seq<State>, events: seq<Event>)
      returns (longer: seq<State>, more: seq<Event>)
    requires IsRun(m, n, states, events) && n > 0
    ensures IsRun(m, n, longer, more) && events <= more && longer[|more|].main.Returned?
    decreases 3 * (m + n) + 2 - |events|
  {
    longer, more := states, events;
    if !states[|events|].main.Returned? {
      NeverHangs(m, n, states, events, |events|);
      var e :| Enabled(m, states[|events|], e);
      longer, more := states + [Apply(m, states[|events|], e)], events + [e];
      assert IsRun(m, n, longer, more);
      RunsAreBounded(m, n, longer, more);
      longer, more := AlwaysReturns(m, n, longer, more);
    }
  }

  // ---------- a nil return can hide an error ----------

  ghost predicate Reachable(m: nat, n: nat, st: State)
  {
    exists states, events :: IsRun(m, n, states, events) && states[|events|] == st
  }

  lemma OneMore(m: nat, n: nat, st: State, e: Event)
    requires Reachable(m, n, st) && Enabled(m, st, e)
    ensures Reachable(m, n, Apply(m, st, e))
  {
    var states, events :| IsRun(m, n, states, events) && states[|events|] == st;
    var longer, more := states + [Apply(m, st, e)], events + [e];
    assert IsRun(m, n, longer, more) && longer[|more|] == Apply(m, st, e);
  }

  /** The batches from 1 to `k`, without `k`. */
  function Rest(k: nat): (r: set<nat>)
    ensures forall b: nat :: b in r <==> 1 <= b < k
  {
    if k <= 1 then {} else Rest(k - 1) + {k - 1}
  }

  /** The first batch has failed, its worker has left, and `k` batches have been sent, the others of them written. */
  function Missed(n: nat, k: nat): State
  {
    State(Sending, k, [], false, seq(n, i => if i < 1 then Gone else Ready), 1, true, Rest(k), {0})
  }

  lemma FirstLeaves(m: nat, n: nat)
    requires m > 0 && n > 0
    ensures Reachable(m, n, Missed(n, 1))
  {
    var s := Initial(n);
    var none: seq<Event> := [];
    assert IsRun(m, n, [s], none) && [s][|none|] == s;
    OneMore(m, n, s, Send);
    s := Apply(m, s, Send);
    OneMore(m, n, s, Take(0));
    s := Apply(m, s, Take(0));
    OneMore(m, n, s, Fail(0));
    s := Apply(m, s, Fail(0));
    OneMore(m, n, s, Exit(0));
    assert Apply(m, s, Exit(0)) == Missed(n, 1);
  }

  lemma {:induction false} OthersWritten(m: nat, n: nat, k: nat)
    requires 0 < k <= m && n > 0 && (n > 1 || m == 1)
    ensures Reachable(m, n, Missed(n, k))
  {
    if k == 1 {
      FirstLeaves(m, n);
    } else {
      OthersWritten(m, n, k - 1);
      var s := Missed(n, k - 1);
      OneMore(m, n, s, Send);
      s := Apply(m, s, Send);
      OneMore(m, n, s, Take(1));
      s := Apply(m, s, Take(1));
      OneMore(m, n, s, Write(1));
      assert Apply(m, s, Write(1)) == Missed(n, k);
    }
  }

  /** All batches have been sent, `w` workers have left and the main goroutine has taken `r` of their tokens. */
  function Failing(m: nat, n: nat, w: nat, r: nat): State
    requires r <= w <= n
  {
    State(Draining(r), m, [], true, seq(n, i => if i < w then Gone else Ready), w - r, true, Rest(m), {0})
  }

  lemma {:induction false} AllLeave(m: nat, n: nat, w: nat)
    requires 0 < w <= n && m > 0 && (n > 1 || m == 1)
    ensures Reachable(m, n, Failing(m, n, w, 0))
  {
    if w == 1 {
      OthersWritten(m, n, m);
      OneMore(m, n, Missed(n, m), Close);
      assert Apply(m, Missed(n, m), Close) == Failing(m, n, 1, 0);
    } else {
      AllLeave(m, n, w - 1);
      var s := Failing(m, n, w - 1, 0);
      OneMore(m, n, s, SeeClosed(w - 1));
      s := Apply(m, s, SeeClosed(w - 1));
      OneMore(m, n, s, Exit(w - 1));
      assert Apply(m, s, Exit(w - 1)) == Failing(m, n, w, 0);
    }
  }

  lemma {:induction false} AllTaken(m: nat, n: nat, r: nat)
    requires 0 < n && r <= n && m > 0 && (n > 1 || m == 1)
    ensures Reachable(m, n, Failing(m, n, n, r))
  {
    if r == 0 {
      AllLeave(m, n, n);
    } else {
      AllTaken(m, n, r - 1);
      OneMore(m, n, Failing(m, n, n, r - 1), TakeDone);
    }
  }

  /** The main goroutine may prefer every send and every done token to the buffered error: nil although the first
      batch failed, all others having been written. */
  lemma NilCanHideError(m: nat, n: nat)
    requires m > 0 && n > 0 && (n > 1 || m == 1)
    ensures exists st :: Reachable(m, n, st) && st.main == Returned(true) && st.failed == {0} && st.written == Rest(m)
  {
    AllTaken(m, n, n);
    var s := Failing(m, n, n, n);
    OneMore(m, n, s, Return);
    assert Reachable(m, n, Apply(m, s, Return));
  }

  ghost predicate FirstLeft(st: State)
  {
    && st.main == Returned(false) && st.failed == {1} && st.written == {}
    && |st.workers| > 0 && st.workers[0] == Writing(0)
  }

  /** The second batch may fail, and the call return the error, while a worker still holds the first one. */
  lemma FirstCanBeLeft(m: nat, n: nat)
    requires m > 1 && n > 1
    ensures exists st :: Reachable(m, n, st) && FirstLeft(st)
  {
    var s := Initial(n);
    var none: seq<Event> := [];
    assert IsRun(m, n, [s], none) && [s][|none|] == s;
    OneMore(m, n, s, Send);
    s := Apply(m, s, Send);
    OneMore(m, n, s, Take(0));
    s := Apply(m, s, Take(0));
    OneMore(m, n, s, Send);
    s := Apply(m, s, Send);
    SecondFails(m, n, s);
  }

  lemma SecondFails(m: nat, n: nat, s: State)
    requires m > 1 && n > 1 && Reachable(m, n, s)
    requires s == State(Sending, 2, [1], false, seq(n, i => if i == 0 then Writing(0) else Ready), 0, false, {}, {})
    ensures exists st :: Reachable(m, n, st) && FirstLeft(st)
  {
    OneMore(m, n, s, Take(1));
    var t := Apply(m, s, Take(1));
    OneMore(m, n, t, Fail(1));
    t := Apply(m, t, Fail(1));
    if m == 2 {
      OneMore(m, n, t, Close);
      t := Apply(m, t, Close);
    }
    OneMore(m, n, t, TakeError);
    t := Apply(m, t, TakeError);
    assert FirstLeft(t);
  }
}
