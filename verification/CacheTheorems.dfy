/** What holds in every state of every run of the cache, and under which faults. */
module CacheTheorems {
  import opened CacheProtocol
  import opened CacheInvariant
  import opened CacheSteps

  lemma InitialOk(c: Config, f: Faults, n: nat, db: map<Key, Row>)
    requires Consistent(c, db)
    ensures Inv(c, f, Initial(c, n, db))
  {
    var st := Initial(c, n, db);
    assert forall k :: k in db && db[k].TxRow? ==> References(db[k]) == Needs(c, db[k]);
    assert forall k :: k in db.Keys ==> Present(st, k);
  }

  lemma {:induction false} RunKeeps(
      c: Config, f: Faults, n: nat, db: map<Key, Row>, states: seq<State>, events: seq<Event>, k: nat)
    requires IsRun(c, f, n, db, states, events) && Consistent(c, db) && k < |states|
    ensures Inv(c, f, states[k])
  {
    if k == 0 {
      InitialOk(c, f, n, db);
    } else {
      RunKeeps(c, f, n, db, states, events, k - 1);
      EventKeeps(c, f, states[k - 1], events[k - 1]);
    }
  }

  lemma ReachableOk(c: Config, f: Faults, st: State)
    requires Reachable(c, f, st)
    ensures Inv(c, f, st)
  {
    var n, db, states, events :| IsRun(c, f, n, db, states, events) && Consistent(c, db) && states[|events|] == st;
    RunKeeps(c, f, n, db, states, events, |events|);
  }

  /** Every transaction in the database has both its wallets there, in every state of every run. */
  lemma WalletsStored(c: Config, f: Faults, st: State, k: Key)
    requires Reachable(c, f, st) && k in st.db && st.db[k].TxRow?
    ensures Address(st.db[k].from) in st.db && Address(st.db[k].to) in st.db
  {
    ReachableOk(c, f, st);
  }

  /** Every block marked processed in the database has all its transactions there, if no inserter of a failed block
      flush reads an array that was rewritten since and no flush hides an error. */
  lemma DatabaseSafe(c: Config, f: Faults, st: State, k: Key)
    requires Reachable(c, f, st) && Blocks !in f.late && !f.hidden
    requires k in st.db && st.db[k].BlockRow? && st.db[k].processed
    ensures forall h :: h in c.contents(st.db[k].number) ==> Hash(h) in st.db
  {
    ReachableOk(c, f, st);
    assert Grounded(c, st, Blocks);
    forall h | h in c.contents(st.db[k].number) ensures Hash(h) in st.db { assert Hash(h) in Needs(c, st.db[k]); }
  }

  /** No statement breaks a foreign key, if no inserter of a failed transaction flush reads an array that was
      rewritten since and no flush hides an error. */
  lemma ForeignKeysHold(c: Config, f: Faults, st: State)
    requires Reachable(c, f, st) && Txs !in f.late && !f.hidden
    ensures StatementsLegal(st)
  {
    ReachableOk(c, f, st);
    AllLegal(c, f, st);
  }

  lemma AllLegal(c: Config, f: Faults, st: State)
    requires Inv(c, f, st) && Txs !in f.late && !f.hidden
    ensures StatementsLegal(st)
  {
    forall i: nat, s | Pending(st, i, s) ensures Legal(st.db, Statement(st, i, s)) { StatementNeeds(c, st, i, s); }
    assert Grounded(c, st, Txs);
    forall z | 0 <= z < |st.left| && Issued(st.left[z]) ensures Legal(st.db, st.left[z].got) {
      assert Fits(st.CacheOf(st.left[z].table), st.left[z]);
      forall r | r in st.left[z].got ensures References(r) <= st.db.Keys {
        assert TableOf(r) == st.left[z].table;
        assert r.TxRow? ==> LeftGrounded(c, st.db, st.CacheOf(Txs), st.left[z]);
      }
    }
  }

  /** A flush never issues a statement that breaks a foreign key, whatever leftovers do. */
  lemma FlushesLegal(c: Config, f: Faults, st: State, i: nat, s: (nat, nat))
    requires Reachable(c, f, st) && !f.hidden && Pending(st, i, s)
    ensures Enabled(c, st, Write(i, s))
  {
    ReachableOk(c, f, st);
    StatementNeeds(c, st, i, s);
  }

  /** Whatever was accepted with nil is, from then on, in the database or in its cache list, whatever leftovers do,
      if no flush hides an error. */
  lemma NothingLost(c: Config, f: Faults, st: State, k: Key)
    requires Reachable(c, f, st) && !f.hidden && k in st.accepted
    ensures Present(st, k)
  {
    ReachableOk(c, f, st);
  }

  /** A leftover never runs out of the array it reads. */
  lemma LeftInBounds(c: Config, f: Faults, st: State, z: nat)
    requires Reachable(c, f, st) && z < |st.left|
    ensures st.left[z].until <= |Cells(st.CacheOf(st.left[z].table), st.left[z])|
  {
    ReachableOk(c, f, st);
    assert Fits(st.CacheOf(st.left[z].table), st.left[z]);
  }

  // ---------- deadlock ----------

  /** A call under way goes on; a statement fails only where an error was hidden before. */
  predicate GoesOn(f: Faults, e: Event)
  {
    e.Acquire? || e.Put? || e.Decide? || e.Write? || e.Flushed? || (f.hidden && e.Fail?)
  }

  /** The lock order never deadlocks: while some call is under way, some call can go on. */
  lemma NeverDeadlocks(c: Config, f: Faults, st: State, i: nat)
    requires Reachable(c, f, st) && i < |st.writers| && st.writers[i] != Idle
    ensures exists e :: GoesOn(f, e) && Enabled(c, st, e) && Within(f, st, e)
  {
    ReachableOk(c, f, st);
    if j: nat :| j < |st.writers| && st.writers[j].Flushing? {
      FlusherGoes(c, f, st, j);
    } else if j: nat :| j < |st.writers| && st.writers[j].Inside? {
      assert Enabled(c, st, Put(j)) || Enabled(c, st, Decide(j));
    } else if j: nat :| j < |st.writers| && st.writers[j].Locking? && st.writers[j].next == Wallets {
      assert Enabled(c, st, Acquire(j));
    } else if j: nat :| j < |st.writers| && st.writers[j].Locking? {
      assert WriterShape(c, st, st.writers[j]);
      assert forall l :: 0 <= l < |st.writers| ==> WriterShape(c, st, st.writers[l]);
      assert Enabled(c, st, Acquire(j));
    } else {
      assert Enabled(c, st, Acquire(i));
    }
  }

  lemma FlusherGoes(c: Config, f: Faults, st: State, j: nat)
    requires Inv(c, f, st) && j < |st.writers| && st.writers[j].Flushing?
    ensures exists e :: GoesOn(f, e) && Enabled(c, st, e) && Within(f, st, e)
  {
    var pc := st.writers[j];
    assert WriterShape(c, st, pc);
    if pc.todo == {} {
      assert Enabled(c, st, Flushed(j));
    } else {
      var s :| s in pc.todo;
      if f.hidden {
        assert s in Slices(c, pc.table, st.List(pc.table)) && s !in [];
        assert Enabled(c, st, Fail(j, []));
      } else {
        StatementNeeds(c, st, j, s);
        assert Enabled(c, st, Write(j, s));
      }
    }
  }
}
