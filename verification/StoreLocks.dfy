/** The document locks cannot deadlock. */
module StoreLocks {
  import opened Documents
  import opened Batches
  import opened StoreModel
  import opened StoreDiscipline
  import opened StoreInvariant
  import opened StoreStatements
  import opened StoreHistory
  import opened StoreRuns

  lemma LocksGrow(v: View, stmt: Stmt)
    ensures v.locks <= ViewAfter(v, stmt).locks
  {
  }

  lemma LockRanksAbove(v: View, stmt: Stmt, h: DocKey)
    requires StmtOk(v, stmt) && stmt.Lock? && h in v.locks
    ensures Rank(h) < Rank(stmt.key)
  {
  }

  lemma {:induction false} HeldRanksBelow(v: View, todo: seq<Stmt>, h: DocKey, j: nat)
    requires AllOk(v, todo) && h in v.locks && j < |todo| && todo[j].Lock?
    ensures Rank(h) < Rank(todo[j].key)
    decreases |todo|
  {
    if j == 0 {
      LockRanksAbove(v, todo[0], h);
    } else {
      LocksGrow(v, todo[0]);
      assert todo[1..][j - 1] == todo[j];
      HeldRanksBelow(ViewAfter(v, todo[0]), todo[1..], h, j - 1);
    }
  }

  lemma {:induction false} LocksAscend(v: View, todo: seq<Stmt>, i: nat, j: nat)
    requires AllOk(v, todo) && i < j < |todo| && todo[i].Lock? && todo[j].Lock?
    ensures Rank(todo[i].key) < Rank(todo[j].key)
    decreases |todo|
  {
    if i == 0 {
      HeldRanksBelow(ViewAfter(v, todo[0]), todo[1..], todo[0].key, j - 1);
    } else {
      LocksAscend(ViewAfter(v, todo[0]), todo[1..], i - 1, j - 1);
    }
  }

  /** Every request takes at most one container lock, before any other, and then its playlist locks in
      strictly ascending order. */
  lemma RequestLocksInOrder(w: World, op: Op, i: nat, j: nat)
    requires Admitted(w, op)
    requires i < j < |Program(w, op)| && Program(w, op)[i].Lock? && Program(w, op)[j].Lock?
    ensures var a, b := Program(w, op)[i].key, Program(w, op)[j].key;
            b.table == Playlists && (a.table == Playlists ==> a.id < b.id)
  {
    ProgramDisciplined(w, op);
    LocksAscend(EMPTY_VIEW, Program(w, op), i, j);
  }

  /** Transaction i waits for a lock that j holds. */
  predicate Waits(s: Store, i: nat, j: nat) {
    && i in s.txs && j in s.txs && i != j
    && s.txs[i].todo != [] && s.txs[i].todo[0].Lock?
    && s.txs[i].todo[0].key in s.txs[j].view.locks
  }

  /** The rank of the lock i waits for. */
  function WaitRank(s: Store, i: nat): nat {
    if i in s.txs && s.txs[i].todo != [] && s.txs[i].todo[0].Lock? then Rank(s.txs[i].todo[0].key) else 0
  }

  predicate InOrder(s: Store) {
    forall i, h :: i in s.txs && s.txs[i].todo != [] && s.txs[i].todo[0].Lock? && h in s.txs[i].view.locks
      ==> Rank(h) < Rank(s.txs[i].todo[0].key)
  }

  lemma SoundIsInOrder(s: Store)
    requires StoreOk(s)
    ensures InOrder(s)
  {
    forall i, h | i in s.txs && s.txs[i].todo != [] && s.txs[i].todo[0].Lock? && h in s.txs[i].view.locks
      ensures Rank(h) < Rank(s.txs[i].todo[0].key)
    {
      DisciplinedTail(s.txs[i].view, s.txs[i].todo);
    }
  }

  lemma WaitingClimbs(s: Store, i: nat, j: nat, k: nat)
    requires InOrder(s) && Waits(s, i, j) && Waits(s, j, k)
    ensures WaitRank(s, i) < WaitRank(s, j)
  {
  }

  /** Each transaction waits for the next, and the last for the first. */
  predicate WaitCycle(s: Store, cycle: seq<nat>) {
    && cycle != []
    && Waits(s, cycle[|cycle| - 1], cycle[0])
    && forall m :: 0 < m < |cycle| ==> Waits(s, cycle[m - 1], cycle[m])
  }

  lemma {:induction false} CycleClimbs(s: Store, cycle: seq<nat>, m: nat)
    requires InOrder(s) && WaitCycle(s, cycle) && m < |cycle|
    ensures WaitRank(s, cycle[0]) + m <= WaitRank(s, cycle[m])
  {
    if m > 0 {
      CycleClimbs(s, cycle, m - 1);
      WaitingClimbs(s, cycle[m - 1], cycle[m], if m + 1 < |cycle| then cycle[m + 1] else cycle[0]);
    }
  }

  /** No reachable state has a cycle of transactions waiting for each other's document locks. */
  lemma NoWaitCycle(w: World, run: seq<Store>, n: nat, cycle: seq<nat>)
    requires Reached(w, run, n)
    ensures !WaitCycle(run[n], cycle)
  {
    ReachedOk(w, run, n);
    SoundIsInOrder(run[n]);
    NoCycleInOrder(run[n], cycle);
  }

  lemma NoCycleInOrder(s: Store, cycle: seq<nat>)
    requires InOrder(s)
    ensures !WaitCycle(s, cycle)
  {
    if |cycle| >= 2 && WaitCycle(s, cycle) {
      CycleClimbs(s, cycle, |cycle| - 1);
      WaitingClimbs(s, cycle[|cycle| - 1], cycle[0], cycle[1]);
    }
  }

  lemma {:induction false} Highest(s: Store, ids: set<nat>) returns (top: nat)
    requires ids != {}
    ensures top in ids && forall i :: i in ids ==> WaitRank(s, i) <= WaitRank(s, top)
    decreases |ids|
  {
    top :| top in ids;
    if ids != {top} {
      var other := Highest(s, ids - {top});
      if WaitRank(s, top) < WaitRank(s, other) {
        top := other;
      }
    }
  }

  /** In every reachable state with open transactions, some transaction waits for no document lock. */
  lemma SomebodyIsFree(w: World, run: seq<Store>, n: nat)
    requires Reached(w, run, n) && run[n].txs.Keys != {}
    ensures exists i :: i in run[n].txs && forall j :: !Waits(run[n], i, j)
  {
    var s := run[n];
    ReachedOk(w, run, n);
    SoundIsInOrder(s);
    var top := Highest(s, s.txs.Keys);
    if j :| Waits(s, top, j) {
      HolderIsFree(s, top, j);
    }
  }

  lemma HolderIsFree(s: Store, top: nat, j: nat)
    requires InOrder(s) && Waits(s, top, j) && WaitRank(s, j) <= WaitRank(s, top)
    ensures j in s.txs && forall k :: !Waits(s, j, k)
  {
    forall k
      ensures !Waits(s, j, k)
    {
      if Waits(s, j, k) {
        WaitingClimbs(s, top, j, k);
      }
    }
  }
}
