/** What holds of the batches and the work queue in every reachable state. */
module BatchTheorems {
  import Names
  import opened ServiceSync
  import opened PortLedger
  import opened ServiceRuns
  import opened BatchInvariant
  import opened CoreInvariant
  import opened Convergence
  import opened StaleReads
  import opened ServiceInvariant

  /** Discard loses nothing: when the transaction is discarded, the table, the ledger
      and the store are exactly as when it was opened, and nothing was staged. */
  lemma DiscardLosesNothing(c: Settings, s: State, s': State, ok: bool)
    requires Reachable(c, s) && CloseStep(s, s', ok) && true !in s.worker.batch.marks
    ensures s.core == s.worker.batch.base && s.core.store.staged == Names.Some(s.core.store.committed)
    ensures s'.core == s.worker.batch.base.(store := s.worker.batch.base.store.(staged := Names.None))
  {
    hide Reachable;
    hide Books;
    hide KeysOk;
    hide Proxied;
    hide Converging;
    hide Untouched;
    hide Consistent;
    ReachableInv(c, s);
  }

  /** Every batch is a duplicate-free stretch of the queue: the keys of all batches,
      in order, followed by the queue are exactly the keys that were ever queued. */
  lemma BatchesAreFifo(c: Settings, s: State)
    requires Reachable(c, s)
    ensures s.queue.entered == Delivered(s.log) + Current(s.worker) + s.queue.order
    ensures s.worker.Busy? ==>
              0 < |s.worker.batch.keys| && (|s.worker.batch.keys| > 1 ==> |s.worker.batch.keys| <= c.maxBatch) && Distinct(s.worker.batch.keys)
    ensures forall i, j :: 0 <= i < j < |s.queue.order| ==> s.queue.order[i] != s.queue.order[j]
  {
    hide Reachable;
    hide KeysOk;
    hide Proxied;
    hide Converging;
    hide Untouched;
    hide Unapplied;
    hide Consistent;
    hide LogOk;
    hide Hand;
    hide Delivered;
    ReachableInv(c, s);
  }

  /** A finished batch requeued or forgot each of its keys exactly once. If its
      transaction was opened it released each of them exactly once; otherwise it
      requeued all of them and released only the first. The keys never released are
      exactly those in processing while the worker is idle, |keys| - 1 for each batch
      whose transaction could not be opened. */
  lemma BatchBookkeeping(c: Settings, s: State, i: nat)
    requires Reachable(c, s) && i < |s.log|
    ensures var b := s.log[i];
            && 0 < |b.keys| <= Limit(c) && Distinct(b.keys) && |b.marks| == |b.keys|
            && multiset(b.released) == (if b.started then multiset(b.keys) else multiset{b.keys[0]})
            && (!b.started ==> true !in b.marks)
    ensures |s.stuck| == Unreleased(s.log)
    ensures s.worker.Idle? ==> s.queue.processing == s.stuck
    ensures s.stuck <= s.queue.processing && forall k :: k in s.stuck ==> k !in s.queue.order
  {
    hide Reachable;
    hide KeysOk;
    hide Proxied;
    hide Converging;
    hide Untouched;
    hide Unapplied;
    hide Consistent;
    hide Delivered;
    hide Unreleased;
    hide BatchOk;
    ReachableInv(c, s);
    var b := s.log[i];
    assert Finished(c, b);
    if b.started { assert b.keys == [b.keys[0]] + b.keys[1..]; }
  }

  /** A key left in processing by a batch that could not open its transaction stays
      there for the rest of the run, so it is never handed out again. */
  lemma {:induction false} StuckForever(c: Settings, path: seq<State>, i: nat, n: nat, k: string)
    requires IsRun(c, path) && i <= n < |path| && k in path[i].stuck
    ensures k in path[n].stuck && k in path[n].queue.processing && k !in path[n].queue.order
  {
    hide Next;
    hide Inv;
    hide Initial;
    RunInv(c, path, n);
    StuckIsProcessing(c, path[n]);
    if i < n {
      StuckForever(c, path, i, n - 1, k);
      StuckStep(c, path[n - 1], path[n], k);
    }
  }

  lemma StuckIsProcessing(c: Settings, s: State)
    requires Inv(c, s)
    ensures forall k :: k in s.stuck ==> k in s.queue.processing && k !in s.queue.order
  {
    hide KeysOk;
    hide Proxied;
    hide Converging;
    hide Untouched;
    hide Unapplied;
    hide Consistent;
    hide Delivered;
    hide LogOk;
    hide BatchOk;
  }

  lemma StuckStep(c: Settings, s: State, s': State, k: string)
    requires Next(c, s, s') && k in s.stuck
    ensures k in s'.stuck
  {
    hide SyncKey;
    hide Names.SplitMetaKey;
    hide ServiceOk;
    var step :| NextStep(c, s, s', step);
  }

  /** Between the check of the queue's length and the Get that follows it the queue
      cannot become empty, so the inner Get never blocks. */
  lemma InnerGetNeverBlocks(c: Settings, s: State)
    requires Reachable(c, s) && s.worker.Busy? && s.worker.pc == Taking
    ensures |s.queue.order| > 0
  {
    hide Reachable;
    hide KeysOk;
    hide Proxied;
    hide Converging;
    hide Untouched;
    hide Unapplied;
    hide Consistent;
    hide Accounts;
    hide LogOk;
    ReachableInv(c, s);
  }
}
