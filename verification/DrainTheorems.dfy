/** Draining the queue ends in agreement with the informer's cache. */
module DrainTheorems {
  import Names
  import opened ServiceSync
  import opened ServiceRuns
  import opened BatchInvariant
  import opened CoreInvariant
  import opened Convergence
  import ServiceInvariant
  import opened ServiceTheorems
  import Drain

  /** A quiet step in which no lookup fails. */
  ghost predicate SmoothStep(c: Settings, s: State, s': State, step: Step) {
    Drain.QuietStep(c, s, s', step) && step != Read(true)
  }

  ghost predicate Smooth(c: Settings, s: State, s': State) {
    exists step :: SmoothStep(c, s, s', step)
  }

  ghost predicate SmoothPath(c: Settings, path: seq<State>) {
    |path| > 0 && forall i :: 0 <= i < |path| - 1 ==> Smooth(c, path[i], path[i + 1])
  }

  /** No event is outstanding, and no key waits, is stuck or is about to be requeued. */
  ghost predicate Undisturbed(s: State) {
    && s.notice == Names.None && s.queue.waiting == {} && s.stuck == {}
    && (s.worker.Busy? ==>
          && s.worker.pc != Marking(false) && s.worker.pc != Requeueing
          && (s.worker.pc == Leaving ==> s.worker.batch.started))
  }

  lemma SmoothKeeps(c: Settings, s: State, s': State, step: Step)
    requires Undisturbed(s) && Books(c, s) && KeysOk(s) && SmoothStep(c, s, s', step)
    ensures Undisturbed(s')
  {
    hide Accounts;
    hide LogOk;
    hide Distinct;
    hide Delivered;
    hide Hand;
    hide SyncKey;
    hide QueueKeysOk;
    hide ListerOk;
    hide KeyOk;
    hide ServiceOk;
    hide Names.SplitMetaKey;
    if step.Read? {
      var b := s.worker.batch;
      assert KeyOk(b.keys[|b.marks|]);
      var _, _ := KeyParts(b.keys[|b.marks|]);
    }
  }

  lemma ReachableNext(c: Settings, s: State, s': State)
    requires Reachable(c, s) && Next(c, s, s')
    ensures Reachable(c, s')
  {
    LeadsSelf(c, s);
    hide Leads;
    hide Reachable;
    var step :| NextStep(c, s, s', step);
    LeadsStep(c, s, s, s', step);
    LeadsReachable(c, s, s');
  }

  lemma {:induction false} SmoothRun(c: Settings, path: seq<State>, n: nat)
    requires SmoothPath(c, path) && n < |path| && Reachable(c, path[0]) && Undisturbed(path[0])
    ensures Reachable(c, path[n]) && Undisturbed(path[n])
  {
    hide Reachable;
    hide Undisturbed;
    hide NextStep;
    if n > 0 {
      SmoothRun(c, path, n - 1);
      var s, s' := path[n - 1], path[n];
      assert Smooth(c, s, s');
      var step :| SmoothStep(c, s, s', step);
      assert Next(c, s, s');
      ServiceInvariant.ReachableInv(c, s);
      assert Books(c, s) && KeysOk(s) by { InvBooks(c, s); }
      SmoothKeeps(c, s, s', step);
      ReachableNext(c, s, s');
    }
  }

  lemma InvBooks(c: Settings, s: State)
    requires ServiceInvariant.Inv(c, s)
    ensures Books(c, s) && KeysOk(s)
  {
  }

  /** With an idle worker and nothing in line, nothing is pending at all. */
  lemma NothingPending(c: Settings, s: State)
    requires Books(c, s) && Undisturbed(s) && s.worker == Idle && s.queue.order == []
    ensures s.queue.dirty == {} && s.queue.processing == {}
  {
    hide LogOk;
    hide Delivered;
    assert InHand(s.worker) == {};
    assert forall k :: k in s.queue.dirty ==> k in s.queue.order;
  }

  /** Draining converges: a queue that is drained from any reachable state in which no
      event is outstanding and no key waits or is stuck, by a worker whose transactions
      open and whose lookups succeed, leaves no mapping of an absent service, and every
      target port mapped of each allowed service whose last synchronisation had no
      failure. */
  lemma DrainConverges(c: Settings, path: seq<State>)
    requires SmoothPath(c, path) && Reachable(c, path[0]) && Undisturbed(path[0])
    requires path[|path| - 1].worker == Idle && path[|path| - 1].queue.order == []
    ensures var s := path[|path| - 1];
            forall j :: j in s.core.table ==> KeyOf(s.core.table[j]) in s.lister
    ensures var s := path[|path| - 1];
            forall key ::
              key in s.lister && s.lister[key].ns in c.namespaces && Usable(s.lister[key]) && key !in s.core.failed
              ==> Complete(c, s.core.table, s.lister[key])
  {
    hide Reachable;
    hide Smooth;
    hide Complete;
    hide Usable;
    hide KeyOf;
    var s := path[|path| - 1];
    SmoothRun(c, path, |path| - 1);
    ServiceInvariant.ReachableInv(c, s);
    assert Books(c, s) by { InvBooks(c, s); }
    NothingPending(c, s);
    hide Books;
    Quiescent(c, s);
  }
}
