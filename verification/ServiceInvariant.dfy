/** The invariant of the service controller's runs. */
module ServiceInvariant {
  import opened Names
  import opened ServiceSync
  import opened PortLedger
  import opened ServiceRuns
  import opened BatchInvariant
  import opened CoreInvariant
  import opened Convergence
  import opened StaleReads

  // ---- a batch in which nothing succeeded ----

  predicate NothingApplied(b: Batch, pc: Pc) { true !in b.marks && pc != Marking(true) }

  /** As long as no key of the batch has been synchronised, the table, the ledger and
      the store are as they were when the transaction was opened. */
  ghost predicate Unapplied(s: State) {
    s.worker.Busy? && InTransaction(s.worker.pc) && NothingApplied(s.worker.batch, s.worker.pc) ==>
      s.core == s.worker.batch.base && s.core.store.staged == Some(s.core.store.committed)
  }

  lemma NextUnapplied(c: Settings, s: State, s': State)
    requires Unapplied(s) && Next(c, s, s')
    ensures Unapplied(s')
  {
    hide SyncKey;
    hide SplitMetaKey;
    hide ServiceOk;
    hide Changed;
    hide NoticeOf;
    hide Notified;
    hide Tail;
    var step :| NextStep(c, s, s', step);
    match step
    case Open(_) =>
    case Apply(_) =>
    case Mark =>
    case Read(_) =>
    case Close(_) =>
    case _ => OtherUnapplied(c, s, s', step);
  }

  lemma OtherUnapplied(c: Settings, s: State, s': State, step: Step)
    requires Unapplied(s) && NextStep(c, s, s', step)
    requires !step.Open? && !step.Apply? && !step.Mark? && !step.Read? && !step.Close?
    ensures Unapplied(s')
  {
    hide Changed;
    hide NoticeOf;
    hide Notified;
    hide Tail;
    hide ServiceOk;
  }

  // ---- the largest size of the table ----

  /** `peak` is attained whenever the table grows past it. */
  ghost predicate PeakStep(core: Core, core': Core) {
    core'.peak == if |core'.table| > core.peak then |core'.table| else core.peak
  }

  lemma {:induction false} PassPeak(c: Settings, core: Core, svc: Service, n: nat)
    requires core.store.staged.Some? && n <= |svc.ports| && |core.table| <= core.peak
    ensures PeakStep(core, SyncPorts(c, core, svc, n)) && |core.table| <= |SyncPorts(c, core, svc, n).table|
  {
    hide SyncPort;
    hide MappingKey;
    hide NewMapping;
    hide FirstFree;
    hide Taken;
    if n > 0 {
      PassPeak(c, core, svc, n - 1);
      SyncPortShape(c, SyncPorts(c, core, svc, n - 1), svc, svc.ports[n - 1]);
    }
  }

  lemma {:induction false} RemovalShrinks(c: Settings, core: Core, keys: seq<string>, n: nat)
    requires core.store.staged.Some? && n <= |keys|
    ensures RemoveListed(c, core, keys, n).peak == core.peak
    ensures forall k :: k in RemoveListed(c, core, keys, n).table ==> k in core.table
  {
    hide RemoveMapping;
    if n > 0 { RemovalShrinks(c, core, keys, n - 1); }
  }

  lemma Fewer(part: set<string>, all: set<string>)
    requires part <= all
    ensures |part| <= |all|
  {
    assert all == part + (all - part);
  }

  lemma SmallerTable(now: map<string, Mapping>, table: map<string, Mapping>)
    requires forall k :: k in now ==> k in table
    ensures |now| <= |table|
  {
    Fewer(now.Keys, table.Keys);
  }

  lemma RemovalPeak(c: Settings, core: Core, keys: seq<string>)
    requires core.store.staged.Some?
    ensures var now := RemoveListed(c, core, keys, |keys|); now.peak == core.peak && |now.table| <= |core.table|
  {
    hide RemoveListed;
    RemovalShrinks(c, core, keys, |keys|);
    SmallerTable(RemoveListed(c, core, keys, |keys|).table, core.table);
  }

  lemma NextPeak(c: Settings, s: State, s': State)
    requires |s.core.table| <= s.core.peak && Next(c, s, s')
    ensures PeakStep(s.core, s'.core)
  {
    hide SyncPorts;
    hide RemoveListed;
    hide SplitMetaKey;
    hide ServiceOk;
    hide Lists;
    var step :| NextStep(c, s, s', step);
    if step.Apply? {
      match s.worker.pc.seen
      case None => RemovalPeak(c, s.core, step.keys);
      case Some(svc) => PassPeak(c, Retried(s.core, svc), svc, |svc.ports|);
    }
  }

  // ---- what is admitted to the table ----

  /** Mappings exist only for allowed namespaces, target ports and usable cluster IPs. */
  ghost predicate Admitted(c: Settings, table: map<string, Mapping>) {
    forall j :: j in table ==>
      && table[j].ns in c.namespaces && c.IsTarget(table[j].portName)
      && table[j].clusterIP != "" && table[j].clusterIP != "None"
  }

  lemma {:induction false} RemovalAdmits(c: Settings, core: Core, keys: seq<string>, n: nat)
    requires core.store.staged.Some? && n <= |keys| && Admitted(c, core.table)
    ensures Admitted(c, RemoveListed(c, core, keys, n).table)
  {
    hide RemoveMapping;
    if n > 0 { RemovalAdmits(c, core, keys, n - 1); }
  }

  lemma NextAdmits(c: Settings, s: State, s': State)
    requires Admitted(c, s.core.table) && Next(c, s, s')
    ensures Admitted(c, s'.core.table)
  {
    hide MappingKey;
    hide Changed;
    hide NoticeOf;
    hide Notified;
    hide Tail;
    hide SyncPorts;
    hide RemoveListed;
    hide SplitMetaKey;
    hide ServiceOk;
    hide Lists;
    var step :| NextStep(c, s, s', step);
    if step.Apply? {
      match s.worker.pc.seen
      case None => RemovalAdmits(c, s.core, step.keys, |step.keys|);
      case Some(svc) => PassFrame(c, Retried(s.core, svc), svc, |svc.ports|);
    }
  }

  // ---- the invariant ----

  ghost predicate Inv(c: Settings, s: State) {
    && Books(c, s) && KeysOk(s) && Consistent(c, s.core) && Proxied(s.core)
    && Converging(c, s) && Untouched(s) && Unapplied(s) && Admitted(c, s.core.table)
  }

  lemma InitialInv(c: Settings, s: State)
    requires Initial(s)
    ensures Inv(c, s)
  {
    hide IsSvcFrontend;
    assert InHand(s.worker) == {};
    assert Consistent(c, s.core);
    assert Proxied(s.core);
    assert Converging(c, s);
  }

  lemma NextInv(c: Settings, s: State, s': State)
    requires Inv(c, s) && Next(c, s, s')
    ensures Inv(c, s')
  {
    hide Next;
    hide Accounts;
    hide LogOk;
    hide KeysOk;
    hide Converging;
    hide Untouched;
    hide Proxied;
    hide Named;
    hide InRange;
    hide DistinctPorts;
    hide Agree;
    hide UnderPeak;
    hide Admitted;
    NextKeepsBooks(c, s, s');
    NextKeepsKeys(c, s, s');
    NextKeepsLedger(c, s, s');
    NextKeepsProxied(c, s, s');
    NextConverges(c, s, s');
    NextUntouched(c, s, s');
    NextUnapplied(c, s, s');
    NextAdmits(c, s, s');
  }

  lemma {:induction false} RunInv(c: Settings, path: seq<State>, n: nat)
    requires IsRun(c, path) && n < |path|
    ensures Inv(c, path[n])
  {
    hide Next;
    hide Inv;
    if n == 0 {
      InitialInv(c, path[0]);
    } else {
      RunInv(c, path, n - 1);
      NextInv(c, path[n - 1], path[n]);
    }
  }

  lemma ReachableInv(c: Settings, s: State)
    requires Reachable(c, s)
    ensures Inv(c, s)
  {
    hide Inv;
    hide Next;
    hide Initial;
    var path :| IsRun(c, path) && path[|path| - 1] == s;
    RunInv(c, path, |path| - 1);
  }
}
