/** What holds of the table, the ledger and HAProxy in every reachable state. */
module ServiceTheorems {
  import opened Names
  import HaproxyStore
  import opened ServiceSync
  import opened PortLedger
  import opened ProxyAgreement
  import opened ServiceRuns
  import opened BatchInvariant
  import opened CoreInvariant
  import opened Convergence
  import opened StaleReads
  import opened ServiceInvariant

  // ---- ledger and table ----

  /** Ledger agreement and conservation, in every state of every run in every
      environment: a port is taken exactly when a mapping uses it, no two mappings
      share a port, all ports lie in the range, free ports and mappings add up to
      the size of the range, and an allocation fails exactly when the table is full. */
  lemma LedgerAgreement(c: Settings, s: State)
    requires Reachable(c, s) && c.first <= c.last
    ensures forall p :: Taken(s.core.ledger, p) <==> Mapped(s.core.table, p)
    ensures forall k, k' :: k in s.core.table && k' in s.core.table && k != k'
              ==> s.core.table[k].mappedPort != s.core.table[k'].mappedPort
    ensures forall k :: k in s.core.table ==> c.first <= s.core.table[k].mappedPort <= c.last
    ensures FreeBelow(s.core.ledger, c.first, c.last + 1) + |s.core.table| == c.last - c.first + 1
    ensures FirstFree(s.core.ledger, c.first, c.last) == None <==> |s.core.table| == c.last - c.first + 1
  {
    hide Reachable;
    hide Books;
    hide KeysOk;
    hide Proxied;
    hide Converging;
    hide Untouched;
    hide Unapplied;
    hide Named;
    ReachableInv(c, s);
    Conservation(c, s.core);
  }

  lemma {:induction false} PeakIsLargest(c: Settings, path: seq<State>, n: nat, largest: nat)
    requires IsRun(c, path) && n < |path|
    requires forall i :: 0 <= i <= n ==> |path[i].core.table| <= largest
    ensures |path[n].core.table| <= path[n].core.peak <= largest
  {
    hide Next;
    if n > 0 {
      PeakIsLargest(c, path, n - 1, largest);
      NextPeak(c, path[n - 1], path[n]);
    }
  }

  /** First-fit high-water bound: no mapped port exceeds first + M - 1, where M is the
      largest number of simultaneous mappings the run has reached. */
  lemma HighWaterBound(c: Settings, path: seq<State>, n: nat, largest: nat, k: string)
    requires IsRun(c, path) && n < |path| && k in path[n].core.table
    requires forall i :: 0 <= i <= n ==> |path[i].core.table| <= largest
    ensures path[n].core.table[k].mappedPort <= c.first + largest - 1
  {
    hide Next;
    hide Initial;
    hide Books;
    hide KeysOk;
    hide Proxied;
    hide Converging;
    hide Untouched;
    hide Unapplied;
    hide Named;
    hide DistinctPorts;
    hide Agree;
    RunInv(c, path, n);
    PeakIsLargest(c, path, n, largest);
  }

  // ---- HAProxy and table ----

  /** The backend has a server whose address is the host and the port. */
  ghost predicate HasAddress(cfg: HaproxyStore.Config, backend: string, host: string, port: int) {
    backend in cfg.backends && exists s :: s in cfg.backends[backend] && IsAddress(cfg.backends[backend][s], host, port)
  }

  lemma ServedAddress(cfg: HaproxyStore.Config, m: Mapping)
    requires BackendServes(cfg, m)
    ensures HasAddress(cfg, m.backendName, m.clusterIP, m.servicePort)
  {
    hide ServerName;
    ServerNameReads(m.clusterIP, m.servicePort);
    assert ServerName(m.clusterIP, m.servicePort) in cfg.backends[m.backendName];
  }

  /** Refinement: in a clean run, whenever no transaction is open, each mapping has
      a committed frontend bound to its port whose default backend has a server at
      the mapping's cluster IP and service port, and each service frontend belongs to
      exactly one mapping. */
  lemma CommittedServesTable(c: Settings, s: State)
    requires Reachable(c, s) && s.core.store.clean && s.core.store.staged == None
    ensures forall k :: k in s.core.table ==>
              FrontendServes(s.core.store.committed, s.core.table[k]) && BackendServes(s.core.store.committed, s.core.table[k])
    ensures forall k :: k in s.core.table ==>
              var m := s.core.table[k]; HasAddress(s.core.store.committed, m.backendName, m.clusterIP, m.servicePort)
    ensures forall f :: f in s.core.store.committed.frontends && IsSvcFrontend(f) ==>
              exists k :: k in s.core.table && s.core.table[k].frontendName == f
                          && forall k' :: k' in s.core.table && s.core.table[k'].frontendName == f ==> k' == k
  {
    hide Reachable;
    hide Books;
    hide KeysOk;
    hide Converging;
    hide Untouched;
    hide Unapplied;
    hide Named;
    hide Agree;
    hide InRange;
    hide UnderPeak;
    hide FrontendServes;
    hide BackendServes;
    hide IsSvcFrontend;
    hide DistinctPorts;
    hide AllUnique;
    hide Unshared;
    hide UniqueBinds;
    hide Closed;
    hide Owned;
    ReachableInv(c, s);
    var table, cfg := s.core.table, s.core.store.committed;
    forall k | k in table ensures HasAddress(cfg, table[k].backendName, table[k].clusterIP, table[k].servicePort) {
      ServedAddress(cfg, table[k]);
    }
    forall f | f in cfg.frontends && IsSvcFrontend(f)
      ensures exists k :: k in table && table[k].frontendName == f
                          && forall k' :: k' in table && table[k'].frontendName == f ==> k' == k
    {
      OneOwner(table, cfg, {}, f);
    }
  }

  /** Bind uniqueness and referential closure: in a clean run no configuration that
      was ever staged, at any intermediate step, has two service frontends on one
      port, and neither has any committed configuration; as long as no two mappings
      have used one backend, every staged configuration also has all default
      backends, and the committed configuration and, between synchronisations, the
      staged one have them in any case. */
  lemma ConfigurationSound(c: Settings, s: State, i: nat)
    requires Reachable(c, s) && s.core.store.clean && i < |s.core.store.trail|
    ensures UniqueBinds(s.core.store.trail[i]) && (!s.core.shared ==> Closed(s.core.store.trail[i]))
    ensures UniqueBinds(s.core.store.committed) && Closed(s.core.store.committed)
    ensures s.core.store.staged.Some? ==> Closed(s.core.store.staged.value)
  {
    hide Reachable;
    hide Books;
    hide KeysOk;
    hide Converging;
    hide Untouched;
    hide Unapplied;
    hide Consistent;
    hide Serves;
    hide UniqueBinds;
    hide Closed;
    ReachableInv(c, s);
    if s.core.store.staged.Some? { ServesClosed(s.core.table, s.core.store.staged.value); }
  }

  /** Referential closure of a removal in a run: when a clean synchronisation finds a
      service gone, every configuration it stages has all default backends if and only
      if the service's mappings in the table have pairwise distinct service ports. */
  lemma RemovalInRun(c: Settings, s: State, s': State, keys: seq<string>)
    requires Reachable(c, s) && ApplyStep(c, s, s', keys) && s.worker.pc == Applying(None)
    requires s'.core.store.clean
    ensures forall k :: k in keys ==> k in s.core.table
    ensures AllClosed(StagedBy(s.core, s'.core)) <==> DistinctServicePorts(keys, s.core.table)
  {
    hide Reachable;
    hide Books;
    hide QueueKeysOk;
    hide ListerOk;
    hide KeyOk;
    hide Converging;
    hide Untouched;
    hide Unapplied;
    hide Consistent;
    hide Serves;
    hide UniqueBinds;
    hide Closed;
    hide AllUnique;
    hide AllClosed;
    hide Unshared;
    hide DistinctServicePorts;
    hide SplitMetaKey;
    hide ServicePrefix;
    hide IsLabel;
    hide MetaKey;
    hide RemoveListed;
    ReachableInv(c, s);
    var key := s.worker.batch.keys[|s.worker.batch.marks|];
    SyncKeyWasClean(c, s.core, key, None, keys, s'.core);
    var ns, name := KeyParts(key);
    RemovalClosure(c, s.core, keys, ns, name);
  }

  // ---- convergence ----

  predicate Pending(s: State, key: string) { Fresh(s, key) || key in s.queue.processing }

  lemma AheadIsProcessing(c: Settings, s: State, key: string)
    requires Books(c, s) && Ahead(s, key)
    ensures key in s.queue.processing
  {
    hide LogOk;
    hide Delivered;
    hide Distinct;
    if key !in s.stuck {
      var b := s.worker.batch;
      assert key in b.keys;
    }
  }

  lemma NotPendingSettled(c: Settings, s: State, key: string)
    requires Reachable(c, s) && !Pending(s, key)
    ensures Settled(c, s.core, Lookup(s.lister, key), key)
  {
    hide Reachable;
    hide Books;
    hide KeysOk;
    hide Proxied;
    hide Untouched;
    hide Unapplied;
    hide Consistent;
    hide Ahead;
    hide Settled;
    ReachableInv(c, s);
    if Ahead(s, key) { AheadIsProcessing(c, s, key); }
    assert Awaited(s, key) || Settled(c, s.core, Lookup(s.lister, key), key);
  }

  /** Deletion convergence, in any environment: the service of every mapping is in
      the informer's cache, or its key is dirty, waiting, being processed or about
      to be added by the informer. */
  lemma DeletionConvergence(c: Settings, s: State, j: string)
    requires Reachable(c, s) && j in s.core.table
    ensures KeyOf(s.core.table[j]) in s.lister || Pending(s, KeyOf(s.core.table[j]))
  {
    hide Reachable;
    hide Pending;
    hide MetaKey;
    if !Pending(s, KeyOf(s.core.table[j])) { NotPendingSettled(c, s, KeyOf(s.core.table[j])); }
  }

  /** Only ports of allowed services are exposed: every mapping is for an allowed
      namespace, a target port name and a usable cluster IP. */
  lemma OnlyAdmitted(c: Settings, s: State, j: string)
    requires Reachable(c, s) && j in s.core.table
    ensures s.core.table[j].ns in c.namespaces && (c.portNames == {} || s.core.table[j].portName in c.portNames)
    ensures s.core.table[j].clusterIP != "" && s.core.table[j].clusterIP != "None"
  {
    hide Reachable;
    hide Books;
    hide KeysOk;
    hide Proxied;
    hide Converging;
    hide Untouched;
    hide Unapplied;
    hide Consistent;
    ReachableInv(c, s);
  }

  /** Completeness convergence: every allowed service in the cache with a usable cluster
      IP has all its target ports mapped, or its key is pending, unless an allocation or
      a creation for this very service failed when it was last synchronised. */
  lemma CompletenessConvergence(c: Settings, s: State, key: string)
    requires Reachable(c, s) && key !in s.core.failed && key in s.lister
    requires s.lister[key].ns in c.namespaces && Usable(s.lister[key])
    ensures Pending(s, key) || Complete(c, s.core.table, s.lister[key])
  {
    hide Reachable;
    hide Pending;
    hide Complete;
    if !Pending(s, key) { NotPendingSettled(c, s, key); }
  }

  /** When nothing is pending the table holds no mapping of an absent service, and every
      mapping of each present service whose last synchronisation had no failure. */
  lemma Quiescent(c: Settings, s: State)
    requires Reachable(c, s) && s.notice == None && s.queue.dirty == {} && s.queue.waiting == {} && s.queue.processing == {}
    ensures forall j :: j in s.core.table ==> KeyOf(s.core.table[j]) in s.lister
    ensures forall key ::
              key in s.lister && s.lister[key].ns in c.namespaces && Usable(s.lister[key]) && key !in s.core.failed
              ==> Complete(c, s.core.table, s.lister[key])
    ensures forall key, i ::
              && key in s.lister && s.lister[key].ns in c.namespaces && key !in s.core.failed
              && s.lister[key].clusterIP != "" && s.lister[key].clusterIP != "None" && 0 <= i < |s.lister[key].ports|
              && (c.portNames == {} || s.lister[key].ports[i].name in c.portNames)
              ==> MappingKey(s.lister[key].ns, s.lister[key].name, s.lister[key].ports[i].name) in s.core.table
  {
    hide Reachable;
    hide MetaKey;
    hide MappingKey;
    forall j | j in s.core.table ensures KeyOf(s.core.table[j]) in s.lister { DeletionConvergence(c, s, j); }
    forall key | key in s.lister && s.lister[key].ns in c.namespaces && Usable(s.lister[key]) && key !in s.core.failed
      ensures Complete(c, s.core.table, s.lister[key])
    {
      CompletenessConvergence(c, s, key);
    }
  }

  // ---- stability ----

  /** A synchronisation that found this service gone is about to change the table. */
  predicate RemovalDue(s: State, key: string) {
    s.worker.Busy? && s.worker.pc == Applying(None) && |s.worker.batch.marks| < |s.worker.batch.keys|
    && s.worker.batch.keys[|s.worker.batch.marks|] == key
  }

  lemma StepKeepsMapping(c: Settings, s: State, s': State, j: string)
    requires Inv(c, s) && Next(c, s, s') && j in s.core.table && !RemovalDue(s, KeyOf(s.core.table[j]))
    ensures j in s'.core.table && s'.core.table[j] == s.core.table[j]
  {
    hide Books;
    hide Proxied;
    hide Converging;
    hide Untouched;
    hide Unapplied;
    hide Named;
    hide InRange;
    hide DistinctPorts;
    hide Agree;
    hide UnderPeak;
    hide SyncKey;
    hide SplitMetaKey;
    hide ServiceOk;
    hide MetaKey;
    hide KeyOk;
    hide QueueKeysOk;
    hide ListerOk;
    var step :| NextStep(c, s, s', step);
    if step.Apply? {
      var b := s.worker.batch;
      ApplyKeepsMapping(c, s.core, b.keys[|b.marks|], s.worker.pc.seen, step.keys, s'.core, j);
    }
  }

  lemma ApplyKeepsMapping(c: Settings, core: Core, key: string, seen: Option<Service>, keys: seq<string>, core': Core, j: string)
    requires core.store.staged.Some? && Named(core.table) && KeyOk(key) && SplitMetaKey(key).Some?
    requires seen.Some? ==> ServiceOk(key, seen.value)
    requires SyncKey(c, core, key, seen, keys, core')
    requires j in core.table && (seen.Some? || KeyOf(core.table[j]) != key)
    ensures j in core'.table && core'.table[j] == core.table[j]
  {
    hide Named;
    hide ServiceOk;
    hide KeyOk;
    hide SplitMetaKey;
    hide MetaKey;
    hide Lists;
    hide RemoveListed;
    hide ProcessService;
    if seen.Some? {
      SyncPresent(c, core, key, seen.value);
    } else {
      SyncKeySettles(c, core, key, seen, keys, core');
    }
  }

  /** Port stability: a mapping keeps its port and all its names until a
      synchronisation finds its service absent. */
  lemma {:induction false} PortStability(c: Settings, path: seq<State>, i: nat, n: nat, j: string)
    requires IsRun(c, path) && i <= n < |path| && j in path[i].core.table
    requires forall t :: i <= t < n ==> !RemovalDue(path[t], KeyOf(path[i].core.table[j]))
    ensures j in path[n].core.table && path[n].core.table[j] == path[i].core.table[j]
  {
    hide Next;
    hide Inv;
    hide RemovalDue;
    hide MetaKey;
    hide Initial;
    if i < n {
      PortStability(c, path, i, n - 1, j);
      RunInv(c, path, n - 1);
      StepKeepsMapping(c, path[n - 1], path[n], j);
    }
  }

  /** Synchronising a service whose target ports are all mapped changes neither table
      nor ledger and makes no request; it only settles that the service has no failure. */
  lemma ResyncIsIdle(c: Settings, core: Core, svc: Service)
    requires core.store.staged.Some? && Complete(c, core.table, svc)
    ensures ProcessService(c, core, svc) == if Usable(svc) then Retried(core, svc) else core
  {
    PassIsIdle(c, Retried(core, svc), svc, |svc.ports|);
  }

  lemma {:induction false} PassIsIdle(c: Settings, core: Core, svc: Service, n: nat)
    requires core.store.staged.Some? && Complete(c, core.table, svc) && n <= |svc.ports|
    ensures SyncPorts(c, core, svc, n) == core
  {
    hide CreateProxy;
    hide MappingKey;
    hide NewMapping;
    hide FirstFree;
    if n > 0 { PassIsIdle(c, core, svc, n - 1); }
  }
}
