/** What every synchronisation step of every run keeps: the ledger's agreement with
    the table in any environment, and the proxies' agreement with the table in a
    clean one. */
module CoreInvariant {
  import opened Names
  import opened ServiceSync
  import opened PortLedger
  import opened ProxyAgreement
  import WorkQueue
  import opened ServiceRuns

  // ---- keys ----

  ghost predicate KeyOk(k: string) {
    exists ns, name :: IsLabel(ns) && IsLabel(name) && k == MetaKey(ns, name)
  }

  ghost predicate QueueKeysOk(q: WorkQueue.Queue<string>) {
    && (forall k :: k in q.order ==> KeyOk(k))
    && (forall k :: k in q.dirty ==> KeyOk(k))
    && (forall k :: k in q.waiting ==> KeyOk(k))
  }

  ghost predicate BatchKeysOk(b: Batch, pc: Pc) {
    && (forall i :: 0 <= i < |b.keys| ==> KeyOk(b.keys[i]))
    && (pc.Applying? && pc.seen.Some? ==> |b.marks| < |b.keys| && ServiceOk(b.keys[|b.marks|], pc.seen.value))
  }

  ghost predicate ListerOk(lister: map<string, Service>) {
    forall k :: k in lister ==> ServiceOk(k, lister[k])
  }

  ghost predicate KeysOk(s: State) {
    && ListerOk(s.lister) && QueueKeysOk(s.queue)
    && (s.notice.Some? ==> KeyOk(s.notice.value.Key()))
    && (s.worker.Busy? ==> BatchKeysOk(s.worker.batch, s.worker.pc))
  }

  lemma KeyParts(k: string) returns (ns: string, name: string)
    requires KeyOk(k)
    ensures IsLabel(ns) && IsLabel(name) && k == MetaKey(ns, name) && SplitMetaKey(k) == Some((ns, name))
  {
    ns, name :| IsLabel(ns) && IsLabel(name) && k == MetaKey(ns, name);
    MetaKeyRoundTrip(ns, name);
  }

  lemma QueueKeys(q: WorkQueue.Queue<string>, k: string)
    requires QueueKeysOk(q)
    ensures KeyOk(k) ==> QueueKeysOk(q.Add(k)) && QueueKeysOk(q.AddRateLimited(k))
    ensures k in q.waiting ==> QueueKeysOk(q.Fire(k))
    ensures QueueKeysOk(q.Done(k))
    ensures |q.order| > 0 ==> QueueKeysOk(q.Get()) && KeyOk(q.order[0])
  {
    hide KeyOk;
  }

  lemma ChangedKeys(s: State, key: string, svc: Option<Service>)
    requires ListerOk(s.lister) && if svc.Some? then ServiceOk(key, svc.value) else key in s.lister
    ensures ListerOk(Changed(s.lister, key, svc))
    ensures NoticeOf(s.lister, key, svc).Key() == key && KeyOk(key)
  {
    hide IsLabel;
    hide MetaKey;
  }

  lemma ReadKeys(s: State, fails: bool, s': State)
    requires KeysOk(s) && ReadStep(s, s', fails)
    ensures KeysOk(s')
  {
    hide KeyOk;
    hide QueueKeysOk;
    hide SplitMetaKey;
    hide ServiceOk;
  }

  lemma MarkKeys(s: State, s': State)
    requires KeysOk(s) && (RequeueStep(s, s') || MarkStep(s, s'))
    ensures KeysOk(s')
  {
    hide KeyOk;
    hide QueueKeysOk;
    hide ServiceOk;
    hide ListerOk;
    QueueKeys(s.queue, s.worker.batch.keys[|s.worker.batch.marks|]);
  }

  lemma ReleaseKeys(s: State, s': State)
    requires KeysOk(s) && (FinishStep(s, s') || LeaveStep(s, s'))
    ensures KeysOk(s')
  {
    hide KeyOk;
    hide QueueKeysOk;
    hide ServiceOk;
    hide ListerOk;
    var b := s.worker.batch;
    if s.worker.pc == Finishing {
      if |b.released| + 1 < |b.keys| { QueueKeys(s.queue, b.keys[|b.released| + 1]); }
    } else {
      QueueKeys(s.queue, b.keys[0]);
    }
  }

  lemma NextKeepsKeys(c: Settings, s: State, s': State)
    requires KeysOk(s) && Next(c, s, s')
    ensures KeysOk(s')
  {
    hide KeyOk;
    hide QueueKeysOk;
    hide ListerOk;
    hide ServiceOk;
    hide SyncKey;
    hide RequeueStep;
    hide MarkStep;
    hide ReadStep;
    hide FinishStep;
    hide LeaveStep;
    var step :| NextStep(c, s, s', step);
    match step
    case Change(key, svc) => ChangedKeys(s, key, svc);
    case Notify => QueueKeys(s.queue, s.notice.value.Key());
    case Fire(key) => QueueKeys(s.queue, key);
    case Get => QueueKeys(s.queue, s.queue.order[0]);
    case Look =>
    case Take => QueueKeys(s.queue, s.queue.order[0]);
    case Open(_) =>
    case Requeue => MarkKeys(s, s');
    case Read(fails) => ReadKeys(s, fails, s');
    case Apply(_) =>
    case Mark => MarkKeys(s, s');
    case Finish => ReleaseKeys(s, s');
    case Close(_) =>
    case Leave => ReleaseKeys(s, s');
  }

  // ---- the ledger, in any environment ----

  lemma NextKeepsLedger(c: Settings, s: State, s': State)
    requires KeysOk(s) && Consistent(c, s.core) && Next(c, s, s')
    ensures Consistent(c, s'.core)
  {
    hide Named;
    hide InRange;
    hide DistinctPorts;
    hide Agree;
    hide UnderPeak;
    hide QueueKeysOk;
    hide ListerOk;
    hide KeyOk;
    hide SyncKey;
    hide SplitMetaKey;
    hide IsLabel;
    hide MetaKey;
    var step :| NextStep(c, s, s', step);
    if step.Apply? {
      var b := s.worker.batch;
      assert Consistent(c, s.core);
      SyncKeyKeeps(c, s.core, b.keys[|b.marks|], s.worker.pc.seen, step.keys, s'.core);
    } else {
      assert s'.core.table == s.core.table && s'.core.ledger == s.core.ledger && s'.core.peak == s.core.peak;
    }
  }

  // ---- the proxies, in a clean environment ----

  /** Nothing is shared so far: then no two mappings use one backend, and every
      configuration ever staged was closed. */
  ghost predicate Unshared(core: Core) {
    !core.shared ==> DistinctBackends(core.table) && AllClosed(core.store.trail)
  }

  lemma SyncPortUnshared(c: Settings, core: Core, svc: Service, port: ServicePort)
    requires core.store.staged.Some? && DistinctBackends(core.table)
    ensures var now := SyncPort(c, core, svc, port);
            (core.shared ==> now.shared) && (!now.shared ==> DistinctBackends(now.table))
  {
    hide CreateProxy;
    hide MappingKey;
    hide BackendName;
    hide FrontendName;
    hide BindName;
    hide FirstFree;
  }

  lemma {:induction false} SyncPortsUnshared(c: Settings, core: Core, svc: Service, n: nat)
    requires core.store.staged.Some? && n <= |svc.ports|
    ensures var now := SyncPorts(c, core, svc, n);
            (core.shared ==> now.shared) && (!now.shared && DistinctBackends(core.table) ==> DistinctBackends(now.table))
  {
    hide SyncPort;
    hide DistinctBackends;
    if n > 0 {
      SyncPortsUnshared(c, core, svc, n - 1);
      var before := SyncPorts(c, core, svc, n - 1);
      SyncPortShares(c, before, svc, svc.ports[n - 1]);
      if DistinctBackends(before.table) {
        SyncPortUnshared(c, before, svc, svc.ports[n - 1]);
      }
    }
  }

  lemma SyncPortShares(c: Settings, core: Core, svc: Service, port: ServicePort)
    requires core.store.staged.Some?
    ensures core.shared ==> SyncPort(c, core, svc, port).shared
  {
    hide CreateProxy;
    hide MappingKey;
    hide NewMapping;
    hide FirstFree;
    hide UsesBackend;
  }

  lemma {:induction false} RemovalSharesNothing(c: Settings, core: Core, keys: seq<string>, n: nat)
    requires core.store.staged.Some? && n <= |keys|
    ensures RemoveListed(c, core, keys, n).shared == core.shared
    ensures RemoveListed(c, core, keys, n).failed == core.failed
  {
    hide RemoveMapping;
    if n > 0 { RemovalSharesNothing(c, core, keys, n - 1); }
  }

  lemma SyncPresentClean(c: Settings, core: Core, svc: Service)
    requires core.store.staged.Some? && Consistent(c, core) && IsLabel(svc.ns) && IsLabel(svc.name)
    requires Healthy(core.table, core.store) && Unshared(core)
    requires ProcessService(c, core, svc).store.clean
    ensures var now := ProcessService(c, core, svc); Healthy(now.table, now.store) && Unshared(now)
  {
    hide Consistent;
    hide Healthy;
    hide IsLabel;
    hide SyncPorts;
    hide DistinctBackends;
    hide AllClosed;
    if Usable(svc) {
      RetriedKeeps(c, core, svc);
      SyncPortsClean(c, Retried(core, svc), svc, |svc.ports|);
      SyncPortsUnshared(c, Retried(core, svc), svc, |svc.ports|);
    }
  }

  lemma SyncAbsentClean(c: Settings, core: Core, keys: seq<string>, ns: string, name: string)
    requires core.store.staged.Some? && Consistent(c, core) && IsLabel(ns) && IsLabel(name)
    requires Healthy(core.table, core.store) && Unshared(core) && Lists(keys, core.table, ServicePrefix(ns, name))
    requires RemoveListed(c, core, keys, |keys|).store.clean
    ensures var now := RemoveListed(c, core, keys, |keys|); Healthy(now.table, now.store) && Unshared(now)
  {
    hide Serves;
    hide AllUnique;
    hide IsLabel;
    hide RemoveListed;
    hide AllClosed;
    hide Named;
    hide InRange;
    hide DistinctPorts;
    hide Agree;
    hide UnderPeak;
    hide ServicePrefix;
    assert Listing(keys, core.table) by { ListsListing(keys, core.table, ServicePrefix(ns, name)); }
    ListedBackendsInside(keys, core.table, ns, name);
    RemoveListedClean(c, core, keys, |keys|);
    assert Later(keys, |keys|) == {};
    RemovalSharesNothing(c, core, keys, |keys|);
    if !core.shared {
      RemoveListedClosed(c, core, keys, |keys|);
      RemoveListedTable(c, core, keys, |keys|);
    }
  }

  lemma ListsListing(keys: seq<string>, table: map<string, Mapping>, prefix: string)
    requires Lists(keys, table, prefix)
    ensures Listing(keys, table)
  {
  }

  /** A synchronisation of any key in a clean environment leaves the open transaction
      serving exactly the table. */
  lemma SyncKeyClean(c: Settings, core: Core, key: string, seen: Option<Service>, keys: seq<string>, core': Core)
    requires core.store.staged.Some? && Consistent(c, core) && KeyOk(key) && SplitMetaKey(key).Some?
    requires seen.Some? ==> IsLabel(seen.value.ns) && IsLabel(seen.value.name)
    requires Healthy(core.table, core.store) && Unshared(core)
    requires SyncKey(c, core, key, seen, keys, core') && core'.store.clean
    ensures Healthy(core'.table, core'.store) && Unshared(core')
  {
    hide Consistent;
    hide Healthy;
    hide Unshared;
    hide IsLabel;
    hide ServicePrefix;
    hide Lists;
    hide ProcessService;
    hide RemoveListed;
    match seen
    case None =>
      var ns, name := KeyParts(key);
      SyncAbsentClean(c, core, keys, ns, name);
    case Some(svc) =>
      if svc.ns in c.namespaces { SyncPresentClean(c, core, svc); }
  }

  /** In a clean run the configuration that counts, the staged one while a
      transaction is open and the committed one otherwise, serves exactly the table. */
  ghost predicate Proxied(core: Core) {
    core.store.clean ==>
      && Serves(core.table, if core.store.staged.Some? then core.store.staged.value else core.store.committed, {})
      && AllUnique(core.store.trail) && Unshared(core)
      && UniqueBinds(core.store.committed) && Closed(core.store.committed)
  }

  lemma NextKeepsProxied(c: Settings, s: State, s': State)
    requires KeysOk(s) && Consistent(c, s.core) && Proxied(s.core) && Next(c, s, s')
    requires s.worker.Busy? && s.worker.pc == Closing && true !in s.worker.batch.marks ==>
      s.core.store.staged == Some(s.core.store.committed)
    requires s.worker.Busy? && s.worker.pc == Starting ==> s.core.store.staged == None
    ensures Proxied(s'.core)
  {
    hide Consistent;
    hide Serves;
    hide AllUnique;
    hide AllClosed;
    hide DistinctBackends;
    hide QueueKeysOk;
    hide ListerOk;
    hide KeyOk;
    hide SyncKey;
    hide SplitMetaKey;
    hide IsLabel;
    hide MetaKey;
    hide UniqueBinds;
    hide Closed;
    var step :| NextStep(c, s, s', step);
    if step.Close? && s.core.store.clean {
      assert DistinctPorts(s.core.table) by { ConsistentDistinct(c, s.core); }
      ServesUnique(s.core.table, s.core.store.staged.value, {});
      ServesClosed(s.core.table, s.core.store.staged.value);
    }
    if step.Apply? {
      var b := s.worker.batch;
      if s'.core.store.clean {
        SyncKeyWasClean(c, s.core, b.keys[|b.marks|], s.worker.pc.seen, step.keys, s'.core);
        SyncKeyClean(c, s.core, b.keys[|b.marks|], s.worker.pc.seen, step.keys, s'.core);
      }
    }
  }

  lemma ConsistentDistinct(c: Settings, core: Core)
    requires Consistent(c, core)
    ensures DistinctPorts(core.table)
  {
  }

  lemma SyncKeyWasClean(c: Settings, core: Core, key: string, seen: Option<Service>, keys: seq<string>, core': Core)
    requires core.store.staged.Some? && SplitMetaKey(key).Some? && SyncKey(c, core, key, seen, keys, core')
    ensures core'.store.staged.Some? && core'.store.committed == core.store.committed
    ensures core'.store.clean ==> core.store.clean
  {
    hide SyncPorts;
    hide RemoveListed;
    hide SplitMetaKey;
    hide Lists;
  }
}
