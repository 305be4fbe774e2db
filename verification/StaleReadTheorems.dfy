/** What the reads of the committed configuration are worth while a transaction is
    open: they are current for every service that is about to be synchronised, and
    inside a pass for every port whose number no earlier port has. What they cost
    otherwise is in Creation.dfy. */
module StaleReadTheorems {
  import opened Names
  import opened HaproxyStore
  import opened ServiceSync
  import opened PortLedger
  import opened ProxyAgreement
  import opened ServiceRuns
  import opened BatchInvariant
  import opened CoreInvariant
  import Convergence
  import opened StaleReads
  import opened ServiceInvariant

  /** Stale reads are harmless: when a key is about to be synchronised, the committed
      configuration, which EnsureBackend and EnsureFrontend read, agrees with the
      staged one about every object its service could name. */
  lemma StaleReadsHarmless(c: Settings, s: State, ns: string, name: string)
    requires Reachable(c, s) && s.worker.Busy? && s.worker.pc.Applying? && |s.worker.batch.marks| < |s.worker.batch.keys|
    requires SplitMetaKey(s.worker.batch.keys[|s.worker.batch.marks|]) == Some((ns, name))
    ensures s.core.store.staged.Some?
    ensures forall p: int :: SameBackend(s.core.store.committed, s.core.store.staged.value, BackendName(ns, name, p))
    ensures forall p: int :: SameFrontend(s.core.store.committed, s.core.store.staged.value, FrontendName(ns, name, p))
  {
    hide Reachable;
    hide KeysOk;
    hide Proxied;
    hide Convergence.Converging;
    hide Unapplied;
    hide Consistent;
    hide Accounts;
    hide LogOk;
    hide SplitMetaKey;
    hide SameBackend;
    hide SameFrontend;
    hide BackendName;
    hide FrontendName;
    ReachableInv(c, s);
    assert KeyAgrees(s.core.store, s.worker.batch.keys[|s.worker.batch.marks|]);
    forall p: int ensures SameBackend(s.core.store.committed, s.core.store.staged.value, BackendName(ns, name, p)) {
      assert IsBackendOf(BackendName(ns, name, p), ns, name);
    }
    forall p: int ensures SameFrontend(s.core.store.committed, s.core.store.staged.value, FrontendName(ns, name, p)) {
      assert IsFrontendOf(FrontendName(ns, name, p), ns, name);
    }
  }

  lemma {:induction false} BackendsTouched(c: Settings, core: Core, svc: Service, n: nat, b: string)
    requires core.store.staged.Some? && n <= |svc.ports|
    requires forall i :: 0 <= i < n ==> b != BackendName(svc.ns, svc.name, svc.ports[i].port)
    ensures SameBackend(core.store.staged.value, SyncPorts(c, core, svc, n).store.staged.value, b)
  {
    hide SyncPort;
    hide BackendName;
    hide SameBackend;
    if n == 0 {
      SameBackendReflexive(core.store.staged.value, b);
    } else {
      BackendsTouched(c, core, svc, n - 1, b);
      var mid, port := SyncPorts(c, core, svc, n - 1), svc.ports[n - 1];
      var _ := SyncPortTouches(c, mid, svc, port);
      SameBackendTransitive(core.store.staged.value, mid.store.staged.value, SyncPort(c, mid, svc, port).store.staged.value, b);
    }
  }

  lemma SameBackendReflexive(cfg: Config, b: string)
    ensures SameBackend(cfg, cfg, b)
  {
  }

  lemma FreeFrontendNotCommitted(c: Settings, core: Core, mid: Core, ns: string, name: string, p: int)
    requires core.store.staged.Some? && Consistent(c, core) && Agree(mid.table, mid.ledger) && !Taken(mid.ledger, p)
    requires Owned(core.table, core.store.staged.value) && IsLabel(ns) && IsLabel(name)
    requires AgreeFor(core.store.committed, core.store.staged.value, ns, name)
    requires forall j :: j in core.table ==> j in mid.table && mid.table[j] == core.table[j]
    ensures FrontendName(ns, name, p) !in core.store.committed.frontends
  {
    hide MappingKey;
    hide BackendName;
    hide BindName;
    hide IsLabel;
    hide InRange;
    hide DistinctPorts;
    hide UnderPeak;
    var f := FrontendName(ns, name, p);
    assert IsFrontendOf(f, ns, name) && IsSvcFrontend(f);
    if f in core.store.committed.frontends {
      assert SameFrontend(core.store.committed, core.store.staged.value, f);
      var k :| k in core.table && core.table[k].frontendName == f;
      var m := core.table[k];
      assert WellNamed(k, m);
      FrontendNameInjective(ns, name, p, m.ns, m.service, m.mappedPort);
      assert false;
    }
  }

  /** Stale reads inside one service's pass: before the n-th port, the committed and
      the staged configuration agree about its backend unless an earlier port has the
      same number; and in a clean run neither has the frontend of the port that is
      about to be allocated, so what is created is always added, never replaced. */
  lemma StaleReadsInPass(c: Settings, s: State, svc: Service, n: nat)
    requires Reachable(c, s) && s.worker.Busy? && s.worker.pc == Applying(Some(svc)) && n < |svc.ports|
    ensures s.core.store.staged.Some?
    ensures var mid, port := SyncPorts(c, Retried(s.core, svc), svc, n), svc.ports[n];
            (forall i :: 0 <= i < n ==> svc.ports[i].port != port.port) ==>
              SameBackend(s.core.store.committed, mid.store.staged.value, BackendName(svc.ns, svc.name, port.port))
    ensures var mid := SyncPorts(c, Retried(s.core, svc), svc, n);
            var free := FirstFree(mid.ledger, c.first, c.last);
            mid.store.clean && free.Some? ==>
              var f := FrontendName(svc.ns, svc.name, free.value);
              f !in s.core.store.committed.frontends && f !in mid.store.staged.value.frontends
  {
    hide Reachable;
    hide Convergence.Converging;
    hide Unapplied;
    hide Consistent;
    hide Accounts;
    hide LogOk;
    hide SplitMetaKey;
    hide SameBackend;
    hide SameFrontend;
    hide QueueKeysOk;
    hide ListerOk;
    hide KeyOk;
    hide BackendName;
    hide FrontendName;
    hide SyncPorts;
    hide FirstFree;
    hide Serves;
    hide IsLabel;
    hide AllUnique;
    hide Unshared;
    hide UniqueBinds;
    hide Closed;
    hide AgreeFor;
    hide MetaKey;
    ReachableInv(c, s);
    var key := s.worker.batch.keys[|s.worker.batch.marks|];
    assert KeyAgrees(s.core.store, key);
    assert KeyOk(key) && ServiceOk(key, svc);
    var ns, name := KeyParts(key);
    MetaKeyInjective(ns, name, svc.ns, svc.name);
    RetriedKeeps(c, s.core, svc);
    var core, mid, port := Retried(s.core, svc), SyncPorts(c, Retried(s.core, svc), svc, n), svc.ports[n];
    if forall i :: 0 <= i < n ==> svc.ports[i].port != port.port {
      var b := BackendName(svc.ns, svc.name, port.port);
      forall i | 0 <= i < n ensures b != BackendName(svc.ns, svc.name, svc.ports[i].port) {
        BackendNameInjective(svc.ns, svc.name, port.port, svc.ns, svc.name, svc.ports[i].port);
      }
      BackendsTouched(c, core, svc, n, b);
      AgreedBackend(core.store, svc.ns, svc.name, port.port);
      SameBackendTransitive(core.store.committed, core.store.staged.value, mid.store.staged.value, b);
    }
    var free := FirstFree(mid.ledger, c.first, c.last);
    if mid.store.clean && free.Some? {
      FreeFrontendAbsent(c, core, svc, n, free.value);
    }
  }

  lemma AgreedBackend(st: Store, ns: string, name: string, p: int)
    requires st.staged.Some? && AgreeFor(st.committed, st.staged.value, ns, name)
    ensures SameBackend(st.committed, st.staged.value, BackendName(ns, name, p))
  {
    hide SameBackend;
    hide BackendName;
    assert IsBackendOf(BackendName(ns, name, p), ns, name);
  }

  lemma FreeFrontendAbsent(c: Settings, core: Core, svc: Service, n: nat, p: int)
    requires core.store.staged.Some? && Consistent(c, core) && IsLabel(svc.ns) && IsLabel(svc.name) && n < |svc.ports|
    requires Healthy(core.table, core.store) && AgreeFor(core.store.committed, core.store.staged.value, svc.ns, svc.name)
    requires var mid := SyncPorts(c, core, svc, n); mid.store.clean && FirstFree(mid.ledger, c.first, c.last) == Some(p)
    ensures var f := FrontendName(svc.ns, svc.name, p);
            f !in core.store.committed.frontends && f !in SyncPorts(c, core, svc, n).store.staged.value.frontends
  {
    hide SyncPorts;
    hide Consistent;
    hide Serves;
    hide AllUnique;
    hide IsLabel;
    hide AgreeFor;
    hide MappingKey;
    hide BackendName;
    hide FrontendName;
    hide BindName;
    var mid, port := SyncPorts(c, core, svc, n), svc.ports[n];
    assert !Taken(mid.ledger, p);
    SyncPortsKeep(c, core, svc, n);
    SyncPortsClean(c, core, svc, n);
    Convergence.PassFrame(c, core, svc, n);
    assert Named(mid.table) && Agree(mid.table, mid.ledger) by { ConsistentParts(c, mid); }
    ServesOwned(core.table, core.store.staged.value, {});
    ServesOwned(mid.table, mid.store.staged.value, {});
    FreeFrontendNotCommitted(c, core, mid, svc.ns, svc.name, p);
    assert !Mapped(mid.table, p) by { NotTakenNotMapped(mid.table, mid.ledger, p); }
    FreshFrontend(mid.table, mid.store.staged.value, MappingKey(svc.ns, svc.name, port.name), NewMapping(svc, port, p));
  }

  lemma NotTakenNotMapped(table: map<string, Mapping>, ledger: map<int, bool>, p: int)
    requires Agree(table, ledger) && !Taken(ledger, p)
    ensures !Mapped(table, p)
  {
  }

  lemma ConsistentParts(c: Settings, core: Core)
    requires Consistent(c, core)
    ensures Named(core.table) && Agree(core.table, core.ledger)
  {
  }
}
