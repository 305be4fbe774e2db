/** When a pass over a service's ports maps all of them. */
module PassTheorems {
  import opened Names
  import opened HaproxyStore
  import opened ServiceSync
  import opened PortLedger
  import opened ProxyAgreement
  import opened ServiceRuns
  import BatchInvariant
  import opened CoreInvariant
  import opened Convergence
  import opened StaleReads
  import StaleReadTheorems
  import opened ServiceInvariant
  import opened Creation

  ghost predicate DistinctPortNames(svc: Service) {
    forall i, j :: 0 <= i < j < |svc.ports| ==> svc.ports[i].name != svc.ports[j].name
  }

  function KeyAt(svc: Service, i: nat): string
    requires i < |svc.ports|
  {
    MappingKey(svc.ns, svc.name, svc.ports[i].name)
  }

  /** A target port that is not mapped yet. */
  predicate IsNew(c: Settings, table: map<string, Mapping>, svc: Service, i: nat)
    requires i < |svc.ports|
  {
    (c.portNames == {} || svc.ports[i].name in c.portNames) && KeyAt(svc, i) !in table
  }

  function NewCount(c: Settings, table: map<string, Mapping>, svc: Service, n: nat): nat
    requires n <= |svc.ports|
  {
    if n == 0 then 0 else NewCount(c, table, svc, n - 1) + (if IsNew(c, table, svc, n - 1) then 1 else 0)
  }

  ghost predicate NewPortsDiffer(c: Settings, table: map<string, Mapping>, svc: Service, n: nat)
    requires n <= |svc.ports|
  {
    forall i, j :: 0 <= i < j < n && IsNew(c, table, svc, i) && IsNew(c, table, svc, j)
      ==> svc.ports[i].port != svc.ports[j].port
  }

  ghost predicate HasServerFor(cfg: Config, svc: Service, i: nat)
    requires i < |svc.ports|
  {
    HasServer(cfg, BackendName(svc.ns, svc.name, svc.ports[i].port), ServerName(svc.clusterIP, svc.ports[i].port))
  }

  ghost predicate NoServerYet(c: Settings, table: map<string, Mapping>, cfg: Config, svc: Service, n: nat)
    requires n <= |svc.ports|
  {
    forall i :: 0 <= i < n && IsNew(c, table, svc, i) ==> !HasServerFor(cfg, svc, i)
  }

  /** The first n ports fit: there are enough free ports for the new ones, their numbers
      differ, and none of their backends has the service's server already. */
  ghost predicate Fits(c: Settings, core: Core, svc: Service, n: nat)
    requires n <= |svc.ports| && core.store.staged.Some?
  {
    && NewCount(c, core.table, svc, n) <= FreeBelow(core.ledger, c.first, c.last + 1)
    && NewPortsDiffer(c, core.table, svc, n)
    && NoServerYet(c, core.table, core.store.staged.value, svc, n)
  }

  ghost predicate CompleteTo(c: Settings, table: map<string, Mapping>, svc: Service, n: nat)
    requires n <= |svc.ports|
  {
    forall i :: 0 <= i < n && c.IsTarget(svc.ports[i].name) ==> KeyAt(svc, i) in table
  }

  // ---- which keys a pass adds ----

  lemma {:induction false} UnmappedYet(c: Settings, core: Core, svc: Service, n: nat, name: string)
    requires core.store.staged.Some? && n <= |svc.ports| && IsLabel(svc.ns) && IsLabel(svc.name)
    requires forall i :: 0 <= i < n ==> svc.ports[i].name != name
    ensures var key := MappingKey(svc.ns, svc.name, name); key in SyncPorts(c, core, svc, n).table <==> key in core.table
  {
    hide SyncPort;
    hide MappingKey;
    hide NewMapping;
    hide FirstFree;
    hide IsLabel;
    if n > 0 {
      UnmappedYet(c, core, svc, n - 1, name);
      SyncPortShape(c, SyncPorts(c, core, svc, n - 1), svc, svc.ports[n - 1]);
      if MappingKey(svc.ns, svc.name, name) == KeyAt(svc, n - 1) {
        MappingKeyInjective(svc.ns, svc.name, name, svc.ns, svc.name, svc.ports[n - 1].name);
      }
    }
  }

  /** The mapping that a pass added for its i-th port. */
  lemma {:induction false} PassEntry(c: Settings, core: Core, svc: Service, n: nat, i: nat)
    requires core.store.staged.Some? && i < n <= |svc.ports| && IsLabel(svc.ns) && IsLabel(svc.name)
    requires DistinctPortNames(svc) && KeyAt(svc, i) in SyncPorts(c, core, svc, n).table && KeyAt(svc, i) !in core.table
    ensures var m := SyncPorts(c, core, svc, n).table[KeyAt(svc, i)];
            && m.backendName == BackendName(svc.ns, svc.name, svc.ports[i].port)
            && m.servicePort == svc.ports[i].port && m.clusterIP == svc.clusterIP
  {
    hide SyncPort;
    hide MappingKey;
    hide BackendName;
    hide FrontendName;
    hide BindName;
    hide FirstFree;
    hide IsLabel;
    var mid := SyncPorts(c, core, svc, n - 1);
    SyncPortShape(c, mid, svc, svc.ports[n - 1]);
    if i == n - 1 {
      UnmappedYet(c, core, svc, n - 1, svc.ports[i].name);
    } else {
      if KeyAt(svc, i) == KeyAt(svc, n - 1) {
        MappingKeyInjective(svc.ns, svc.name, svc.ports[i].name, svc.ns, svc.name, svc.ports[n - 1].name);
      }
      PassEntry(c, core, svc, n - 1, i);
    }
  }

  // ---- what a pass leaves alone ----

  lemma {:induction false} BackendUntouched(c: Settings, core: Core, svc: Service, n: nat, b: string)
    requires core.store.staged.Some? && n <= |svc.ports|
    requires forall i :: 0 <= i < n && IsNew(c, core.table, svc, i) ==> b != BackendName(svc.ns, svc.name, svc.ports[i].port)
    ensures SameBackend(core.store.staged.value, SyncPorts(c, core, svc, n).store.staged.value, b)
  {
    hide SyncPort;
    hide BackendName;
    hide SameBackend;
    hide MappingKey;
    if n == 0 {
      StaleReadTheorems.SameBackendReflexive(core.store.staged.value, b);
    } else {
      BackendUntouched(c, core, svc, n - 1, b);
      var mid, port := SyncPorts(c, core, svc, n - 1), svc.ports[n - 1];
      if IsNew(c, core.table, svc, n - 1) {
        var _ := SyncPortTouches(c, mid, svc, port);
        SameBackendTransitive(core.store.staged.value, mid.store.staged.value, SyncPort(c, mid, svc, port).store.staged.value, b);
      } else {
        PassFrame(c, core, svc, n - 1);
        PortSkipped(c, mid, svc, port);
      }
    }
  }

  lemma PortSkipped(c: Settings, core: Core, svc: Service, port: ServicePort)
    requires core.store.staged.Some? && (!c.IsTarget(port.name) || MappingKey(svc.ns, svc.name, port.name) in core.table)
    ensures SyncPort(c, core, svc, port) == core
  {
    hide CreateProxy;
    hide MappingKey;
    hide NewMapping;
    hide FirstFree;
  }

  // ---- one port more ----

  /** Where a pass can start from in a clean run with a willing HAProxy. */
  ghost predicate PassStart(c: Settings, core: Core, svc: Service) {
    && core.store.staged.Some?
    && Consistent(c, core) && c.first <= c.last && IsLabel(svc.ns) && IsLabel(svc.name) && DistinctPortNames(svc)
    && Healthy(core.table, core.store) && core.store.clean
    && AgreeFor(core.store.committed, core.store.staged.value, svc.ns, svc.name)
    && WillingFrom(c.env, core.store.clock)
  }

  /** The pass has mapped its first n ports so far. */
  ghost predicate PassGoes(c: Settings, core: Core, svc: Service, n: nat)
    requires core.store.staged.Some? && n <= |svc.ports|
  {
    var mid := SyncPorts(c, core, svc, n);
    && mid.store.clean && (CompleteTo(c, mid.table, svc, n) <==> Fits(c, core, svc, n))
    && (Fits(c, core, svc, n) ==> |mid.table| == |core.table| + NewCount(c, core.table, svc, n))
  }

  /** An iteration for a new port inserts the mapping if and only if a port is free and
      the creation succeeds. */
  lemma NewPortStep(c: Settings, mid: Core, svc: Service, port: ServicePort)
    requires mid.store.staged.Some? && c.IsTarget(port.name) && MappingKey(svc.ns, svc.name, port.name) !in mid.table
    ensures var now, key, r := SyncPort(c, mid, svc, port), MappingKey(svc.ns, svc.name, port.name), FirstFree(mid.ledger, c.first, c.last);
            && (key in now.table <==> r.Some? && CreateProxy(c.env, mid.store, NewMapping(svc, port, r.value)).1)
            && |now.table| == |mid.table| + (if key in now.table then 1 else 0)
            && now.store == if r.Some? then CreateProxy(c.env, mid.store, NewMapping(svc, port, r.value)).0 else mid.store
  {
    hide CreateProxy;
    hide MappingKey;
    hide NewMapping;
    hide FirstFree;
    hide UsesBackend;
  }

  /** The new port's backend as the pass finds it. */
  lemma BackendFound(c: Settings, core: Core, svc: Service, n: nat)
    requires PassStart(c, core, svc) && n < |svc.ports| && IsNew(c, core.table, svc, n)
    requires SyncPorts(c, core, svc, n).store.clean && CompleteTo(c, SyncPorts(c, core, svc, n).table, svc, n)
    requires NewPortsDiffer(c, core.table, svc, n)
    ensures var mid, b := SyncPorts(c, core, svc, n).store, BackendName(svc.ns, svc.name, svc.ports[n].port);
            BackendReadIsCurrent(mid, b) && !HasServerFor(mid.staged.value, svc, n)
            <==> NewPortsDiffer(c, core.table, svc, n + 1) && !HasServerFor(core.store.staged.value, svc, n)
  {
    hide SyncPorts;
    hide Consistent;
    hide Serves;
    hide AllUnique;
    hide IsLabel;
    hide AgreeFor;
    hide MappingKey;
    hide BackendName;
    hide ServerName;
    hide WillingFrom;
    hide SameBackend;
    var mid, b := SyncPorts(c, core, svc, n), BackendName(svc.ns, svc.name, svc.ports[n].port);
    if i :| 0 <= i < n && IsNew(c, core.table, svc, i) && svc.ports[i].port == svc.ports[n].port {
      PassEntry(c, core, svc, n, i);
      SyncPortsClean(c, core, svc, n);
      ServedBackend(mid.table, mid.store.staged.value, KeyAt(svc, i));
    } else {
      forall i | 0 <= i < n && IsNew(c, core.table, svc, i) ensures b != BackendName(svc.ns, svc.name, svc.ports[i].port) {
        BackendNameInjective(svc.ns, svc.name, svc.ports[i].port, svc.ns, svc.name, svc.ports[n].port);
      }
      BackendUntouched(c, core, svc, n, b);
      StaleReadTheorems.AgreedBackend(core.store, svc.ns, svc.name, svc.ports[n].port);
      SameBackendMeans(core.store.staged.value, mid.store.staged.value, b);
      SameBackendMeans(core.store.committed, core.store.staged.value, b);
    }
  }

  lemma SameBackendMeans(cfg: Config, cfg': Config, b: string)
    requires SameBackend(cfg, cfg', b)
    ensures b in cfg.backends <==> b in cfg'.backends
    ensures forall server :: HasServer(cfg, b, server) <==> HasServer(cfg', b, server)
  {
  }

  lemma ServedBackend(table: map<string, Mapping>, cfg: Config, k: string)
    requires Serves(table, cfg, {}) && k in table
    ensures HasServer(cfg, table[k].backendName, ServerName(table[k].clusterIP, table[k].servicePort))
  {
    hide ServerName;
    hide FrontendServes;
    hide Owned;
    assert BackendServes(cfg, table[k]);
  }

  /** A pass that has gone well so far runs out of ports exactly when all ports that were
      free at its start are used. */
  lemma PortsRunOut(c: Settings, core: Core, svc: Service, n: nat)
    requires PassStart(c, core, svc) && n < |svc.ports| && Fits(c, core, svc, n)
    requires |SyncPorts(c, core, svc, n).table| == |core.table| + NewCount(c, core.table, svc, n)
    ensures FirstFree(SyncPorts(c, core, svc, n).ledger, c.first, c.last) == None
            <==> NewCount(c, core.table, svc, n) + 1 > FreeBelow(core.ledger, c.first, c.last + 1)
  {
    hide SyncPorts;
    hide Consistent;
    hide Healthy;
    hide IsLabel;
    hide AgreeFor;
    hide WillingFrom;
    hide NewCount;
    hide NewPortsDiffer;
    hide NoServerYet;
    hide FreeBelow;
    hide FirstFree;
    SyncPortsKeep(c, core, svc, n);
    Conservation(c, core);
    Conservation(c, SyncPorts(c, core, svc, n));
  }

  /** A creation inside the pass, once a port is free. */
  lemma NewCreation(c: Settings, core: Core, svc: Service, n: nat, p: int)
    requires PassStart(c, core, svc) && n < |svc.ports| && SyncPorts(c, core, svc, n).store.clean
    requires FirstFree(SyncPorts(c, core, svc, n).ledger, c.first, c.last) == Some(p)
    ensures var mid, m := SyncPorts(c, core, svc, n), NewMapping(svc, svc.ports[n], p);
            var (st, ok) := CreateProxy(c.env, mid.store, m);
            && st.clean
            && (ok <==> BackendReadIsCurrent(mid.store, m.backendName) && !HasServerFor(mid.store.staged.value, svc, n))
  {
    hide SyncPorts;
    hide Consistent;
    hide Healthy;
    hide IsLabel;
    hide AgreeFor;
    hide BackendName;
    hide FrontendName;
    hide BindName;
    hide ServerName;
    hide CreateProxy;
    hide FirstFree;
    hide DistinctPortNames;
    StaleReadTheorems.FreeFrontendAbsent(c, core, svc, n, p);
    WillingCreation(c.env, SyncPorts(c, core, svc, n).store, NewMapping(svc, svc.ports[n], p));
  }

  lemma PassStaysClean(c: Settings, core: Core, svc: Service, n: nat)
    requires core.store.staged.Some? && PassStart(c, core, svc) && n < |svc.ports| && SyncPorts(c, core, svc, n).store.clean
    ensures SyncPorts(c, core, svc, n + 1).store.clean
  {
    hide PassStart;
    hide SyncPort;
    hide MappingKey;
    hide NewMapping;
    hide CreateProxy;
    hide FirstFree;
    var mid, port := SyncPorts(c, core, svc, n), svc.ports[n];
    if c.IsTarget(port.name) && KeyAt(svc, n) !in mid.table {
      NewPortStep(c, mid, svc, port);
      var r := FirstFree(mid.ledger, c.first, c.last);
      if r.Some? { NewCreation(c, core, svc, n, r.value); }
    } else {
      PortSkipped(c, mid, svc, port);
    }
  }

  lemma NextComplete(c: Settings, core: Core, svc: Service, n: nat)
    requires core.store.staged.Some? && n < |svc.ports| && IsLabel(svc.ns) && IsLabel(svc.name) && DistinctPortNames(svc)
    ensures var mid, now := SyncPorts(c, core, svc, n).table, SyncPorts(c, core, svc, n + 1).table;
            CompleteTo(c, now, svc, n + 1)
            <==> CompleteTo(c, mid, svc, n) && (c.IsTarget(svc.ports[n].name) ==> KeyAt(svc, n) in now)
  {
    hide SyncPort;
    hide MappingKey;
    hide NewMapping;
    hide FirstFree;
    hide IsLabel;
    var mid := SyncPorts(c, core, svc, n);
    SyncPortShape(c, mid, svc, svc.ports[n]);
    forall i | 0 <= i < n ensures KeyAt(svc, i) != KeyAt(svc, n) {
      if KeyAt(svc, i) == KeyAt(svc, n) {
        MappingKeyInjective(svc.ns, svc.name, svc.ports[i].name, svc.ns, svc.name, svc.ports[n].name);
      }
    }
  }

  lemma NextFits(c: Settings, core: Core, svc: Service, n: nat)
    requires core.store.staged.Some? && n < |svc.ports|
    ensures Fits(c, core, svc, n + 1) ==> Fits(c, core, svc, n)
    ensures IsNew(c, core.table, svc, n) ==>
              (Fits(c, core, svc, n + 1) <==>
                && Fits(c, core, svc, n) && NewCount(c, core.table, svc, n) + 1 <= FreeBelow(core.ledger, c.first, c.last + 1)
                && NewPortsDiffer(c, core.table, svc, n + 1) && !HasServerFor(core.store.staged.value, svc, n))
    ensures !IsNew(c, core.table, svc, n) ==>
              (Fits(c, core, svc, n + 1) <==> Fits(c, core, svc, n))
              && NewCount(c, core.table, svc, n + 1) == NewCount(c, core.table, svc, n)
  {
    hide IsNew;
    hide HasServerFor;
    hide FreeBelow;
  }

  lemma NewPortGoes(c: Settings, core: Core, svc: Service, n: nat)
    requires PassStart(c, core, svc) && n < |svc.ports| && IsNew(c, core.table, svc, n) && PassGoes(c, core, svc, n)
    requires Fits(c, core, svc, n)
    ensures PassGoes(c, core, svc, n + 1)
  {
    var mid, port := SyncPorts(c, core, svc, n), svc.ports[n];
    var r := FirstFree(mid.ledger, c.first, c.last);
    hide SyncPort;
    hide Consistent;
    hide Healthy;
    hide IsLabel;
    hide AgreeFor;
    hide MappingKey;
    hide BackendName;
    hide FrontendName;
    hide BindName;
    hide CreateProxy;
    hide FirstFree;
    hide FreeBelow;
    hide Fits;
    hide CompleteTo;
    hide DistinctPortNames;
    hide HasServerFor;
    UnmappedYet(c, core, svc, n, port.name) by { NamesBefore(svc, n); }
    NewPortStep(c, mid, svc, port);
    assert NewPortsDiffer(c, core.table, svc, n) by { FitsParts(c, core, svc, n); }
    PassStaysClean(c, core, svc, n);
    PortsRunOut(c, core, svc, n);
    BackendFound(c, core, svc, n);
    NextComplete(c, core, svc, n);
    NextFits(c, core, svc, n);
    if r.Some? { NewCreation(c, core, svc, n, r.value); }
  }

  lemma NamesBefore(svc: Service, n: nat)
    requires DistinctPortNames(svc) && n < |svc.ports|
    ensures forall i :: 0 <= i < n ==> svc.ports[i].name != svc.ports[n].name
  {
  }

  lemma FitsParts(c: Settings, core: Core, svc: Service, n: nat)
    requires core.store.staged.Some? && n <= |svc.ports| && Fits(c, core, svc, n)
    ensures NewPortsDiffer(c, core.table, svc, n)
  {
  }

  lemma OldPortGoes(c: Settings, core: Core, svc: Service, n: nat)
    requires PassStart(c, core, svc) && n < |svc.ports| && !IsNew(c, core.table, svc, n) && PassGoes(c, core, svc, n)
    ensures PassGoes(c, core, svc, n + 1)
  {
    hide SyncPort;
    hide Consistent;
    hide Healthy;
    hide IsLabel;
    hide AgreeFor;
    hide MappingKey;
    hide Fits;
    hide DistinctPortNames;
    hide NewCount;
    PassFrame(c, core, svc, n);
    PortSkipped(c, SyncPorts(c, core, svc, n), svc, svc.ports[n]);
    NextFits(c, core, svc, n);
  }

  /** A port that was missed stays missed. */
  lemma UnfitStays(c: Settings, core: Core, svc: Service, n: nat)
    requires PassStart(c, core, svc) && n < |svc.ports| && PassGoes(c, core, svc, n) && !Fits(c, core, svc, n)
    ensures PassGoes(c, core, svc, n + 1)
  {
    StartParts(c, core, svc);
    hide PassStart;
    hide Fits;
    hide CompleteTo;
    hide SyncPorts;
    hide IsNew;
    hide IsLabel;
    hide DistinctPortNames;
    PassStaysClean(c, core, svc, n);
    NextComplete(c, core, svc, n);
    NextFits(c, core, svc, n);
  }

  lemma NothingYet(c: Settings, core: Core, svc: Service)
    requires PassStart(c, core, svc)
    ensures PassGoes(c, core, svc, 0)
  {
    hide Consistent;
    hide Healthy;
    hide IsLabel;
    hide AgreeFor;
    hide WillingFrom;
    hide DistinctPortNames;
    assert SyncPorts(c, core, svc, 0) == core;
  }

  lemma {:induction false} PassInduction(c: Settings, core: Core, svc: Service, n: nat)
    requires PassStart(c, core, svc) && n <= |svc.ports|
    ensures PassGoes(c, core, svc, n)
  {
    hide SyncPorts;
    hide MappingKey;
    hide PassStart;
    hide PassGoes;
    hide Fits;
    hide IsNew;
    hide IsLabel;
    hide DistinctPortNames;
    hide Consistent;
    hide Healthy;
    hide NewCount;
    hide FreeBelow;
    StartParts(c, core, svc);
    if n == 0 {
      NothingYet(c, core, svc);
    } else {
      PassInduction(c, core, svc, n - 1);
      if !IsNew(c, core.table, svc, n - 1) {
        OldPortGoes(c, core, svc, n - 1);
      } else if Fits(c, core, svc, n - 1) {
        NewPortGoes(c, core, svc, n - 1);
      } else {
        UnfitStays(c, core, svc, n - 1);
      }
    }
  }

  lemma StartParts(c: Settings, core: Core, svc: Service)
    requires PassStart(c, core, svc)
    ensures core.store.staged.Some? && IsLabel(svc.ns) && IsLabel(svc.name) && DistinctPortNames(svc)
  {
  }

  // ---- the exact condition ----

  /** What the pass is about to change is where a pass can start. */
  lemma ReachableStart(c: Settings, s: State, svc: Service)
    requires Reachable(c, s) && s.worker.Busy? && s.worker.pc == Applying(Some(svc))
    requires s.core.store.clean && c.first < c.last && DistinctPortNames(svc) && WillingFrom(c.env, s.core.store.clock)
    ensures PassStart(c, Retried(s.core, svc), svc)
  {
    hide Reachable;
    hide Converging;
    hide Unapplied;
    hide Consistent;
    hide BatchInvariant.Accounts;
    hide BatchInvariant.LogOk;
    hide SplitMetaKey;
    hide QueueKeysOk;
    hide ListerOk;
    hide KeyOk;
    hide Serves;
    hide IsLabel;
    hide AllUnique;
    hide Unshared;
    hide UniqueBinds;
    hide Closed;
    hide AgreeFor;
    hide MetaKey;
    hide WillingFrom;
    hide DistinctPortNames;
    ReachableInv(c, s);
    var key := s.worker.batch.keys[|s.worker.batch.marks|];
    assert KeyAgrees(s.core.store, key);
    assert KeyOk(key) && ServiceOk(key, svc);
    var ns, name := KeyParts(key);
    MetaKeyInjective(ns, name, svc.ns, svc.name);
    RetriedKeeps(c, s.core, svc);
  }

  /** A failed allocation or creation is not retried, so a pass is all there is. In a
      clean run with an HAProxy that does all it can, it leaves every target port of the
      service mapped if and only if there are enough free ports for the ports that are
      not mapped yet, these have different numbers, and none of their backends already
      has the service's server. */
  lemma PassCompleteIff(c: Settings, s: State, svc: Service)
    requires Reachable(c, s) && s.worker.Busy? && s.worker.pc == Applying(Some(svc))
    requires s.core.store.clean && c.first < c.last && DistinctPortNames(svc) && WillingFrom(c.env, s.core.store.clock)
    requires Usable(svc)
    ensures s.core.store.staged.Some?
    ensures Complete(c, ProcessService(c, s.core, svc).table, svc) <==> Fits(c, s.core, svc, |svc.ports|)
    ensures ProcessService(c, s.core, svc).store.clean
  {
    hide Reachable;
    hide SyncPorts;
    hide NewCount;
    hide FreeBelow;
    hide DistinctPortNames;
    ReachableStart(c, s, svc);
    var core := Retried(s.core, svc);
    PassInduction(c, core, svc, |svc.ports|);
    hide PassStart;
    hide MappingKey;
    CompleteIsCompleteTo(c, ProcessService(c, s.core, svc).table, svc);
  }

  lemma CompleteIsCompleteTo(c: Settings, table: map<string, Mapping>, svc: Service)
    ensures Complete(c, table, svc) <==> CompleteTo(c, table, svc, |svc.ports|)
  {
    hide MappingKey;
    if Complete(c, table, svc) {
      forall i | 0 <= i < |svc.ports| && c.IsTarget(svc.ports[i].name) ensures KeyAt(svc, i) in table {
        assert MappingKey(svc.ns, svc.name, svc.ports[i].name) in table;
      }
    }
    if CompleteTo(c, table, svc, |svc.ports|) {
      forall i | 0 <= i < |svc.ports| && c.IsTarget(svc.ports[i].name)
        ensures MappingKey(svc.ns, svc.name, svc.ports[i].name) in table
      {
        assert KeyAt(svc, i) in table;
      }
    }
  }

  // ---- failures ----

  /** In any environment a service counts as failed after its pass if and only if the pass
      left a target port unmapped. */
  lemma FailedIffIncomplete(c: Settings, core: Core, svc: Service)
    requires core.store.staged.Some? && IsLabel(svc.ns) && IsLabel(svc.name) && DistinctPortNames(svc) && Usable(svc)
    ensures var now := ProcessService(c, core, svc);
            MetaKey(svc.ns, svc.name) in now.failed <==> !Complete(c, now.table, svc)
  {
    hide IsLabel;
    hide MetaKey;
    hide MappingKey;
    hide SyncPorts;
    hide DistinctPortNames;
    var start := Retried(core, svc);
    if MetaKey(svc.ns, svc.name) in SyncPorts(c, start, svc, |svc.ports|).failed {
      var i := FailedPortStaysUnmapped(c, start, svc, |svc.ports|);
    } else {
      PassCompletes(c, start, svc, |svc.ports|);
    }
  }

  lemma {:induction false} FailedPortStaysUnmapped(c: Settings, core: Core, svc: Service, n: nat) returns (i: nat)
    requires core.store.staged.Some? && n <= |svc.ports| && MetaKey(svc.ns, svc.name) !in core.failed
    requires MetaKey(svc.ns, svc.name) in SyncPorts(c, core, svc, n).failed
    requires IsLabel(svc.ns) && IsLabel(svc.name)
    requires DistinctPortNames(svc)
    ensures i < n && c.IsTarget(svc.ports[i].name)
    ensures MappingKey(svc.ns, svc.name, svc.ports[i].name) !in SyncPorts(c, core, svc, n).table
  {
    hide SyncPort;
    hide MappingKey;
    hide NewMapping;
    hide FirstFree;
    hide IsLabel;
    var before, port := SyncPorts(c, core, svc, n - 1), svc.ports[n - 1];
    SyncPortShape(c, before, svc, port);
    if MetaKey(svc.ns, svc.name) in before.failed {
      i := FailedPortStaysUnmapped(c, core, svc, n - 1);
      var key, key' := MappingKey(svc.ns, svc.name, svc.ports[i].name), MappingKey(svc.ns, svc.name, port.name);
      if key == key' {
        MappingKeyInjective(svc.ns, svc.name, svc.ports[i].name, svc.ns, svc.name, port.name);
      }
    } else {
      i := n - 1;
      FailedHere(c, before, svc, port);
    }
  }

  lemma FailedHere(c: Settings, core: Core, svc: Service, port: ServicePort)
    requires core.store.staged.Some? && MetaKey(svc.ns, svc.name) !in core.failed
    requires MetaKey(svc.ns, svc.name) in SyncPort(c, core, svc, port).failed
    ensures c.IsTarget(port.name) && MappingKey(svc.ns, svc.name, port.name) !in SyncPort(c, core, svc, port).table
  {
    hide CreateProxy;
    hide MappingKey;
    hide NewMapping;
    hide FirstFree;
  }
}
