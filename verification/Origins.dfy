/** Where mappings come from: every mapping stands for a port of some version of its
    service that the informer delivered. What the delivered versions must be like for
    no two mappings ever to share a backend follows. */
module Origins {
  import opened Names
  import opened ServiceSync
  import opened PortLedger
  import opened ProxyAgreement
  import opened ServiceRuns
  import opened CoreInvariant
  import ServiceInvariant
  import opened ServiceTheorems

  /** The versions of all services that the informer's cache has held up to position n. */
  ghost function Versions(path: seq<State>, n: nat): set<Service>
    requires n < |path|
  {
    set i, k | 0 <= i <= n && k in path[i].lister :: path[i].lister[k]
  }

  ghost predicate FromPort(c: Settings, m: Mapping, svc: Service, a: nat) {
    && a < |svc.ports| && (c.portNames == {} || svc.ports[a].name in c.portNames) && m.ns == svc.ns && m.service == svc.name
    && m.portName == svc.ports[a].name && m.servicePort == svc.ports[a].port
  }

  ghost predicate HasOrigin(c: Settings, m: Mapping, versions: set<Service>) {
    exists svc, a :: svc in versions && FromPort(c, m, svc, a)
  }

  ghost predicate Sourced(c: Settings, table: map<string, Mapping>, versions: set<Service>) {
    forall k :: k in table ==> HasOrigin(c, table[k], versions)
  }

  /** In all versions of a service, target ports of one number have one name. */
  ghost predicate OneNamePerNumber(c: Settings, versions: set<Service>) {
    forall v, w, a: nat, b: nat ::
      v in versions && w in versions && v.ns == w.ns && v.name == w.name && a < |v.ports| && b < |w.ports|
      && c.IsTarget(v.ports[a].name) && c.IsTarget(w.ports[b].name) && v.ports[a].port == w.ports[b].port
      ==> v.ports[a].name == w.ports[b].name
  }

  lemma NobodyOnBackend(c: Settings, table: map<string, Mapping>, versions: set<Service>, svc: Service, a: nat)
    requires Named(table) && Sourced(c, table, versions) && OneNamePerNumber(c, versions)
    requires svc in versions && IsLabel(svc.ns) && IsLabel(svc.name)
    requires a < |svc.ports| && c.IsTarget(svc.ports[a].name)
    requires MappingKey(svc.ns, svc.name, svc.ports[a].name) !in table
    ensures !UsesBackend(table, BackendName(svc.ns, svc.name, svc.ports[a].port))
  {
    hide IsLabel;
    hide MappingKey;
    hide BackendName;
    hide FrontendName;
    hide BindName;
    if k :| k in table && table[k].backendName == BackendName(svc.ns, svc.name, svc.ports[a].port) {
      var m := table[k];
      assert WellNamed(k, m) && HasOrigin(c, m, versions);
      BackendNameInjective(m.ns, m.service, m.servicePort, svc.ns, svc.name, svc.ports[a].port);
    }
  }

  lemma PortKeepsOrigins(c: Settings, core: Core, versions: set<Service>, svc: Service, a: nat)
    requires core.store.staged.Some? && Named(core.table) && Sourced(c, core.table, versions)
    requires svc in versions && IsLabel(svc.ns) && IsLabel(svc.name) && a < |svc.ports|
    ensures var now := SyncPort(c, core, svc, svc.ports[a]);
            && Sourced(c, now.table, versions)
            && (OneNamePerNumber(c, versions) && !core.shared ==> !now.shared)
  {
    hide CreateProxy;
    hide IsLabel;
    hide MappingKey;
    hide BackendName;
    hide FrontendName;
    hide BindName;
    hide FirstFree;
    hide Named;
    hide UsesBackend;
    hide OneNamePerNumber;
    var port, r := svc.ports[a], FirstFree(core.ledger, c.first, c.last);
    if c.IsTarget(port.name) && MappingKey(svc.ns, svc.name, port.name) !in core.table && r.Some? {
      assert FromPort(c, NewMapping(svc, port, r.value), svc, a);
      if OneNamePerNumber(c, versions) { NobodyOnBackend(c, core.table, versions, svc, a); }
    }
  }

  lemma {:induction false} PassKeepsOrigins(c: Settings, core: Core, versions: set<Service>, svc: Service, n: nat)
    requires core.store.staged.Some? && Consistent(c, core) && Sourced(c, core.table, versions)
    requires svc in versions && IsLabel(svc.ns) && IsLabel(svc.name) && n <= |svc.ports|
    ensures var now := SyncPorts(c, core, svc, n);
            && Sourced(c, now.table, versions)
            && (OneNamePerNumber(c, versions) && !core.shared ==> !now.shared)
  {
    hide SyncPort;
    hide Consistent;
    hide IsLabel;
    hide Sourced;
    hide OneNamePerNumber;
    if n > 0 {
      PassKeepsOrigins(c, core, versions, svc, n - 1);
      var mid := SyncPorts(c, core, svc, n - 1);
      SyncPortsKeep(c, core, svc, n - 1);
      assert Named(mid.table) by { ConsistentNamed(c, mid); }
      PortKeepsOrigins(c, mid, versions, svc, n - 1);
    }
  }

  lemma ConsistentNamed(c: Settings, core: Core)
    requires Consistent(c, core)
    ensures Named(core.table)
  {
  }

  lemma {:induction false} RemovalKeepsOrigins(c: Settings, core: Core, versions: set<Service>, keys: seq<string>, n: nat)
    requires core.store.staged.Some? && Sourced(c, core.table, versions) && n <= |keys|
    ensures var now := RemoveListed(c, core, keys, n); Sourced(c, now.table, versions) && now.shared == core.shared
  {
    hide RemoveMapping;
    hide HasOrigin;
    if n > 0 { RemovalKeepsOrigins(c, core, versions, keys, n - 1); }
  }

  // ---- runs ----

  ghost predicate Traced(c: Settings, s: State, versions: set<Service>) {
    && Sourced(c, s.core.table, versions)
    && (s.worker.Busy? && s.worker.pc.Applying? && s.worker.pc.seen.Some? ==> s.worker.pc.seen.value in versions)
    && (OneNamePerNumber(c, versions) ==> !s.core.shared)
  }

  lemma NextTraced(c: Settings, s: State, s': State, versions: set<Service>)
    requires Traced(c, s, versions) && KeysOk(s) && Consistent(c, s.core) && Next(c, s, s')
    requires forall k :: k in s.lister ==> s.lister[k] in versions
    ensures Traced(c, s', versions)
  {
    hide Sourced;
    hide OneNamePerNumber;
    hide Consistent;
    hide SyncPorts;
    hide RemoveListed;
    hide Lists;
    hide SplitMetaKey;
    hide QueueKeysOk;
    hide ListerOk;
    hide KeyOk;
    hide IsLabel;
    hide MetaKey;
    var step :| NextStep(c, s, s', step);
    if step.Apply? {
      match s.worker.pc.seen
      case None => RemovalKeepsOrigins(c, s.core, versions, step.keys, |step.keys|);
      case Some(svc) =>
        RetriedKeeps(c, s.core, svc);
        PassKeepsOrigins(c, Retried(s.core, svc), versions, svc, |svc.ports|);
    }
  }

  lemma MoreVersions(c: Settings, s: State, fewer: set<Service>, versions: set<Service>)
    requires Traced(c, s, fewer) && fewer <= versions
    ensures Traced(c, s, versions)
  {
    forall k | k in s.core.table ensures HasOrigin(c, s.core.table[k], versions) {
      assert HasOrigin(c, s.core.table[k], fewer);
      var svc, a :| svc in fewer && FromPort(c, s.core.table[k], svc, a);
      assert svc in versions;
    }
  }

  lemma {:induction false} RunTraced(c: Settings, path: seq<State>, n: nat)
    requires IsRun(c, path) && n < |path|
    ensures Traced(c, path[n], Versions(path, n))
  {
    hide Next;
    hide ServiceInvariant.Inv;
    if n > 0 {
      hide Traced;
      RunTraced(c, path, n - 1);
      var before, versions := Versions(path, n - 1), Versions(path, n);
      assert before <= versions;
      MoreVersions(c, path[n - 1], before, versions);
      ServiceInvariant.RunInv(c, path, n - 1);
      assert KeysOk(path[n - 1]) && Consistent(c, path[n - 1].core) by { InvParts(c, path[n - 1]); }
      NextTraced(c, path[n - 1], path[n], versions);
    }
  }

  lemma InvParts(c: Settings, s: State)
    requires ServiceInvariant.Inv(c, s)
    ensures KeysOk(s) && Consistent(c, s.core)
  {
  }

  /** Every mapping is for a target port of some version of its service that the informer
      delivered. */
  lemma MappingsHaveOrigins(c: Settings, path: seq<State>, n: nat, k: string)
    requires IsRun(c, path) && n < |path| && k in path[n].core.table
    ensures HasOrigin(c, path[n].core.table[k], Versions(path, n))
  {
    hide Next;
    hide Initial;
    RunTraced(c, path, n);
  }

  /** Bind uniqueness and referential closure, in a clean run. No configuration that was
      ever staged, at any intermediate step, has two service frontends on one port, and
      neither has any committed one; the committed configuration and, between
      synchronisations, the staged one have all default backends. If in the versions
      that the informer delivered all target ports of a service with one number have
      one name, every configuration that was ever staged has them too. */
  lemma EveryConfigurationSound(c: Settings, path: seq<State>, n: nat, i: nat)
    requires IsRun(c, path) && n < |path| && path[n].core.store.clean && i < |path[n].core.store.trail|
    ensures UniqueBinds(path[n].core.store.trail[i])
    ensures OneNamePerNumber(c, Versions(path, n)) ==> Closed(path[n].core.store.trail[i])
    ensures UniqueBinds(path[n].core.store.committed) && Closed(path[n].core.store.committed)
    ensures path[n].core.store.staged.Some? ==> Closed(path[n].core.store.staged.value)
  {
    hide Next;
    hide Initial;
    hide Sourced;
    hide OneNamePerNumber;
    hide UniqueBinds;
    hide Closed;
    RunTraced(c, path, n);
    assert IsRun(c, path[..n + 1]) && path[..n + 1][n] == path[n];
    assert Reachable(c, path[n]);
    hide Reachable;
    ConfigurationSound(c, path[n], i);
  }

  // ---- one target port name ----

  /** The command line passes one target port name; then every number has one name. */
  lemma OneTargetName(c: Settings, versions: set<Service>, portName: string)
    requires c.portNames == {portName}
    ensures OneNamePerNumber(c, versions)
  {
  }

  /** As the program is started, with one target port name, every configuration that was
      ever staged in a clean run has unique binds and all default backends. */
  lemma OneTargetNameStaysClosed(c: Settings, path: seq<State>, n: nat, i: nat, portName: string)
    requires c.portNames == {portName}
    requires IsRun(c, path) && n < |path| && path[n].core.store.clean && i < |path[n].core.store.trail|
    ensures UniqueBinds(path[n].core.store.trail[i]) && Closed(path[n].core.store.trail[i])
  {
    hide Next;
    hide Initial;
    hide OneNamePerNumber;
    hide UniqueBinds;
    hide Closed;
    OneTargetName(c, Versions(path, n), portName);
    EveryConfigurationSound(c, path, n, i);
  }
}
