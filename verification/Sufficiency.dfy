/** What the services and HAProxy must be like for nothing ever to fail. */
module Sufficiency {
  import opened Names
  import opened HaproxyStore
  import opened ServiceSync
  import opened PortLedger
  import ProxyAgreement
  import opened ServiceRuns
  import BatchInvariant
  import opened CoreInvariant
  import opened Convergence
  import opened StaleReads
  import opened ServiceInvariant
  import opened ServiceTheorems
  import opened Creation
  import opened PassTheorems
  import opened Origins

  predicate IsSvcBackend(name: string) { BACKEND <= name }

  /** Every service backend is some mapping's. */
  ghost predicate BackendsOwned(table: map<string, Mapping>, cfg: Config) {
    forall b :: b in cfg.backends && IsSvcBackend(b) ==> UsesBackend(table, b)
  }

  /** The mapping keys of all target ports of the versions. */
  ghost function TargetKeys(c: Settings, versions: set<Service>): set<string> {
    set svc, i | svc in versions && 0 <= i < |svc.ports| && c.IsTarget(svc.ports[i].name) :: KeyAt(svc, i)
  }

  /** The delivered versions have distinct port names, one name for each target port
      number of a service, and together no more target ports than the range. */
  ghost predicate Moderate(c: Settings, versions: set<Service>) {
    && (forall svc :: svc in versions ==> DistinctPortNames(svc))
    && OneNamePerNumber(c, versions) && |TargetKeys(c, versions)| <= c.last - c.first + 1
  }

  // ---- enough ports ----

  ghost function NewKeys(c: Settings, table: map<string, Mapping>, svc: Service, n: nat): set<string>
    requires n <= |svc.ports|
  {
    if n == 0 then {}
    else NewKeys(c, table, svc, n - 1) + (if IsNew(c, table, svc, n - 1) then {KeyAt(svc, n - 1)} else {})
  }

  lemma {:induction false} NewKeysAreTargets(c: Settings, table: map<string, Mapping>, svc: Service, n: nat, versions: set<Service>)
    requires n <= |svc.ports| && svc in versions
    ensures NewKeys(c, table, svc, n) !! table.Keys && NewKeys(c, table, svc, n) <= TargetKeys(c, versions)
  {
    hide MappingKey;
    if n > 0 { NewKeysAreTargets(c, table, svc, n - 1, versions); }
  }

  lemma {:induction false} NotAmong(c: Settings, table: map<string, Mapping>, svc: Service, n: nat, key: string)
    requires n <= |svc.ports| && forall i :: 0 <= i < n ==> KeyAt(svc, i) != key
    ensures key !in NewKeys(c, table, svc, n)
  {
    hide KeyAt;
    hide IsNew;
    if n > 0 { NotAmong(c, table, svc, n - 1, key); }
  }

  lemma KeysDiffer(svc: Service, n: nat)
    requires n < |svc.ports| && IsLabel(svc.ns) && IsLabel(svc.name) && DistinctPortNames(svc)
    ensures forall i :: 0 <= i < n ==> KeyAt(svc, i) != KeyAt(svc, n)
  {
    hide MappingKey;
    hide IsLabel;
    forall i | 0 <= i < n ensures KeyAt(svc, i) != KeyAt(svc, n) {
      if KeyAt(svc, i) == KeyAt(svc, n) {
        MappingKeyInjective(svc.ns, svc.name, svc.ports[i].name, svc.ns, svc.name, svc.ports[n].name);
      }
    }
  }

  lemma OneMore(keys: set<string>, k: string)
    requires k !in keys
    ensures |keys + {k}| == |keys| + 1
  {
  }

  lemma NextNewKeys(c: Settings, table: map<string, Mapping>, svc: Service, n: nat)
    requires n < |svc.ports|
    ensures var keys := NewKeys(c, table, svc, n);
            NewKeys(c, table, svc, n + 1) == if IsNew(c, table, svc, n) then keys + {KeyAt(svc, n)} else keys
  {
    hide KeyAt;
    hide IsNew;
  }

  lemma {:induction false} NewCountIs(c: Settings, table: map<string, Mapping>, svc: Service, n: nat)
    requires n <= |svc.ports| && IsLabel(svc.ns) && IsLabel(svc.name) && DistinctPortNames(svc)
    ensures NewCount(c, table, svc, n) == |NewKeys(c, table, svc, n)|
  {
    if n > 0 {
      NewCountIs(c, table, svc, n - 1);
      NextNewKeys(c, table, svc, n - 1);
      KeysDiffer(svc, n - 1);
      hide NewKeys;
      hide KeyAt;
      hide IsNew;
      hide IsLabel;
      hide DistinctPortNames;
      NotAmong(c, table, svc, n - 1, KeyAt(svc, n - 1));
      OneMore(NewKeys(c, table, svc, n - 1), KeyAt(svc, n - 1));
    }
  }

  lemma TableKeysAreTargets(c: Settings, table: map<string, Mapping>, versions: set<Service>)
    requires Named(table) && Sourced(c, table, versions)
    ensures table.Keys <= TargetKeys(c, versions)
  {
    hide MappingKey;
    hide BackendName;
    hide FrontendName;
    hide BindName;
    hide IsLabel;
    forall k | k in table ensures k in TargetKeys(c, versions) {
      var m := table[k];
      assert WellNamed(k, m) && HasOrigin(c, m, versions);
      var svc, a :| svc in versions && FromPort(c, m, svc, a);
      assert k == KeyAt(svc, a);
    }
  }

  /** The range has room for a version's new ports. */
  lemma EnoughPorts(c: Settings, core: Core, svc: Service, versions: set<Service>)
    requires Consistent(c, core) && c.first <= c.last && Sourced(c, core.table, versions) && Moderate(c, versions)
    requires svc in versions && IsLabel(svc.ns) && IsLabel(svc.name)
    ensures NewCount(c, core.table, svc, |svc.ports|) <= FreeBelow(core.ledger, c.first, c.last + 1)
  {
    hide Agree;
    hide InRange;
    hide DistinctPorts;
    hide UnderPeak;
    hide IsLabel;
    hide Sourced;
    hide OneNamePerNumber;
    hide FirstFree;
    hide FreeBelow;
    hide NewCount;
    var fresh_ := NewKeys(c, core.table, svc, |svc.ports|);
    NewCountIs(c, core.table, svc, |svc.ports|);
    TableKeysAreTargets(c, core.table, versions);
    Conservation(c, core);
    NewKeysAreTargets(c, core.table, svc, |svc.ports|, versions);
    hide NewKeys;
    Fewer(core.table.Keys + fresh_, TargetKeys(c, versions));
    assert |core.table.Keys + fresh_| == |core.table.Keys| + |fresh_|;
  }

  // ---- a pass ----

  lemma PassFits(c: Settings, core: Core, svc: Service, versions: set<Service>)
    requires core.store.staged.Some? && Consistent(c, core) && c.first <= c.last
    requires Sourced(c, core.table, versions) && Moderate(c, versions)
    requires svc in versions && IsLabel(svc.ns) && IsLabel(svc.name) && BackendsOwned(core.table, core.store.staged.value)
    ensures Fits(c, core, svc, |svc.ports|)
  {
    EnoughPorts(c, core, svc, versions);
    assert Named(core.table) by { ConsistentNamed(c, core); }
    assert DistinctPortNames(svc) && OneNamePerNumber(c, versions);
    hide Consistent;
    hide Sourced;
    hide IsLabel;
    hide MappingKey;
    hide ServerName;
    hide NewCount;
    hide FreeBelow;
    forall i | 0 <= i < |svc.ports| && IsNew(c, core.table, svc, i) ensures !HasServerFor(core.store.staged.value, svc, i) {
      NobodyOnBackend(c, core.table, versions, svc, i);
      assert IsSvcBackend(BackendName(svc.ns, svc.name, svc.ports[i].port));
    }
  }

  /** After a pass that mapped everything, the service backends are the mappings' again. */
  lemma PassOwnsBackends(c: Settings, core: Core, svc: Service)
    requires core.store.staged.Some? && IsLabel(svc.ns) && IsLabel(svc.name) && DistinctPortNames(svc)
    requires BackendsOwned(core.table, core.store.staged.value)
    requires Complete(c, SyncPorts(c, core, svc, |svc.ports|).table, svc)
    ensures var now := SyncPorts(c, core, svc, |svc.ports|); BackendsOwned(now.table, now.store.staged.value)
  {
    hide SyncPorts;
    hide IsLabel;
    hide MappingKey;
    hide BackendName;
    hide IsSvcBackend;
    hide DistinctPortNames;
    var now := SyncPorts(c, core, svc, |svc.ports|);
    PassFrame(c, core, svc, |svc.ports|);
    forall b | b in now.store.staged.value.backends && IsSvcBackend(b) ensures UsesBackend(now.table, b) {
      if i :| 0 <= i < |svc.ports| && IsNew(c, core.table, svc, i) && b == BackendName(svc.ns, svc.name, svc.ports[i].port) {
        PassEntry(c, core, svc, |svc.ports|, i);
        assert KeyAt(svc, i) in now.table;
      } else {
        BackendUntouched(c, core, svc, |svc.ports|, b);
        assert UsesBackend(core.table, b);
        var k :| k in core.table && core.table[k].backendName == b;
        assert k in now.table && now.table[k] == core.table[k];
      }
    }
  }

  // ---- a removal ----

  lemma {:induction false} RemovedBackends(c: Settings, core: Core, keys: seq<string>, n: nat)
    requires core.store.staged.Some? && Listing(keys, core.table) && n <= |keys| && RemoveListed(c, core, keys, n).store.clean
    ensures var now := RemoveListed(c, core, keys, n).store.staged.value;
            && (forall b :: b in now.backends ==> b in core.store.staged.value.backends)
            && (forall i :: 0 <= i < n ==> core.table[keys[i]].backendName !in now.backends)
  {
    hide RemoveMapping;
    if n > 0 {
      RemoveListedTable(c, core, keys, n - 1);
      RemoveListedTable(c, core, keys, n);
      RemovedBackends(c, core, keys, n - 1);
      ProxyAgreement.RemoveMappingShape(c, RemoveListed(c, core, keys, n - 1), keys[n - 1]);
      hide RemoveListed;
    }
  }

  lemma RemovalOwnsBackends(c: Settings, core: Core, keys: seq<string>)
    requires core.store.staged.Some? && Listing(keys, core.table) && RemoveListed(c, core, keys, |keys|).store.clean
    requires BackendsOwned(core.table, core.store.staged.value)
    ensures var now := RemoveListed(c, core, keys, |keys|); BackendsOwned(now.table, now.store.staged.value)
  {
    hide RemoveListed;
    hide IsSvcBackend;
    var now := RemoveListed(c, core, keys, |keys|);
    RemovedBackends(c, core, keys, |keys|);
    RemoveListedTable(c, core, keys, |keys|);
    assert keys[..|keys|] == keys;
    forall b | b in now.store.staged.value.backends && IsSvcBackend(b) ensures UsesBackend(now.table, b) {
      assert UsesBackend(core.table, b);
      var k :| k in core.table && core.table[k].backendName == b;
      assert k !in keys;
      assert k in now.table && now.table[k] == core.table[k];
    }
  }

  // ---- runs ----

  function Current_(st: Store): Config { if st.staged.Some? then st.staged.value else st.committed }

  /** Nothing has failed, and there are no leftovers. */
  ghost predicate Flawless(core: Core) {
    core.store.clean ==> core.failed == {} && BackendsOwned(core.table, Current_(core.store))
  }

  lemma AppliedPass(c: Settings, s: State, svc: Service, versions: set<Service>)
    requires Reachable(c, s) && s.worker.Busy? && s.worker.pc == Applying(Some(svc)) && c.first < c.last
    requires s.core.store.clean && WillingFrom(c.env, s.core.store.clock) && Usable(svc)
    requires Sourced(c, s.core.table, versions) && Moderate(c, versions) && svc in versions
    requires Flawless(s.core)
    ensures s.core.store.staged.Some? && Flawless(ProcessService(c, s.core, svc))
  {
    assert DistinctPortNames(svc);
    ReachableStart(c, s, svc);
    PassCompleteIff(c, s, svc);
    hide Reachable;
    hide DistinctPortNames;
    hide WillingFrom;
    hide Sourced;
    hide Moderate;
    hide SyncPorts;
    hide Complete;
    hide MetaKey;
    hide IsLabel;
    hide BackendsOwned;
    var core := Retried(s.core, svc);
    assert IsLabel(svc.ns) && IsLabel(svc.name) && Consistent(c, core) by { StartMeans(c, core, svc); }
    PassFits(c, core, svc, versions);
    assert Fits(c, s.core, svc, |svc.ports|) by { SameFits(c, s.core, svc); }
    FailedIffIncomplete(c, s.core, svc);
    PassFrame(c, core, svc, |svc.ports|);
    PassOwnsBackends(c, core, svc);
  }

  lemma StartMeans(c: Settings, core: Core, svc: Service)
    requires PassStart(c, core, svc)
    ensures IsLabel(svc.ns) && IsLabel(svc.name) && Consistent(c, core)
  {
  }

  lemma SameFits(c: Settings, core: Core, svc: Service)
    requires core.store.staged.Some? && Fits(c, Retried(core, svc), svc, |svc.ports|)
    ensures Fits(c, core, svc, |svc.ports|)
  {
    hide NewCount;
    hide NewPortsDiffer;
    hide NoServerYet;
    hide FreeBelow;
  }

  lemma AppliedRemoval(c: Settings, core: Core, keys: seq<string>, prefix: string)
    requires core.store.staged.Some? && Lists(keys, core.table, prefix) && Flawless(core)
    requires RemoveListed(c, core, keys, |keys|).store.clean ==> core.store.clean
    ensures Flawless(RemoveListed(c, core, keys, |keys|))
  {
    hide RemoveListed;
    hide BackendsOwned;
    var now := RemoveListed(c, core, keys, |keys|);
    ListsListing(keys, core.table, prefix);
    RemovalSharesNothing(c, core, keys, |keys|);
    if now.store.clean { RemovalOwnsBackends(c, core, keys); }
  }

  lemma ApplyFlawless(c: Settings, s: State, s': State, keys: seq<string>, versions: set<Service>)
    requires Reachable(c, s) && ApplyStep(c, s, s', keys) && c.first < c.last && WillingFrom(c.env, s.core.store.clock)
    requires Traced(c, s, versions) && Moderate(c, versions) && Flawless(s.core)
    ensures Flawless(s'.core)
  {
    hide Reachable;
    hide WillingFrom;
    hide Sourced;
    hide OneNamePerNumber;
    hide Moderate;
    hide BackendsOwned;
    hide ProcessService;
    hide RemoveListed;
    hide Lists;
    hide SplitMetaKey;
    hide Current_;
    match s.worker.pc.seen
    case None =>
      var parts := SplitMetaKey(s.worker.batch.keys[|s.worker.batch.marks|]).value;
      AppliedRemoval(c, s.core, keys, ServicePrefix(parts.0, parts.1));
    case Some(svc) =>
      if svc.ns in c.namespaces { PresentFlawless(c, s, svc, versions); }
  }

  lemma PresentFlawless(c: Settings, s: State, svc: Service, versions: set<Service>)
    requires Reachable(c, s) && s.worker.Busy? && s.worker.pc == Applying(Some(svc)) && c.first < c.last
    requires s.core.store.staged.Some? && WillingFrom(c.env, s.core.store.clock)
    requires Sourced(c, s.core.table, versions) && Moderate(c, versions) && svc in versions && Flawless(s.core)
    ensures Flawless(ProcessService(c, s.core, svc))
  {
    hide Reachable;
    hide WillingFrom;
    hide Sourced;
    hide Moderate;
    hide BackendsOwned;
    hide SyncPorts;
    hide Usable;
    hide Current_;
    if Usable(svc) && s.core.store.clean { AppliedPass(c, s, svc, versions); }
  }

  lemma NextFlawless(c: Settings, s: State, s': State, versions: set<Service>)
    requires Reachable(c, s) && Next(c, s, s') && c.first < c.last && WillingFrom(c.env, s.core.store.clock)
    requires Traced(c, s, versions) && Moderate(c, versions) && Flawless(s.core) && Inv(c, s)
    ensures Flawless(s'.core)
  {
    hide Reachable;
    hide WillingFrom;
    hide Traced;
    hide Moderate;
    hide BackendsOwned;
    hide ApplyStep;
    hide KeysOk;
    hide Consistent;
    hide Proxied;
    hide Converging;
    hide Untouched;
    hide Admitted;
    hide BatchInvariant.Accounts;
    hide BatchInvariant.LogOk;
    hide BatchInvariant.Distinct;
    hide SplitMetaKey;
    hide ServiceOk;
    hide Changed;
    hide NoticeOf;
    hide Notified;
    var step :| NextStep(c, s, s', step);
    if step.Apply? { ApplyFlawless(c, s, s', step.keys, versions); }
  }

  // ---- the clock ----

  lemma {:induction false} RemovalClock(c: Settings, core: Core, keys: seq<string>, n: nat)
    requires core.store.staged.Some? && n <= |keys|
    ensures RemoveListed(c, core, keys, n).store.clock >= core.store.clock
  {
    if n > 0 { RemovalClock(c, core, keys, n - 1); }
  }

  lemma NextClock(c: Settings, s: State, s': State)
    requires Next(c, s, s')
    ensures s'.core.store.clock >= s.core.store.clock
  {
    hide SyncPorts;
    hide RemoveListed;
    hide Lists;
    hide SplitMetaKey;
    hide ServiceOk;
    hide Changed;
    hide NoticeOf;
    hide Notified;
    var step :| NextStep(c, s, s', step);
    if step.Apply? && s.worker.pc.seen.None? { RemovalClock(c, s.core, step.keys, |step.keys|); }
  }

  lemma {:induction false} RunClock(c: Settings, path: seq<State>, n: nat)
    requires IsPath(c, path) && n < |path|
    ensures path[n].core.store.clock >= path[0].core.store.clock
  {
    hide Next;
    if n > 0 {
      RunClock(c, path, n - 1);
      NextClock(c, path[n - 1], path[n]);
    }
  }

  lemma FewerVersions(c: Settings, versions: set<Service>, all: set<Service>)
    requires versions <= all && Moderate(c, all)
    ensures Moderate(c, versions)
  {
    hide DistinctPortNames;
    hide KeyAt;
    assert TargetKeys(c, versions) <= TargetKeys(c, all);
    Fewer(TargetKeys(c, versions), TargetKeys(c, all));
  }

  lemma {:induction false} RunFlawless(c: Settings, path: seq<State>, n: nat)
    requires IsRun(c, path) && n < |path| && c.first < c.last && WillingFrom(c.env, path[0].core.store.clock)
    requires forall b :: b in path[0].core.store.committed.backends ==> !IsSvcBackend(b)
    requires Moderate(c, Versions(path, n))
    ensures Flawless(path[n].core)
  {
    hide Next;
    hide Inv;
    hide Moderate;
    hide IsSvcBackend;
    if n > 0 {
      hide Traced;
      hide Flawless;
      hide Initial;
      assert Versions(path, n - 1) <= Versions(path, n);
      FewerVersions(c, Versions(path, n - 1), Versions(path, n));
      RunFlawless(c, path, n - 1);
      RunTraced(c, path, n - 1);
      RunClock(c, path, n - 1);
      RunInv(c, path, n - 1);
      assert Reachable(c, path[n - 1]) by { assert IsRun(c, path[..n]) && path[..n][n - 1] == path[n - 1]; }
      hide Reachable;
      WillingLater(c.env, path[0].core.store.clock, path[n - 1].core.store.clock);
      NextFlawless(c, path[n - 1], path[n], Versions(path, n - 1));
    }
  }

  /** Nothing fails when the input is moderate. In a run whose commits succeed, with an
      HAProxy that does all it can and has no service backend at the start, if the
      delivered versions have distinct port names, one name for each target port number,
      and together no more target ports than the range, then every allowed service in
      the cache with a usable cluster IP has all its target ports mapped, or its key is
      pending. */
  lemma ModerateIsComplete(c: Settings, path: seq<State>, n: nat, key: string)
    requires IsRun(c, path) && n < |path| && c.first < c.last && WillingFrom(c.env, path[0].core.store.clock)
    requires forall b :: b in path[0].core.store.committed.backends ==> !IsSvcBackend(b)
    requires Moderate(c, Versions(path, n)) && path[n].core.store.clean
    requires key in path[n].lister && path[n].lister[key].ns in c.namespaces && Usable(path[n].lister[key])
    ensures path[n].core.failed == {}
    ensures Pending(path[n], key) || Complete(c, path[n].core.table, path[n].lister[key])
  {
    hide Next;
    hide Initial;
    hide Moderate;
    hide IsSvcBackend;
    hide BackendsOwned;
    hide Pending;
    hide Complete;
    hide Usable;
    hide WillingFrom;
    RunFlawless(c, path, n);
    assert IsRun(c, path[..n + 1]) && path[..n + 1][n] == path[n];
    assert Reachable(c, path[n]);
    hide Reachable;
    CompletenessConvergence(c, path[n], key);
  }
}
