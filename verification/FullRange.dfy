/** Runs that fill the port range, and what happens to the service that comes next. Each
    service needs only one target port, as the program is started. */
module FullRange {
  import opened Names
  import opened ServiceSync
  import opened PortLedger
  import opened ServiceRuns
  import opened CoreInvariant
  import opened Convergence
  import BatchInvariant
  import opened ServiceInvariant
  import ServiceTheorems
  import opened Creation
  import opened PassTheorems
  import opened Episodes
  import Witnesses
  import opened Origins
  import opened Sufficiency

  // ---- filling the range ----

  /** Different allowed services with one target port each. */
  ghost predicate Family(c: Settings, svcs: seq<Service>) {
    && (forall i :: 0 <= i < |svcs| ==>
          && IsLabel(svcs[i].ns) && IsLabel(svcs[i].name) && svcs[i].ns in c.namespaces && Usable(svcs[i])
          && |svcs[i].ports| == 1 && c.IsTarget(svcs[i].ports[0].name))
    && (forall i, j :: 0 <= i < j < |svcs| ==> (svcs[i].ns, svcs[i].name) != (svcs[j].ns, svcs[j].name))
  }

  ghost function Members(svcs: seq<Service>): set<Service> { set i | 0 <= i < |svcs| :: svcs[i] }

  ghost function FamilyKeys(c: Settings, svcs: seq<Service>, n: nat): set<string>
    requires Family(c, svcs) && n <= |svcs|
  {
    if n == 0 then {} else FamilyKeys(c, svcs, n - 1) + {KeyAt(svcs[n - 1], 0)}
  }

  lemma {:induction false} FamilySize(c: Settings, svcs: seq<Service>, n: nat)
    requires Family(c, svcs) && n <= |svcs|
    ensures |FamilyKeys(c, svcs, n)| <= n
  {
    hide KeyAt;
    hide Family;
    if n > 0 { FamilySize(c, svcs, n - 1); }
  }

  lemma {:induction false} FamilyHas(c: Settings, svcs: seq<Service>, n: nat, i: nat)
    requires Family(c, svcs) && i < n <= |svcs|
    ensures KeyAt(svcs[i], 0) in FamilyKeys(c, svcs, n)
  {
    hide MappingKey;
    hide IsLabel;
    if i < n - 1 { FamilyHas(c, svcs, n - 1, i); }
  }

  lemma FamilyIsModerate(c: Settings, svcs: seq<Service>)
    requires Family(c, svcs) && |svcs| <= c.last - c.first + 1
    ensures Moderate(c, Members(svcs))
  {
    hide IsLabel;
    hide MappingKey;
    var versions, keys := Members(svcs), FamilyKeys(c, svcs, |svcs|);
    forall k | k in TargetKeys(c, versions) ensures k in keys {
      var svc, a :| svc in versions && 0 <= a < |svc.ports| && c.IsTarget(svc.ports[a].name) && k == KeyAt(svc, a);
      var i :| 0 <= i < |svcs| && svcs[i] == svc;
      FamilyHas(c, svcs, |svcs|, i);
    }
    FamilySize(c, svcs, |svcs|);
    Fewer(TargetKeys(c, versions), keys);
  }

  /** What holds after the first m services. */
  ghost predicate Filled(c: Settings, s: State, svcs: seq<Service>, m: nat)
    requires m <= |svcs|
  {
    && Calm(s) && s.core.store.staged == None && s.core.store.clean && Flawless(s.core)
    && Sourced(c, s.core.table, Members(svcs)) && |s.core.table| == m && WillingFrom(c.env, s.core.store.clock)
    && forall k :: k in s.lister ==> exists i :: 0 <= i < m && k == MetaKey(svcs[i].ns, svcs[i].name)
  }

  lemma NotYetKnown(c: Settings, s: State, svcs: seq<Service>, m: nat)
    requires Family(c, svcs) && m < |svcs| && Filled(c, s, svcs, m)
    ensures MetaKey(svcs[m].ns, svcs[m].name) !in s.lister
  {
    hide MetaKey;
    hide IsLabel;
    hide Calm;
    hide Flawless;
    hide Sourced;
    hide WillingFrom;
    hide Usable;
    var key := MetaKey(svcs[m].ns, svcs[m].name);
    if key in s.lister {
      var i :| 0 <= i < m && key == MetaKey(svcs[i].ns, svcs[i].name);
      MetaKeyInjective(svcs[i].ns, svcs[i].name, svcs[m].ns, svcs[m].name);
    }
  }

  /** In a calm state an unknown service has no mapping. */
  lemma NotYetMapped(c: Settings, s: State, svc: Service)
    requires Reachable(c, s) && Calm(s) && MetaKey(svc.ns, svc.name) !in s.lister
    requires IsLabel(svc.ns) && IsLabel(svc.name) && |svc.ports| == 1
    ensures KeyAt(svc, 0) !in s.core.table
  {
    hide Reachable;
    hide MetaKey;
    hide MappingKey;
    hide IsLabel;
    hide BackendName;
    hide FrontendName;
    hide BindName;
    hide Complete;
    hide Usable;
    ServiceTheorems.Quiescent(c, s);
    Witnesses.ReachableNamed(c, s);
    var k := KeyAt(svc, 0);
    if k in s.core.table {
      var m := s.core.table[k];
      assert WellNamed(k, m);
      MappingKeyInjective(m.ns, m.service, m.portName, svc.ns, svc.name, svc.ports[0].name);
    }
  }

  /** The next service is mapped. */
  lemma PassFills(c: Settings, s: State, svc: Service, versions: set<Service>)
    requires Reachable(c, s) && s.worker.Busy? && s.worker.pc == Applying(Some(svc)) && c.first < c.last
    requires s.core.store.clean && WillingFrom(c.env, s.core.store.clock) && Usable(svc)
    requires Sourced(c, s.core.table, versions) && Moderate(c, versions) && svc in versions && Flawless(s.core)
    requires |svc.ports| == 1 && IsNew(c, s.core.table, svc, 0)
    ensures s.core.store.staged.Some?
    ensures var now := ProcessService(c, s.core, svc);
            && now.store.clean && Flawless(now) && Sourced(c, now.table, versions) && |now.table| == |s.core.table| + 1
  {
    assert DistinctPortNames(svc);
    AppliedPass(c, s, svc, versions);
    ReachableStart(c, s, svc);
    PassCompleteIff(c, s, svc);
    var core := Retried(s.core, svc);
    assert core.store.staged.Some? && IsLabel(svc.ns) && IsLabel(svc.name) && Consistent(c, core) by { StartMeans(c, core, svc); }
    PassInduction(c, core, svc, 1);
    hide PassStart;
    hide Reachable;
    hide Consistent;
    hide Sourced;
    hide Moderate;
    hide IsLabel;
    hide MappingKey;
    hide SyncPorts;
    hide WillingFrom;
    hide DistinctPortNames;
    hide Complete;
    hide BackendsOwned;
    CompleteIsCompleteTo(c, SyncPorts(c, core, svc, 1).table, svc);
    PassKeepsOrigins(c, core, versions, svc, 1);
    AllFits(c, s, core, svc, versions);
    assert NewCount(c, core.table, svc, 1) == 1 by { assert NewCount(c, core.table, svc, 0) == 0; }
  }

  lemma AllFits(c: Settings, s: State, core: Core, svc: Service, versions: set<Service>)
    requires core == Retried(s.core, svc) && core.store.staged.Some? && Consistent(c, core) && c.first < c.last
    requires s.core.store.clean && Sourced(c, s.core.table, versions) && Moderate(c, versions) && svc in versions && Flawless(s.core)
    requires IsLabel(svc.ns) && IsLabel(svc.name)
    ensures Fits(c, core, svc, |svc.ports|)
  {
    hide Consistent;
    hide Sourced;
    hide Moderate;
    hide IsLabel;
    hide Fits;
    PassFits(c, core, svc, versions);
  }

  /** A new service becomes known and is mapped. */
  lemma AddNew(c: Settings, origin: State, s: State, svc: Service, versions: set<Service>) returns (t: State)
    requires Reachable(c, origin) && Leads(c, origin, s) && c.first < c.last && Calm(s) && s.core.store.clean && s.core.store.staged == None
    requires IsLabel(svc.ns) && IsLabel(svc.name) && svc.ns in c.namespaces && Usable(svc) && |svc.ports| == 1
    requires MetaKey(svc.ns, svc.name) !in s.lister && IsNew(c, s.core.table, svc, 0)
    requires Sourced(c, s.core.table, versions) && Moderate(c, versions) && svc in versions && Flawless(s.core)
    requires WillingFrom(c.env, s.core.store.clock)
    ensures Leads(c, origin, t) && Calm(t) && t.core.store.clean && t.core.store.staged == None && Flawless(t.core)
    ensures Sourced(c, t.core.table, versions) && |t.core.table| == |s.core.table| + 1
    ensures WillingFrom(c.env, t.core.store.clock) && t.lister == s.lister[MetaKey(svc.ns, svc.name) := svc]
  {
    var key := MetaKey(svc.ns, svc.name);
    Witnesses.SplitsKey(svc);
    hide Leads;
    hide Reachable;
    hide IsLabel;
    hide MetaKey;
    hide SplitMetaKey;
    hide KeyOk;
    hide Calm;
    hide Moderate;
    hide Sourced;
    hide IsNew;
    hide WillingFrom;
    hide ProcessService;
    hide Usable;
    hide BackendsOwned;
    var mid := Deliver(c, origin, s, key, Some(svc));
    LeadsReachable(c, origin, mid);
    PassFills(c, mid, svc, versions);
    var now := ProcessService(c, mid.core, svc);
    t := Conclude(c, origin, mid, key, Some(svc), [], now, true);
    WillingLater(c.env, s.core.store.clock, now.store.clock);
  }

  lemma FillOne(c: Settings, origin: State, s: State, svcs: seq<Service>, m: nat) returns (t: State)
    requires Reachable(c, origin) && Leads(c, origin, s) && c.first < c.last && Family(c, svcs) && m < |svcs| <= c.last - c.first + 1
    requires Filled(c, s, svcs, m)
    ensures Leads(c, origin, t) && Filled(c, t, svcs, m + 1)
  {
    var svc := svcs[m];
    assert IsLabel(svc.ns) && IsLabel(svc.name) && svc in Members(svcs);
    hide Leads;
    hide Reachable;
    hide IsLabel;
    hide MetaKey;
    hide MappingKey;
    hide Usable;
    hide WillingFrom;
    hide Sourced;
    hide Flawless;
    hide Calm;
    hide Moderate;
    FamilyIsModerate(c, svcs);
    NotYetKnown(c, s, svcs, m);
    LeadsReachable(c, origin, s);
    NotYetMapped(c, s, svc);
    t := AddNew(c, origin, s, svc, Members(svcs));
    forall k | k in t.lister ensures exists i :: 0 <= i < m + 1 && k == MetaKey(svcs[i].ns, svcs[i].name) {
      if k in s.lister {
        var i :| 0 <= i < m && k == MetaKey(svcs[i].ns, svcs[i].name);
        assert 0 <= i < m + 1;
      } else {
        assert k == MetaKey(svcs[m].ns, svcs[m].name);
      }
    }
  }

  /** The range fills: as many different services as it has ports become known one after
      the other to an HAProxy that does all it can and has no service backend. */
  lemma {:induction false} RangeFills(c: Settings, s: State, svcs: seq<Service>, m: nat) returns (t: State)
    requires Initial(s) && c.first < c.last && WillingFrom(c.env, s.core.store.clock)
    requires forall b :: b in s.core.store.committed.backends ==> !IsSvcBackend(b)
    requires Family(c, svcs) && m <= |svcs| <= c.last - c.first + 1
    ensures Leads(c, s, t) && Filled(c, t, svcs, m)
  {
    InitialIsCalm(c, s);
    hide Leads;
    hide Reachable;
    hide Family;
    if m == 0 {
      hide IsSvcBackend;
      hide IsSvcFrontend;
      hide WillingFrom;
      t := s;
    } else {
      hide Filled;
      hide Initial;
      var before := RangeFills(c, s, svcs, m - 1);
      t := FillOne(c, s, before, svcs, m - 1);
    }
  }

  // ---- a service too many ----

  /** A full range turns a service away, and it is not tried again: from every calm reachable state whose
      table is as large as the range, a service with an unmapped target port becomes
      known, in any environment, and the run goes on to a calm state in which the port is
      not mapped. */
  lemma FullRangeLoses(c: Settings, s: State, svc: Service, i: nat) returns (t: State)
    requires Reachable(c, s) && Calm(s) && c.first < c.last && |s.core.table| == c.last - c.first + 1
    requires IsLabel(svc.ns) && IsLabel(svc.name) && CanChange(s.lister, MetaKey(svc.ns, svc.name), Some(svc))
    requires svc.ns in c.namespaces && Usable(svc) && DistinctPortNames(svc)
    requires i < |svc.ports| && c.IsTarget(svc.ports[i].name) && KeyAt(svc, i) !in s.core.table
    ensures Reachable(c, t) && Calm(t) && Lookup(t.lister, MetaKey(svc.ns, svc.name)) == Some(svc)
    ensures KeyAt(svc, i) !in t.core.table
  {
    var key := MetaKey(svc.ns, svc.name);
    Witnesses.SplitsKey(svc);
    LeadsSelf(c, s);
    hide Leads;
    hide Reachable;
    hide IsLabel;
    hide MetaKey;
    hide SplitMetaKey;
    hide KeyOk;
    hide Calm;
    hide SyncPorts;
    hide MappingKey;
    hide DistinctPortNames;
    hide CanChange;
    hide Consistent;
    var mid := Deliver(c, s, s, key, Some(svc));
    LeadsReachable(c, s, mid);
    ReachableConsistent(c, mid);
    var core := Retried(mid.core, svc);
    RetriedKeeps(c, mid.core, svc);
    FullPass(c, core, svc, |svc.ports|);
    var now := SyncPorts(c, core, svc, |svc.ports|);
    assert ProcessService(c, mid.core, svc) == now;
    t := Conclude(c, s, mid, key, Some(svc), [], now, true);
    LeadsReachable(c, s, t);
  }

  lemma ReachableConsistent(c: Settings, s: State)
    requires Reachable(c, s)
    ensures Consistent(c, s.core)
  {
    hide Reachable;
    hide BatchInvariant.Books;
    hide KeysOk;
    hide Proxied;
    hide Converging;
    hide Unapplied;
    hide Consistent;
    ReachableInv(c, s);
  }

  lemma {:induction false} FullPass(c: Settings, core: Core, svc: Service, n: nat)
    requires core.store.staged.Some? && Consistent(c, core) && c.first < c.last && n <= |svc.ports|
    requires |core.table| == c.last - c.first + 1
    ensures SyncPorts(c, core, svc, n).table == core.table && SyncPorts(c, core, svc, n).ledger == core.ledger
  {
    hide Consistent;
    hide CreateProxy;
    hide MappingKey;
    hide NewMapping;
    hide FirstFree;
    if n > 0 {
      FullPass(c, core, svc, n - 1);
      Conservation(c, core);
    }
  }

  /** One service more than the range has ports: a run ends with it known, nothing
      pending, and its port not mapped. */
  lemma OneTooMany(c: Settings, s: State, svcs: seq<Service>, svc: Service) returns (t: State)
    requires Initial(s) && c.first < c.last && WillingFrom(c.env, s.core.store.clock)
    requires forall b :: b in s.core.store.committed.backends ==> !IsSvcBackend(b)
    requires Family(c, svcs + [svc]) && |svcs| == c.last - c.first + 1
    ensures Reachable(c, t) && Calm(t) && Lookup(t.lister, MetaKey(svc.ns, svc.name)) == Some(svc)
    ensures |svc.ports| == 1 && KeyAt(svc, 0) !in t.core.table
  {
    FamilyShrinks(c, svcs, svc);
    InitialIsCalm(c, s);
    var full := RangeFills(c, s, svcs, |svcs|);
    LeadsReachable(c, s, full);
    hide Reachable;
    hide Leads;
    hide Initial;
    hide IsLabel;
    hide MetaKey;
    hide MappingKey;
    hide WillingFrom;
    hide Flawless;
    hide Sourced;
    hide IsSvcBackend;
    NewcomerUnknown(c, full, svcs, svc);
    NotYetMapped(c, full, svc);
    assert CanChange(full.lister, MetaKey(svc.ns, svc.name), Some(svc));
    t := FullRangeLoses(c, full, svc, 0);
  }

  lemma FamilyShrinks(c: Settings, svcs: seq<Service>, svc: Service)
    requires Family(c, svcs + [svc])
    ensures Family(c, svcs) && IsLabel(svc.ns) && IsLabel(svc.name) && svc.ns in c.namespaces && Usable(svc)
    ensures |svc.ports| == 1 && c.IsTarget(svc.ports[0].name)
  {
    hide IsLabel;
    var all := svcs + [svc];
    assert all[|svcs|] == svc;
    assert forall i :: 0 <= i < |svcs| ==> all[i] == svcs[i];
  }

  lemma NewcomerUnknown(c: Settings, s: State, svcs: seq<Service>, svc: Service)
    requires Family(c, svcs + [svc]) && Filled(c, s, svcs, |svcs|)
    ensures MetaKey(svc.ns, svc.name) !in s.lister
  {
    hide MetaKey;
    hide IsLabel;
    hide Calm;
    hide Flawless;
    hide Sourced;
    hide WillingFrom;
    hide Usable;
    var all, key := svcs + [svc], MetaKey(svc.ns, svc.name);
    if key in s.lister {
      var i :| 0 <= i < |svcs| && key == MetaKey(svcs[i].ns, svcs[i].name);
      assert all[i] == svcs[i] && all[|svcs|] == svc;
      MetaKeyInjective(svcs[i].ns, svcs[i].name, svc.ns, svc.name);
    }
  }
}
