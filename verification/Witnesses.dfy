/** Runs that end badly although HAProxy does all it can, or all but one request. They need
    more than one target port name, which the controller's interface allows and the
    command line does not pass. */
module Witnesses {
  import opened Names
  import opened HaproxyStore
  import opened ServiceSync
  import opened PortLedger
  import opened ProxyAgreement
  import opened ServiceRuns
  import opened CoreInvariant
  import opened Convergence
  import StaleReads
  import opened Creation
  import opened PassTheorems
  import opened BatchInvariant
  import ServiceInvariant
  import opened ServiceTheorems
  import opened Episodes
  import Drain

  // ---- two target ports of one number ----

  lemma SplitsKey(svc: Service)
    requires IsLabel(svc.ns) && IsLabel(svc.name)
    ensures var key := MetaKey(svc.ns, svc.name);
            KeyOk(key) && ServiceOk(key, svc) && SplitMetaKey(key) == Some((svc.ns, svc.name))
  {
    MetaKeyRoundTrip(svc.ns, svc.name);
  }

  /** Two target ports of one number, as a service with a UDP and a TCP port 53 has
      them, are not both mapped when they become known together: the service is
      synchronised once, and the run ends clean, with the key not pending and a target
      port unmapped. */
  lemma SameNumberIsLost(c: Settings, s: State, svc: Service, i: nat, j: nat) returns (t: State)
    requires Initial(s) && c.first < c.last && WillingFrom(c.env, s.core.store.clock)
    requires IsLabel(svc.ns) && IsLabel(svc.name) && svc.ns in c.namespaces && Usable(svc) && DistinctPortNames(svc)
    requires i < j < |svc.ports| && svc.ports[i].port == svc.ports[j].port
    requires c.IsTarget(svc.ports[i].name) && c.IsTarget(svc.ports[j].name)
    ensures Reachable(c, t) && t.core.store.clean && Calm(t)
    ensures Lookup(t.lister, MetaKey(svc.ns, svc.name)) == Some(svc) && !Complete(c, t.core.table, svc)
  {
    var key := MetaKey(svc.ns, svc.name);
    SplitsKey(svc);
    InitialIsCalm(c, s);
    hide Leads;
    hide Reachable;
    hide IsLabel;
    hide MetaKey;
    hide IsSvcFrontend;
    hide WillingFrom;
    hide DistinctPortNames;
    hide SplitMetaKey;
    hide KeyOk;
    hide Calm;
    hide ProcessService;
    hide MappingKey;
    var mid := Deliver(c, s, s, key, Some(svc));
    LeadsReachable(c, s, mid);
    PassCompleteIff(c, mid, svc);
    assert !Fits(c, mid.core, svc, |svc.ports|) by {
      assert IsNew(c, mid.core.table, svc, i) && IsNew(c, mid.core.table, svc, j);
    }
    t := Conclude(c, s, mid, key, Some(svc), [], ProcessService(c, mid.core, svc), true);
    LeadsReachable(c, s, t);
  }

  // ---- a backend that is staged and abandoned ----

  /** HAProxy refuses the third of these requests and does all it can with the others. */
  ghost predicate RefusesThird(env: Environment, n: nat) {
    env(n) == Done && env(n + 1) == Done && env(n + 2) == Failed && WillingFrom(env, n + 3)
  }

  /** An empty HAProxy refuses the server: the backend stays behind in the transaction. */
  lemma Abandoned(env: Environment, st: Store, m: Mapping)
    requires RefusesThird(env, st.clock) && st.staged == Some(Nothing()) && st.committed == Nothing()
    ensures var (st', ok) := CreateProxy(env, st, m);
            && !ok && st'.clock == st.clock + 3 && (st'.clean <==> st.clean)
            && st'.staged == Some(Nothing().(backends := map[m.backendName := map[]]))
  {
    hide ServerName;
    hide StageFrontend;
  }

  lemma FirstIsAbandoned(c: Settings, core: Core, svc: Service)
    requires c.first < c.last && RefusesThird(c.env, core.store.clock) && core.store.clean
    requires core.store.staged == Some(Nothing()) && core.store.committed == Nothing()
    requires core.table == map[] && core.ledger == map[] && |svc.ports| > 0 && c.IsTarget(svc.ports[0].name)
    ensures var mid, b := SyncPorts(c, core, svc, 1), BackendName(svc.ns, svc.name, svc.ports[0].port);
            && mid.table == map[] && mid.store.clean && mid.store.clock == core.store.clock + 3
            && FirstFree(mid.ledger, c.first, c.last) == Some(c.first)
            && mid.store.staged == Some(Nothing().(backends := map[b := map[]]))
  {
    hide CreateProxy;
    hide MappingKey;
    hide BackendName;
    hide FrontendName;
    hide BindName;
    hide FirstFree;
    hide SyncPort;
    hide Nothing;
    assert SyncPorts(c, core, svc, 0) == core;
    var mid := SyncPort(c, core, svc, svc.ports[0]);
    FreeIs(core.ledger, c.first, c.last, c.first);
    Abandoned(c.env, core.store, NewMapping(svc, svc.ports[0], c.first));
    NewPortStep(c, core, svc, svc.ports[0]);
    SyncPortShape(c, core, svc, svc.ports[0]);
    FreeIs(mid.ledger, c.first, c.last, c.first);
  }

  lemma SecondIsLost(c: Settings, core: Core, svc: Service)
    requires WillingFrom(c.env, core.store.clock) && core.store.clean && |svc.ports| == 2
    requires core.store.committed == Nothing() && core.table == map[] && FirstFree(core.ledger, c.first, c.last).Some?
    requires core.store.staged == Some(Nothing().(backends := map[BackendName(svc.ns, svc.name, svc.ports[1].port) := map[]]))
    requires c.IsTarget(svc.ports[1].name)
    ensures var now := SyncPort(c, core, svc, svc.ports[1]); now.table == map[] && now.store.clean
  {
    hide CreateProxy;
    hide MappingKey;
    hide BackendName;
    hide FrontendName;
    hide BindName;
    hide FirstFree;
    hide SyncPort;
    var m := NewMapping(svc, svc.ports[1], FirstFree(core.ledger, c.first, c.last).value);
    StaleReadLosesCreation(c.env, core.store, m);
    WillingCreation(c.env, core.store, m);
    NewPortStep(c, core, svc, svc.ports[1]);
    SyncPortShape(c, core, svc, svc.ports[1]);
  }

  /** One refused request costs a port that HAProxy could have served: a service with two
      target ports of one number becomes known to an empty HAProxy, which refuses the
      first port's server and nothing else. The second creation reads that there is no
      backend, tries to add it, and fails. By StaleReadLosesCreation it would have
      succeeded had the read seen the open transaction. */
  lemma AbandonedBackendIsLost(c: Settings, s: State, svc: Service) returns (t: State)
    requires Initial(s) && s.core.store.committed == Nothing() && c.first < c.last && RefusesThird(c.env, s.core.store.clock)
    requires IsLabel(svc.ns) && IsLabel(svc.name) && svc.ns in c.namespaces && Usable(svc)
    requires |svc.ports| == 2 && svc.ports[0].port == svc.ports[1].port
    requires c.IsTarget(svc.ports[0].name) && c.IsTarget(svc.ports[1].name)
    ensures Reachable(c, t) && Calm(t) && t.core.store.clean && t.core.table == map[]
    ensures Lookup(t.lister, MetaKey(svc.ns, svc.name)) == Some(svc)
  {
    var key := MetaKey(svc.ns, svc.name);
    SplitsKey(svc);
    InitialIsCalm(c, s);
    hide Leads;
    hide Reachable;
    hide IsLabel;
    hide MetaKey;
    hide IsSvcFrontend;
    hide SplitMetaKey;
    hide KeyOk;
    hide Calm;
    hide SyncPort;
    hide FirstFree;
    hide Nothing;
    hide BackendName;
    var mid := Deliver(c, s, s, key, Some(svc));
    var core := Retried(mid.core, svc);
    FirstIsAbandoned(c, core, svc);
    SecondIsLost(c, SyncPorts(c, core, svc, 1), svc);
    var now := SyncPorts(c, core, svc, 2);
    assert ProcessService(c, mid.core, svc) == now;
    t := Conclude(c, s, mid, key, Some(svc), [], now, true);
    LeadsReachable(c, s, t);
  }

  // ---- a port that is renamed ----

  /** The configuration of an empty HAProxy, and of one with a single mapping. */
  function Nothing(): Config { Config(map[], map[]) }

  function OneProxy(m: Mapping): Config {
    var server := ServerName(m.clusterIP, m.servicePort);
    var servers: map<string, string> := map[server := server];
    var binds: map<string, int> := map[m.bindName := m.mappedPort];
    Config(map[m.backendName := servers], map[m.frontendName := Frontend(m.backendName, binds)])
  }

  /** The first synchronisation of a one-port service in an empty HAProxy. */
  lemma FirstVersion(c: Settings, core: Core, svc: Service)
    requires c.first < c.last && WillingFor(c.env, core.store.clock, 6) && |svc.ports| == 1 && c.IsTarget(svc.ports[0].name)
    requires core.table == map[] && core.ledger == map[] && core.store.clean
    requires core.store.staged == Some(Nothing()) && core.store.committed == Nothing()
    ensures var once, m := SyncPorts(c, core, svc, 1), NewMapping(svc, svc.ports[0], c.first);
            && once.table == map[FirstKey(svc) := m] && once.ledger == map[c.first := true]
            && once.store.clean && once.store.clock == core.store.clock + 6
            && once.store.staged == Some(OneProxy(m))
  {
    hide CreateProxy;
    hide MappingKey;
    hide BackendName;
    hide FrontendName;
    hide BindName;
    hide ServerName;
    hide SyncPorts;
    hide FirstFree;
    hide Commit;
    var m := NewMapping(svc, svc.ports[0], c.first);
    FreeIs(core.ledger, c.first, c.last, c.first);
    WillingCreation(c.env, core.store, m);
    CreatedConfig(c.env, core.store, m);
    OnePortPass(c, core, svc, c.first);
  }

  /** Two versions of a one-port service: the port was renamed and the address changed. */
  predicate Renamed(svc: Service, svc': Service) {
    && |svc.ports| == 1 && |svc'.ports| == 1 && IsLabel(svc.ns) && IsLabel(svc.name)
    && svc'.ns == svc.ns && svc'.name == svc.name
    && svc.ports[0].port == svc'.ports[0].port && svc.ports[0].name != svc'.ports[0].name
    && ServerName(svc.clusterIP, svc.ports[0].port) != ServerName(svc'.clusterIP, svc.ports[0].port)
  }

  function FirstKey(svc: Service): string
    requires |svc.ports| > 0
  {
    MappingKey(svc.ns, svc.name, svc.ports[0].name)
  }

  /** Both keys are mapped, on one backend. */
  ghost predicate Shares(core: Core, key: string, key': string) {
    && core.shared && key != key' && key in core.table && key' in core.table
    && core.table[key].backendName == core.table[key'].backendName
  }

  /** The second synchronisation, of a version with another port name. */
  lemma SecondVersion(c: Settings, core: Core, svc: Service, svc': Service)
    requires c.first < c.last && WillingFor(c.env, core.store.clock, 6) && Renamed(svc, svc') && c.IsTarget(svc'.ports[0].name)
    requires core.table == map[FirstKey(svc) := NewMapping(svc, svc.ports[0], c.first)]
    requires core.ledger == map[c.first := true]
    requires core.store.clean && core.store.staged == Some(core.store.committed)
    requires core.store.committed == OneProxy(NewMapping(svc, svc.ports[0], c.first))
    ensures var twice := SyncPorts(c, core, svc', 1); twice.store.clean && Shares(twice, FirstKey(svc), FirstKey(svc'))
  {
    hide CreateProxy;
    hide MappingKey;
    hide BackendName;
    hide FrontendName;
    hide BindName;
    hide ServerName;
    hide SyncPorts;
    hide FirstFree;
    hide IsLabel;
    hide WillingFor;
    hide OneProxy;
    hide BackendReadIsCurrent;
    hide FrontendReadIsCurrent;
    var m' := NewMapping(svc', svc'.ports[0], c.first + 1);
    FreeIs(core.ledger, c.first, c.last, c.first + 1);
    RenamedKeys(svc, svc');
    RenamedUnobstructed(c, core.store, svc, svc');
    WillingCreation(c.env, core.store, m');
    OnePortPass(c, core, svc', c.first + 1);
  }

  lemma RenamedKeys(svc: Service, svc': Service)
    requires Renamed(svc, svc')
    ensures FirstKey(svc) != FirstKey(svc')
  {
    if FirstKey(svc) == FirstKey(svc') {
      MappingKeyInjective(svc.ns, svc.name, svc.ports[0].name, svc.ns, svc.name, svc'.ports[0].name);
    }
  }

  /** Nothing stands in the way of the second version's mapping. */
  lemma RenamedUnobstructed(c: Settings, st: Store, svc: Service, svc': Service)
    requires Renamed(svc, svc') && st.staged == Some(st.committed)
    requires st.committed == OneProxy(NewMapping(svc, svc.ports[0], c.first))
    ensures var m := NewMapping(svc', svc'.ports[0], c.first + 1);
            Unobstructed(st, m) && m.frontendName !in st.staged.value.frontends
  {
    hide BackendName;
    hide FrontendName;
    hide BindName;
    hide ServerName;
    hide IsLabel;
    FrontendNameInjective(svc.ns, svc.name, c.first, svc.ns, svc.name, c.first + 1);
  }

  lemma FreeIs(ledger: map<int, bool>, first: int, last: int, p: int)
    requires first <= p <= last && !Taken(ledger, p) && forall q :: first <= q < p ==> Taken(ledger, q)
    ensures FirstFree(ledger, first, last) == Some(p)
  {
  }

  lemma OnePortPass(c: Settings, core: Core, svc: Service, p: int)
    requires core.store.staged.Some? && |svc.ports| == 1 && c.IsTarget(svc.ports[0].name)
    requires FirstKey(svc) !in core.table
    requires FirstFree(core.ledger, c.first, c.last) == Some(p)
    requires CreateProxy(c.env, core.store, NewMapping(svc, svc.ports[0], p)).1
    ensures var m := NewMapping(svc, svc.ports[0], p);
            SyncPorts(c, core, svc, 1)
            == Insert(core, FirstKey(svc), m, CreateProxy(c.env, core.store, m).0)
  {
    hide CreateProxy;
    hide MappingKey;
    hide NewMapping;
    hide FirstFree;
    hide Insert;
    assert SyncPorts(c, core, svc, 0) == core;
  }

  lemma CreatedConfig(env: Environment, st: Store, m: Mapping)
    requires WillingFor(env, st.clock, 6) && st.staged == Some(Nothing()) && st.committed == Nothing()
    ensures CreateProxy(env, st, m).0.staged == Some(OneProxy(m))
  {
    hide Perform;
    hide StageBackend;
    hide StageServer;
    hide StageFrontend;
    hide ServerName;
    var b, f, server := m.backendName, m.frontendName, ServerName(m.clusterIP, m.servicePort);
    WillingBackend(env, st, b);
    var st1 := StageBackend(env, st, b).0;
    WillingServer(env, st1, b, server);
    var st2 := StageServer(env, st1, b, server).0;
    WillingFrontend(env, st2, f, b);
    var st3 := StageFrontend(env, st2, f, b).0;
    WillingPerform(env, st3, AddBind(f, m.bindName, m.mappedPort));
    assert st2.staged.value.backends == map[b := map[server := server]];
    assert st3.staged.value.frontends == map[f := Frontend(b, map[])];
    OneFrontend(f, b, m.bindName, m.mappedPort);
  }

  lemma OneFrontend(f: string, b: string, n: string, p: int)
    ensures var frontends: map<string, Frontend> := map[f := Frontend(b, map[])];
            frontends[f := frontends[f].(binds := frontends[f].binds[n := p])] == map[f := Frontend(b, map[n := p])]
  {
    var binds: map<string, int> := map[];
    assert binds[n := p] == map[n := p];
  }

  // ---- from the first version to the deletion ----

  lemma WillingNow(env: Environment, n: nat)
    requires WillingFrom(env, n)
    ensures WillingFor(env, n, 6)
  {
  }

  /** The first version of a one-port service becomes known to an empty HAProxy; the
      commit may fail. */
  lemma KnowFirst(c: Settings, s: State, svc: Service, ok: bool) returns (t: State)
    requires Initial(s) && s.core.store.committed == Nothing() && c.first < c.last
    requires WillingFor(c.env, s.core.store.clock, 6) && |svc.ports| == 1 && c.IsTarget(svc.ports[0].name)
    requires IsLabel(svc.ns) && IsLabel(svc.name) && svc.ns in c.namespaces && Usable(svc)
    ensures Leads(c, s, t) && Calm(t) && Lookup(t.lister, MetaKey(svc.ns, svc.name)) == Some(svc)
    ensures t.core.table == map[FirstKey(svc) := NewMapping(svc, svc.ports[0], c.first)]
    ensures t.core.ledger == map[c.first := true] && t.core.store.staged == None && (t.core.store.clean <==> ok)
    ensures t.core.store.committed == if ok then OneProxy(NewMapping(svc, svc.ports[0], c.first)) else Nothing()
    ensures t.core.store.clock == s.core.store.clock + 6
  {
    var key := MetaKey(svc.ns, svc.name);
    SplitsKey(svc);
    InitialIsCalm(c, s);
    hide Leads;
    hide Reachable;
    hide IsLabel;
    hide MetaKey;
    hide IsSvcFrontend;
    hide WillingFor;
    hide SplitMetaKey;
    hide KeyOk;
    hide Calm;
    hide SyncPorts;
    hide FirstKey;
    hide NewMapping;
    hide OneProxy;
    var mid := Deliver(c, s, s, key, Some(svc));
    var core := Retried(mid.core, svc);
    FirstVersion(c, core, svc);
    var once := SyncPorts(c, core, svc, 1);
    assert ProcessService(c, mid.core, svc) == once;
    t := Conclude(c, s, mid, key, Some(svc), [], once, ok);
  }

  /** The second version follows. */
  lemma KnowSecond(c: Settings, origin: State, s: State, svc: Service, svc': Service) returns (t: State)
    requires Leads(c, origin, s) && Calm(s) && c.first < c.last && Renamed(svc, svc') && c.IsTarget(svc'.ports[0].name)
    requires svc.ns in c.namespaces && Usable(svc') && svc'.version != svc.version
    requires Lookup(s.lister, MetaKey(svc.ns, svc.name)) == Some(svc)
    requires s.core.table == map[FirstKey(svc) := NewMapping(svc, svc.ports[0], c.first)]
    requires s.core.ledger == map[c.first := true] && s.core.store.clean
    requires s.core.store.committed == OneProxy(NewMapping(svc, svc.ports[0], c.first))
    requires WillingFrom(c.env, s.core.store.clock)
    ensures Leads(c, origin, t) && Calm(t) && Lookup(t.lister, MetaKey(svc.ns, svc.name)) == Some(svc')
    ensures Shares(t.core, FirstKey(svc), FirstKey(svc')) && t.core.store.clean
    ensures WillingFrom(c.env, t.core.store.clock)
  {
    var key := MetaKey(svc.ns, svc.name);
    SplitsKey(svc);
    hide Leads;
    hide IsLabel;
    hide MetaKey;
    hide WillingFrom;
    hide SplitMetaKey;
    hide KeyOk;
    hide Calm;
    hide SyncPorts;
    hide FirstKey;
    hide NewMapping;
    hide OneProxy;
    hide ServerName;
    var mid := Deliver(c, origin, s, key, Some(svc'));
    var core := Retried(mid.core, svc');
    WillingNow(c.env, core.store.clock);
    SecondVersion(c, core, svc, svc');
    var twice := SyncPorts(c, core, svc', 1);
    assert ProcessService(c, mid.core, svc') == twice;
    t := Conclude(c, origin, mid, key, Some(svc'), [], twice, true);
    WillingLater(c.env, s.core.store.clock, twice.store.clock);
  }

  // ---- the deletion ----

  lemma WillingDelete(env: Environment, st: Store, op: Op)
    requires st.staged.Some? && WillingFrom(env, st.clock) && (op.DeleteFrontend? || op.DeleteBackend?)
    ensures var st' := Perform(env, st, op).0; (st.clean ==> st'.clean) && st'.clock == st.clock + 1
  {
    WillingPerform(env, st, op);
  }

  lemma {:induction false} WillingRemoval(c: Settings, core: Core, keys: seq<string>, n: nat)
    requires core.store.staged.Some? && n <= |keys| && WillingFrom(c.env, core.store.clock) && core.store.clean
    ensures var st := RemoveListed(c, core, keys, n).store; st.clean && st.clock >= core.store.clock
  {
    hide Perform;
    if n > 0 {
      WillingRemoval(c, core, keys, n - 1);
      var before := RemoveListed(c, core, keys, n - 1);
      if keys[n - 1] in before.table {
        var m := before.table[keys[n - 1]];
        WillingLater(c.env, core.store.clock, before.store.clock);
        WillingDelete(c.env, before.store, DeleteFrontend(m.frontendName));
        var st := Perform(c.env, before.store, DeleteFrontend(m.frontendName)).0;
        WillingDelete(c.env, st, DeleteBackend(m.backendName));
      }
    }
  }

  /** Two mappings of the service on one backend are listed, with one service port. */
  lemma SharedAreListed(core: Core, svc: Service, keys: seq<string>, k: string, k': string)
    requires Named(core.table) && IsLabel(svc.ns) && IsLabel(svc.name)
    requires Lists(keys, core.table, ServicePrefix(svc.ns, svc.name)) && Shares(core, k, k')
    requires ServicePrefix(svc.ns, svc.name) <= k && ServicePrefix(svc.ns, svc.name) <= k'
    ensures !DistinctServicePorts(keys, core.table)
  {
    hide ServicePrefix;
    hide Named;
    assert k in keys && k' in keys;
    var i :| 0 <= i < |keys| && keys[i] == k;
    var j :| 0 <= j < |keys| && keys[j] == k';
    SamePort(core.table, k, k');
    assert i < j || j < i;
  }

  lemma FirstKeyPrefix(svc: Service)
    requires |svc.ports| > 0 && IsLabel(svc.ns) && IsLabel(svc.name)
    ensures ServicePrefix(svc.ns, svc.name) <= FirstKey(svc)
  {
    PrefixIsExact(svc.ns, svc.name, svc.ns, svc.name, svc.ports[0].name);
  }

  lemma ReachableNamed(c: Settings, s: State)
    requires Reachable(c, s)
    ensures Named(s.core.table)
  {
    hide Reachable;
    hide Books;
    hide KeysOk;
    hide Proxied;
    hide Converging;
    hide StaleReads.Untouched;
    hide ServiceInvariant.Unapplied;
    hide Named;
    ServiceInvariant.ReachableInv(c, s);
  }

  /** The removal of a service two of whose mappings share a backend. */
  lemma RemoveShared(c: Settings, origin: State, s: State, svc: Service, k: string, k': string) returns (t: State)
    requires Reachable(c, s) && Leads(c, origin, s) && s.core.store.staged.Some? && IsLabel(svc.ns) && IsLabel(svc.name)
    requires About(s, MetaKey(svc.ns, svc.name), None, s.core)
    requires s.core.store.clean && WillingFrom(c.env, s.core.store.clock)
    requires Shares(s.core, k, k') && ServicePrefix(svc.ns, svc.name) <= k && ServicePrefix(svc.ns, svc.name) <= k'
    ensures Leads(c, origin, t) && Calm(t) && t.core.store.clean && !AllClosed(t.core.store.trail)
  {
    var key := MetaKey(svc.ns, svc.name);
    SplitsKey(svc);
    hide Leads;
    hide Reachable;
    hide IsLabel;
    hide MetaKey;
    hide WillingFrom;
    hide SplitMetaKey;
    hide KeyOk;
    hide Calm;
    hide Closed;
    hide AllClosed;
    hide ServicePrefix;
    hide Named;
    hide RemoveListed;
    hide DistinctServicePorts;
    hide Lists;
    hide Shares;
    hide InHandAlone;
    ReachableNamed(c, s);
    var prefix := ServicePrefix(svc.ns, svc.name);
    var keys := Drain.Picked(s.core.table, prefix, s.core.table.Keys);
    PickedLists(s.core.table, prefix);
    var core := RemoveListed(c, s.core, keys, |keys|);
    WillingRemoval(c, s.core, keys, |keys|);
    var applied := s.(core := core, worker := Busy(s.worker.batch, Marking(true)));
    RemovalInRun(c, s, applied, keys);
    SharedAreListed(s.core, svc, keys, k, k');
    if AllClosed(core.store.trail) { ClosedSince(s.core, core); }
    t := Conclude(c, origin, s, key, None, keys, core, true);
  }

  lemma DeleteShared(c: Settings, origin: State, s: State, svc: Service, k: string, k': string) returns (t: State)
    requires Reachable(c, origin) && Leads(c, origin, s) && Calm(s) && IsLabel(svc.ns) && IsLabel(svc.name)
    requires Lookup(s.lister, MetaKey(svc.ns, svc.name)) == Some(svc)
    requires s.core.store.clean && WillingFrom(c.env, s.core.store.clock)
    requires Shares(s.core, k, k') && ServicePrefix(svc.ns, svc.name) <= k && ServicePrefix(svc.ns, svc.name) <= k'
    ensures Reachable(c, t) && Calm(t) && t.core.store.clean && !AllClosed(t.core.store.trail)
  {
    SplitsKey(svc);
    hide Leads;
    hide Reachable;
    hide IsLabel;
    hide MetaKey;
    hide WillingFrom;
    hide SplitMetaKey;
    hide KeyOk;
    hide Calm;
    hide AllClosed;
    hide ServicePrefix;
    var mid := Deliver(c, origin, s, MetaKey(svc.ns, svc.name), None);
    LeadsReachable(c, origin, mid);
    t := RemoveShared(c, origin, mid, svc, k, k');
    LeadsReachable(c, origin, t);
  }

  lemma PickedLists(table: map<string, Mapping>, prefix: string)
    ensures Lists(Drain.Picked(table, prefix, table.Keys), table, prefix)
  {
  }

  lemma ClosedSince(core: Core, now: Core)
    requires AllClosed(now.store.trail)
    ensures AllClosed(StagedBy(core, now))
  {
    hide Closed;
  }

  /** Distinct port numbers in each version of a service do not keep its frontends from
      losing their backends. A one-port service becomes known to an empty HAProxy, its
      port is renamed while its address changes, and it is deleted; every version is
      synchronised, every request is carried out, and yet a configuration is staged in
      which a frontend's default backend is missing. */
  lemma RenamedPortDangles(c: Settings, s: State, svc: Service, svc': Service) returns (t: State)
    requires Initial(s) && s.core.store.committed == Nothing() && c.first < c.last
    requires WillingFrom(c.env, s.core.store.clock) && Renamed(svc, svc')
    requires c.IsTarget(svc.ports[0].name) && c.IsTarget(svc'.ports[0].name)
    requires svc.ns in c.namespaces && Usable(svc) && Usable(svc') && svc'.version != svc.version
    ensures Reachable(c, t) && Calm(t) && t.core.store.clean && !AllClosed(t.core.store.trail)
  {
    hide Leads;
    hide IsLabel;
    hide MetaKey;
    hide WillingFrom;
    hide Calm;
    hide AllClosed;
    hide ServicePrefix;
    hide FirstKey;
    hide NewMapping;
    hide OneProxy;
    hide ServerName;
    hide IsSvcFrontend;
    hide Shares;
    InitialIsCalm(c, s);
    hide Initial;
    WillingNow(c.env, s.core.store.clock);
    var once := KnowFirst(c, s, svc, true);
    WillingLater(c.env, s.core.store.clock, once.core.store.clock);
    var twice := KnowSecond(c, s, once, svc, svc');
    FirstKeyPrefix(svc);
    FirstKeyPrefix(svc');
    t := DeleteShared(c, s, twice, svc', FirstKey(svc), FirstKey(svc'));
  }
}
