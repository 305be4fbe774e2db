/** Agreement between the mapping table and the HAProxy configuration, kept by
    every synchronisation in a clean environment, and what holds of every staged
    configuration on the way. */
module ProxyAgreement {
  import opened Names
  import opened HaproxyStore
  import opened ServiceSync
  import opened PortLedger

  /** The mapping's frontend is bound to its mapped port and leads to its backend. */
  ghost predicate FrontendServes(cfg: Config, m: Mapping) {
    m.frontendName in cfg.frontends
    && cfg.frontends[m.frontendName] == Frontend(m.backendName, map[m.bindName := m.mappedPort])
  }

  /** The mapping's backend has a server at ClusterIP:ServicePort. */
  ghost predicate BackendServes(cfg: Config, m: Mapping) {
    var server := ServerName(m.clusterIP, m.servicePort);
    m.backendName in cfg.backends && server in cfg.backends[m.backendName]
    && cfg.backends[m.backendName][server] == server
  }

  ghost predicate HasFrontend(table: map<string, Mapping>, f: string) {
    exists k :: k in table && table[k].frontendName == f
  }

  ghost predicate Owned(table: map<string, Mapping>, cfg: Config) {
    forall f :: f in cfg.frontends && IsSvcFrontend(f) ==> HasFrontend(table, f)
  }

  /** The configuration serves exactly the table. The mappings in `loose` may have
      lost their backend. */
  ghost predicate Serves(table: map<string, Mapping>, cfg: Config, loose: set<string>) {
    && (forall k :: k in table ==> FrontendServes(cfg, table[k]))
    && (forall k :: k in table && k !in loose ==> BackendServes(cfg, table[k]))
    && Owned(table, cfg)
  }

  /** No two service frontends are bound to the same port. */
  ghost predicate UniqueBinds(cfg: Config) {
    forall f, g, x, y ::
      f in cfg.frontends && g in cfg.frontends && IsSvcFrontend(f) && IsSvcFrontend(g) && f != g
      && x in cfg.frontends[f].binds && y in cfg.frontends[g].binds
      ==> cfg.frontends[f].binds[x] != cfg.frontends[g].binds[y]
  }

  /** Every service frontend's default backend exists. */
  ghost predicate Closed(cfg: Config) {
    forall f :: f in cfg.frontends && IsSvcFrontend(f) ==> cfg.frontends[f].defaultBackend in cfg.backends
  }

  ghost predicate AllUnique(trail: seq<Config>) {
    forall i :: 0 <= i < |trail| ==> UniqueBinds(trail[i])
  }

  ghost predicate AllClosed(trail: seq<Config>) {
    forall i :: 0 <= i < |trail| ==> Closed(trail[i])
  }

  lemma ServesUnique(table: map<string, Mapping>, cfg: Config, loose: set<string>)
    requires Serves(table, cfg, loose) && DistinctPorts(table)
    ensures UniqueBinds(cfg)
  {
    hide IsSvcFrontend;
    forall f, g, x, y |
      f in cfg.frontends && g in cfg.frontends && IsSvcFrontend(f) && IsSvcFrontend(g) && f != g
      && x in cfg.frontends[f].binds && y in cfg.frontends[g].binds
      ensures cfg.frontends[f].binds[x] != cfg.frontends[g].binds[y]
    {
      assert HasFrontend(table, f) && HasFrontend(table, g);
      var j :| j in table && table[j].frontendName == f;
      var k :| k in table && table[k].frontendName == g;
      assert FrontendServes(cfg, table[j]) && FrontendServes(cfg, table[k]);
    }
  }

  lemma ServesClosed(table: map<string, Mapping>, cfg: Config)
    requires Serves(table, cfg, {})
    ensures Closed(cfg)
  {
    hide IsSvcFrontend;
    hide ServerName;
    forall f | f in cfg.frontends && IsSvcFrontend(f) ensures cfg.frontends[f].defaultBackend in cfg.backends {
      assert HasFrontend(table, f);
      var k :| k in table && table[k].frontendName == f;
      assert FrontendServes(cfg, table[k]) && BackendServes(cfg, table[k]);
    }
  }

  /** Refinement, the direction from HAProxy to the table: a service frontend
      belongs to exactly one mapping. */
  lemma OneOwner(table: map<string, Mapping>, cfg: Config, loose: set<string>, f: string)
    requires Serves(table, cfg, loose) && DistinctPorts(table) && f in cfg.frontends && IsSvcFrontend(f)
    ensures exists k :: k in table && table[k].frontendName == f
                        && forall k' :: k' in table && table[k'].frontendName == f ==> k' == k
  {
    assert HasFrontend(table, f);
    var k :| k in table && table[k].frontendName == f;
    forall k' | k' in table && table[k'].frontendName == f ensures k' == k {
      assert FrontendServes(cfg, table[k]) && FrontendServes(cfg, table[k']);
      assert cfg.frontends[f].binds[table[k].bindName] == table[k].mappedPort;
      assert cfg.frontends[f].binds == map[table[k'].bindName := table[k'].mappedPort];
    }
  }

  // ---- growing a configuration ----

  /** Same frontends; backends and servers may have been added, and a server may
      have been given its own name as its address. */
  ghost predicate Grows(cfg: Config, cfg': Config) {
    && cfg'.frontends == cfg.frontends
    && (forall b :: b in cfg.backends ==> b in cfg'.backends && ServersGrow(cfg.backends[b], cfg'.backends[b]))
  }

  ghost predicate ServersGrow(servers: map<string, string>, servers': map<string, string>) {
    forall s :: s in servers ==> s in servers' && (servers'[s] == servers[s] || servers'[s] == s)
  }

  lemma GrowsKeeps(table: map<string, Mapping>, cfg: Config, cfg': Config, loose: set<string>)
    requires Serves(table, cfg, loose) && Grows(cfg, cfg')
    ensures Serves(table, cfg', loose)
  {
    hide ServerName;
    forall k | k in table && k !in loose ensures BackendServes(cfg', table[k]) {
      assert BackendServes(cfg, table[k]);
    }
  }

  lemma TrailGrows(trail: seq<Config>, cfg: Config, table: map<string, Mapping>)
    requires Serves(table, cfg, {}) && DistinctPorts(table)
    ensures AllUnique(trail) ==> AllUnique(trail + [cfg])
    ensures AllClosed(trail) ==> AllClosed(trail + [cfg])
  {
    ServesUnique(table, cfg, {});
    ServesClosed(table, cfg);
  }

  lemma StageBackendClean(env: Environment, st: Store, b: string)
    requires st.staged.Some? && StageBackend(env, st, b).0.clean
    ensures var (st', ok) := StageBackend(env, st, b);
            && st.clean && Grows(st.staged.value, st'.staged.value)
            && (ok ==> b in st'.staged.value.backends)
            && st'.trail == st.trail + [st'.staged.value]
  {
  }

  lemma AddServerClean(env: Environment, st: Store, b: string, s: string)
    requires st.staged.Some? && Perform(env, st, AddServer(b, s, s)).0.clean
    ensures var (st', reply) := Perform(env, st, AddServer(b, s, s));
            && st.clean && Grows(st.staged.value, st'.staged.value)
            && (reply == Done ==> b in st'.staged.value.backends && s in st'.staged.value.backends[b]
                                  && st'.staged.value.backends[b][s] == s)
            && st'.trail == st.trail + [st'.staged.value]
  {
  }

  lemma ReplaceServerClean(env: Environment, st: Store, b: string, s: string)
    requires st.staged.Some? && Perform(env, st, ReplaceServer(b, s, s, s)).0.clean
    ensures var (st', reply) := Perform(env, st, ReplaceServer(b, s, s, s));
            && st.clean && Grows(st.staged.value, st'.staged.value)
            && (reply == Done ==> b in st'.staged.value.backends && s in st'.staged.value.backends[b]
                                  && st'.staged.value.backends[b][s] == s)
            && st'.trail == st.trail + [st'.staged.value]
  {
  }

  // ---- creating a proxy ----

  /** What holds of the open transaction between synchronisations of a clean run. */
  ghost predicate Healthy(table: map<string, Mapping>, st: Store) {
    && st.staged.Some? && Serves(table, st.staged.value, {}) && AllUnique(st.trail)
  }

  lemma StageServerClean(env: Environment, st: Store, table: map<string, Mapping>, b: string, s: string)
    requires Healthy(table, st) && DistinctPorts(table) && StageServer(env, st, b, s).0.clean
    ensures var (st', ok) := StageServer(env, st, b, s);
            && st.clean && Healthy(table, st') && Grows(st.staged.value, st'.staged.value)
            && (AllClosed(st.trail) ==> AllClosed(st'.trail))
            && (ok ==> b in st'.staged.value.backends && s in st'.staged.value.backends[b]
                       && st'.staged.value.backends[b][s] == s)
  {
    hide Perform;
    hide Serves;
    hide AllUnique;
    hide AllClosed;
    var (st1, reply) := Perform(env, st, AddServer(b, s, s));
    if reply == AlreadyExists {
      ReplaceServerClean(env, st1, b, s);
      AddServerClean(env, st, b, s);
      GrowsKeeps(table, st.staged.value, st1.staged.value, {});
      TrailGrows(st.trail, st1.staged.value, table);
      var st2 := Perform(env, st1, ReplaceServer(b, s, s, s)).0;
      GrowsKeeps(table, st1.staged.value, st2.staged.value, {});
      TrailGrows(st1.trail, st2.staged.value, table);
    } else {
      AddServerClean(env, st, b, s);
      GrowsKeeps(table, st.staged.value, st1.staged.value, {});
      TrailGrows(st.trail, st1.staged.value, table);
    }
  }

  /** A staged frontend that is not bound yet disturbs nothing. */
  lemma UnboundFrontend(trail: seq<Config>, cfg: Config, f: string, b: string)
    requires f !in cfg.frontends && b in cfg.backends && UniqueBinds(cfg) && Closed(cfg)
    ensures var cfg' := cfg.(frontends := cfg.frontends[f := Frontend(b, map[])]);
            (AllUnique(trail) ==> AllUnique(trail + [cfg'])) && (AllClosed(trail) ==> AllClosed(trail + [cfg']))
  {
    hide IsSvcFrontend;
    var cfg' := cfg.(frontends := cfg.frontends[f := Frontend(b, map[])]);
    assert UniqueBinds(cfg') && Closed(cfg');
  }

  lemma StageFrontendClean(env: Environment, st: Store, f: string, b: string)
    requires st.staged.Some? && f !in st.staged.value.frontends && StageFrontend(env, st, f, b).0.clean
    ensures var (st', ok) := StageFrontend(env, st, f, b);
            var cfg := st.staged.value;
            && st.clean && st'.trail == st.trail + [st'.staged.value]
            && st'.staged.value == if ok then cfg.(frontends := cfg.frontends[f := Frontend(b, map[])]) else cfg
  {
  }

  lemma AddBindClean(env: Environment, st: Store, f: string, b: string, n: string, p: int)
    requires st.staged.Some? && f in st.staged.value.frontends && st.staged.value.frontends[f] == Frontend(b, map[])
    requires Perform(env, st, AddBind(f, n, p)).0.clean
    ensures var (st', reply) := Perform(env, st, AddBind(f, n, p));
            var cfg := st.staged.value;
            && st.clean && reply == Done && st'.trail == st.trail + [st'.staged.value]
            && st'.staged.value == cfg.(frontends := cfg.frontends[f := Frontend(b, map[n := p])])
  {
  }

  lemma FreshFrontend(table: map<string, Mapping>, cfg: Config, key: string, m: Mapping)
    requires Named(table) && Owned(table, cfg) && WellNamed(key, m) && !Mapped(table, m.mappedPort)
    ensures m.frontendName !in cfg.frontends
  {
    if m.frontendName in cfg.frontends {
      assert IsSvcFrontend(m.frontendName);
      var k :| k in table && table[k].frontendName == m.frontendName;
      assert WellNamed(k, table[k]);
      FrontendNameInjective(m.ns, m.service, m.mappedPort, table[k].ns, table[k].service, table[k].mappedPort);
    }
  }

  lemma ServesOneMore(table: map<string, Mapping>, cfg: Config, key: string, m: Mapping)
    requires Serves(table, cfg, {}) && BackendServes(cfg, m) && m.frontendName !in cfg.frontends && key !in table
    ensures var fe := Frontend(m.backendName, map[m.bindName := m.mappedPort]);
            Serves(table[key := m], cfg.(frontends := cfg.frontends[m.frontendName := fe]), {})
  {
    hide IsSvcFrontend;
    hide ServerName;
    var fe := Frontend(m.backendName, map[m.bindName := m.mappedPort]);
    var table', cfg' := table[key := m], cfg.(frontends := cfg.frontends[m.frontendName := fe]);
    forall k | k in table' ensures FrontendServes(cfg', table'[k]) && BackendServes(cfg', table'[k]) {
      if k != key { assert FrontendServes(cfg, table[k]) && BackendServes(cfg, table[k]); }
    }
    forall f | f in cfg'.frontends && IsSvcFrontend(f) ensures HasFrontend(table', f) {
      if f == m.frontendName {
        assert table'[key].frontendName == f;
      } else {
        assert HasFrontend(table, f);
        var k :| k in table && table[k].frontendName == f;
        assert k in table' && table'[k].frontendName == f;
      }
    }
  }

  lemma StageBackendHealthy(env: Environment, st: Store, table: map<string, Mapping>, b: string)
    requires Healthy(table, st) && DistinctPorts(table) && StageBackend(env, st, b).0.clean
    ensures var (st', ok) := StageBackend(env, st, b);
            && Healthy(table, st') && (AllClosed(st.trail) ==> AllClosed(st'.trail))
            && (ok ==> b in st'.staged.value.backends)
  {
    hide StageBackend;
    hide Serves;
    hide AllUnique;
    hide AllClosed;
    hide DistinctPorts;
    var st' := StageBackend(env, st, b).0;
    StageBackendClean(env, st, b);
    GrowsKeeps(table, st.staged.value, st'.staged.value, {});
    TrailGrows(st.trail, st'.staged.value, table);
  }

  /** The frontend and the bind, once the backend has its server. */
  lemma FrontendAndBindClean(env: Environment, st: Store, table: map<string, Mapping>, key: string, m: Mapping)
    requires Healthy(table, st) && DistinctPorts(table) && DistinctPorts(table[key := m])
    requires BackendServes(st.staged.value, m) && m.frontendName !in st.staged.value.frontends && key !in table
    requires StageFrontend(env, st, m.frontendName, m.backendName).0.clean
    ensures var (st3, ok) := StageFrontend(env, st, m.frontendName, m.backendName);
            var (st4, reply) := Perform(env, st3, AddBind(m.frontendName, m.bindName, m.mappedPort));
            && (!ok ==> Healthy(table, st3) && (AllClosed(st.trail) ==> AllClosed(st3.trail)))
            && (ok && st4.clean ==>
                  reply == Done && Healthy(table[key := m], st4) && (AllClosed(st.trail) ==> AllClosed(st4.trail)))
  {
    hide Serves;
    hide StageFrontend;
    hide Perform;
    hide AllUnique;
    hide AllClosed;
    hide DistinctPorts;
    hide UniqueBinds;
    hide Closed;
    hide ServerName;
    var cfg := st.staged.value;
    var (st3, ok) := StageFrontend(env, st, m.frontendName, m.backendName);
    StageFrontendClean(env, st, m.frontendName, m.backendName);
    ServesUnique(table, cfg, {});
    ServesClosed(table, cfg);
    if !ok {
      TrailGrows(st.trail, cfg, table);
    } else {
      var st4 := Perform(env, st3, AddBind(m.frontendName, m.bindName, m.mappedPort)).0;
      if st4.clean {
        UnboundFrontend(st.trail, cfg, m.frontendName, m.backendName);
        AddBindClean(env, st3, m.frontendName, m.backendName, m.bindName, m.mappedPort);
        var fe := Frontend(m.backendName, map[m.bindName := m.mappedPort]);
        assert st4.staged.value.frontends == cfg.frontends[m.frontendName := fe];
        assert st4.staged.value == cfg.(frontends := cfg.frontends[m.frontendName := fe]);
        ServesOneMore(table, cfg, key, m);
        TrailGrows(st3.trail, st4.staged.value, table[key := m]);
      }
    }
  }

  /** createServiceProxy in a clean environment: on success the staged configuration
      serves the table with the new mapping, on failure still the old table, and
      every configuration staged on the way has unique binds and no dangling
      default backend. */
  lemma CreateProxyClean(env: Environment, st: Store, table: map<string, Mapping>, key: string, m: Mapping)
    requires Healthy(table, st) && Named(table) && DistinctPorts(table)
    requires WellNamed(key, m) && key !in table && !Mapped(table, m.mappedPort)
    requires CreateProxy(env, st, m).0.clean
    ensures var (st', ok) := CreateProxy(env, st, m);
            && st.clean && Healthy(if ok then table[key := m] else table, st')
            && (AllClosed(st.trail) ==> AllClosed(st'.trail))
  {
    hide Serves;
    hide AllUnique;
    hide AllClosed;
    hide Perform;
    hide StageBackend;
    hide StageServer;
    hide StageFrontend;
    hide WellNamed;
    hide Named;
    hide DistinctPorts;
    hide ServerName;
    var server := ServerName(m.clusterIP, m.servicePort);
    var (st1, ok1) := StageBackend(env, st, m.backendName);
    StageBackendHealthy(env, st, table, m.backendName);
    if ok1 {
      var (st2, ok2) := StageServer(env, st1, m.backendName, server);
      StageServerClean(env, st1, table, m.backendName, server);
      if ok2 {
        assert Owned(table, st2.staged.value) by { ServesOwned(table, st2.staged.value, {}); }
        FreshFrontend(table, st2.staged.value, key, m);
        OneMoreDistinct(table, key, m);
        FrontendAndBindClean(env, st2, table, key, m);
      }
    }
  }

  lemma ServesOwned(table: map<string, Mapping>, cfg: Config, loose: set<string>)
    requires Serves(table, cfg, loose)
    ensures Owned(table, cfg)
  {
  }

  lemma OneMoreDistinct(table: map<string, Mapping>, key: string, m: Mapping)
    requires DistinctPorts(table) && key !in table && !Mapped(table, m.mappedPort)
    ensures DistinctPorts(table[key := m])
  {
  }

  // ---- one pass over a service's ports ----

  lemma SyncPortClean(c: Settings, core: Core, svc: Service, port: ServicePort)
    requires core.store.staged.Some? && Consistent(c, core) && IsLabel(svc.ns) && IsLabel(svc.name)
    requires Healthy(core.table, core.store) && SyncPort(c, core, svc, port).store.clean
    ensures var now := SyncPort(c, core, svc, port);
            Healthy(now.table, now.store) && (AllClosed(core.store.trail) ==> AllClosed(now.store.trail))
  {
    hide CreateProxy;
    hide MappingKey;
    hide BackendName;
    hide FrontendName;
    hide BindName;
    hide IsLabel;
    hide Serves;
    hide AllUnique;
    hide AllClosed;
    hide Named;
    hide DistinctPorts;
    hide UsesBackend;
    hide UnderPeak;
    hide InRange;
    var key, r := MappingKey(svc.ns, svc.name, port.name), FirstFree(core.ledger, c.first, c.last);
    if c.IsTarget(port.name) && key !in core.table && r.Some? {
      var m := NewMapping(svc, port, r.value);
      assert !Mapped(core.table, m.mappedPort) by { assert !Taken(core.ledger, r.value); }
      CreateProxyClean(c.env, core.store, core.table, key, m);
    }
  }

  lemma {:induction false} SyncPortsClean(c: Settings, core: Core, svc: Service, n: nat)
    requires core.store.staged.Some? && Consistent(c, core) && IsLabel(svc.ns) && IsLabel(svc.name)
    requires n <= |svc.ports| && Healthy(core.table, core.store) && SyncPorts(c, core, svc, n).store.clean
    ensures var now := SyncPorts(c, core, svc, n);
            Healthy(now.table, now.store) && (AllClosed(core.store.trail) ==> AllClosed(now.store.trail))
  {
    hide SyncPort;
    hide Healthy;
    hide AllClosed;
    hide Consistent;
    hide IsLabel;
    if n > 0 {
      SyncPortsKeep(c, core, svc, n - 1);
      SyncPortsClean(c, core, svc, n - 1);
      SyncPortClean(c, SyncPorts(c, core, svc, n - 1), svc, svc.ports[n - 1]);
    }
  }

  // ---- removing a service's mappings ----

  ghost predicate DistinctBackends(table: map<string, Mapping>) {
    forall k, k' :: k in table && k' in table && k != k' ==> table[k].backendName != table[k'].backendName
  }

  function WithoutFrontend(cfg: Config, f: string): Config { cfg.(frontends := cfg.frontends - {f}) }

  function WithoutBackend(cfg: Config, b: string): Config { cfg.(backends := cfg.backends - {b}) }

  lemma DeleteFrontendClean(env: Environment, st: Store, f: string)
    requires st.staged.Some? && Perform(env, st, DeleteFrontend(f)).0.clean
    ensures var st' := Perform(env, st, DeleteFrontend(f)).0;
            st'.staged.value == WithoutFrontend(st.staged.value, f) && st'.trail == st.trail + [st'.staged.value]
  {
    var cfg := st.staged.value;
    if f !in cfg.frontends { assert cfg.frontends - {f} == cfg.frontends; }
  }

  lemma DeleteBackendClean(env: Environment, st: Store, b: string)
    requires st.staged.Some? && Perform(env, st, DeleteBackend(b)).0.clean
    ensures var st' := Perform(env, st, DeleteBackend(b)).0;
            st'.staged.value == WithoutBackend(st.staged.value, b) && st'.trail == st.trail + [st'.staged.value]
  {
    var cfg := st.staged.value;
    if b !in cfg.backends { assert cfg.backends - {b} == cfg.backends; }
  }

  lemma RemoveMappingShape(c: Settings, core: Core, key: string)
    requires core.store.staged.Some? && key in core.table && RemoveMapping(c, core, key).store.clean
    ensures var m, now := core.table[key], RemoveMapping(c, core, key);
            var cfg1 := WithoutFrontend(core.store.staged.value, m.frontendName);
            var cfg2 := WithoutBackend(cfg1, m.backendName);
            now.store.staged == Some(cfg2) && now.store.trail == core.store.trail + [cfg1] + [cfg2]
  {
    hide Perform;
    var m := core.table[key];
    var st1 := Perform(c.env, core.store, DeleteFrontend(m.frontendName)).0;
    DeleteBackendClean(c.env, st1, m.backendName);
    DeleteFrontendClean(c.env, core.store, m.frontendName);
  }

  lemma OtherFrontends(table: map<string, Mapping>, cfg: Config, loose: set<string>, k: string, k': string)
    requires Serves(table, cfg, loose) && DistinctPorts(table) && k in table && k' in table && k != k'
    ensures table[k].frontendName != table[k'].frontendName
  {
    hide IsSvcFrontend;
    assert FrontendServes(cfg, table[k]) && FrontendServes(cfg, table[k']);
    assert cfg.frontends[table[k].frontendName].binds[table[k].bindName] == table[k].mappedPort;
    assert cfg.frontends[table[k'].frontendName].binds == map[table[k'].bindName := table[k'].mappedPort];
  }

  lemma ServesWithoutFrontend(table: map<string, Mapping>, cfg: Config, loose: set<string>, key: string)
    requires Serves(table, cfg, loose) && DistinctPorts(table) && key in table
    ensures Serves(table - {key}, WithoutFrontend(cfg, table[key].frontendName), loose - {key})
  {
    hide IsSvcFrontend;
    hide ServerName;
    var f := table[key].frontendName;
    var table', cfg' := table - {key}, WithoutFrontend(cfg, f);
    forall k | k in table' ensures FrontendServes(cfg', table'[k]) && (k !in loose ==> BackendServes(cfg', table'[k])) {
      OtherFrontends(table, cfg, loose, k, key);
      assert FrontendServes(cfg, table[k]) && (k !in loose ==> BackendServes(cfg, table[k]));
    }
    forall g | g in cfg'.frontends && IsSvcFrontend(g) ensures HasFrontend(table', g) {
      assert HasFrontend(table, g);
      var k :| k in table && table[k].frontendName == g;
      assert k in table' && table'[k].frontendName == g;
    }
  }

  lemma ServesWithoutBackend(table: map<string, Mapping>, cfg: Config, loose: set<string>, b: string)
    requires Serves(table, cfg, loose) && forall k :: k in table && table[k].backendName == b ==> k in loose
    ensures Serves(table, WithoutBackend(cfg, b), loose)
  {
    hide IsSvcFrontend;
    hide ServerName;
    var cfg' := WithoutBackend(cfg, b);
    forall k | k in table ensures FrontendServes(cfg', table[k]) && (k !in loose ==> BackendServes(cfg', table[k])) {
      assert FrontendServes(cfg, table[k]) && (k !in loose ==> BackendServes(cfg, table[k]));
    }
  }

  /** Removing one mapping: binds stay unique at both steps; default backends too
      when no mapping left behind needs the deleted backend. */
  lemma RemoveMappingClean(c: Settings, core: Core, key: string, loose: set<string>)
    requires core.store.staged.Some? && key in core.table && RemoveMapping(c, core, key).store.clean
    requires Serves(core.table, core.store.staged.value, loose) && DistinctPorts(core.table)
    requires forall k :: k in core.table && k != key && core.table[k].backendName == core.table[key].backendName ==> k in loose
    ensures var now := RemoveMapping(c, core, key);
            && Serves(now.table, now.store.staged.value, loose - {key})
            && (AllUnique(core.store.trail) ==> AllUnique(now.store.trail))
            && (loose == {} && AllClosed(core.store.trail) ==> AllClosed(now.store.trail))
  {
    hide Perform;
    hide Serves;
    hide DistinctPorts;
    hide UniqueBinds;
    hide Closed;
    hide WithoutFrontend;
    hide WithoutBackend;
    var table', m := core.table - {key}, core.table[key];
    RemoveMappingShape(c, core, key);
    var cfg1 := WithoutFrontend(core.store.staged.value, m.frontendName);
    var cfg2 := WithoutBackend(cfg1, m.backendName);
    ServesWithoutFrontend(core.table, core.store.staged.value, loose, key);
    ServesWithoutBackend(table', cfg1, loose - {key}, m.backendName);
    FewerDistinct(core.table, key);
    ServesUnique(table', cfg1, loose - {key});
    ServesUnique(table', cfg2, loose - {key});
    if loose == {} {
      assert loose - {key} == {};
      ServesClosed(table', cfg1);
      ServesClosed(table', cfg2);
    }
  }

  lemma FewerDistinct(table: map<string, Mapping>, key: string)
    requires DistinctPorts(table)
    ensures DistinctPorts(table - {key})
  {
  }

  /** Any mapping on the same backend as a listed mapping is listed too. */
  ghost predicate BackendsInside(keys: seq<string>, table: map<string, Mapping>) {
    forall k, k' :: k in keys && k in table && k' in table && table[k'].backendName == table[k].backendName ==> k' in keys
  }

  lemma ListedBackendsInside(keys: seq<string>, table: map<string, Mapping>, ns: string, name: string)
    requires Named(table) && IsLabel(ns) && IsLabel(name) && Lists(keys, table, ServicePrefix(ns, name))
    ensures BackendsInside(keys, table)
  {
    hide ServicePrefix;
    hide MappingKey;
    hide BackendName;
    hide FrontendName;
    hide BindName;
    hide IsLabel;
    forall k, k' | k in keys && k in table && k' in table && table[k'].backendName == table[k].backendName ensures k' in keys {
      var m, m' := table[k], table[k'];
      assert WellNamed(k, m) && WellNamed(k', m');
      BackendNameInjective(m.ns, m.service, m.servicePort, m'.ns, m'.service, m'.servicePort);
      PrefixIsExact(ns, name, m.ns, m.service, m.portName);
      PrefixIsExact(ns, name, m'.ns, m'.service, m'.portName);
    }
  }

  /** The listed keys from the n-th on. */
  ghost function Later(keys: seq<string>, n: nat): set<string> {
    set i | n <= i < |keys| :: keys[i]
  }

  lemma RemoveNext(c: Settings, core: Core, keys: seq<string>, n: nat)
    requires core.store.staged.Some? && Listing(keys, core.table) && BackendsInside(keys, core.table) && n < |keys|
    ensures var before, key := RemoveListed(c, core, keys, n), keys[n];
            && key in before.table && RemoveListed(c, core, keys, n + 1) == RemoveMapping(c, before, key)
            && (forall k :: k in before.table && k != key && before.table[k].backendName == before.table[key].backendName
                  ==> k in Later(keys, n))
            && Later(keys, n) - {key} == Later(keys, n + 1)
  {
    hide RemoveMapping;
    var before, key := RemoveListed(c, core, keys, n), keys[n];
    RemoveListedTable(c, core, keys, n);
    RemoveListedTable(c, core, keys, n + 1);
    forall k | k in before.table && k != key && before.table[k].backendName == before.table[key].backendName
      ensures k in Later(keys, n)
    {
      assert k in keys;
      var i :| 0 <= i < |keys| && keys[i] == k;
    }
  }

  /** After n removals the configuration serves what is left of the table, except
      that listed mappings still to go may have lost a shared backend. */
  lemma {:induction false} RemoveListedClean(c: Settings, core: Core, keys: seq<string>, n: nat)
    requires Healthy(core.table, core.store) && DistinctPorts(core.table)
    requires Listing(keys, core.table) && BackendsInside(keys, core.table)
    requires n <= |keys| && RemoveListed(c, core, keys, n).store.clean
    ensures var now := RemoveListed(c, core, keys, n);
            && Serves(now.table, now.store.staged.value, Later(keys, n)) && AllUnique(now.store.trail)
            && DistinctPorts(now.table)
  {
    hide RemoveMapping;
    hide Serves;
    hide AllUnique;
    hide Listing;
    hide BackendsInside;
    hide DistinctPorts;
    hide Later;
    if n == 0 {
      ServesLooser(core.table, core.store.staged.value, Later(keys, 0));
    } else {
      RemoveNext(c, core, keys, n - 1);
      RemoveListedClean(c, core, keys, n - 1);
      var before := RemoveListed(c, core, keys, n - 1);
      RemoveMappingClean(c, before, keys[n - 1], Later(keys, n - 1));
      FewerDistinct(before.table, keys[n - 1]);
    }
  }

  lemma ServesLooser(table: map<string, Mapping>, cfg: Config, loose: set<string>)
    requires Serves(table, cfg, {})
    ensures Serves(table, cfg, loose)
  {
  }

  /** No listed mapping shares its backend. */
  ghost predicate OwnBackends(keys: seq<string>, table: map<string, Mapping>) {
    forall k, k' :: k in keys && k in table && k' in table && k != k' ==> table[k].backendName != table[k'].backendName
  }

  lemma OwnBackendsLeft(c: Settings, core: Core, keys: seq<string>, n: nat)
    requires core.store.staged.Some? && Listing(keys, core.table) && OwnBackends(keys, core.table) && n < |keys|
    ensures var before, key := RemoveListed(c, core, keys, n), keys[n];
            && key in before.table && RemoveListed(c, core, keys, n + 1) == RemoveMapping(c, before, key)
            && (forall k :: k in before.table && k != key ==> before.table[k].backendName != before.table[key].backendName)
  {
    hide RemoveMapping;
    RemoveListedTable(c, core, keys, n);
    RemoveListedTable(c, core, keys, n + 1);
    assert keys[n] in keys;
  }

  /** Without shared backends every step of a removal leaves a closed configuration. */
  lemma {:induction false} RemoveListedClosed(c: Settings, core: Core, keys: seq<string>, n: nat)
    requires Healthy(core.table, core.store) && DistinctPorts(core.table) && AllClosed(core.store.trail)
    requires Listing(keys, core.table) && n <= |keys| && RemoveListed(c, core, keys, n).store.clean
    requires OwnBackends(keys, core.table)
    ensures var now := RemoveListed(c, core, keys, n);
            && Serves(now.table, now.store.staged.value, {}) && AllClosed(now.store.trail) && DistinctPorts(now.table)
  {
    hide RemoveMapping;
    hide Serves;
    hide AllUnique;
    hide AllClosed;
    hide Listing;
    hide OwnBackends;
    hide DistinctPorts;
    if n > 0 {
      OwnBackendsLeft(c, core, keys, n - 1);
      RemoveListedClosed(c, core, keys, n - 1);
      var before := RemoveListed(c, core, keys, n - 1);
      RemoveMappingClean(c, before, keys[n - 1], {});
      assert {} - {keys[n - 1]} == {};
      FewerDistinct(before.table, keys[n - 1]);
    }
  }

  lemma {:induction false} RemovalPrefix(c: Settings, core: Core, keys: seq<string>, n: nat, m: nat)
    requires core.store.staged.Some? && n <= m <= |keys|
    ensures var before, after := RemoveListed(c, core, keys, n).store, RemoveListed(c, core, keys, m).store;
            before.trail <= after.trail && (after.clean ==> before.clean)
  {
    hide RemoveMapping;
    if n < m {
      RemovalPrefix(c, core, keys, n, m - 1);
    }
  }

  lemma RemoveMappingDangles(c: Settings, core: Core, loose: set<string>, key: string, other: string)
    requires core.store.staged.Some? && Serves(core.table, core.store.staged.value, loose) && DistinctPorts(core.table)
    requires key in core.table && other in core.table && key != other
    requires core.table[key].backendName == core.table[other].backendName
    requires IsSvcFrontend(core.table[other].frontendName)
    requires RemoveMapping(c, core, key).store.clean
    ensures !AllClosed(RemoveMapping(c, core, key).store.trail)
  {
    hide RemoveMapping;
    hide IsSvcFrontend;
    hide BackendServes;
    var after, m, m' := RemoveMapping(c, core, key), core.table[key], core.table[other];
    RemoveMappingShape(c, core, key);
    OtherFrontends(core.table, core.store.staged.value, loose, key, other);
    assert FrontendServes(core.store.staged.value, m');
    assert !Closed(WithoutBackend(WithoutFrontend(core.store.staged.value, m.frontendName), m.backendName));
    assert !Closed(after.store.trail[|after.store.trail| - 1]);
  }

  lemma LongerTrail(trail: seq<Config>, trail': seq<Config>)
    requires trail <= trail' && AllClosed(trail')
    ensures AllClosed(trail)
  {
    hide Closed;
    forall i | 0 <= i < |trail| ensures Closed(trail[i]) { assert trail[i] == trail'[i]; }
  }

  /** Two listed mappings on one backend: removing the first leaves the second's
      frontend without its default backend. */
  lemma SharedBackendDangles(c: Settings, core: Core, keys: seq<string>, i: nat, j: nat)
    requires Healthy(core.table, core.store) && DistinctPorts(core.table)
    requires Listing(keys, core.table) && BackendsInside(keys, core.table)
    requires RemoveListed(c, core, keys, |keys|).store.clean
    requires i < j < |keys| && core.table[keys[i]].backendName == core.table[keys[j]].backendName
    requires IsSvcFrontend(core.table[keys[j]].frontendName)
    ensures !AllClosed(RemoveListed(c, core, keys, |keys|).store.trail)
  {
    hide RemoveMapping;
    hide Serves;
    hide AllUnique;
    hide AllClosed;
    hide IsSvcFrontend;
    hide DistinctPorts;
    hide BackendsInside;
    var before := RemoveListed(c, core, keys, i);
    RemovalPrefix(c, core, keys, i, |keys|);
    RemovalPrefix(c, core, keys, i + 1, |keys|);
    RemoveListedClean(c, core, keys, i);
    RemoveListedTable(c, core, keys, i);
    RemoveListedTable(c, core, keys, i + 1);
    RemoveMappingDangles(c, before, Later(keys, i), keys[i], keys[j]);
    var trail, trail' := RemoveListed(c, core, keys, i + 1).store.trail, RemoveListed(c, core, keys, |keys|).store.trail;
    if AllClosed(trail') { LongerTrail(trail, trail'); }
  }

  ghost predicate DistinctServicePorts(keys: seq<string>, table: map<string, Mapping>)
    requires forall k :: k in keys ==> k in table
  {
    forall i, j :: 0 <= i < j < |keys| ==> table[keys[i]].servicePort != table[keys[j]].servicePort
  }

  /** A removal from a closed past. */
  lemma ClosureOfRemoval(c: Settings, core: Core, keys: seq<string>, ns: string, name: string)
    requires Healthy(core.table, core.store) && Consistent(c, core) && AllClosed(core.store.trail)
    requires IsLabel(ns) && IsLabel(name) && Lists(keys, core.table, ServicePrefix(ns, name))
    requires RemoveListed(c, core, keys, |keys|).store.clean
    ensures var now := RemoveListed(c, core, keys, |keys|);
            && (AllClosed(now.store.trail) <==> DistinctServicePorts(keys, core.table))
            && Healthy(now.table, now.store) && Closed(now.store.staged.value)
  {
    hide RemoveListed;
    hide Serves;
    hide AllUnique;
    hide AllClosed;
    hide WellNamed;
    hide Agree;
    hide IsLabel;
    hide ServicePrefix;
    var now := RemoveListed(c, core, keys, |keys|);
    ListedBackendsInside(keys, core.table, ns, name);
    RemoveListedClean(c, core, keys, |keys|);
    assert Later(keys, |keys|) == {};
    ServesClosed(now.table, now.store.staged.value);
    if DistinctServicePorts(keys, core.table) {
      forall k, k' | k in keys && k' in core.table && k != k'
        ensures core.table[k].backendName != core.table[k'].backendName
      {
        if core.table[k].backendName == core.table[k'].backendName {
          assert k' in keys;
          SamePort(core.table, k, k');
        }
      }
      RemoveListedClosed(c, core, keys, |keys|);
    } else {
      var i, j :| 0 <= i < j < |keys| && core.table[keys[i]].servicePort == core.table[keys[j]].servicePort;
      SameServiceSameBackend(core.table, keys[i], keys[j], ns, name);
      SharedBackendDangles(c, core, keys, i, j);
    }
  }

  // ---- the configurations that a removal adds ----

  function WithoutTrail(core: Core): Core { core.(store := core.store.(trail := [])) }

  function StagedBy(core: Core, now: Core): seq<Config> {
    if |core.store.trail| <= |now.store.trail| then now.store.trail[|core.store.trail|..] else []
  }

  lemma MappingTrail(c: Settings, core: Core, past: seq<Config>, key: string)
    requires core.store.staged.Some? && key in core.table
    ensures var now := RemoveMapping(c, core, key);
            RemoveMapping(c, core.(store := core.store.(trail := past + core.store.trail)), key)
            == now.(store := now.store.(trail := past + now.store.trail))
  {
    hide Effect;
    hide Possible;
    hide Clean;
    var m := core.table[key];
    var st1 := Perform(c.env, core.store, DeleteFrontend(m.frontendName)).0;
    var st2 := Perform(c.env, st1, DeleteBackend(m.backendName)).0;
    assert past + (core.store.trail + [st1.staged.value]) == past + core.store.trail + [st1.staged.value];
    assert past + (st1.trail + [st2.staged.value]) == past + st1.trail + [st2.staged.value];
  }

  /** The past takes no part in a removal. */
  lemma {:induction false} RemovalTrail(c: Settings, core: Core, keys: seq<string>, n: nat)
    requires core.store.staged.Some? && n <= |keys|
    ensures var now := RemoveListed(c, WithoutTrail(core), keys, n);
            RemoveListed(c, core, keys, n) == now.(store := now.store.(trail := core.store.trail + now.store.trail))
  {
    hide RemoveMapping;
    if n == 0 {
      assert core.store.trail + [] == core.store.trail;
    } else {
      RemovalTrail(c, core, keys, n - 1);
      var before := RemoveListed(c, WithoutTrail(core), keys, n - 1);
      if keys[n - 1] in before.table { MappingTrail(c, before, core.store.trail, keys[n - 1]); }
    }
  }

  lemma BareIsHealthy(c: Settings, core: Core)
    requires Healthy(core.table, core.store) && Consistent(c, core)
    ensures Healthy(core.table, WithoutTrail(core).store) && Consistent(c, WithoutTrail(core)) && AllClosed(WithoutTrail(core).store.trail)
  {
    hide Serves;
  }

  /** Referential closure of a removal. In a clean environment every configuration
      staged while a service's mappings are removed has all default backends if and
      only if the service's mappings have pairwise distinct service ports; at the
      end of the removal the configuration is closed in any case. */
  lemma RemovalClosure(c: Settings, core: Core, keys: seq<string>, ns: string, name: string)
    requires Healthy(core.table, core.store) && Consistent(c, core)
    requires IsLabel(ns) && IsLabel(name) && Lists(keys, core.table, ServicePrefix(ns, name))
    requires RemoveListed(c, core, keys, |keys|).store.clean
    ensures var now := RemoveListed(c, core, keys, |keys|);
            && core.store.trail <= now.store.trail
            && (AllClosed(StagedBy(core, now)) <==> DistinctServicePorts(keys, core.table))
            && Healthy(now.table, now.store) && Closed(now.store.staged.value)
  {
    hide RemoveListed;
    hide Consistent;
    hide Serves;
    hide AllUnique;
    hide AllClosed;
    hide Lists;
    hide IsLabel;
    hide ServicePrefix;
    hide Closed;
    hide DistinctServicePorts;
    var bare := WithoutTrail(core);
    var now, bareNow := RemoveListed(c, core, keys, |keys|), RemoveListed(c, bare, keys, |keys|);
    BareIsHealthy(c, core);
    RemovalTrail(c, core, keys, |keys|);
    ClosureOfRemoval(c, bare, keys, ns, name);
    assert StagedBy(core, now) == bareNow.store.trail;
    assert AllUnique(now.store.trail) by { UniqueJoined(core.store.trail, bareNow.store.trail); }
  }

  lemma UniqueJoined(past: seq<Config>, added: seq<Config>)
    requires AllUnique(past) && AllUnique(added)
    ensures AllUnique(past + added)
  {
    hide UniqueBinds;
  }

  lemma SamePort(table: map<string, Mapping>, k: string, k': string)
    requires Named(table) && k in table && k' in table && table[k].backendName == table[k'].backendName
    ensures table[k].servicePort == table[k'].servicePort
  {
    var m, m' := table[k], table[k'];
    assert WellNamed(k, m) && WellNamed(k', m');
    BackendNameInjective(m.ns, m.service, m.servicePort, m'.ns, m'.service, m'.servicePort);
  }

  lemma SameServiceSameBackend(table: map<string, Mapping>, k: string, k': string, ns: string, name: string)
    requires Named(table) && IsLabel(ns) && IsLabel(name) && k in table && k' in table
    requires ServicePrefix(ns, name) <= k && ServicePrefix(ns, name) <= k' && table[k].servicePort == table[k'].servicePort
    ensures table[k].backendName == table[k'].backendName && IsSvcFrontend(table[k'].frontendName)
  {
    hide MappingKey;
    hide ServicePrefix;
    var m, m' := table[k], table[k'];
    assert WellNamed(k, m) && WellNamed(k', m');
    PrefixIsExact(ns, name, m.ns, m.service, m.portName);
    PrefixIsExact(ns, name, m'.ns, m'.service, m'.portName);
  }
}
