/** The reads that bypass the open transaction: EnsureBackend and EnsureFrontend
    look at the committed configuration while writes go to the staged one. */
module StaleReads {
  import opened Names
  import opened HaproxyStore
  import opened ServiceSync
  import opened PortLedger
  import opened ServiceRuns
  import opened BatchInvariant
  import opened CoreInvariant

  ghost predicate SameBackend(cfg: Config, cfg': Config, b: string) {
    (b in cfg.backends <==> b in cfg'.backends) && (b in cfg.backends ==> cfg.backends[b] == cfg'.backends[b])
  }

  ghost predicate SameFrontend(cfg: Config, cfg': Config, f: string) {
    (f in cfg.frontends <==> f in cfg'.frontends) && (f in cfg.frontends ==> cfg.frontends[f] == cfg'.frontends[f])
  }

  ghost predicate IsBackendOf(b: string, ns: string, name: string) {
    exists p: int :: b == BackendName(ns, name, p)
  }

  ghost predicate IsFrontendOf(f: string, ns: string, name: string) {
    exists p: int :: f == FrontendName(ns, name, p)
  }

  /** Everything but the named backend and frontend is the same. */
  ghost predicate SameBut(cfg: Config, cfg': Config, backend: string, frontend: string) {
    && (forall b :: b != backend ==> SameBackend(cfg, cfg', b))
    && (forall f :: f != frontend ==> SameFrontend(cfg, cfg', f))
  }

  /** Everything but the service's own objects is the same. */
  ghost predicate OnlyService(cfg: Config, cfg': Config, ns: string, name: string) {
    && (forall b :: !IsBackendOf(b, ns, name) ==> SameBackend(cfg, cfg', b))
    && (forall f :: !IsFrontendOf(f, ns, name) ==> SameFrontend(cfg, cfg', f))
  }

  ghost predicate AgreeFor(cfg: Config, cfg': Config, ns: string, name: string) {
    && (forall b :: IsBackendOf(b, ns, name) ==> SameBackend(cfg, cfg', b))
    && (forall f :: IsFrontendOf(f, ns, name) ==> SameFrontend(cfg, cfg', f))
  }

  // ---- what a request and a synchronisation touch ----

  predicate Concerns(op: Op, backend: string, frontend: string) {
    match op
    case AddBackend(b) => b == backend
    case ReplaceBackend(b) => b == backend
    case DeleteBackend(b) => b == backend
    case AddServer(b, _, _) => b == backend
    case ReplaceServer(b, _, _, _) => b == backend
    case AddFrontend(f, _) => f == frontend
    case ReplaceFrontend(f, _) => f == frontend
    case DeleteFrontend(f) => f == frontend
    case AddBind(f, _, _) => f == frontend
  }

  lemma EffectTouches(cfg: Config, op: Op, backend: string, frontend: string)
    requires Possible(cfg, op) && Concerns(op, backend, frontend)
    ensures SameBut(cfg, Effect(cfg, op), backend, frontend)
  {
  }

  lemma PerformTouches(env: Environment, st: Store, op: Op, backend: string, frontend: string)
    requires st.staged.Some? && Concerns(op, backend, frontend)
    ensures SameBut(st.staged.value, Perform(env, st, op).0.staged.value, backend, frontend)
  {
    hide Effect;
    hide Possible;
    hide Concerns;
    if Possible(st.staged.value, op) { EffectTouches(st.staged.value, op, backend, frontend); }
  }

  lemma SameButTransitive(a: Config, b: Config, c: Config, backend: string, frontend: string)
    requires SameBut(a, b, backend, frontend) && SameBut(b, c, backend, frontend)
    ensures SameBut(a, c, backend, frontend)
  {
    hide SameBackend;
    hide SameFrontend;
    forall n | n != backend ensures SameBackend(a, c, n) {
      assert SameBackend(a, b, n) && SameBackend(b, c, n);
      SameBackendTransitive(a, b, c, n);
    }
    forall n | n != frontend ensures SameFrontend(a, c, n) {
      assert SameFrontend(a, b, n) && SameFrontend(b, c, n);
      SameFrontendTransitive(a, b, c, n);
    }
  }

  lemma SameBackendTransitive(a: Config, b: Config, c: Config, n: string)
    requires SameBackend(a, b, n) && SameBackend(b, c, n)
    ensures SameBackend(a, c, n)
  {
  }

  lemma SameFrontendTransitive(a: Config, b: Config, c: Config, n: string)
    requires SameFrontend(a, b, n) && SameFrontend(b, c, n)
    ensures SameFrontend(a, c, n)
  {
  }

  lemma StageServerTouches(env: Environment, st: Store, m: Mapping, server: string)
    requires st.staged.Some?
    ensures SameBut(st.staged.value, StageServer(env, st, m.backendName, server).0.staged.value, m.backendName, m.frontendName)
  {
    hide Perform;
    hide SameBut;
    var b, f := m.backendName, m.frontendName;
    var (st1, reply) := Perform(env, st, AddServer(b, server, server));
    PerformTouches(env, st, AddServer(b, server, server), b, f);
    if reply == AlreadyExists {
      var st2 := Perform(env, st1, ReplaceServer(b, server, server, server)).0;
      PerformTouches(env, st1, ReplaceServer(b, server, server, server), b, f);
      SameButTransitive(st.staged.value, st1.staged.value, st2.staged.value, b, f);
    }
  }

  lemma StageBackendTouches(env: Environment, st: Store, m: Mapping)
    requires st.staged.Some?
    ensures SameBut(st.staged.value, StageBackend(env, st, m.backendName).0.staged.value, m.backendName, m.frontendName)
  {
    hide Perform;
    hide SameBut;
    var (st1, there) := EnsureBackend(env, st, m.backendName);
    PerformTouches(env, st1, if there then ReplaceBackend(m.backendName) else AddBackend(m.backendName),
                   m.backendName, m.frontendName);
  }

  lemma StageFrontendTouches(env: Environment, st: Store, m: Mapping)
    requires st.staged.Some?
    ensures SameBut(st.staged.value, StageFrontend(env, st, m.frontendName, m.backendName).0.staged.value, m.backendName, m.frontendName)
  {
    hide Perform;
    hide SameBut;
    var (st1, there) := EnsureFrontend(env, st, m.frontendName);
    PerformTouches(env, st1,
      if there then ReplaceFrontend(m.frontendName, m.backendName) else AddFrontend(m.frontendName, m.backendName),
      m.backendName, m.frontendName);
  }

  lemma CreateTouches(env: Environment, st: Store, m: Mapping)
    requires st.staged.Some?
    ensures SameBut(st.staged.value, CreateProxy(env, st, m).0.staged.value, m.backendName, m.frontendName)
  {
    hide Perform;
    hide StageBackend;
    hide StageServer;
    hide StageFrontend;
    hide SameBut;
    hide ServerName;
    var b, f, server := m.backendName, m.frontendName, ServerName(m.clusterIP, m.servicePort);
    var (st1, ok1) := StageBackend(env, st, b);
    StageBackendTouches(env, st, m);
    if ok1 {
      var (st2, ok2) := StageServer(env, st1, b, server);
      StageServerTouches(env, st1, m, server);
      SameButTransitive(st.staged.value, st1.staged.value, st2.staged.value, b, f);
      if ok2 {
        var (st3, ok3) := StageFrontend(env, st2, f, b);
        StageFrontendTouches(env, st2, m);
        SameButTransitive(st.staged.value, st2.staged.value, st3.staged.value, b, f);
        if ok3 {
          var st4 := Perform(env, st3, AddBind(f, m.bindName, m.mappedPort)).0;
          PerformTouches(env, st3, AddBind(f, m.bindName, m.mappedPort), b, f);
          SameButTransitive(st.staged.value, st3.staged.value, st4.staged.value, b, f);
        }
      }
    }
  }

  lemma OnlyServiceFrom(a: Config, b: Config, c: Config, backend: string, frontend: string, ns: string, name: string)
    requires OnlyService(a, b, ns, name) && SameBut(b, c, backend, frontend)
    requires IsBackendOf(backend, ns, name) && IsFrontendOf(frontend, ns, name)
    ensures OnlyService(a, c, ns, name)
  {
    hide SameBackend;
    hide SameFrontend;
    hide IsBackendOf;
    hide IsFrontendOf;
    forall n | !IsBackendOf(n, ns, name) ensures SameBackend(a, c, n) {
      assert SameBackend(a, b, n) && SameBackend(b, c, n);
      SameBackendTransitive(a, b, c, n);
    }
    forall n | !IsFrontendOf(n, ns, name) ensures SameFrontend(a, c, n) {
      assert SameFrontend(a, b, n) && SameFrontend(b, c, n);
      SameFrontendTransitive(a, b, c, n);
    }
  }

  /** One iteration touches the port's own backend and one frontend of the service. */
  lemma SyncPortTouches(c: Settings, core: Core, svc: Service, port: ServicePort) returns (f: string)
    requires core.store.staged.Some?
    ensures IsFrontendOf(f, svc.ns, svc.name)
    ensures SameBut(core.store.staged.value, SyncPort(c, core, svc, port).store.staged.value,
                    BackendName(svc.ns, svc.name, port.port), f)
  {
    hide CreateProxy;
    hide MappingKey;
    hide BackendName;
    hide FrontendName;
    hide BindName;
    hide FirstFree;
    hide UsesBackend;
    f := FrontendName(svc.ns, svc.name, 0);
    var r := FirstFree(core.ledger, c.first, c.last);
    if c.IsTarget(port.name) && MappingKey(svc.ns, svc.name, port.name) !in core.table && r.Some? {
      f := FrontendName(svc.ns, svc.name, r.value);
      CreateTouches(c.env, core.store, NewMapping(svc, port, r.value));
    }
  }

  lemma {:induction false} PassTouches(c: Settings, core: Core, svc: Service, n: nat)
    requires core.store.staged.Some? && n <= |svc.ports|
    ensures OnlyService(core.store.staged.value, SyncPorts(c, core, svc, n).store.staged.value, svc.ns, svc.name)
  {
    hide SyncPort;
    hide BackendName;
    hide SameBut;
    hide IsFrontendOf;
    if n > 0 {
      PassTouches(c, core, svc, n - 1);
      var mid, port := SyncPorts(c, core, svc, n - 1), svc.ports[n - 1];
      var f := SyncPortTouches(c, mid, svc, port);
      assert IsBackendOf(BackendName(svc.ns, svc.name, port.port), svc.ns, svc.name);
      OnlyServiceFrom(core.store.staged.value, mid.store.staged.value, SyncPort(c, mid, svc, port).store.staged.value,
                      BackendName(svc.ns, svc.name, port.port), f, svc.ns, svc.name);
    }
  }

  lemma RemoveMappingTouches(c: Settings, core: Core, key: string)
    requires core.store.staged.Some? && key in core.table
    ensures SameBut(core.store.staged.value, RemoveMapping(c, core, key).store.staged.value,
                    core.table[key].backendName, core.table[key].frontendName)
  {
    hide Perform;
    hide SameBut;
    var m := core.table[key];
    var st1 := Perform(c.env, core.store, DeleteFrontend(m.frontendName)).0;
    var st2 := Perform(c.env, st1, DeleteBackend(m.backendName)).0;
    PerformTouches(c.env, core.store, DeleteFrontend(m.frontendName), m.backendName, m.frontendName);
    PerformTouches(c.env, st1, DeleteBackend(m.backendName), m.backendName, m.frontendName);
    SameButTransitive(core.store.staged.value, st1.staged.value, st2.staged.value, m.backendName, m.frontendName);
  }

  /** The listed mappings all belong to the service. */
  ghost predicate AllOf(keys: seq<string>, table: map<string, Mapping>, ns: string, name: string) {
    forall i :: 0 <= i < |keys| && keys[i] in table ==>
      IsBackendOf(table[keys[i]].backendName, ns, name) && IsFrontendOf(table[keys[i]].frontendName, ns, name)
  }

  lemma {:induction false} RemovalTouches(c: Settings, core: Core, keys: seq<string>, ns: string, name: string, n: nat)
    requires core.store.staged.Some? && n <= |keys| && Listing(keys, core.table) && AllOf(keys, core.table, ns, name)
    ensures OnlyService(core.store.staged.value, RemoveListed(c, core, keys, n).store.staged.value, ns, name)
  {
    hide RemoveMapping;
    hide SameBut;
    hide IsBackendOf;
    hide IsFrontendOf;
    if n > 0 {
      RemovalTouches(c, core, keys, ns, name, n - 1);
      RemoveListedTable(c, core, keys, n - 1);
      RemoveListedTable(c, core, keys, n);
      var before, key := RemoveListed(c, core, keys, n - 1), keys[n - 1];
      RemoveMappingTouches(c, before, key);
      OnlyServiceFrom(core.store.staged.value, before.store.staged.value, RemoveListed(c, core, keys, n).store.staged.value,
                      core.table[key].backendName, core.table[key].frontendName, ns, name);
    }
  }

  lemma ListedBelong(keys: seq<string>, table: map<string, Mapping>, ns: string, name: string)
    requires Named(table) && IsLabel(ns) && IsLabel(name) && Lists(keys, table, ServicePrefix(ns, name))
    ensures AllOf(keys, table, ns, name)
  {
    hide ServicePrefix;
    hide MappingKey;
    hide BackendName;
    hide FrontendName;
    hide BindName;
    hide IsLabel;
    forall i | 0 <= i < |keys| && keys[i] in table
      ensures IsBackendOf(table[keys[i]].backendName, ns, name) && IsFrontendOf(table[keys[i]].frontendName, ns, name)
    {
      var m := table[keys[i]];
      assert keys[i] in keys && WellNamed(keys[i], m);
      PrefixIsExact(ns, name, m.ns, m.service, m.portName);
    }
  }

  /** A synchronisation touches no object of another service, and none of the
      objects that are not services' (those of the pod proxy among them). */
  lemma SyncKeyTouches(c: Settings, core: Core, key: string, ns: string, name: string, seen: Option<Service>,
                       keys: seq<string>, core': Core)
    requires core.store.staged.Some? && Named(core.table)
    requires IsLabel(ns) && IsLabel(name) && SplitMetaKey(key) == Some((ns, name))
    requires seen.Some? ==> seen.value.ns == ns && seen.value.name == name
    requires SyncKey(c, core, key, seen, keys, core')
    ensures core'.store.staged.Some? && core'.store.committed == core.store.committed
    ensures OnlyService(core.store.staged.value, core'.store.staged.value, ns, name)
  {
    hide SyncPorts;
    hide RemoveListed;
    hide Named;
    hide IsLabel;
    hide ServicePrefix;
    hide Lists;
    hide IsBackendOf;
    hide IsFrontendOf;
    match seen
    case None =>
      ListsListing(keys, core.table, ServicePrefix(ns, name));
      ListedBelong(keys, core.table, ns, name);
      RemovalTouches(c, core, keys, ns, name, |keys|);
    case Some(svc) =>
      PassTouches(c, Retried(core, svc), svc, |svc.ports|);
  }

  // ---- the untouched part of a batch ----

  lemma DistinctNames(ns: string, name: string, ns': string, name': string)
    requires IsLabel(ns) && IsLabel(name) && IsLabel(ns') && IsLabel(name') && (ns, name) != (ns', name')
    ensures forall b :: IsBackendOf(b, ns, name) ==> !IsBackendOf(b, ns', name')
    ensures forall f :: IsFrontendOf(f, ns, name) ==> !IsFrontendOf(f, ns', name')
  {
    hide IsLabel;
    hide BackendName;
    hide FrontendName;
    forall b | IsBackendOf(b, ns, name) ensures !IsBackendOf(b, ns', name') {
      if IsBackendOf(b, ns', name') {
        var p: int :| b == BackendName(ns, name, p);
        var p': int :| b == BackendName(ns', name', p');
        BackendNameInjective(ns, name, p, ns', name', p');
      }
    }
    forall f | IsFrontendOf(f, ns, name) ensures !IsFrontendOf(f, ns', name') {
      if IsFrontendOf(f, ns', name') {
        var p: int :| f == FrontendName(ns, name, p);
        var p': int :| f == FrontendName(ns', name', p');
        FrontendNameInjective(ns, name, p, ns', name', p');
      }
    }
  }

  lemma OthersStayAgreed(committed: Config, a: Config, b: Config, ns: string, name: string, ns': string, name': string)
    requires IsLabel(ns) && IsLabel(name) && IsLabel(ns') && IsLabel(name') && (ns, name) != (ns', name')
    requires OnlyService(a, b, ns, name) && AgreeFor(committed, a, ns', name')
    ensures AgreeFor(committed, b, ns', name')
  {
    hide IsLabel;
    hide SameBackend;
    hide SameFrontend;
    hide IsBackendOf;
    hide IsFrontendOf;
    DistinctNames(ns', name', ns, name);
    forall n | IsBackendOf(n, ns', name') ensures SameBackend(committed, b, n) {
      SameBackendTransitive(committed, a, b, n);
    }
    forall n | IsFrontendOf(n, ns', name') ensures SameFrontend(committed, b, n) {
      SameFrontendTransitive(committed, a, b, n);
    }
  }

  /** Committed and staged configuration agree about the key's service. */
  ghost predicate KeyAgrees(st: Store, key: string) {
    st.staged.Some? && SplitMetaKey(key).Some?
    && var (ns, name) := SplitMetaKey(key).value; AgreeFor(st.committed, st.staged.value, ns, name)
  }

  /** The first key of the batch that has not been synchronised. */
  function NextKey(b: Batch, pc: Pc): nat { if pc.Marking? then |b.marks| + 1 else |b.marks| }

  ghost predicate Untouched(s: State) {
    s.worker.Busy? && InTransaction(s.worker.pc) ==>
      forall i :: NextKey(s.worker.batch, s.worker.pc) <= i < |s.worker.batch.keys| ==>
        KeyAgrees(s.core.store, s.worker.batch.keys[i])
  }

  lemma OpenAgrees(st: Store, key: string)
    requires KeyOk(key)
    ensures KeyAgrees(Start(st), key)
  {
    var _, _ := KeyParts(key);
  }

  lemma ApplyUntouched(c: Settings, s: State, s': State, keys: seq<string>)
    requires Untouched(s) && KeysOk(s) && Books(c, s) && Named(s.core.table) && ApplyStep(c, s, s', keys)
    ensures Untouched(s')
  {
    hide SyncKey;
    hide SplitMetaKey;
    hide Named;
    hide KeyOk;
    hide IsLabel;
    hide MetaKey;
    hide QueueKeysOk;
    hide ListerOk;
    hide Accounts;
    hide LogOk;
    hide OnlyService;
    hide AgreeFor;
    var b := s.worker.batch;
    var k := b.keys[|b.marks|];
    var ns, name := KeyParts(k);
    if s.worker.pc.seen.Some? {
      MetaKeyInjective(s.worker.pc.seen.value.ns, s.worker.pc.seen.value.name, ns, name);
    }
    SyncKeyTouches(c, s.core, k, ns, name, s.worker.pc.seen, keys, s'.core);
    forall i | |b.marks| + 1 <= i < |b.keys| ensures KeyAgrees(s'.core.store, b.keys[i]) {
      var ns', name' := KeyParts(b.keys[i]);
      assert KeyAgrees(s.core.store, b.keys[i]);
      assert b.keys[i] != k;
      OthersStayAgreed(s.core.store.committed, s.core.store.staged.value, s'.core.store.staged.value, ns, name, ns', name');
    }
  }

  lemma NextUntouched(c: Settings, s: State, s': State)
    requires Untouched(s) && KeysOk(s) && Books(c, s) && Named(s.core.table) && Next(c, s, s')
    ensures Untouched(s')
  {
    hide SyncKey;
    hide SplitMetaKey;
    hide Named;
    hide KeyOk;
    hide QueueKeysOk;
    hide ListerOk;
    hide Accounts;
    hide LogOk;
    hide KeyAgrees;
    hide ServiceOk;
    hide Distinct;
    hide ApplyStep;
    var step :| NextStep(c, s, s', step);
    match step
    case Apply(keys) => ApplyUntouched(c, s, s', keys);
    case Open(ok) =>
      forall i | 0 <= i < |s.worker.batch.keys| ensures KeyAgrees(Start(s.core.store), s.worker.batch.keys[i]) {
        OpenAgrees(s.core.store, s.worker.batch.keys[i]);
      }
    case Change(_, _) =>
    case Notify =>
    case Fire(_) =>
    case Get =>
    case Look =>
    case Take =>
    case Requeue =>
    case Read(_) =>
    case Mark =>
    case Finish =>
    case Close(_) =>
    case Leave =>
  }
}
