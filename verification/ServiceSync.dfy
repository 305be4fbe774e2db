/** What one synchronisation of one service does to the controller's table, its
    port ledger and the open transaction, as functions. The class in
    ServiceController.dfy is proved to compute these. */
module ServiceSync {
  import opened Names
  import opened HaproxyStore

  datatype ServicePort = ServicePort(name: string, port: int)

  datatype Service = Service(ns: string, name: string, clusterIP: string, ports: seq<ServicePort>, version: string)

  datatype Mapping = Mapping(
    service: string, ns: string, servicePort: int, portName: string, mappedPort: int,
    backendName: string, frontendName: string, bindName: string, clusterIP: string)

  /** The controller's configuration. An empty `portNames` means every port; the command
      line always passes exactly one name. */
  datatype Settings = Settings(
    first: int, last: int, namespaces: set<string>, portNames: set<string>, maxBatch: int, env: Environment)
  {
    /** isTargetPortName: an empty list means every port. */
    predicate IsTarget(portName: string) { if |portNames| == 0 then true else portName in portNames }
  }

  /** `peak` is the largest size the table has had, `failed` holds the keys of the
      services whose last pass had an allocation or a creation that failed, `shared`
      says that some mapping was created on a backend another mapping was already
      using. */
  datatype Core = Core(
    table: map<string, Mapping>, ledger: map<int, bool>, store: Store,
    peak: nat, failed: set<string>, shared: bool)

  // ---- the port ledger ----

  predicate Taken(ledger: map<int, bool>, port: int) { port in ledger && ledger[port] }

  /** The first port from `from` on that is not taken. */
  function FirstFree(ledger: map<int, bool>, from: int, last: int): (r: Option<int>)
    ensures r.Some? ==> from <= r.value <= last && !Taken(ledger, r.value)
    ensures forall p :: from <= p <= last && (r.Some? ==> p < r.value) ==> Taken(ledger, p)
    decreases last - from
  {
    if from > last then None
    else if !Taken(ledger, from) then Some(from)
    else FirstFree(ledger, from + 1, last)
  }

  // ---- creating one proxy ----

  function StageBackend(env: Environment, st: Store, backend: string): (r: (Store, bool))
    requires st.staged.Some?
    ensures r.0.staged.Some? && r.0.committed == st.committed && (r.0.clean ==> st.clean) && r.0.clock >= st.clock
  {
    var (st1, exists_) := EnsureBackend(env, st, backend);
    var (st2, reply) := Perform(env, st1, if exists_ then ReplaceBackend(backend) else AddBackend(backend));
    (st2, reply != Failed)
  }

  function StageServer(env: Environment, st: Store, backend: string, server: string): (r: (Store, bool))
    requires st.staged.Some?
    ensures r.0.staged.Some? && r.0.committed == st.committed && (r.0.clean ==> st.clean) && r.0.clock >= st.clock
  {
    var (st1, reply) := Perform(env, st, AddServer(backend, server, server));
    if reply == AlreadyExists then
      var (st2, again) := Perform(env, st1, ReplaceServer(backend, server, server, server));
      (st2, again == Done)
    else (st1, reply == Done)
  }

  function StageFrontend(env: Environment, st: Store, frontend: string, backend: string): (r: (Store, bool))
    requires st.staged.Some?
    ensures r.0.staged.Some? && r.0.committed == st.committed && (r.0.clean ==> st.clean) && r.0.clock >= st.clock
  {
    var (st1, exists_) := EnsureFrontend(env, st, frontend);
    var (st2, reply) := Perform(env, st1,
      if exists_ then ReplaceFrontend(frontend, backend) else AddFrontend(frontend, backend));
    (st2, reply != Failed)
  }

  /** createServiceProxy: backend, server, frontend, bind, stopping at the first
      failure; true when no error is returned. */
  function CreateProxy(env: Environment, st: Store, m: Mapping): (r: (Store, bool))
    requires st.staged.Some?
    ensures r.0.staged.Some? && r.0.committed == st.committed && (r.0.clean ==> st.clean) && r.0.clock >= st.clock
  {
    var (st1, ok1) := StageBackend(env, st, m.backendName);
    if !ok1 then (st1, false) else
    var (st2, ok2) := StageServer(env, st1, m.backendName, ServerName(m.clusterIP, m.servicePort));
    if !ok2 then (st2, false) else
    var (st3, ok3) := StageFrontend(env, st2, m.frontendName, m.backendName);
    if !ok3 then (st3, false) else
    var (st4, reply) := Perform(env, st3, AddBind(m.frontendName, m.bindName, m.mappedPort));
    (st4, reply != Failed)
  }

  // ---- a service that exists ----

  function NewMapping(svc: Service, port: ServicePort, mappedPort: int): Mapping {
    Mapping(svc.name, svc.ns, port.port, port.name, mappedPort,
            BackendName(svc.ns, svc.name, port.port), FrontendName(svc.ns, svc.name, mappedPort),
            BindName(svc.ns, svc.name, port.name), svc.clusterIP)
  }

  predicate UsesBackend(table: map<string, Mapping>, backend: string) {
    exists k :: k in table && table[k].backendName == backend
  }

  function Insert(core: Core, key: string, m: Mapping, st: Store): Core {
    var table := core.table[key := m];
    Core(table, core.ledger[m.mappedPort := true], st,
         if |table| > core.peak then |table| else core.peak,
         core.failed, core.shared || UsesBackend(core.table, m.backendName))
  }

  /** One iteration of the loop over Spec.Ports. */
  function SyncPort(c: Settings, core: Core, svc: Service, port: ServicePort): (r: Core)
    requires core.store.staged.Some?
    ensures r.store.staged.Some? && r.store.committed == core.store.committed && (r.store.clean ==> core.store.clean)
    ensures r.store.clock >= core.store.clock
  {
    hide CreateProxy;
    hide FirstFree;
    var key := MappingKey(svc.ns, svc.name, port.name);
    if !c.IsTarget(port.name) || key in core.table then core
    else match FirstFree(core.ledger, c.first, c.last)
      case None => core.(failed := core.failed + {MetaKey(svc.ns, svc.name)})
      case Some(p) =>
        var m := NewMapping(svc, port, p);
        var (st, ok) := CreateProxy(c.env, core.store, m);
        if ok then Insert(core, key, m, st)
        else core.(ledger := core.ledger[p := false], store := st, failed := core.failed + {MetaKey(svc.ns, svc.name)})
  }

  /** The state after the first `n` ports. */
  function SyncPorts(c: Settings, core: Core, svc: Service, n: nat): (r: Core)
    requires core.store.staged.Some? && n <= |svc.ports|
    ensures r.store.staged.Some? && r.store.committed == core.store.committed && (r.store.clean ==> core.store.clean)
    ensures r.store.clock >= core.store.clock
  {
    hide SyncPort;
    if n == 0 then core else SyncPort(c, SyncPorts(c, core, svc, n - 1), svc, svc.ports[n - 1])
  }

  predicate Usable(svc: Service) { svc.clusterIP != "" && svc.clusterIP != "None" }

  /** A new pass begins: earlier failures of the service no longer count. */
  function Retried(core: Core, svc: Service): Core { core.(failed := core.failed - {MetaKey(svc.ns, svc.name)}) }

  /** processServiceWithTx. */
  function ProcessService(c: Settings, core: Core, svc: Service): (r: Core)
    requires core.store.staged.Some?
    ensures r.store.staged.Some? && r.store.committed == core.store.committed && (r.store.clean ==> core.store.clean)
  {
    if Usable(svc) then SyncPorts(c, Retried(core, svc), svc, |svc.ports|) else core
  }

  // ---- a service that is gone ----

  /** The two deletes' answers are ignored. */
  function RemoveMapping(c: Settings, core: Core, key: string): (r: Core)
    requires core.store.staged.Some? && key in core.table
    ensures r.store.staged.Some? && r.store.committed == core.store.committed && (r.store.clean ==> core.store.clean)
    ensures core.store.trail <= r.store.trail
    ensures r.table == core.table - {key}
    ensures r.peak == core.peak && r.failed == core.failed && r.shared == core.shared
  {
    hide Perform;
    var m := core.table[key];
    var st1 := Perform(c.env, core.store, DeleteFrontend(m.frontendName)).0;
    var st2 := Perform(c.env, st1, DeleteBackend(m.backendName)).0;
    core.(table := core.table - {key}, ledger := core.ledger[m.mappedPort := false], store := st2)
  }

  /** `keys` lists the mappings under the service's prefix, in the order in which
      the map happened to be walked. */
  ghost predicate Lists(keys: seq<string>, table: map<string, Mapping>, prefix: string) {
    && (forall i, j :: 0 <= i < j < |keys| ==> keys[i] != keys[j])
    && (forall k :: k in keys <==> k in table && prefix <= k)
  }

  /** The state after the first `n` of the listed mappings are removed. */
  function RemoveListed(c: Settings, core: Core, keys: seq<string>, n: nat): (r: Core)
    requires core.store.staged.Some? && n <= |keys|
    ensures r.store.staged.Some? && r.store.committed == core.store.committed && (r.store.clean ==> core.store.clean)
  {
    hide RemoveMapping;
    if n == 0 then core
    else
      var before := RemoveListed(c, core, keys, n - 1);
      if keys[n - 1] in before.table then RemoveMapping(c, before, keys[n - 1]) else before
  }

  // ---- one key ----

  /** syncService once the lister has answered: `seen` is the service it found. */
  ghost predicate SyncKey(c: Settings, core: Core, key: string, seen: Option<Service>, keys: seq<string>, core': Core)
    requires core.store.staged.Some? && SplitMetaKey(key).Some?
  {
    match seen
    case None =>
      var (ns, name) := SplitMetaKey(key).value;
      Lists(keys, core.table, ServicePrefix(ns, name)) && core' == RemoveListed(c, core, keys, |keys|)
    case Some(svc) =>
      core' == if svc.ns in c.namespaces then ProcessService(c, core, svc) else core
  }
}
