/** A server without a mapping blocks its port. */
module Leftovers {
  import opened Names
  import opened HaproxyStore
  import opened ServiceSync
  import opened ServiceRuns
  import opened CoreInvariant
  import opened ServiceInvariant
  import opened Creation
  import opened Origins

  /** HAProxy never answers "already exists": as HaproxyClient.WriteReply shows, the
      client does not recognise the conflicts that say so. */
  ghost predicate NeverExists(env: Environment) { forall t: nat :: env(t) != AlreadyExists }

  predicate KeepsServers(op: Op, b: string) {
    match op
    case DeleteBackend(d) => d != b
    case ReplaceServer(_, o, s, _) => o == s
    case _ => true
  }

  lemma ServerKept(env: Environment, st: Store, op: Op, b: string, server: string)
    requires st.staged.Some? && KeepsServers(op, b) && HasServer(st.staged.value, b, server)
    ensures HasServer(Perform(env, st, op).0.staged.value, b, server)
  {
  }

  lemma ServerStageKept(env: Environment, st: Store, m: Mapping, b: string, server: string)
    requires st.staged.Some? && HasServer(st.staged.value, b, server)
    ensures var own := ServerName(m.clusterIP, m.servicePort);
            HasServer(StageServer(env, st, m.backendName, own).0.staged.value, b, server)
  {
    hide Perform;
    hide HasServer;
    hide ServerName;
    var own := ServerName(m.clusterIP, m.servicePort);
    var (st1, reply) := Perform(env, st, AddServer(m.backendName, own, own));
    ServerKept(env, st, AddServer(m.backendName, own, own), b, server);
    if reply == AlreadyExists { ServerKept(env, st1, ReplaceServer(m.backendName, own, own, own), b, server); }
  }

  /** A creation loses no server of any backend. */
  lemma CreationKeeps(env: Environment, st: Store, m: Mapping, b: string, server: string)
    requires st.staged.Some? && HasServer(st.staged.value, b, server)
    ensures HasServer(CreateProxy(env, st, m).0.staged.value, b, server)
  {
    hide Perform;
    hide HasServer;
    hide StageServer;
    hide ServerName;
    var (st0, there) := EnsureBackend(env, st, m.backendName);
    ServerKept(env, st0, if there then ReplaceBackend(m.backendName) else AddBackend(m.backendName), b, server);
    var (st1, ok1) := StageBackend(env, st, m.backendName);
    if ok1 {
      ServerStageKept(env, st1, m, b, server);
      var (st2, ok2) := StageServer(env, st1, m.backendName, ServerName(m.clusterIP, m.servicePort));
      if ok2 {
        var (st3, known) := EnsureFrontend(env, st2, m.frontendName);
        ServerKept(env, st3, if known then ReplaceFrontend(m.frontendName, m.backendName) else AddFrontend(m.frontendName, m.backendName),
                   b, server);
        var (st4, ok4) := StageFrontend(env, st2, m.frontendName, m.backendName);
        if ok4 { ServerKept(env, st4, AddBind(m.frontendName, m.bindName, m.mappedPort), b, server); }
      }
    }
  }

  lemma BlockedServer(env: Environment, st: Store, b: string, server: string)
    requires NeverExists(env) && st.staged.Some? && HasServer(st.staged.value, b, server)
    ensures !StageServer(env, st, b, server).1
  {
  }

  /** A backend that has the server refuses to have it added. */
  lemma BlockedCreation(env: Environment, st: Store, m: Mapping)
    requires NeverExists(env) && st.staged.Some?
    requires HasServer(st.staged.value, m.backendName, ServerName(m.clusterIP, m.servicePort))
    ensures !CreateProxy(env, st, m).1
  {
    hide Perform;
    hide HasServer;
    hide StageServer;
    hide StageFrontend;
    hide ServerName;
    hide NeverExists;
    var b, server := m.backendName, ServerName(m.clusterIP, m.servicePort);
    var (st0, there) := EnsureBackend(env, st, b);
    ServerKept(env, st0, if there then ReplaceBackend(b) else AddBackend(b), b, server);
    BlockedServer(env, StageBackend(env, st, b).0, b, server);
  }

  // ---- one synchronisation ----

  /** The backend for the number has the server at the address, and no mapping. */
  ghost predicate Blocked(table: map<string, Mapping>, cfg: Config, ns: string, name: string, number: int, ip: string) {
    HasServer(cfg, BackendName(ns, name, number), ServerName(ip, number)) && !UsesBackend(table, BackendName(ns, name, number))
  }

  /** If this is a version of the blocked service, it has the address. */
  predicate Steady(svc: Service, ns: string, name: string, ip: string) {
    svc.ns == ns && svc.name == name ==> svc.clusterIP == ip
  }

  lemma PortStaysBlocked(c: Settings, core: Core, svc: Service, port: ServicePort, ns: string, name: string, number: int, ip: string)
    requires NeverExists(c.env) && core.store.staged.Some? && IsLabel(ns) && IsLabel(name) && IsLabel(svc.ns) && IsLabel(svc.name)
    requires Steady(svc, ns, name, ip) && Blocked(core.table, core.store.staged.value, ns, name, number, ip)
    ensures var now := SyncPort(c, core, svc, port); Blocked(now.table, now.store.staged.value, ns, name, number, ip)
  {
    hide CreateProxy;
    hide MappingKey;
    hide BackendName;
    hide FrontendName;
    hide BindName;
    hide ServerName;
    hide FirstFree;
    hide IsLabel;
    hide HasServer;
    hide NeverExists;
    var r := FirstFree(core.ledger, c.first, c.last);
    if c.IsTarget(port.name) && MappingKey(svc.ns, svc.name, port.name) !in core.table && r.Some? {
      var m := NewMapping(svc, port, r.value);
      BackendNameInjective(ns, name, number, svc.ns, svc.name, port.port);
      CreationKeeps(c.env, core.store, m, BackendName(ns, name, number), ServerName(ip, number));
      if m.backendName == BackendName(ns, name, number) { BlockedCreation(c.env, core.store, m); }
    }
  }

  lemma {:induction false} PassStaysBlocked(c: Settings, core: Core, svc: Service, n: nat,
                                          ns: string, name: string, number: int, ip: string)
    requires NeverExists(c.env) && core.store.staged.Some? && IsLabel(ns) && IsLabel(name) && IsLabel(svc.ns) && IsLabel(svc.name)
    requires n <= |svc.ports| && Steady(svc, ns, name, ip) && Blocked(core.table, core.store.staged.value, ns, name, number, ip)
    ensures var now := SyncPorts(c, core, svc, n); Blocked(now.table, now.store.staged.value, ns, name, number, ip)
  {
    hide SyncPort;
    hide IsLabel;
    hide Blocked;
    hide NeverExists;
    if n > 0 {
      PassStaysBlocked(c, core, svc, n - 1, ns, name, number, ip);
      PortStaysBlocked(c, SyncPorts(c, core, svc, n - 1), svc, svc.ports[n - 1], ns, name, number, ip);
    }
  }

  lemma RemovedStaysBlocked(c: Settings, core: Core, key: string, ns: string, name: string, number: int, ip: string)
    requires core.store.staged.Some? && key in core.table && Blocked(core.table, core.store.staged.value, ns, name, number, ip)
    ensures var now := RemoveMapping(c, core, key); Blocked(now.table, now.store.staged.value, ns, name, number, ip)
  {
    hide Perform;
    hide HasServer;
    hide BackendName;
    hide ServerName;
    var m := core.table[key];
    var b, server := BackendName(ns, name, number), ServerName(ip, number);
    var st1 := Perform(c.env, core.store, DeleteFrontend(m.frontendName)).0;
    ServerKept(c.env, core.store, DeleteFrontend(m.frontendName), b, server);
    ServerKept(c.env, st1, DeleteBackend(m.backendName), b, server);
  }

  lemma {:induction false} RemovalStaysBlocked(c: Settings, core: Core, keys: seq<string>, n: nat,
                                             ns: string, name: string, number: int, ip: string)
    requires core.store.staged.Some? && n <= |keys| && Blocked(core.table, core.store.staged.value, ns, name, number, ip)
    ensures var now := RemoveListed(c, core, keys, n); Blocked(now.table, now.store.staged.value, ns, name, number, ip)
  {
    hide RemoveMapping;
    hide Blocked;
    if n > 0 {
      RemovalStaysBlocked(c, core, keys, n - 1, ns, name, number, ip);
      var before := RemoveListed(c, core, keys, n - 1);
      if keys[n - 1] in before.table { RemovedStaysBlocked(c, before, keys[n - 1], ns, name, number, ip); }
    }
  }

  // ---- runs ----

  /** A leftover: no mapping uses the backend, and it has the server in the committed
      configuration and in the open transaction. */
  ghost predicate Leftover(core: Core, ns: string, name: string, number: int, ip: string) {
    && Blocked(core.table, core.store.committed, ns, name, number, ip)
    && (core.store.staged.Some? ==> Blocked(core.table, core.store.staged.value, ns, name, number, ip))
  }

  lemma NextStaysBlocked(c: Settings, s: State, s': State, ns: string, name: string, number: int, ip: string)
    requires NeverExists(c.env) && IsLabel(ns) && IsLabel(name) && KeysOk(s) && Next(c, s, s')
    requires Leftover(s.core, ns, name, number, ip)
    requires s.worker.Busy? && s.worker.pc.Applying? && s.worker.pc.seen.Some? ==> Steady(s.worker.pc.seen.value, ns, name, ip)
    ensures Leftover(s'.core, ns, name, number, ip)
  {
    hide NeverExists;
    hide HasServer;
    hide BackendName;
    hide ServerName;
    hide UsesBackend;
    hide SyncPorts;
    hide RemoveListed;
    hide Lists;
    hide SplitMetaKey;
    hide QueueKeysOk;
    hide ListerOk;
    hide KeyOk;
    hide IsLabel;
    hide MetaKey;
    var step :| NextStep(c, s, s', step);
    if step.Apply? {
      match s.worker.pc.seen
      case None => RemovalStaysBlocked(c, s.core, step.keys, |step.keys|, ns, name, number, ip);
      case Some(svc) => PassStaysBlocked(c, Retried(s.core, svc), svc, |svc.ports|, ns, name, number, ip);
      assert s'.core.store.committed == s.core.store.committed;
    }
  }

  lemma InvKeys(c: Settings, s: State)
    requires Inv(c, s)
    ensures KeysOk(s)
  {
  }

  /** A leftover blocks its port for ever: as long as the service keeps its address and
      HAProxy's conflicts read as failures, no mapping will use the backend, whatever else
      happens and however often the service is synchronised. */
  lemma {:induction false} LeftoverForever(c: Settings, path: seq<State>, i: nat, n: nat, ns: string, name: string, number: int, ip: string)
    requires IsRun(c, path) && i <= n < |path| && NeverExists(c.env) && IsLabel(ns) && IsLabel(name)
    requires forall svc :: svc in Versions(path, n) ==> Steady(svc, ns, name, ip)
    requires Leftover(path[i].core, ns, name, number, ip)
    ensures Leftover(path[n].core, ns, name, number, ip)
  {
    hide Next;
    hide Inv;
    hide Initial;
    hide IsLabel;
    hide NeverExists;
    hide Leftover;
    hide Steady;
    if i < n {
      assert Versions(path, n - 1) <= Versions(path, n);
      LeftoverForever(c, path, i, n - 1, ns, name, number, ip);
      RunTraced(c, path, n - 1);
      RunInv(c, path, n - 1);
      InvKeys(c, path[n - 1]);
      NextStaysBlocked(c, path[n - 1], path[n], ns, name, number, ip);
    }
  }
}
