/** Runs in which one failed commit or one refused request costs something for good. Each
    needs only one target port, as the program is started. */
module Losses {
  import opened Names
  import opened HaproxyStore
  import opened ServiceSync
  import opened PortLedger
  import opened ServiceRuns
  import opened CoreInvariant
  import Convergence
  import opened Creation
  import PassTheorems
  import opened Episodes
  import opened Witnesses
  import opened Divergence
  import Leftovers
  import Drain

  // ---- a commit that fails ----

  /** A failed commit loses a service for good: a one-port service becomes known to an
      empty HAProxy, which does all it can except that the commit fails. Nothing is
      pending, the table is complete, and the mapping's frontend is nowhere; by LossLasts
      it stays so until a synchronisation finds the service absent. */
  lemma FailedCommitLoses(c: Settings, s: State, svc: Service) returns (t: State)
    requires Initial(s) && s.core.store.committed == Nothing() && c.first < c.last
    requires WillingFor(c.env, s.core.store.clock, 6) && |svc.ports| == 1 && c.IsTarget(svc.ports[0].name)
    requires IsLabel(svc.ns) && IsLabel(svc.name) && svc.ns in c.namespaces && Usable(svc)
    ensures Reachable(c, t) && Calm(t) && Lookup(t.lister, MetaKey(svc.ns, svc.name)) == Some(svc)
    ensures Convergence.Complete(c, t.core.table, svc) && FirstKey(svc) in t.core.table
    ensures t.core.store.committed == Nothing() && NoFrontend(t.core.store, t.core.table[FirstKey(svc)].frontendName)
  {
    InitialIsCalm(c, s);
    hide Leads;
    hide Reachable;
    hide IsLabel;
    hide MetaKey;
    hide MappingKey;
    hide WillingFor;
    hide Calm;
    hide Initial;
    hide NewMapping;
    hide OneProxy;
    hide FirstKey;
    hide Convergence.Complete;
    t := KnowFirst(c, s, svc, false);
    LeadsReachable(c, s, t);
    OnePortComplete(c, t.core.table, svc);
  }

  lemma OnePortComplete(c: Settings, table: map<string, Mapping>, svc: Service)
    requires |svc.ports| == 1 && FirstKey(svc) in table
    ensures Convergence.Complete(c, table, svc)
  {
  }

  // ---- deletes that are refused ----

  /** From the n-th request on HAProxy carries nothing out. */
  ghost predicate RefusingFrom(env: Environment, n: nat) { forall t: nat :: t >= n ==> env(t) != Done }

  lemma {:induction false} RefusedRemoval(c: Settings, core: Core, keys: seq<string>, n: nat)
    requires core.store.staged.Some? && n <= |keys| && RefusingFrom(c.env, core.store.clock)
    ensures var st := RemoveListed(c, core, keys, n).store; st.staged == core.store.staged && st.clock >= core.store.clock
  {
    if n > 0 { RefusedRemoval(c, core, keys, n - 1); }
  }

  /** Refused deletes leave a service exposed: a one-port service becomes known to an empty
      HAProxy and is deleted, but HAProxy refuses the deletes. The service is not in the
      cache, the table is empty, nothing is pending, and HAProxy serves it still. */
  lemma RefusedDeletesStay(c: Settings, s: State, svc: Service) returns (t: State)
    requires Initial(s) && s.core.store.committed == Nothing() && c.first < c.last
    requires WillingFor(c.env, s.core.store.clock, 6) && RefusingFrom(c.env, s.core.store.clock + 6)
    requires |svc.ports| == 1 && c.IsTarget(svc.ports[0].name)
    requires IsLabel(svc.ns) && IsLabel(svc.name) && svc.ns in c.namespaces && Usable(svc)
    ensures Reachable(c, t) && Calm(t) && MetaKey(svc.ns, svc.name) !in t.lister && t.core.table == map[]
    ensures t.core.store.committed == OneProxy(NewMapping(svc, svc.ports[0], c.first))
  {
    SplitsKey(svc);
    InitialIsCalm(c, s);
    hide Leads;
    hide Reachable;
    hide IsLabel;
    hide MetaKey;
    hide MappingKey;
    hide WillingFor;
    hide RefusingFrom;
    hide Calm;
    hide Initial;
    hide KeyOk;
    hide SplitMetaKey;
    hide OneProxy;
    hide NewMapping;
    hide ServicePrefix;
    hide Lists;
    hide RemoveListed;
    hide FirstKey;
    var known := KnowFirst(c, s, svc, true);
    var mid := Deliver(c, s, known, MetaKey(svc.ns, svc.name), None);
    LeadsReachable(c, s, mid);
    ReachableNamed(c, mid);
    var prefix := ServicePrefix(svc.ns, svc.name);
    var keys := Drain.Picked(mid.core.table, prefix, mid.core.table.Keys);
    PickedLists(mid.core.table, prefix);
    var core := RemoveListed(c, mid.core, keys, |keys|);
    RefusedRemoval(c, mid.core, keys, |keys|);
    EmptyAfter(c, mid.core, svc, keys);
    t := Conclude(c, s, mid, MetaKey(svc.ns, svc.name), None, keys, core, true);
    LeadsReachable(c, s, t);
  }

  lemma EmptyAfter(c: Settings, core: Core, svc: Service, keys: seq<string>)
    requires core.store.staged.Some? && Named(core.table) && IsLabel(svc.ns) && IsLabel(svc.name) && |svc.ports| == 1
    requires core.table == map[FirstKey(svc) := NewMapping(svc, svc.ports[0], c.first)]
    requires Lists(keys, core.table, ServicePrefix(svc.ns, svc.name))
    ensures RemoveListed(c, core, keys, |keys|).table == map[]
  {
    hide RemoveListed;
    hide Named;
    hide IsLabel;
    hide ServicePrefix;
    hide Lists;
    hide FirstKey;
    hide BackendName;
    hide FrontendName;
    hide BindName;
    Convergence.RemovalIsExact(c, core, svc.ns, svc.name, keys);
  }

  // ---- a creation that is refused half way ----

  /** HAProxy does all it can with four requests and refuses the fifth. */
  ghost predicate RefusesFifth(env: Environment, n: nat) { WillingFor(env, n, 4) && env(n + 4) == Failed }

  /** An empty HAProxy refuses the frontend: backend and server stay behind. */
  lemma HalfCreated(env: Environment, st: Store, m: Mapping)
    requires RefusesFifth(env, st.clock) && st.staged == Some(Nothing()) && st.committed == Nothing()
    ensures var (st', ok) := CreateProxy(env, st, m);
            && !ok && (st'.clean <==> st.clean)
            && HasServer(st'.staged.value, m.backendName, ServerName(m.clusterIP, m.servicePort))
  {
    hide StageBackend;
    hide StageServer;
    hide ServerName;
    var b, server := m.backendName, ServerName(m.clusterIP, m.servicePort);
    WillingBackend(env, st, b);
    var st1 := StageBackend(env, st, b).0;
    WillingServer(env, st1, b, server);
  }

  lemma HalfPass(c: Settings, core: Core, svc: Service)
    requires c.first < c.last && RefusesFifth(c.env, core.store.clock) && core.store.clean
    requires core.store.staged == Some(Nothing()) && core.store.committed == Nothing()
    requires core.table == map[] && core.ledger == map[] && |svc.ports| == 1 && c.IsTarget(svc.ports[0].name)
    ensures var now := SyncPorts(c, core, svc, 1);
            && now.table == map[] && now.store.clean
            && Leftovers.Blocked(now.table, now.store.staged.value, svc.ns, svc.name, svc.ports[0].port, svc.clusterIP)
  {
    hide CreateProxy;
    hide MappingKey;
    hide BackendName;
    hide FrontendName;
    hide BindName;
    hide ServerName;
    hide FirstFree;
    hide SyncPort;
    hide Nothing;
    hide HasServer;
    assert SyncPorts(c, core, svc, 0) == core;
    FreeIs(core.ledger, c.first, c.last, c.first);
    HalfCreated(c.env, core.store, NewMapping(svc, svc.ports[0], c.first));
    PassTheorems.NewPortStep(c, core, svc, svc.ports[0]);
    SyncPortShape(c, core, svc, svc.ports[0]);
  }

  /** One refused request blocks a port for good: a one-port service becomes known to an
      empty HAProxy, which refuses its frontend and nothing else. The batch is committed
      all the same, with the backend and its server; nothing is pending and the port is
      not mapped. By LeftoverForever it never will be while the service keeps its
      address. */
  lemma RefusedFrontendBlocks(c: Settings, s: State, svc: Service) returns (t: State)
    requires Initial(s) && s.core.store.committed == Nothing() && c.first < c.last && RefusesFifth(c.env, s.core.store.clock)
    requires |svc.ports| == 1 && c.IsTarget(svc.ports[0].name)
    requires IsLabel(svc.ns) && IsLabel(svc.name) && svc.ns in c.namespaces && Usable(svc)
    ensures Reachable(c, t) && Calm(t) && t.core.store.clean && Lookup(t.lister, MetaKey(svc.ns, svc.name)) == Some(svc)
    ensures t.core.table == map[] && Leftovers.Leftover(t.core, svc.ns, svc.name, svc.ports[0].port, svc.clusterIP)
  {
    var key := MetaKey(svc.ns, svc.name);
    SplitsKey(svc);
    InitialIsCalm(c, s);
    hide Leads;
    hide Reachable;
    hide IsLabel;
    hide MetaKey;
    hide IsSvcFrontend;
    hide RefusesFifth;
    hide SplitMetaKey;
    hide KeyOk;
    hide Calm;
    hide SyncPorts;
    hide Leftovers.Blocked;
    hide Nothing;
    var mid := Deliver(c, s, s, key, Some(svc));
    var core := Retried(mid.core, svc);
    HalfPass(c, core, svc);
    var now := SyncPorts(c, core, svc, 1);
    assert ProcessService(c, mid.core, svc) == now;
    t := Conclude(c, s, mid, key, Some(svc), [], now, true);
    LeadsReachable(c, s, t);
  }
}
