/** Where the table and the committed configuration part, and for how long: failed
    commits and refused deletes. */
module Divergence {
  import opened Names
  import opened HaproxyStore
  import opened ServiceSync
  import opened PortLedger
  import opened ProxyAgreement
  import opened ServiceRuns
  import opened BatchInvariant
  import opened CoreInvariant
  import opened Convergence
  import opened StaleReads
  import opened ServiceInvariant
  import opened ServiceTheorems
  import opened Creation

  // ---- a configuration determines its table ----

  lemma BindNameInjective(ns: string, name: string, port: string, port': string)
    requires BindName(ns, name, port) == BindName(ns, name, port')
    ensures port == port'
  {
    DropCommon(BIND, ns + ("_" + (name + ("_" + port))), ns + ("_" + (name + ("_" + port'))));
    DropCommon(ns, "_" + (name + ("_" + port)), "_" + (name + ("_" + port')));
    DropCommon("_", name + ("_" + port), name + ("_" + port'));
    DropCommon(name, "_" + port, "_" + port');
    DropCommon("_", port, port');
  }

  lemma SvcFrontend(m: Mapping, k: string)
    requires WellNamed(k, m)
    ensures IsSvcFrontend(m.frontendName)
  {
  }

  lemma OneBind(n: string, p: int, n': string, p': int)
    requires map[n := p] == map[n' := p']
    ensures n == n' && p == p'
  {
    assert n in map[n' := p'];
  }

  /** What a frontend's name and bind tell about the mapping it serves. */
  lemma FrontendTells(cfg: Config, k: string, m: Mapping, k': string, m': Mapping)
    requires WellNamed(k, m) && WellNamed(k', m') && FrontendServes(cfg, m) && FrontendServes(cfg, m')
    requires m.frontendName == m'.frontendName
    ensures k == k'
  {
    hide MappingKey;
    hide BackendName;
    hide FrontendName;
    hide BindName;
    hide IsLabel;
    FrontendNameInjective(m.ns, m.service, m.mappedPort, m'.ns, m'.service, m'.mappedPort);
    OneBind(m.bindName, m.mappedPort, m'.bindName, m'.mappedPort);
    BindNameInjective(m.ns, m.service, m.portName, m'.portName);
  }

  /** Two tables that one configuration serves have the same keys. */
  lemma ServedTablesAgree(table: map<string, Mapping>, table': map<string, Mapping>, cfg: Config)
    requires Named(table) && Named(table') && Serves(table, cfg, {}) && Serves(table', cfg, {})
    ensures forall k :: k in table ==> k in table'
  {
    hide WellNamed;
    hide IsSvcFrontend;
    hide FrontendServes;
    hide BackendServes;
    forall k | k in table ensures k in table' {
      assert FrontendServes(cfg, table[k]) && table[k].frontendName in cfg.frontends by { FrontendThere(table, cfg, k); }
      SvcFrontend(table[k], k);
      assert HasFrontend(table', table[k].frontendName);
      var k' :| k' in table' && table'[k'].frontendName == table[k].frontendName;
      FrontendTells(cfg, k, table[k], k', table'[k']);
    }
  }

  lemma FrontendThere(table: map<string, Mapping>, cfg: Config, k: string)
    requires Serves(table, cfg, {}) && k in table
    ensures FrontendServes(cfg, table[k]) && table[k].frontendName in cfg.frontends
  {
    hide Owned;
    hide BackendServes;
  }

  // ---- since the transaction was opened ----

  ghost predicate SameWhereBoth(table: map<string, Mapping>, table': map<string, Mapping>) {
    forall j :: j in table && j in table' ==> table[j] == table'[j]
  }

  /** The same mappings of the service. */
  ghost predicate SameFor(table: map<string, Mapping>, table': map<string, Mapping>, key: string) {
    forall j :: (j in table && KeyOf(table[j]) == key) <==> (j in table' && KeyOf(table'[j]) == key)
  }

  ghost predicate Kept(table: map<string, Mapping>, table': map<string, Mapping>) {
    forall j :: j in table ==> j in table' && table'[j] == table[j]
  }

  lemma SameService(j: string, m: Mapping, m': Mapping)
    requires WellNamed(j, m) && WellNamed(j, m')
    ensures KeyOf(m) == KeyOf(m')
  {
    MappingKeyInjective(m.ns, m.service, m.portName, m'.ns, m'.service, m'.portName);
  }

  lemma StepSince(base: map<string, Mapping>, core: Core, core': Core, key: string)
    requires Named(base) && Named(core'.table) && SameWhereBoth(base, core.table) && SameFor(base, core.table, key)
    requires OthersKept(core, core', key) && (Cleared(core'.table, key) || Kept(core.table, core'.table))
    ensures SameWhereBoth(base, core'.table)
    ensures forall k :: k != key && SameFor(base, core.table, k) ==> SameFor(base, core'.table, k)
  {
    hide WellNamed;
    hide KeyOf;
    forall j | j in base && j in core'.table ensures base[j] == core'.table[j] {
      if KeyOf(core'.table[j]) == key {
        SameService(j, base[j], core'.table[j]);
      }
    }
  }

  /** In a transaction the committed configuration still serves the table of its opening;
      mappings that survived are unchanged, and those of the services still to be
      synchronised are all as they were. */
  ghost predicate Based(c: Settings, s: State) {
    s.worker.Busy? && InTransaction(s.worker.pc) ==>
      var b := s.worker.batch;
      && Named(b.base.table) && SameWhereBoth(b.base.table, s.core.table)
      && (s.core.store.clean ==> Serves(b.base.table, s.core.store.committed, {}))
      && forall i :: NextKey(b, s.worker.pc) <= i < |b.keys| ==> SameFor(b.base.table, s.core.table, b.keys[i])
  }

  lemma OpenBased(c: Settings, s: State, s': State)
    requires Inv(c, s) && OpenStep(s, s', true)
    ensures Based(c, s')
  {
    hide KeysOk;
    hide Converging;
    hide Untouched;
    hide Unapplied;
    hide Serves;
    hide AllUnique;
    hide Unshared;
    hide UniqueBinds;
    hide Closed;
    hide InRange;
    hide DistinctPorts;
    hide Agree;
    hide UnderPeak;
    hide WellNamed;
    hide KeyOf;
    hide Accounts;
    hide LogOk;
  }

  lemma ApplyBased(c: Settings, s: State, s': State, keys: seq<string>)
    requires Inv(c, s) && Based(c, s) && Named(s'.core.table) && ApplyStep(c, s, s', keys)
    ensures Based(c, s')
  {
    hide Converging;
    hide Untouched;
    hide Unapplied;
    hide Proxied;
    hide Serves;
    hide WellNamed;
    hide KeyOf;
    hide Accounts;
    hide LogOk;
    hide InRange;
    hide DistinctPorts;
    hide Agree;
    hide UnderPeak;
    hide QueueKeysOk;
    hide ListerOk;
    hide KeyOk;
    hide ServiceOk;
    hide SplitMetaKey;
    hide SyncKey;
    hide OthersKept;
    hide Cleared;
    hide Kept;
    hide Named;
    hide SameWhereBoth;
    hide SameFor;
    hide Complete;
    hide Usable;
    var b := s.worker.batch;
    var key := b.keys[|b.marks|];
    assert KeyOk(key);
    SyncKeySettles(c, s.core, key, s.worker.pc.seen, keys, s'.core);
    if s.worker.pc.seen.Some? { KeptBySync(c, s.core, key, s.worker.pc.seen.value, keys, s'.core); }
    SyncKeyWasClean(c, s.core, key, s.worker.pc.seen, keys, s'.core);
    StepSince(b.base.table, s.core, s'.core, key);
  }

  lemma KeptBySync(c: Settings, core: Core, key: string, svc: Service, keys: seq<string>, core': Core)
    requires core.store.staged.Some? && SplitMetaKey(key).Some? && ServiceOk(key, svc)
    requires SyncKey(c, core, key, Some(svc), keys, core')
    ensures Kept(core.table, core'.table)
  {
    hide ProcessService;
    hide SplitMetaKey;
    hide ServiceOk;
    SyncPresent(c, core, key, svc);
  }

  lemma InvNamed(c: Settings, s: State)
    requires Inv(c, s)
    ensures Named(s.core.table)
  {
  }

  lemma NextBased(c: Settings, s: State, s': State)
    requires Inv(c, s) && Based(c, s) && Inv(c, s') && Next(c, s, s')
    ensures Based(c, s')
  {
    hide Inv;
    hide Based;
    hide ApplyStep;
    hide OpenStep;
    hide ChangeStep;
    hide NotifyStep;
    hide FireStep;
    hide GetStep;
    hide LookStep;
    hide TakeStep;
    hide RequeueStep;
    hide ReadStep;
    hide MarkStep;
    hide FinishStep;
    hide CloseStep;
    hide LeaveStep;
    var step :| NextStep(c, s, s', step);
    match step
    case Apply(keys) =>
      InvNamed(c, s');
      ApplyBased(c, s, s', keys);
    case Open(ok) => if ok { OpenBased(c, s, s'); } else { NotOpened(c, s, s'); }
    case _ => OtherBased(c, s, s', step);
  }

  lemma OtherBased(c: Settings, s: State, s': State, step: Step)
    requires Based(c, s) && NextStep(c, s, s', step) && !step.Apply? && !step.Open?
    ensures Based(c, s')
  {
    hide Serves;
    hide Named;
    hide KeyOf;
    hide SameWhereBoth;
    hide SameFor;
    hide SplitMetaKey;
    hide ServiceOk;
    hide Changed;
    hide NoticeOf;
    hide Notified;
    hide Tail;
  }

  lemma NotOpened(c: Settings, s: State, s': State)
    requires OpenStep(s, s', false)
    ensures Based(c, s')
  {
  }

  lemma {:induction false} RunBased(c: Settings, path: seq<State>, n: nat)
    requires IsRun(c, path) && n < |path|
    ensures Based(c, path[n])
  {
    hide Next;
    hide Inv;
    if n > 0 {
      hide Based;
      RunBased(c, path, n - 1);
      RunInv(c, path, n - 1);
      RunInv(c, path, n);
      NextBased(c, path[n - 1], path[n]);
    }
  }

  lemma ReachableBased(c: Settings, s: State)
    requires Reachable(c, s)
    ensures Based(c, s)
  {
    hide Based;
    hide Next;
    hide Initial;
    var path :| IsRun(c, path) && path[|path| - 1] == s;
    RunBased(c, path, |path| - 1);
  }

  // ---- the commit ----

  /** When agreement survives a commit. At the end of a batch with a success, in a run
      that was clean so far, the committed configuration serves the table after the
      commit if and only if the commit succeeded or the batch changed no mapping. */
  lemma CommitAgreement(c: Settings, s: State, s': State, ok: bool)
    requires Reachable(c, s) && s.core.store.clean && CloseStep(s, s', ok) && true in s.worker.batch.marks
    ensures Serves(s'.core.table, s'.core.store.committed, {}) <==> ok || s.core.table == s.worker.batch.base.table
  {
    hide Reachable;
    hide Books;
    hide KeysOk;
    hide Converging;
    hide Untouched;
    hide Unapplied;
    hide Serves;
    hide AllUnique;
    hide Unshared;
    hide UniqueBinds;
    hide Closed;
    hide InRange;
    hide DistinctPorts;
    hide Agree;
    hide UnderPeak;
    hide WellNamed;
    hide Named;
    ReachableInv(c, s);
    ReachableBased(c, s);
    var table, base, committed := s.core.table, s.worker.batch.base.table, s.core.store.committed;
    if !ok && Serves(table, committed, {}) {
      ServedTablesAgree(table, base, committed);
      ServedTablesAgree(base, table, committed);
      assert table == base;
    }
  }

  // ---- how long a lost frontend stays lost ----

  /** The frontend is in no configuration that counts. */
  ghost predicate NoFrontend(st: Store, f: string) {
    f !in st.committed.frontends && (st.staged.Some? ==> f !in st.staged.value.frontends)
  }

  lemma {:induction false} PassSkipsFrontend(c: Settings, core: Core, svc: Service, n: nat, k: string)
    requires core.store.staged.Some? && Consistent(c, core) && IsLabel(svc.ns) && IsLabel(svc.name) && n <= |svc.ports|
    requires k in core.table && core.table[k].frontendName !in core.store.staged.value.frontends
    ensures core.table[k].frontendName !in SyncPorts(c, core, svc, n).store.staged.value.frontends
  {
    hide SyncPort;
    hide Consistent;
    hide IsLabel;
    if n > 0 {
      PassSkipsFrontend(c, core, svc, n - 1, k);
      var mid := SyncPorts(c, core, svc, n - 1);
      PassFrame(c, core, svc, n - 1);
      SyncPortsKeep(c, core, svc, n - 1);
      PortSkipsFrontend(c, mid, svc, svc.ports[n - 1], k);
    }
  }

  /** A port that is taken is not allocated, so no frontend with its name is created. */
  lemma PortSkipsFrontend(c: Settings, core: Core, svc: Service, port: ServicePort, k: string)
    requires core.store.staged.Some? && Consistent(c, core) && IsLabel(svc.ns) && IsLabel(svc.name)
    requires k in core.table && core.table[k].frontendName !in core.store.staged.value.frontends
    ensures core.table[k].frontendName !in SyncPort(c, core, svc, port).store.staged.value.frontends
  {
    hide CreateProxy;
    hide MappingKey;
    hide BackendName;
    hide FrontendName;
    hide BindName;
    hide FirstFree;
    hide IsLabel;
    hide InRange;
    hide DistinctPorts;
    hide UnderPeak;
    hide UsesBackend;
    hide SameBackend;
    var m, r := core.table[k], FirstFree(core.ledger, c.first, c.last);
    if c.IsTarget(port.name) && MappingKey(svc.ns, svc.name, port.name) !in core.table && r.Some? {
      var m' := NewMapping(svc, port, r.value);
      assert WellNamed(k, m) && Mapped(core.table, m.mappedPort);
      FrontendNameInjective(m.ns, m.service, m.mappedPort, svc.ns, svc.name, r.value);
      assert !Taken(core.ledger, r.value);
      CreateTouches(c.env, core.store, m');
      assert SameFrontend(core.store.staged.value, CreateProxy(c.env, core.store, m').0.staged.value, m.frontendName);
    }
  }

  lemma {:induction false} RemovalSkipsFrontend(c: Settings, core: Core, keys: seq<string>, n: nat, f: string)
    requires core.store.staged.Some? && n <= |keys| && f !in core.store.staged.value.frontends
    ensures f !in RemoveListed(c, core, keys, n).store.staged.value.frontends
  {
    hide Perform;
    if n > 0 {
      RemovalSkipsFrontend(c, core, keys, n - 1, f);
      var before := RemoveListed(c, core, keys, n - 1);
      if keys[n - 1] in before.table {
        var m := before.table[keys[n - 1]];
        var st := Perform(c.env, before.store, DeleteFrontend(m.frontendName)).0;
        DeleteAddsNothing(c.env, before.store, DeleteFrontend(m.frontendName), f);
        DeleteAddsNothing(c.env, st, DeleteBackend(m.backendName), f);
      }
    }
  }

  lemma DeleteAddsNothing(env: Environment, st: Store, op: Op, f: string)
    requires st.staged.Some? && (op.DeleteFrontend? || op.DeleteBackend?) && f !in st.staged.value.frontends
    ensures f !in Perform(env, st, op).0.staged.value.frontends
  {
  }

  lemma StepSkipsFrontend(c: Settings, s: State, s': State, k: string)
    requires Inv(c, s) && Next(c, s, s') && k in s.core.table && NoFrontend(s.core.store, s.core.table[k].frontendName)
    ensures NoFrontend(s'.core.store, s.core.table[k].frontendName)
  {
    hide Books;
    hide Proxied;
    hide Converging;
    hide Untouched;
    hide Unapplied;
    hide Consistent;
    hide Admitted;
    hide SyncPorts;
    hide RemoveListed;
    hide Lists;
    hide SplitMetaKey;
    hide QueueKeysOk;
    hide ListerOk;
    hide KeyOk;
    hide IsLabel;
    hide MetaKey;
    var step :| NextStep(c, s, s', step);
    if step.Apply? {
      match s.worker.pc.seen
      case None => RemovalSkipsFrontend(c, s.core, step.keys, |step.keys|, s.core.table[k].frontendName);
      case Some(svc) =>
        RetriedKeeps(c, s.core, svc);
        PassSkipsFrontend(c, Retried(s.core, svc), svc, |svc.ports|, k);
    }
  }

  /** A loss lasts: a mapping whose frontend is neither committed nor staged stays in the
      table without its frontend until a synchronisation finds its service absent, in any
      environment and however often the service is synchronised. */
  lemma {:induction false} LossLasts(c: Settings, path: seq<State>, i: nat, n: nat, k: string)
    requires IsRun(c, path) && i <= n < |path| && k in path[i].core.table
    requires NoFrontend(path[i].core.store, path[i].core.table[k].frontendName)
    requires forall t :: i <= t < n ==> !RemovalDue(path[t], KeyOf(path[i].core.table[k]))
    ensures k in path[n].core.table && path[n].core.table[k] == path[i].core.table[k]
    ensures NoFrontend(path[n].core.store, path[i].core.table[k].frontendName)
  {
    hide Next;
    hide Inv;
    hide RemovalDue;
    hide MetaKey;
    hide Initial;
    hide NoFrontend;
    PortStability(c, path, i, n, k);
    if i < n {
      LossLasts(c, path, i, n - 1, k);
      RunInv(c, path, n - 1);
      StepSkipsFrontend(c, path[n - 1], path[n], k);
    }
  }

  // ---- refused deletes ----

  /** What HAProxy answers to the i-th DeleteFrontend of a removal. */
  ghost function DeleteAnswer(c: Settings, core: Core, keys: seq<string>, i: nat): Reply
    requires core.store.staged.Some? && Listing(keys, core.table) && i < |keys|
  {
    Perform(c.env, RemoveListed(c, core, keys, i).store, DeleteFrontend(core.table[keys[i]].frontendName)).1
  }

  lemma RemoveMappingFrontends(c: Settings, core: Core, key: string)
    requires core.store.staged.Some? && key in core.table
    ensures var f, cfg := core.table[key].frontendName, core.store.staged.value;
            var cfg' := RemoveMapping(c, core, key).store.staged.value;
            cfg'.frontends ==
              if Perform(c.env, core.store, DeleteFrontend(f)).1 == Done then cfg.frontends - {f} else cfg.frontends
  {
    hide Clean;
    var m := core.table[key];
    var st1 := Perform(c.env, core.store, DeleteFrontend(m.frontendName)).0;
    var st2 := Perform(c.env, st1, DeleteBackend(m.backendName)).0;
    assert st2.staged.value.frontends == st1.staged.value.frontends;
  }

  ghost predicate DistinctFrontends(table: map<string, Mapping>) {
    forall k, k' :: k in table && k' in table && k != k' ==> table[k].frontendName != table[k'].frontendName
  }

  lemma NextFrontends(c: Settings, core: Core, keys: seq<string>, n: nat)
    requires core.store.staged.Some? && Listing(keys, core.table) && n < |keys|
    ensures var mid, now := RemoveListed(c, core, keys, n).store.staged.value, RemoveListed(c, core, keys, n + 1).store.staged.value;
            now.frontends ==
              if DeleteAnswer(c, core, keys, n) == Done then mid.frontends - {core.table[keys[n]].frontendName}
              else mid.frontends
  {
    hide RemoveMapping;
    hide Perform;
    RemoveListedTable(c, core, keys, n);
    RemoveListedTable(c, core, keys, n + 1);
    RemoveMappingFrontends(c, RemoveListed(c, core, keys, n), keys[n]);
  }

  /** A listed frontend stays until its turn, and then goes if and only if the delete is
      answered Done. */
  lemma {:induction false} GoneIffDone(c: Settings, core: Core, keys: seq<string>, i: nat, n: nat)
    requires core.store.staged.Some? && Listing(keys, core.table) && i < |keys| && n <= |keys|
    requires DistinctFrontends(core.table) && core.table[keys[i]].frontendName in core.store.staged.value.frontends
    ensures var f, now := core.table[keys[i]].frontendName, RemoveListed(c, core, keys, n).store.staged.value.frontends;
            f !in now <==> i < n && DeleteAnswer(c, core, keys, i) == Done
  {
    hide DeleteAnswer;
    hide RemoveMapping;
    hide Perform;
    if n > 0 {
      GoneIffDone(c, core, keys, i, n - 1);
      NextFrontends(c, core, keys, n - 1);
      hide RemoveListed;
    }
  }

  lemma {:induction false} RemovalAddsNone(c: Settings, core: Core, keys: seq<string>, n: nat)
    requires core.store.staged.Some? && Listing(keys, core.table) && n <= |keys|
    ensures forall f :: f in RemoveListed(c, core, keys, n).store.staged.value.frontends ==> f in core.store.staged.value.frontends
  {
    hide DeleteAnswer;
    hide RemoveMapping;
    hide Perform;
    if n > 0 {
      RemovalAddsNone(c, core, keys, n - 1);
      NextFrontends(c, core, keys, n - 1);
      hide RemoveListed;
    }
  }

  /** Answers to deletes are ignored, so they decide. From a served table, each mapping
      that a removal takes out of the table loses its frontend if and only if HAProxy
      answered Done to its DeleteFrontend, and every frontend left belongs to a mapping
      left if and only if all of them were answered Done. */
  lemma DeletesDecide(c: Settings, core: Core, keys: seq<string>)
    requires core.store.staged.Some? && Listing(keys, core.table) && Consistent(c, core)
    requires Serves(core.table, core.store.staged.value, {})
    ensures var now := RemoveListed(c, core, keys, |keys|);
            && (forall i :: 0 <= i < |keys| ==>
                  (core.table[keys[i]].frontendName !in now.store.staged.value.frontends <==> DeleteAnswer(c, core, keys, i) == Done))
            && (Owned(now.table, now.store.staged.value) <==>
                  forall i :: 0 <= i < |keys| ==> DeleteAnswer(c, core, keys, i) == Done)
  {
    hide DeleteAnswer;
    hide RemoveListed;
    hide WellNamed;
    hide IsSvcFrontend;
    hide FrontendServes;
    hide BackendServes;
    hide InRange;
    hide Agree;
    hide UnderPeak;
    var now, cfg := RemoveListed(c, core, keys, |keys|), core.store.staged.value;
    forall k, k' | k in core.table && k' in core.table && k != k'
      ensures core.table[k].frontendName != core.table[k'].frontendName
    {
      OtherFrontends(core.table, cfg, {}, k, k');
    }
    forall k | k in core.table ensures core.table[k].frontendName in cfg.frontends { FrontendThere(core.table, cfg, k); }
    forall i | 0 <= i < |keys|
      ensures core.table[keys[i]].frontendName !in now.store.staged.value.frontends <==> DeleteAnswer(c, core, keys, i) == Done
    {
      GoneIffDone(c, core, keys, i, |keys|);
    }
    RemovalAddsNone(c, core, keys, |keys|);
    RemoveListedTable(c, core, keys, |keys|);
    assert keys[..|keys|] == keys;
    if forall i :: 0 <= i < |keys| ==> DeleteAnswer(c, core, keys, i) == Done {
      AllDeleted(core, now, keys);
    }
    if Owned(now.table, now.store.staged.value) {
      forall i | 0 <= i < |keys| ensures DeleteAnswer(c, core, keys, i) == Done {
        var f := core.table[keys[i]].frontendName;
        SvcFrontend(core.table[keys[i]], keys[i]);
        assert f in now.store.staged.value.frontends ==> HasFrontend(now.table, f);
      }
    }
  }

  lemma AllDeleted(core: Core, now: Core, keys: seq<string>)
    requires core.store.staged.Some? && now.store.staged.Some? && Listing(keys, core.table)
    requires Owned(core.table, core.store.staged.value)
    requires forall f :: f in now.store.staged.value.frontends ==> f in core.store.staged.value.frontends
    requires forall i :: 0 <= i < |keys| ==> core.table[keys[i]].frontendName !in now.store.staged.value.frontends
    requires forall k :: k in now.table <==> k in core.table && k !in keys
    requires forall k :: k in now.table ==> now.table[k] == core.table[k]
    ensures Owned(now.table, now.store.staged.value)
  {
    hide IsSvcFrontend;
    forall f | f in now.store.staged.value.frontends && IsSvcFrontend(f) ensures HasFrontend(now.table, f) {
      assert HasFrontend(core.table, f);
      var k :| k in core.table && core.table[k].frontendName == f;
      assert k in now.table && now.table[k].frontendName == f;
    }
  }

  // ---- binds ----

  /** A bind decides as well. When HAProxy carries out the first five requests of a
      creation for which nothing stands in the way, the creation is reported as a success
      if and only if the bind was not answered Failed; the mapping is served if and only
      if it was answered Done; and a refused bind leaves a service frontend that is no
      mapping's. */
  lemma BindDecides(env: Environment, st: Store, table: map<string, Mapping>, key: string, m: Mapping)
    requires st.staged.Some? && Serves(table, st.staged.value, {}) && Named(table) && WellNamed(key, m)
    requires Unobstructed(st, m) && m.frontendName !in st.staged.value.frontends && WillingFor(env, st.clock, 5)
    ensures var (st', ok) := CreateProxy(env, st, m);
            && (ok <==> env(st.clock + 5) != Failed)
            && (FrontendServes(st'.staged.value, m) <==> env(st.clock + 5) == Done)
            && (!ok ==> !Owned(table, st'.staged.value))
  {
    hide Serves;
    hide Named;
    hide WellNamed;
    hide IsSvcFrontend;
    hide StageBackend;
    hide StageServer;
    hide StageFrontend;
    hide ServerName;
    var b, f, server := m.backendName, m.frontendName, ServerName(m.clusterIP, m.servicePort);
    WillingBackend(env, st, b);
    var st1 := StageBackend(env, st, b).0;
    WillingServer(env, st1, b, server);
    var st2 := StageServer(env, st1, b, server).0;
    WillingFrontend(env, st2, f, b);
    SvcFrontend(m, key);
    NobodysFrontend(table, st.staged.value, f);
  }

  lemma NobodysFrontend(table: map<string, Mapping>, cfg: Config, f: string)
    requires Serves(table, cfg, {}) && f !in cfg.frontends
    ensures !HasFrontend(table, f)
  {
    hide BackendServes;
    hide Owned;
  }
}
