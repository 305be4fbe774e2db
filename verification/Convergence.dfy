/** The table converges to the informer's cache: every key whose state may differ
    is pending somewhere. */
module Convergence {
  import opened Names
  import opened ServiceSync
  import opened PortLedger
  import opened ServiceRuns
  import opened BatchInvariant
  import opened CoreInvariant

  function KeyOf(m: Mapping): string { MetaKey(m.ns, m.service) }

  /** No mapping of the service remains. */
  ghost predicate Cleared(table: map<string, Mapping>, key: string) {
    forall j :: j in table ==> KeyOf(table[j]) != key
  }

  /** Every target port of the service is mapped. */
  ghost predicate Complete(c: Settings, table: map<string, Mapping>, svc: Service) {
    forall i :: 0 <= i < |svc.ports| && (c.portNames == {} || svc.ports[i].name in c.portNames)
      ==> MappingKey(svc.ns, svc.name, svc.ports[i].name) in table
  }

  /** The table agrees with the cache about one key. Completeness is promised unless
      an allocation or creation failed when the service was last synchronised. */
  ghost predicate Settled(c: Settings, core: Core, found: Option<Service>, key: string) {
    match found
    case None => Cleared(core.table, key)
    case Some(svc) =>
      key !in core.failed && svc.ns in c.namespaces && Usable(svc) ==> Complete(c, core.table, svc)
  }

  /** The key will be synchronised again. */
  predicate Fresh(s: State, key: string) {
    key in s.queue.dirty || key in s.queue.waiting
    || (s.notice.Some? && !s.notice.value.Skip() && s.notice.value.Key() == key)
  }

  /** The key was handed out and its synchronisation is still to come, or it will
      never be released. */
  predicate Ahead(s: State, key: string) {
    key in s.stuck
    || (s.worker.Busy? && var b := s.worker.batch;
        |b.marks| < |b.keys| && key in b.keys[|b.marks|..] && !(s.worker.pc == Marking(true) && key == b.keys[|b.marks|]))
  }

  predicate Awaited(s: State, key: string) { Fresh(s, key) || Ahead(s, key) }

  /** Between the lookup and the table change the answer is current, or the key
      will be synchronised again. */
  ghost predicate SeenIsCurrent(s: State) {
    s.worker.Busy? && s.worker.pc.Applying? && |s.worker.batch.marks| < |s.worker.batch.keys| ==>
      var key := s.worker.batch.keys[|s.worker.batch.marks|];
      Fresh(s, key) || s.worker.pc.seen == Lookup(s.lister, key)
  }

  ghost predicate Converging(c: Settings, s: State) {
    && (forall key :: Awaited(s, key) || Settled(c, s.core, Lookup(s.lister, key), key))
    && SeenIsCurrent(s)
  }

  // ---- what one synchronisation does to its own key and to the others ----

  lemma {:induction false} PassFrame(c: Settings, core: Core, svc: Service, n: nat)
    requires core.store.staged.Some? && n <= |svc.ports|
    ensures var now := SyncPorts(c, core, svc, n);
            && (forall j :: j in core.table ==> j in now.table && now.table[j] == core.table[j])
            && (forall j :: j in now.table && j !in core.table ==>
                  && now.table[j].ns == svc.ns && now.table[j].service == svc.name
                  && now.table[j].clusterIP == svc.clusterIP && c.IsTarget(now.table[j].portName))
            && core.failed <= now.failed <= core.failed + {MetaKey(svc.ns, svc.name)}
  {
    hide SyncPort;
    hide MappingKey;
    hide BackendName;
    hide FrontendName;
    hide BindName;
    hide FirstFree;
    if n > 0 {
      PassFrame(c, core, svc, n - 1);
      SyncPortShape(c, SyncPorts(c, core, svc, n - 1), svc, svc.ports[n - 1]);
    }
  }

  lemma {:induction false} PassCompletes(c: Settings, core: Core, svc: Service, n: nat)
    requires core.store.staged.Some? && n <= |svc.ports| && MetaKey(svc.ns, svc.name) !in SyncPorts(c, core, svc, n).failed
    ensures var now := SyncPorts(c, core, svc, n);
            forall i :: 0 <= i < n && c.IsTarget(svc.ports[i].name) ==> MappingKey(svc.ns, svc.name, svc.ports[i].name) in now.table
  {
    hide SyncPort;
    hide MappingKey;
    hide NewMapping;
    hide FirstFree;
    if n > 0 {
      var before := SyncPorts(c, core, svc, n - 1);
      SyncPortShape(c, before, svc, svc.ports[n - 1]);
      PassCompletes(c, core, svc, n - 1);
    }
  }

  ghost predicate OthersKept(core: Core, core': Core, key: string) {
    && (forall j :: j in core.table && KeyOf(core.table[j]) != key ==> j in core'.table && core'.table[j] == core.table[j])
    && (forall j :: j in core'.table && KeyOf(core'.table[j]) != key ==> j in core.table && core'.table[j] == core.table[j])
    && (forall k :: k != key ==> (k in core.failed <==> k in core'.failed))
  }

  /** Exact removal: removing a service's mappings clears all of them and leaves
      every other entry as it was. */
  lemma RemovalIsExact(c: Settings, core: Core, ns: string, name: string, keys: seq<string>)
    requires core.store.staged.Some? && Named(core.table) && IsLabel(ns) && IsLabel(name)
    requires Lists(keys, core.table, ServicePrefix(ns, name))
    ensures var now := RemoveListed(c, core, keys, |keys|).table;
            && (forall j :: j in now <==> j in core.table && !(core.table[j].ns == ns && core.table[j].service == name))
            && (forall j :: j in now ==> now[j] == core.table[j])
  {
    hide RemoveListed;
    hide MappingKey;
    hide ServicePrefix;
    hide BackendName;
    hide FrontendName;
    hide BindName;
    hide IsLabel;
    ListsListing(keys, core.table, ServicePrefix(ns, name));
    RemoveListedTable(c, core, keys, |keys|);
    assert keys[..|keys|] == keys;
    forall j | j in core.table ensures j in keys <==> core.table[j].ns == ns && core.table[j].service == name {
      var m := core.table[j];
      assert WellNamed(j, m);
      PrefixIsExact(ns, name, m.ns, m.service, m.portName);
    }
  }

  lemma SameKey(m: Mapping, key: string, j: string, ns: string, name: string)
    requires WellNamed(j, m) && IsLabel(ns) && IsLabel(name) && key == MetaKey(ns, name)
    ensures KeyOf(m) == key <==> m.ns == ns && m.service == name
  {
    if KeyOf(m) == key { MetaKeyInjective(m.ns, m.service, ns, name); }
  }

  lemma SyncAbsent(c: Settings, core: Core, key: string, ns: string, name: string, keys: seq<string>)
    requires core.store.staged.Some? && Named(core.table) && IsLabel(ns) && IsLabel(name) && key == MetaKey(ns, name)
    requires Lists(keys, core.table, ServicePrefix(ns, name))
    ensures var now := RemoveListed(c, core, keys, |keys|);
            Cleared(now.table, key) && OthersKept(core, now, key)
  {
    hide RemoveListed;
    hide MetaKey;
    hide WellNamed;
    hide ServicePrefix;
    hide IsLabel;
    hide Lists;
    RemovalIsExact(c, core, ns, name, keys);
    RemovalSharesNothing(c, core, keys, |keys|);
    forall j | j in core.table ensures KeyOf(core.table[j]) == key <==> core.table[j].ns == ns && core.table[j].service == name {
      assert WellNamed(j, core.table[j]) by { OneNamed(core.table, j); }
      SameKey(core.table[j], key, j, ns, name);
    }
  }

  lemma OneNamed(table: map<string, Mapping>, j: string)
    requires Named(table) && j in table
    ensures WellNamed(j, table[j])
  {
  }

  lemma SyncPresent(c: Settings, core: Core, key: string, svc: Service)
    requires core.store.staged.Some? && ServiceOk(key, svc)
    ensures var now := if svc.ns in c.namespaces then ProcessService(c, core, svc) else core;
            Settled(c, now, Some(svc), key) && OthersKept(core, now, key)
            && forall j :: j in core.table ==> j in now.table && now.table[j] == core.table[j]
  {
    hide SyncPorts;
    hide MappingKey;
    hide MetaKey;
    hide IsLabel;
    if svc.ns in c.namespaces && Usable(svc) {
      PassFrame(c, Retried(core, svc), svc, |svc.ports|);
      var now := SyncPorts(c, Retried(core, svc), svc, |svc.ports|);
      if key !in now.failed { PassCompletes(c, Retried(core, svc), svc, |svc.ports|); }
    }
  }

  /** One synchronisation settles its key for the service it saw and disturbs no other. */
  lemma SyncKeySettles(c: Settings, core: Core, key: string, seen: Option<Service>, keys: seq<string>, core': Core)
    requires core.store.staged.Some? && Named(core.table) && KeyOk(key) && SplitMetaKey(key).Some?
    requires seen.Some? ==> ServiceOk(key, seen.value)
    requires SyncKey(c, core, key, seen, keys, core')
    ensures Settled(c, core', seen, key) && OthersKept(core, core', key)
  {
    hide Named;
    hide RemoveListed;
    hide ProcessService;
    hide ServicePrefix;
    hide Lists;
    hide ServiceOk;
    hide OthersKept;
    match seen
    case None =>
      var ns, name := KeyParts(key);
      SyncAbsent(c, core, key, ns, name, keys);
    case Some(svc) =>
      SyncPresent(c, core, key, svc);
  }

  lemma OthersStaySettled(c: Settings, core: Core, core': Core, lister: map<string, Service>, key: string, other: string)
    requires OthersKept(core, core', key) && ListerOk(lister)
    requires Named(core.table) && other != key && Settled(c, core, Lookup(lister, other), other)
    ensures Settled(c, core', Lookup(lister, other), other)
  {
    hide MappingKey;
    hide BackendName;
    hide FrontendName;
    hide BindName;
    hide MetaKey;
    hide IsLabel;
    match Lookup(lister, other)
    case None =>
    case Some(svc) =>
      if other !in core'.failed && svc.ns in c.namespaces && Usable(svc) {
        forall i | 0 <= i < |svc.ports| && c.IsTarget(svc.ports[i].name)
          ensures MappingKey(svc.ns, svc.name, svc.ports[i].name) in core'.table
        {
          var j := MappingKey(svc.ns, svc.name, svc.ports[i].name);
          var m := core.table[j];
          assert WellNamed(j, m);
          MappingKeyInjective(m.ns, m.service, m.portName, svc.ns, svc.name, svc.ports[i].name);
          assert KeyOf(m) == other;
        }
      }
  }

  // ---- every step converges ----

  lemma SameTableKeeps(c: Settings, s: State, s': State)
    requires Converging(c, s) && s'.lister == s.lister
    requires s'.core.table == s.core.table && s'.core.failed == s.core.failed
    requires forall key :: Awaited(s, key) ==> Awaited(s', key)
    requires SeenIsCurrent(s')
    ensures Converging(c, s')
  {
    hide Awaited;
    hide Complete;
    hide Cleared;
    hide Usable;
    forall key ensures Awaited(s', key) || Settled(c, s'.core, Lookup(s'.lister, key), key) {
      assert Awaited(s, key) || Settled(c, s.core, Lookup(s.lister, key), key);
    }
  }

  lemma ChangeConverges(c: Settings, s: State, s': State, key: string, svc: Option<Service>)
    requires Converging(c, s) && KeysOk(s) && ChangeStep(s, s', key, svc)
    ensures Converging(c, s')
  {
    ChangedKeys(s, key, svc);
    hide KeyOk;
    hide QueueKeysOk;
    hide ListerOk;
    hide MetaKey;
    hide Settled;
    hide ServiceOk;
    forall k ensures Awaited(s', k) || Settled(c, s'.core, Lookup(s'.lister, k), k) {
      assert Awaited(s, k) || Settled(c, s.core, Lookup(s.lister, k), k);
      assert Ahead(s, k) == Ahead(s', k);
      if k != key || s'.notice.value.Skip() {
        assert Lookup(s'.lister, k) == Lookup(s.lister, k);
      } else {
        assert Fresh(s', k);
      }
    }
  }

  lemma QueueStepConverges(c: Settings, s: State, s': State, step: Step)
    requires Converging(c, s) && NextStep(c, s, s', step) && (step.Notify? || step.Fire?)
    ensures Converging(c, s')
  {
    hide Settled;
    assert forall k :: Ahead(s, k) == Ahead(s', k);
    assert forall k :: Fresh(s, k) ==> Fresh(s', k);
    SameTableKeeps(c, s, s');
  }

  lemma DeliveryConverges(c: Settings, s: State, s': State, step: Step)
    requires Converging(c, s) && Books(c, s) && NextStep(c, s, s', step) && (step.Get? || step.Take?)
    ensures Converging(c, s')
  {
    hide Settled;
    hide Accounts;
    hide LogOk;
    hide Delivered;
    hide Distinct;
    hide Hand;
    forall k | Awaited(s, k) ensures Awaited(s', k) {
      var b' := s'.worker.batch;
      assert b'.keys[|b'.marks|..] == b'.keys;
      if k == s.queue.order[0] {
        assert b'.keys[|b'.keys| - 1] == k;
      } else if step.Take? {
        var b := s.worker.batch;
        assert b.keys[|b.marks|..] == b.keys;
      }
    }
    SameTableKeeps(c, s, s');
  }

  lemma QuietStepConverges(c: Settings, s: State, s': State, step: Step)
    requires Converging(c, s) && NextStep(c, s, s', step)
    requires step.Look? || step.Open? || step.Read? || step.Close?
    ensures Converging(c, s')
  {
    hide Settled;
    hide SplitMetaKey;
    assert forall k :: Fresh(s, k) == Fresh(s', k);
    assert forall k :: Ahead(s, k) ==> Ahead(s', k);
    SameTableKeeps(c, s, s');
  }

  lemma MarkConverges(c: Settings, s: State, s': State, step: Step)
    requires Converging(c, s) && Books(c, s) && NextStep(c, s, s', step) && (step.Requeue? || step.Mark?)
    ensures Converging(c, s')
  {
    hide Settled;
    hide Accounts;
    hide LogOk;
    hide Delivered;
    hide Hand;
    var b := s.worker.batch;
    var n := |b.marks|;
    assert b.keys[n..] == [b.keys[n]] + b.keys[n + 1..];
    forall k | Awaited(s, k) ensures Awaited(s', k) {
      if k == b.keys[n] && !(s.worker.pc == Marking(true)) {
        assert k in s'.queue.waiting;
      }
      assert b.keys[n] !in b.keys[n + 1..];
    }
    SameTableKeeps(c, s, s');
  }

  lemma ReleaseConverges(c: Settings, s: State, s': State, step: Step)
    requires Converging(c, s) && Books(c, s) && NextStep(c, s, s', step) && (step.Finish? || step.Leave?)
    ensures Converging(c, s')
  {
    hide Settled;
    hide Accounts;
    hide LogOk;
    hide Delivered;
    hide Hand;
    hide Distinct;
    assert forall k :: Fresh(s, k) ==> Fresh(s', k);
    assert forall k :: Ahead(s, k) ==> k in s.stuck;
    SameTableKeeps(c, s, s');
  }

  lemma ApplyConverges(c: Settings, s: State, s': State, keys: seq<string>)
    requires Converging(c, s) && KeysOk(s) && Named(s.core.table) && ApplyStep(c, s, s', keys)
    ensures Converging(c, s')
  {
    hide Settled;
    hide OthersKept;
    hide SyncKey;
    hide SplitMetaKey;
    hide Named;
    hide KeyOk;
    hide ServiceOk;
    hide QueueKeysOk;
    hide ListerOk;
    var b := s.worker.batch;
    var key := b.keys[|b.marks|];
    SyncKeySettles(c, s.core, key, s.worker.pc.seen, keys, s'.core);
    forall k ensures Awaited(s', k) || Settled(c, s'.core, Lookup(s'.lister, k), k) {
      assert Fresh(s', k) == Fresh(s, k);
      if k == key {
        assert Fresh(s, key) || s.worker.pc.seen == Lookup(s.lister, key);
      } else {
        assert Ahead(s, k) ==> Ahead(s', k);
        if !Awaited(s', k) {
          assert Settled(c, s.core, Lookup(s.lister, k), k);
          OthersStaySettled(c, s.core, s'.core, s.lister, key, k);
        }
      }
    }
  }

  lemma NextConverges(c: Settings, s: State, s': State)
    requires Converging(c, s) && Books(c, s) && KeysOk(s) && Named(s.core.table) && Next(c, s, s')
    ensures Converging(c, s')
  {
    hide Converging;
    hide Books;
    hide KeysOk;
    hide Named;
    hide ChangeStep;
    hide NotifyStep;
    hide FireStep;
    hide GetStep;
    hide LookStep;
    hide TakeStep;
    hide OpenStep;
    hide RequeueStep;
    hide ReadStep;
    hide ApplyStep;
    hide MarkStep;
    hide FinishStep;
    hide CloseStep;
    hide LeaveStep;
    var step :| NextStep(c, s, s', step);
    match step
    case Change(key, svc) => ChangeConverges(c, s, s', key, svc);
    case Notify => QueueStepConverges(c, s, s', step);
    case Fire(_) => QueueStepConverges(c, s, s', step);
    case Get => DeliveryConverges(c, s, s', step);
    case Take => DeliveryConverges(c, s, s', step);
    case Look => QuietStepConverges(c, s, s', step);
    case Open(_) => QuietStepConverges(c, s, s', step);
    case Read(_) => QuietStepConverges(c, s, s', step);
    case Close(_) => QuietStepConverges(c, s, s', step);
    case Requeue => MarkConverges(c, s, s', step);
    case Mark => MarkConverges(c, s, s', step);
    case Finish => ReleaseConverges(c, s, s', step);
    case Leave => ReleaseConverges(c, s, s', step);
    case Apply(keys) => ApplyConverges(c, s, s', keys);
  }
}
