/** The service controller as a class whose methods change its table, its ledger,
    its queue and the HAProxy store in place, interleaved with the informer and the
    queue's timers. Every method is proved to do what the run steps say. */
module ServiceControllerClass {
  import opened Names
  import opened HaproxyStore
  import opened ServiceSync
  import opened PortLedger
  import WorkQueue
  import opened ServiceRuns

  // ---- the steps of a synchronisation, each with only its own definition in scope ----

  lemma ByOpen(c: Settings, origin: State, s: State, s': State, ok: bool)
    requires Leads(c, origin, s) && OpenStep(s, s', ok)
    ensures Leads(c, origin, s')
  {
    hide Leads;
    hide OpenStep;
    LeadsStep(c, origin, s, s', Open(ok));
  }

  lemma ByRead(c: Settings, origin: State, s: State, s': State, fails: bool)
    requires Leads(c, origin, s) && ReadStep(s, s', fails)
    ensures Leads(c, origin, s')
  {
    hide Leads;
    hide ReadStep;
    LeadsStep(c, origin, s, s', Read(fails));
  }

  lemma ByApply(c: Settings, origin: State, s: State, s': State, keys: seq<string>)
    requires Leads(c, origin, s) && ApplyStep(c, s, s', keys)
    ensures Leads(c, origin, s')
  {
    hide Leads;
    hide ApplyStep;
    LeadsStep(c, origin, s, s', Apply(keys));
  }

  lemma ByMark(c: Settings, origin: State, s: State, s': State)
    requires Leads(c, origin, s) && MarkStep(s, s')
    ensures Leads(c, origin, s')
  {
    hide Leads;
    hide MarkStep;
    LeadsStep(c, origin, s, s', Mark);
  }

  lemma ByFinish(c: Settings, origin: State, s: State, s': State)
    requires Leads(c, origin, s) && FinishStep(s, s')
    ensures Leads(c, origin, s')
  {
    hide Leads;
    hide FinishStep;
    LeadsStep(c, origin, s, s', Finish);
  }

  lemma ByClose(c: Settings, origin: State, s: State, s': State, ok: bool)
    requires Leads(c, origin, s) && CloseStep(s, s', ok)
    ensures Leads(c, origin, s')
  {
    hide Leads;
    hide CloseStep;
    LeadsStep(c, origin, s, s', Close(ok));
  }

  class ServiceController {
    const settings: Settings
    var serviceMappings: map<string, Mapping>
    var portAllocations: map<int, bool>
    var store: Store
    var queue: WorkQueue.Queue<string>
    var lister: map<string, Service>
    var notice: Option<Notice>
    ghost var peak: nat
    ghost var failed: set<string>
    ghost var shared: bool
    ghost var log: seq<Batch>
    ghost var stuck: set<string>
    ghost var starts: nat

    ghost function CoreNow(): Core
      reads this
    {
      Core(serviceMappings, portAllocations, store, peak, failed, shared)
    }

    ghost function At(w: Worker): State
      reads this
    {
      State(lister, notice, queue, w, CoreNow(), log, stuck, starts)
    }

    /** newServiceController, before any event; `committed` is what HAProxy holds. */
    constructor (settings: Settings, committed: Config)
      requires forall f :: f in committed.frontends ==> !IsSvcFrontend(f)
      ensures this.settings == settings && Initial(At(Idle)) && Reachable(settings, At(Idle))
    {
      this.settings := settings;
      serviceMappings, portAllocations := map[], map[];
      store := Store(committed, None, 0, [], true);
      queue := WorkQueue.Empty();
      lister := map[];
      notice := None;
      peak, failed, shared, log, stuck, starts := 0, {}, false, [], {}, 0;
      new;
      ghost var path := [At(Idle)];
      assert IsRun(settings, path) && path[|path| - 1] == At(Idle);
    }

    // ---- filters ----

    method IsNamespaceAllowed(namespace: string) returns (allowed: bool)
      ensures allowed <==> namespace in settings.namespaces
    {
      return namespace in settings.namespaces;
    }

    method IsTargetPortName(portName: string) returns (target: bool)
      ensures target <==> settings.portNames == {} || portName in settings.portNames
    {
      if |settings.portNames| == 0 { return true; }
      return portName in settings.portNames;
    }

    // ---- ports ----

    method AllocatePort() returns (r: Option<int>)
      modifies this`portAllocations
      ensures r == FirstFree(old(portAllocations), settings.first, settings.last)
      ensures portAllocations == if r.Some? then old(portAllocations)[r.value := true] else old(portAllocations)
    {
      var port := settings.first;
      while port <= settings.last
        invariant portAllocations == old(portAllocations)
        invariant settings.first <= port
        invariant FirstFree(portAllocations, port, settings.last) == FirstFree(portAllocations, settings.first, settings.last)
        decreases settings.last - port
      {
        if !(port in portAllocations && portAllocations[port]) {
          portAllocations := portAllocations[port := true];
          return Some(port);
        }
        port := port + 1;
      }
      return None;
    }

    method ReleasePort(port: int)
      modifies this`portAllocations
      ensures portAllocations == old(portAllocations)[port := false]
    {
      portAllocations := portAllocations[port := false];
    }

    // ---- HAProxy requests ----

    method Request(op: Op) returns (reply: Reply)
      requires store.staged.Some?
      modifies this`store
      ensures (store, reply) == Perform(settings.env, old(store), op)
    {
      var r := Perform(settings.env, store, op);
      store, reply := r.0, r.1;
    }

    method AskBackend(backend: string) returns (there: bool)
      modifies this`store
      ensures (store, there) == EnsureBackend(settings.env, old(store), backend)
    {
      var r := EnsureBackend(settings.env, store, backend);
      store, there := r.0, r.1;
    }

    method AskFrontend(frontend: string) returns (there: bool)
      modifies this`store
      ensures (store, there) == EnsureFrontend(settings.env, old(store), frontend)
    {
      var r := EnsureFrontend(settings.env, store, frontend);
      store, there := r.0, r.1;
    }

    /** The result is true when the source returns no error. */
    method CreateServiceProxy(m: Mapping) returns (ok: bool)
      requires store.staged.Some?
      modifies this`store
      ensures (store, ok) == CreateProxy(settings.env, old(store), m)
    {
      hide Effect;
      hide Possible;
      hide Clean;
      hide ServerName;
      var reply: Reply;
      var there := AskBackend(m.backendName);
      if there {
        reply := Request(ReplaceBackend(m.backendName));
      } else {
        reply := Request(AddBackend(m.backendName));
      }
      if reply == Failed { return false; }

      var server := ServerName(m.clusterIP, m.servicePort);
      reply := Request(AddServer(m.backendName, server, server));
      if reply == AlreadyExists {
        reply := Request(ReplaceServer(m.backendName, server, server, server));
        if reply != Done { return false; }
      } else if reply == Failed {
        return false;
      }

      there := AskFrontend(m.frontendName);
      if there {
        reply := Request(ReplaceFrontend(m.frontendName, m.backendName));
      } else {
        reply := Request(AddFrontend(m.frontendName, m.backendName));
      }
      if reply == Failed { return false; }

      reply := Request(AddBind(m.frontendName, m.bindName, m.mappedPort));
      return reply != Failed;
    }

    // ---- one service ----

    method ProcessServiceWithTx(svc: Service)
      requires store.staged.Some?
      modifies this`serviceMappings, this`portAllocations, this`store, this`peak, this`failed, this`shared
      ensures CoreNow() == ProcessService(settings, old(CoreNow()), svc)
    {
      hide SyncPort;
      hide MetaKey;
      if svc.clusterIP == "" || svc.clusterIP == "None" { return; }
      failed := failed - {MetaKey(svc.ns, svc.name)};
      ghost var start := CoreNow();
      var i := 0;
      while i < |svc.ports|
        invariant i <= |svc.ports|
        invariant store.staged.Some? && CoreNow() == SyncPorts(settings, start, svc, i)
      {
        ProcessPort(svc, svc.ports[i]);
        i := i + 1;
      }
    }

    /** The body of the loop over Spec.Ports. */
    method ProcessPort(svc: Service, port: ServicePort)
      requires store.staged.Some?
      modifies this`serviceMappings, this`portAllocations, this`store, this`peak, this`failed, this`shared
      ensures CoreNow() == SyncPort(settings, old(CoreNow()), svc, port)
    {
      hide CreateProxy;
      hide MappingKey;
      hide BackendName;
      hide FrontendName;
      hide BindName;
      hide FirstFree;
      var target := IsTargetPortName(port.name);
      if !target { return; }
      var mappingKey := MappingKey(svc.ns, svc.name, port.name);
      if mappingKey in serviceMappings { return; }
      var mappedPort := AllocatePort();
      if mappedPort == None {
        failed := failed + {MetaKey(svc.ns, svc.name)};
        return;
      }
      var mapping := NewMapping(svc, port, mappedPort.value);
      var ok := CreateServiceProxy(mapping);
      if !ok {
        ReleasePort(mappedPort.value);
        failed := failed + {MetaKey(svc.ns, svc.name)};
        assert portAllocations == old(portAllocations)[mappedPort.value := false];
        return;
      }
      shared := shared || UsesBackend(serviceMappings, mapping.backendName);
      serviceMappings := serviceMappings[mappingKey := mapping];
      peak := if |serviceMappings| > peak then |serviceMappings| else peak;
    }

    /** The map is walked in an arbitrary order. */
    method RemoveServiceMappingsWithTx(ns: string, name: string) returns (ghost listed: seq<string>)
      requires store.staged.Some?
      modifies this`serviceMappings, this`portAllocations, this`store
      ensures Lists(listed, old(serviceMappings), ServicePrefix(ns, name))
      ensures CoreNow() == RemoveListed(settings, old(CoreNow()), listed, |listed|)
    {
      hide ServicePrefix;
      var servicePrefix := ServicePrefix(ns, name);
      var mappingsToDelete: seq<string> := [];
      var unseen := serviceMappings.Keys;
      while unseen != {}
        invariant unseen <= serviceMappings.Keys
        invariant forall i, j :: 0 <= i < j < |mappingsToDelete| ==> mappingsToDelete[i] != mappingsToDelete[j]
        invariant forall k :: k in mappingsToDelete <==> k in serviceMappings && k !in unseen && servicePrefix <= k
        decreases unseen
      {
        var key :| key in unseen;
        unseen := unseen - {key};
        if servicePrefix <= key { mappingsToDelete := mappingsToDelete + [key]; }
      }
      listed := mappingsToDelete;
      DeleteMappings(mappingsToDelete);
    }

    method DeleteMappings(keys: seq<string>)
      requires store.staged.Some? && Listing(keys, serviceMappings)
      modifies this`serviceMappings, this`portAllocations, this`store
      ensures CoreNow() == RemoveListed(settings, old(CoreNow()), keys, |keys|)
    {
      ghost var start := CoreNow();
      var i := 0;
      while i < |keys|
        invariant i <= |keys|
        invariant store.staged.Some? && CoreNow() == RemoveListed(settings, start, keys, i)
      {
        RemoveListedTable(settings, start, keys, i);
        DeleteMapping(keys[i]);
        i := i + 1;
      }
    }

    /** The answers of the two deletes are ignored. */
    method DeleteMapping(key: string)
      requires store.staged.Some? && key in serviceMappings
      modifies this`serviceMappings, this`portAllocations, this`store
      ensures CoreNow() == RemoveMapping(settings, old(CoreNow()), key)
    {
      hide Perform;
      var mapping := serviceMappings[key];
      var _ := Request(DeleteFrontend(mapping.frontendName));
      var _ := Request(DeleteBackend(mapping.backendName));
      ReleasePort(mapping.mappedPort);
      serviceMappings := serviceMappings - {key};
    }

    // ---- the informer's handlers ----

    method HandleServiceAdd(svc: Service)
      modifies this`queue
      ensures queue == old(queue).Add(MetaKey(svc.ns, svc.name))
    {
      queue := queue.Add(MetaKey(svc.ns, svc.name));
    }

    method HandleServiceUpdate(old_: Service, svc: Service)
      modifies this`queue
      ensures queue == if old_.version == svc.version then old(queue) else old(queue).Add(MetaKey(svc.ns, svc.name))
    {
      if old_.version == svc.version { return; }
      queue := queue.Add(MetaKey(svc.ns, svc.name));
    }

    method HandleServiceDelete(svc: Service)
      modifies this`queue
      ensures queue == old(queue).Add(MetaKey(svc.ns, svc.name))
    {
      queue := queue.Add(MetaKey(svc.ns, svc.name));
    }

    /** Any number of steps of the informer and of the queue's timers, while the
        worker stands at `w`. */
    method Elsewhere(ghost origin: State, ghost w: Worker)
      requires Leads(settings, origin, At(w))
      modifies this`queue, this`lister, this`notice
      ensures Leads(settings, origin, At(w))
      ensures |queue.order| >= |old(queue.order)|
    {
      hide Leads;
      hide MetaKey;
      hide IsLabel;
      var n: nat := *;
      while n > 0
        invariant Leads(settings, origin, At(w)) && |queue.order| >= |old(queue.order)|
      {
        ghost var before := At(w);
        var choice: int := *;
        if choice == 0 && notice.Some? {
          match notice.value {
            case Added(svc) => HandleServiceAdd(svc);
            case Updated(old_, svc) => HandleServiceUpdate(old_, svc);
            case Deleted(svc) => HandleServiceDelete(svc);
          }
          notice := None;
          LeadsStep(settings, origin, before, At(w), Notify);
        } else if choice == 1 {
          var key: string := *;
          if key in queue.waiting {
            queue := queue.Fire(key);
            LeadsStep(settings, origin, before, At(w), Fire(key));
          }
        } else if notice == None {
          var key: string := *;
          var svc: Option<Service> := *;
          if (svc == None && key in lister)
             || (svc.Some? && ServiceOk(key, svc.value)
                 && (key in lister && lister[key].version == svc.value.version ==> svc.value == lister[key]))
          {
            notice := Some(NoticeOf(lister, key, svc));
            lister := Changed(lister, key, svc);
            LeadsStep(settings, origin, before, At(w), Change(key, svc));
          }
        }
        n := n - 1;
      }
    }

    // ---- the worker ----

    /** syncService: true when it returns no error. Between the lookup and the table
        change the informer may run. */
    method SyncService(key: string, ghost origin: State, ghost b: Batch) returns (ok: bool)
      requires |b.marks| < |b.keys| && b.keys[|b.marks|] == key && store.staged.Some?
      requires Leads(settings, origin, At(Busy(b, Reading)))
      modifies this`serviceMappings, this`portAllocations, this`store, this`peak, this`failed, this`shared,
               this`queue, this`lister, this`notice
      ensures Leads(settings, origin, At(Busy(b, Marking(ok)))) && store.staged.Some?
    {
      hide Leads;
      hide SplitMetaKey;
      hide ServicePrefix;
      hide ProcessService;
      hide RemoveListed;
      hide Lists;
      ghost var s := At(Busy(b, Reading));
      var parts := SplitMetaKey(key);
      var lookupFails: bool := *;
      if parts == None || lookupFails {
        ByRead(settings, origin, s, At(Busy(b, Marking(false))), lookupFails);
        return false;
      }
      var obj := Lookup(lister, key);
      ByRead(settings, origin, s, At(Busy(b, Applying(obj))), false);
      Elsewhere(origin, Busy(b, Applying(obj)));
      s := At(Busy(b, Applying(obj)));
      ghost var listed: seq<string> := [];
      var allowed := false;
      if obj.Some? { allowed := IsNamespaceAllowed(obj.value.ns); }
      if obj == None {
        listed := RemoveServiceMappingsWithTx(parts.value.0, parts.value.1);
      } else if allowed {
        ProcessServiceWithTx(obj.value);
      }
      ghost var s' := At(Busy(b, Marking(true)));
      assert SyncKey(settings, s.core, key, obj, listed, s'.core);
      assert ApplyStep(settings, s, s', listed);
      ByApply(settings, origin, s, s', listed);
      return true;
    }

    /** The loop that gathers a batch, from the first Get to the point where the
        transaction is about to be opened. */
    method CollectBatch(first: string, ghost origin: State, ghost b0: Batch) returns (keys: seq<string>, ghost b: Batch)
      requires b0.keys == [first] && b0.marks == [] && Leads(settings, origin, At(Busy(b0, Collecting)))
      modifies this`queue, this`lister, this`notice
      ensures b == b0.(keys := keys) && 0 < |keys| <= Limit(settings) && keys[0] == first
      ensures Leads(settings, origin, At(Busy(b, Starting)))
    {
      hide Leads;
      hide OpenStep;
      hide ReadStep;
      hide ApplyStep;
      hide MarkStep;
      hide FinishStep;
      hide CloseStep;
      hide LeaveStep;
      keys := [first];
      b := b0;
      var i := 0;
      while i < settings.maxBatch - 1
        invariant 0 <= i && |keys| == i + 1 && (i == 0 || i <= settings.maxBatch - 1)
        invariant b == b0.(keys := keys) && keys[0] == first
        invariant Leads(settings, origin, At(Busy(b, Collecting)))
      {
        Elsewhere(origin, Busy(b, Collecting));
        ghost var s := At(Busy(b, Collecting));
        if |queue.order| == 0 {
          LeadsStep(settings, origin, s, At(Busy(b, Starting)), Look);
          return;
        }
        LeadsStep(settings, origin, s, At(Busy(b, Taking)), Look);
        Elsewhere(origin, Busy(b, Taking));
        s := At(Busy(b, Taking));
        keys := keys + [queue.order[0]];
        queue := queue.Get();
        b := b.(keys := keys);
        LeadsStep(settings, origin, s, At(Busy(b, Collecting)), Take);
        i := i + 1;
      }
      LeadsStep(settings, origin, At(Busy(b, Collecting)), At(Busy(b, Starting)), Look);
    }

    /** The branch for a transaction that could not be opened. */
    method RequeueAll(keys: seq<string>, ghost origin: State, ghost b0: Batch) returns (ghost b: Batch)
      requires |keys| > 0 && b0.keys == keys && b0.marks == [] && Leads(settings, origin, At(Busy(b0, Requeueing)))
      modifies this`queue, this`lister, this`notice
      ensures b == b0.(marks := b.marks) && |b.marks| == |keys| && Leads(settings, origin, At(Busy(b, Leaving)))
    {
      hide Leads;
      b := b0;
      var i := 0;
      while i < |keys|
        invariant i <= |keys| && b == b0.(marks := b.marks) && |b.marks| == i
        invariant Leads(settings, origin, At(Busy(b, if i == |keys| then Leaving else Requeueing)))
      {
        Elsewhere(origin, Busy(b, Requeueing));
        ghost var s := At(Busy(b, Requeueing));
        queue := queue.AddRateLimited(keys[i]);
        b := b.(marks := b.marks + [false]);
        i := i + 1;
        LeadsStep(settings, origin, s, At(Busy(b, if i == |keys| then Leaving else Requeueing)), Requeue);
      }
    }

    /** The loop that synchronises every key of the batch. */
    method SyncAll(keys: seq<string>, ghost origin: State, ghost b0: Batch) returns (successCount: nat, ghost b: Batch)
      requires |keys| > 0 && b0.keys == keys && b0.marks == [] && store.staged.Some?
      requires Leads(settings, origin, At(Busy(b0, Reading)))
      modifies this`serviceMappings, this`portAllocations, this`store, this`peak, this`failed, this`shared,
               this`queue, this`lister, this`notice
      ensures b == b0.(marks := b.marks) && |b.marks| == |keys| && store.staged.Some?
      ensures successCount > 0 <==> true in b.marks
      ensures Leads(settings, origin, At(Busy(b, Finishing)))
    {
      hide Leads;
      b := b0;
      successCount := 0;
      var i := 0;
      while i < |keys|
        invariant i <= |keys| && b == b0.(marks := b.marks) && |b.marks| == i && store.staged.Some?
        invariant successCount > 0 <==> true in b.marks
        invariant Leads(settings, origin, At(Busy(b, if i == |keys| then Finishing else Reading)))
      {
        Elsewhere(origin, Busy(b, Reading));
        var ok := SyncService(keys[i], origin, b);
        Elsewhere(origin, Busy(b, Marking(ok)));
        ghost var s := At(Busy(b, Marking(ok)));
        if !ok {
          queue := queue.AddRateLimited(keys[i]);
        } else {
          successCount := successCount + 1;
        }
        b := b.(marks := b.marks + [ok]);
        i := i + 1;
        ByMark(settings, origin, s, At(Busy(b, if i == |keys| then Finishing else Reading)));
      }
    }

    /** The loop that calls Done for all keys but the first. */
    method FinishOthers(keys: seq<string>, ghost origin: State, ghost b0: Batch) returns (ghost b: Batch)
      requires |keys| > 0 && b0.keys == keys && b0.released == [] && Leads(settings, origin, At(Busy(b0, Finishing)))
      modifies this`queue, this`lister, this`notice
      ensures b == b0.(released := keys[1..]) && Leads(settings, origin, At(Busy(b, Closing)))
    {
      hide Leads;
      b := b0;
      var i := 1;
      while i < |keys|
        invariant 1 <= i <= |keys| && b == b0.(released := keys[1..i])
        invariant Leads(settings, origin, At(Busy(b, Finishing)))
      {
        Elsewhere(origin, Busy(b, Finishing));
        ghost var s := At(Busy(b, Finishing));
        queue := queue.Done(keys[i]);
        b := b.(released := b.released + [keys[i]]);
        ByFinish(settings, origin, s, At(Busy(b, Finishing)));
        i := i + 1;
      }
      ByFinish(settings, origin, At(Busy(b, Finishing)), At(Busy(b, Closing)));
    }

    /** The deferred Done of the first key. */
    method Leave(key: string, ghost origin: State, ghost b: Batch)
      requires |b.keys| > 0 && b.keys[0] == key && Leads(settings, origin, At(Busy(b, Leaving)))
      modifies this
      ensures Leads(settings, origin, At(Idle))
      ensures log == old(log) + [b.(released := b.released + [key])]
    {
      hide Leads;
      Elsewhere(origin, Busy(b, Leaving));
      ghost var s := At(Busy(b, Leaving));
      queue := queue.Done(key);
      log := log + [b.(released := b.released + [key])];
      stuck := if b.started then stuck else stuck + Tail(b.keys);
      LeadsStep(settings, origin, s, At(Idle), Step.Leave);
    }

    /** processNextWorkItem. Get blocks until the queue has a key or is shut down; it
        reports the latter only for an empty queue. Every execution, whatever the
        informer, the timers and HAProxy do meanwhile, is a run of the state machine. */
    method ProcessNextWorkItem() returns (more: bool)
      modifies this
      ensures Leads(settings, old(At(Idle)), At(Idle))
      ensures Reachable(settings, old(At(Idle))) ==> Reachable(settings, At(Idle))
      ensures more ==> |log| == |old(log)| + 1
      ensures !more ==> CoreNow() == old(CoreNow()) && log == old(log)
    {
      hide Leads;
      ghost var origin := At(Idle);
      LeadsSelf(settings, origin);
      Elsewhere(origin, Idle);
      if |queue.order| == 0 {
        if Reachable(settings, origin) { LeadsReachable(settings, origin, At(Idle)); }
        return false;
      }
      ghost var s := At(Idle);
      var key := queue.order[0];
      queue := queue.Get();
      ghost var b := Batch([key], false, [], [], CoreNow());
      LeadsStep(settings, origin, s, At(Busy(b, Collecting)), Get);
      var keys;
      keys, b := CollectBatch(key, origin, b);
      Elsewhere(origin, Busy(b, Starting));
      RunBatch(keys, origin, b);
      if Reachable(settings, origin) { LeadsReachable(settings, origin, At(Idle)); }
      return true;
    }

    /** From the opening of the transaction to the end of processNextWorkItem. */
    method RunBatch(keys: seq<string>, ghost origin: State, ghost b0: Batch)
      requires |keys| > 0 && b0.keys == keys && !b0.started && b0.marks == [] && b0.released == []
      requires Leads(settings, origin, At(Busy(b0, Starting)))
      modifies this
      ensures Leads(settings, origin, At(Idle)) && |log| == |old(log)| + 1
    {
      hide Leads;
      ghost var b := b0;
      ghost var s := At(Busy(b, Starting));
      var started: bool := *;
      if !started {
        ByOpen(settings, origin, s, At(Busy(b, Requeueing)), false);
        b := RequeueAll(keys, origin, b);
        Leave(keys[0], origin, b);
        return;
      }
      store := Start(store);
      starts := starts + 1;
      b := b.(started := true, base := CoreNow());
      ByOpen(settings, origin, s, At(Busy(b, Reading)), true);
      var successCount;
      successCount, b := SyncAll(keys, origin, b);
      b := FinishOthers(keys, origin, b);
      s := At(Busy(b, Closing));
      var committed: bool := *;
      store := if successCount > 0 then Commit(store, committed) else Discard(store);
      ByClose(settings, origin, s, At(Busy(b, Leaving)), committed);
      Leave(keys[0], origin, b);
    }
  }
}
