/** The pod controller as a class: each method re-points the shared backend step by
    step while other calls may run in between, and is proved to be a run of the
    state machine in PodRuns. */
module PodControllerClass {
  import Names
  import opened WorkQueue
  import opened PodRuns
  import opened PodServers

  // ---- joining steps ----

  lemma ByStart(controllerPort: int, origin: State, s: State, s': State, id: int, pod: Pod, port: int, key: string, delay: int)
    requires Leads(controllerPort, origin, s) && StartStep(s, s', id, pod, port, key, delay)
    ensures Leads(controllerPort, origin, s')
  {
    hide Leads;
    hide StartStep;
    LeadsStep(controllerPort, origin, s, s', Start(id, pod, port, key, delay));
  }

  lemma ByReplace(controllerPort: int, origin: State, s: State, s': State, id: int, ok: bool)
    requires Leads(controllerPort, origin, s) && ReplaceStep(controllerPort, s, s', id, ok)
    ensures Leads(controllerPort, origin, s')
  {
    hide Leads;
    hide ReplaceStep;
    LeadsStep(controllerPort, origin, s, s', Replace(id, ok));
  }

  lemma ByReturn(controllerPort: int, origin: State, s: State, s': State, id: int)
    requires Leads(controllerPort, origin, s) && ReturnStep(s, s', id)
    ensures Leads(controllerPort, origin, s')
  {
    hide Leads;
    hide ReturnStep;
    LeadsStep(controllerPort, origin, s, s', Return(id));
  }

  // ---- the port of a pod ----

  function Flatten(containers: seq<seq<ContainerPort>>): seq<ContainerPort> {
    if containers == [] then [] else Flatten(containers[..|containers| - 1]) + containers[|containers| - 1]
  }

  /** The port of the last entry with that name, 0 when there is none. */
  function LastNamed(ports: seq<ContainerPort>, name: string): int {
    if ports == [] then 0
    else if ports[|ports| - 1].name == name then ports[|ports| - 1].port
    else LastNamed(ports[..|ports| - 1], name)
  }

  lemma {:induction false} LastNamedExtend(ports: seq<ContainerPort>, port: ContainerPort, name: string)
    ensures LastNamed(ports + [port], name) == if port.name == name then port.port else LastNamed(ports, name)
  {
    assert (ports + [port])[..|ports|] == ports;
  }

  lemma LastNamedOfNone(name: string)
    ensures LastNamed([], name) == 0
  {
  }

  function ResolvePort(pod: Pod, portName: string, defaultPort: int): int {
    var port := LastNamed(Flatten(pod.containers), portName);
    if port == 0 then defaultPort else port
  }

  /** The resolved port belongs to a container port of that name behind which no other
      has the name, or it is the default because there is none or its port is 0. */
  lemma {:induction false} LastNamedIsLast(ports: seq<ContainerPort>, name: string)
    ensures (exists i :: 0 <= i < |ports| && ports[i].name == name && ports[i].port == LastNamed(ports, name)
                          && forall j :: i < j < |ports| ==> ports[j].name != name)
            || (LastNamed(ports, name) == 0 && forall i :: 0 <= i < |ports| ==> ports[i].name != name)
  {
    if ports != [] && ports[|ports| - 1].name != name {
      LastNamedIsLast(ports[..|ports| - 1], name);
    }
  }

  // ---- the same over the containers themselves ----

  predicate HasPort(containers: seq<seq<ContainerPort>>, x: int, y: int) {
    0 <= x < |containers| && 0 <= y < |containers[x]|
  }

  /** The y-th port of the x-th container has the name, and none behind it has. */
  ghost predicate IsLastNamed(containers: seq<seq<ContainerPort>>, name: string, x: int, y: int) {
    && HasPort(containers, x, y) && containers[x][y].name == name
    && forall x', y' :: HasPort(containers, x', y') && (x' > x || (x' == x && y' > y)) ==> containers[x'][y'].name != name
  }

  ghost predicate NoneNamed(containers: seq<seq<ContainerPort>>, name: string) {
    forall x, y :: HasPort(containers, x, y) ==> containers[x][y].name != name
  }

  /** The last container port of the name, or the default when there is none or its port
      is 0. */
  ghost predicate IsResolved(pod: Pod, name: string, defaultPort: int, port: int) {
    && (forall x, y :: IsLastNamed(pod.containers, name, x, y) ==>
          port == if pod.containers[x][y].port == 0 then defaultPort else pod.containers[x][y].port)
    && (NoneNamed(pod.containers, name) ==> port == defaultPort)
  }

  lemma {:induction false} LastNamedJoined(a: seq<ContainerPort>, b: seq<ContainerPort>, name: string)
    ensures (forall i :: 0 <= i < |b| ==> b[i].name != name) ==> LastNamed(a + b, name) == LastNamed(a, name)
    ensures (exists i :: 0 <= i < |b| && b[i].name == name) ==> LastNamed(a + b, name) == LastNamed(b, name)
  {
    if b == [] {
      assert a + b == a;
    } else {
      var shorter := b[..|b| - 1];
      assert a + b == (a + shorter) + [b[|b| - 1]] && b == shorter + [b[|b| - 1]];
      LastNamedExtend(a + shorter, b[|b| - 1], name);
      LastNamedExtend(shorter, b[|b| - 1], name);
      LastNamedJoined(a, shorter, name);
    }
  }

  lemma {:induction false} LastNamedAt(ports: seq<ContainerPort>, name: string, y: nat)
    requires y < |ports| && ports[y].name == name && forall j :: y < j < |ports| ==> ports[j].name != name
    ensures LastNamed(ports, name) == ports[y].port
  {
    if y < |ports| - 1 { LastNamedAt(ports[..|ports| - 1], name, y); }
  }

  lemma {:induction false} FlattenedLast(containers: seq<seq<ContainerPort>>, name: string, x: int, y: int)
    requires IsLastNamed(containers, name, x, y)
    ensures LastNamed(Flatten(containers), name) == containers[x][y].port
  {
    var m := |containers| - 1;
    var rest, last := containers[..m], containers[m];
    LastNamedJoined(Flatten(rest), last, name);
    if x == m {
      forall j | y < j < |last| ensures last[j].name != name { assert HasPort(containers, m, j); }
      LastNamedAt(last, name, y);
    } else {
      forall j | 0 <= j < |last| ensures last[j].name != name { assert HasPort(containers, m, j); }
      forall x', y' | HasPort(rest, x', y') && (x' > x || (x' == x && y' > y)) ensures rest[x'][y'].name != name {
        assert HasPort(containers, x', y');
      }
      assert HasPort(rest, x, y);
      FlattenedLast(rest, name, x, y);
    }
  }

  lemma {:induction false} FlattenedNone(containers: seq<seq<ContainerPort>>, name: string)
    requires NoneNamed(containers, name)
    ensures LastNamed(Flatten(containers), name) == 0
  {
    if containers != [] {
      var m := |containers| - 1;
      var rest, last := containers[..m], containers[m];
      forall j | 0 <= j < |last| ensures last[j].name != name { assert HasPort(containers, m, j); }
      forall x, y | HasPort(rest, x, y) ensures rest[x][y].name != name { assert HasPort(containers, x, y); }
      LastNamedJoined(Flatten(rest), last, name);
      FlattenedNone(rest, name);
    }
  }

  lemma ResolvePortMeans(pod: Pod, name: string, defaultPort: int)
    ensures IsResolved(pod, name, defaultPort, ResolvePort(pod, name, defaultPort))
  {
    hide LastNamed;
    hide Flatten;
    forall x, y | IsLastNamed(pod.containers, name, x, y)
      ensures ResolvePort(pod, name, defaultPort) == if pod.containers[x][y].port == 0 then defaultPort else pod.containers[x][y].port
    {
      FlattenedLast(pod.containers, name, x, y);
    }
    if NoneNamed(pod.containers, name) { FlattenedNone(pod.containers, name); }
  }

  class PodController {
    const controllerPort: int
    const defaultMappingPort: int
    const jprofilerPortName: string
    /** The informer's cache. */
    var lister: map<string, Pod>
    /** The servers of the shared backend. */
    var servers: map<string, string>
    var asyncQueue: Queue<Event>
    /** The calls in flight, one per goroutine. */
    var calls: map<int, Call>
    var owner: Names.Option<Event>
    var requested: seq<Request>
    var accurate: bool
    var reliable: bool
    var once: bool

    function Now(): State
      reads this
    {
      State(servers, asyncQueue, calls, owner, requested, accurate, reliable, once)
    }

    constructor (controllerPort: int, defaultMappingPort: int, jprofilerPortName: string, servers: map<string, string>)
      ensures this.controllerPort == controllerPort && this.defaultMappingPort == defaultMappingPort
      ensures this.jprofilerPortName == jprofilerPortName
      ensures Now() == State(servers, Empty(), map[], Names.None, [], true, true, true)
    {
      this.controllerPort := controllerPort;
      this.defaultMappingPort := defaultMappingPort;
      this.jprofilerPortName := jprofilerPortName;
      this.servers := servers;
      lister := map[];
      asyncQueue := Empty();
      calls, owner, requested, accurate, reliable, once := map[], Names.None, [], true, true, true;
    }

    predicate Foreign(step: Step, me: int) {
      match step
      case Start(id, _, _, _, _) => id != me
      case StartReset(id) => id != me
      case Pop => me != POPPER
      case Fire(_) => true
      case Read(id, _) => id != me
      case Replace(id, _) => id != me
      case Add(id, _) => id != me
      case Return(id) => id != me
    }

    /** Any number of steps of other goroutines and of the queue's timers. */
    method Elsewhere(me: int, ghost origin: State)
      requires Leads(controllerPort, origin, Now())
      modifies this`servers, this`asyncQueue, this`calls, this`owner, this`requested, this`accurate, this`reliable, this`once
      ensures Leads(controllerPort, origin, Now())
      ensures me in calls <==> me in old(calls)
      ensures me in calls ==> calls[me] == old(calls)[me]
      ensures old(requested) <= requested
      ensures me == POPPER && POPPER !in calls ==> |asyncQueue.order| >= |old(asyncQueue.order)|
      ensures me == POPPER ==> asyncQueue.delivered == old(asyncQueue.delivered)
    {
      hide Leads;
      var n: nat := *;
      while n > 0
        invariant Leads(controllerPort, origin, Now())
        invariant me in calls <==> me in old(calls)
        invariant me in calls ==> calls[me] == old(calls)[me]
        invariant old(requested) <= requested
        invariant me == POPPER && POPPER !in calls ==> |asyncQueue.order| >= |old(asyncQueue.order)|
        invariant me == POPPER ==> asyncQueue.delivered == old(asyncQueue.delivered)
      {
        var step: Step := *;
        var t: State := *;
        if Foreign(step, me) && NextStep(controllerPort, Now(), t, step) {
          OthersLeaveMe(controllerPort, Now(), t, step, me);
          LeadsStep(controllerPort, origin, Now(), t, step);
          servers, asyncQueue, calls := t.servers, t.queue, t.calls;
          owner, requested, accurate, reliable, once := t.owner, t.requested, t.accurate, t.reliable, t.once;
        }
        n := n - 1;
      }
    }

    lemma OthersLeaveMe(controllerPort: int, s: State, s': State, step: Step, me: int)
      requires Foreign(step, me) && NextStep(controllerPort, s, s', step)
      ensures me in s'.calls <==> me in s.calls
      ensures me in s'.calls ==> s'.calls[me] == s.calls[me]
      ensures s.requested <= s'.requested
      ensures me == POPPER ==> |s'.queue.order| >= |s.queue.order| && s'.queue.delivered == s.queue.delivered
    {
      hide PodServer;
      hide DefaultServer;
      hide Accurate;
      hide CanReplace;
      hide Replaced;
      hide TargetOf;
      match step
      case Start(_, _, _, _, _) =>
      case StartReset(_) =>
      case Pop =>
      case Fire(_) =>
      case Read(_, _) =>
      case Replace(_, _) =>
      case Add(_, _) =>
      case Return(_) =>
    }

    // ---- changeProxy ----

    /** GetServers: the servers, or something else when the request or the answer is
        bad. */
    method GetServers(me: int, ghost origin: State) returns (names: seq<string>)
      requires Leads(controllerPort, origin, Now()) && me in calls && calls[me].stage == Reading
      modifies this`calls, this`accurate
      ensures Leads(controllerPort, origin, Now())
      ensures calls == old(calls)[me := old(calls)[me].(stage := if names == [] then Adding else Replacing(names, 0))]
    {
      hide Leads;
      ghost var s := Now();
      names := *;
      accurate := accurate && Accurate(names, servers);
      calls := calls[me := calls[me].(stage := if names == [] then Adding else Replacing(names, 0))];
      LeadsStep(controllerPort, origin, s, Now(), Read(me, names));
    }

    /** ReplaceServerFromBackend for the next name of the list. */
    method ReplaceNext(me: int, server: Server, ghost origin: State) returns (ok: bool)
      requires Leads(controllerPort, origin, Now()) && me in calls && calls[me].stage.Replacing?
      requires calls[me].stage.next < |calls[me].stage.names| && server == TargetOf(controllerPort, calls[me].job)
      modifies this`servers, this`calls, this`owner, this`reliable
      ensures Leads(controllerPort, origin, Now())
      ensures var call := old(calls)[me];
              var st := call.stage;
              && (ok ==> CanReplace(old(servers), st.names[st.next], server))
              && servers == (if ok then Replaced(old(servers), st.names[st.next], server) else old(servers))
              && calls == old(calls)[me := call.(stage :=
                   if st.next + 1 == |st.names| then Returned(ok) else Replacing(st.names, st.next + 1))]
    {
      hide Leads;
      hide DefaultServer;
      ghost var s := Now();
      var call := calls[me];
      var st := call.stage;
      var possible := CanReplace(servers, st.names[st.next], server);
      ok := *;
      ok := ok && possible;
      reliable := reliable && (call.job.Mapping? || ok || !possible);
      if ok {
        servers := Replaced(servers, st.names[st.next], server);
        owner := OwnerOf(call.job);
      }
      calls := calls[me := call.(stage := if st.next + 1 == |st.names| then Returned(ok) else Replacing(st.names, st.next + 1))];
      ByReplace(controllerPort, origin, s, Now(), me, ok);
    }

    method AddServer(me: int, server: Server, ghost origin: State) returns (ok: bool)
      requires Leads(controllerPort, origin, Now()) && me in calls && calls[me].stage == Adding
      requires server == TargetOf(controllerPort, calls[me].job)
      modifies this`servers, this`calls, this`owner
      ensures Leads(controllerPort, origin, Now())
      ensures ok ==> server.name !in old(servers)
      ensures servers == if ok then old(servers)[server.name := server.address] else old(servers)
      ensures calls == old(calls)[me := old(calls)[me].(stage := Returned(ok))]
    {
      hide Leads;
      hide DefaultServer;
      ghost var s := Now();
      ok := *;
      ok := ok && server.name !in servers;
      if ok {
        servers := servers[server.name := server.address];
        owner := OwnerOf(calls[me].job);
      }
      calls := calls[me := calls[me].(stage := Returned(ok))];
      LeadsStep(controllerPort, origin, s, Now(), Add(me, ok));
    }

    /** changeProxy returns the result of its last request. */
    method ChangeProxy(me: int, server: Server, ghost origin: State) returns (ok: bool)
      requires Leads(controllerPort, origin, Now()) && me in calls && calls[me].stage == Reading
      requires server == TargetOf(controllerPort, calls[me].job)
      modifies this`servers, this`asyncQueue, this`calls, this`owner, this`requested, this`accurate, this`reliable, this`once
      ensures Leads(controllerPort, origin, Now())
      ensures me in calls && calls[me] == old(calls)[me].(stage := Returned(ok)) && old(requested) <= requested
      ensures me == POPPER ==> asyncQueue.delivered == old(asyncQueue.delivered)
    {
      hide Leads;
      hide DefaultServer;
      Elsewhere(me, origin);
      var names := GetServers(me, origin);
      if |names| > 0 {
        ok := false;
        var i := 0;
        while i < |names|
          invariant i <= |names| && Leads(controllerPort, origin, Now()) && me in calls && old(requested) <= requested
          invariant calls[me] == old(calls)[me].(stage := if i == |names| then Returned(ok) else Replacing(names, i))
          invariant me == POPPER ==> asyncQueue.delivered == old(asyncQueue.delivered)
        {
          Elsewhere(me, origin);
          ok := ReplaceNext(me, server, origin);
          i := i + 1;
        }
      } else {
        Elsewhere(me, origin);
        ok := AddServer(me, server, origin);
      }
    }

    // ---- the callers ----

    /** The inner loop: the ports of one container. */
    method FindInContainer(ports: seq<ContainerPort>, start: int, ghost before: seq<ContainerPort>) returns (port: int)
      requires start == LastNamed(before, jprofilerPortName)
      ensures port == LastNamed(before + ports, jprofilerPortName)
    {
      port := start;
      var j := 0;
      assert before + ports[..0] == before;
      while j < |ports|
        invariant j <= |ports|
        invariant port == LastNamed(before + ports[..j], jprofilerPortName)
      {
        if ports[j].name == jprofilerPortName { port := ports[j].port; }
        LastNamedExtend(before + ports[..j], ports[j], jprofilerPortName);
        assert before + ports[..j + 1] == (before + ports[..j]) + [ports[j]];
        j := j + 1;
      }
      assert ports[..j] == ports;
    }

    /** The loop over the containers. */
    method FindPort(pod: Pod) returns (port: int)
      ensures port == ResolvePort(pod, jprofilerPortName, defaultMappingPort)
      ensures IsResolved(pod, jprofilerPortName, defaultMappingPort, port)
    {
      hide LastNamed;
      port := 0;
      assert LastNamed([], jprofilerPortName) == 0 by { LastNamedOfNone(jprofilerPortName); }
      var i := 0;
      while i < |pod.containers|
        invariant i <= |pod.containers|
        invariant port == LastNamed(Flatten(pod.containers[..i]), jprofilerPortName)
      {
        assert pod.containers[..i + 1][..i] == pod.containers[..i];
        port := FindInContainer(pod.containers[i], port, Flatten(pod.containers[..i]));
        i := i + 1;
      }
      assert pod.containers[..i] == pod.containers;
      if port == 0 { port := defaultMappingPort; }
      ResolvePortMeans(pod, jprofilerPortName, defaultMappingPort);
    }

    /** CreateMapping, run by goroutine `me`; `delay` is in seconds, `lookupFails` says
        that the lister returned an error. True when it returns no error. */
    method CreateMapping(me: int, name: string, delay: int, lookupFails: bool) returns (ok: bool)
      requires me >= 0 && me !in calls
      modifies this`servers, this`asyncQueue, this`calls, this`owner, this`requested, this`accurate, this`reliable, this`once
      ensures Leads(controllerPort, old(Now()), Now())
      ensures me !in calls
      ensures lookupFails || name !in lister ==> !ok && Now() == old(Now())
      ensures !lookupFails && name in lister ==>
                var port := ResolvePort(lister[name], jprofilerPortName, defaultMappingPort);
                && old(requested) + [Request(PodServer(lister[name], port), Event(name, port))] <= requested
                && (ok ==> Event(name, port) in (if delay > 0 then asyncQueue.waiting else asyncQueue.dirty))
      ensures !lookupFails && name in lister ==>
                && old(requested) < requested
                && var r, pod := requested[|old(requested)|], lister[name];
                   && r.event.host == name && IsResolved(pod, jprofilerPortName, defaultMappingPort, r.event.port)
                   && IsPodServer(r.server, pod.name, pod.ip, r.event.port)
    {
      hide Leads;
      hide PodServer;
      hide ResolvePort;
      ghost var origin := Now();
      LeadsSelf(controllerPort, origin);
      if lookupFails { return false; }
      if name !in lister { return false; }
      var pod := lister[name];
      var port := FindPort(pod);
      var srv := PodServer(pod, port);
      PodServerReads(pod, port);
      hide IsPodServer;
      hide IsResolved;
      calls := calls[me := Call(Mapping(srv, Event(name, port), delay), Reading)];
      requested := requested + [Request(srv, Event(name, port))];
      ByStart(controllerPort, origin, origin, Now(), me, pod, port, name, delay);
      ok := MapUntil(me, srv, Event(name, port), delay, origin);
    }

    /** From the call of changeProxy to the end of CreateMapping. */
    method MapUntil(me: int, srv: Server, event: Event, delay: int, ghost origin: State) returns (ok: bool)
      requires Leads(controllerPort, origin, Now()) && me in calls && calls[me] == Call(Mapping(srv, event, delay), Reading)
      modifies this`servers, this`asyncQueue, this`calls, this`owner, this`requested, this`accurate, this`reliable, this`once
      ensures Leads(controllerPort, origin, Now()) && me !in calls && old(requested) <= requested
      ensures ok ==> event in (if delay > 0 then asyncQueue.waiting else asyncQueue.dirty)
    {
      hide Leads;
      hide Queue.AddAfter;
      ok := ChangeProxy(me, srv, origin);
      Elsewhere(me, origin);
      ghost var s := Now();
      if ok {
        once := once && event !in asyncQueue.processing;
        AddAfter(delay, event);
      }
      calls := calls - {me};
      ByReturn(controllerPort, origin, s, Now(), me);
    }

    method AddAfter(delay: int, event: Event)
      modifies this`asyncQueue
      ensures asyncQueue == old(asyncQueue).AddAfter(event, delay)
      ensures event in (if delay > 0 then asyncQueue.waiting else asyncQueue.dirty)
    {
      asyncQueue := asyncQueue.AddAfter(event, delay);
    }

    /** DefaultMapping, called at start-up or by the expiry goroutine. The result is what
        changeProxy returned in state `at`. */
    method DefaultMapping(me: int, ghost origin: State) returns (ok: bool, ghost at: State)
      requires Leads(controllerPort, origin, Now()) && me in calls && calls[me].stage == Reading && !calls[me].job.Mapping?
      modifies this`servers, this`asyncQueue, this`calls, this`owner, this`requested, this`accurate, this`reliable, this`once
      ensures Leads(controllerPort, origin, Now()) && me !in calls
      ensures Leads(controllerPort, origin, at) && Leads(controllerPort, at, Now())
      ensures me in at.calls && at.calls[me] == old(calls)[me].(stage := Returned(ok))
      ensures IsDefault(TargetOf(controllerPort, at.calls[me].job), controllerPort)
      ensures me == POPPER ==> asyncQueue.delivered == old(asyncQueue.delivered)
    {
      hide Leads;
      hide DefaultServer;
      DefaultServerReads(controllerPort);
      ok := ChangeProxy(me, DefaultServer(controllerPort), origin);
      at := Now();
      LeadsSelf(controllerPort, at);
      Elsewhere(me, at);
      ghost var s := Now();
      calls := calls - {me};
      ByReturn(controllerPort, at, s, Now(), me);
      LeadsOn(controllerPort, origin, at, Now());
    }

    /** One turn of the expiry loop: false when Get reports that the queue was shut
        down, which it does only when the queue is empty. The event is never marked
        done. */
    method Pop() returns (more: bool)
      requires POPPER !in calls
      modifies this`servers, this`asyncQueue, this`calls, this`owner, this`requested, this`accurate, this`reliable, this`once
      ensures Leads(controllerPort, old(Now()), Now()) && POPPER !in calls
      ensures |asyncQueue.delivered| == |old(asyncQueue.delivered)| + (if more then 1 else 0)
    {
      hide Leads;
      ghost var origin := Now();
      LeadsSelf(controllerPort, origin);
      Elsewhere(POPPER, origin);
      if |asyncQueue.order| == 0 { return false; }
      ghost var s := Now();
      calls := calls[POPPER := Call(Expiry(asyncQueue.order[0]), Reading)];
      asyncQueue := asyncQueue.Get();
      LeadsStep(controllerPort, origin, s, Now(), PodRuns.Pop);
      var _, _ := DefaultMapping(POPPER, origin);
      return true;
    }
  }
}
