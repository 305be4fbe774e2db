/** Runs of the pod proxy: any number of HTTP calls and one expiry goroutine re-point
    the single server of the shared backend, each by reading the server list and
    then replacing, without a lock in between. */
module PodRuns {
  import opened Names
  import opened WorkQueue

  datatype ContainerPort = ContainerPort(name: string, port: int)

  datatype Pod = Pod(name: string, ip: string, containers: seq<seq<ContainerPort>>)

  /** EventName is never set. */
  datatype Event = Event(host: string, port: int)

  datatype Server = Server(name: string, address: string)

  function DefaultName(): string { "DEFAULT_APP.pod-proxier" }

  function PodServer(pod: Pod, port: int): Server {
    Server("POD." + (pod.name + ("." + pod.ip)), pod.ip + (":" + Decimal(port)))
  }

  function DefaultServer(controllerPort: int): Server {
    Server(DefaultName(), "127.0.0.1" + (":" + Decimal(controllerPort)))
  }

  lemma PodIsNotDefault(pod: Pod, port: int)
    ensures PodServer(pod, port).name != DefaultName()
  {
    assert PodServer(pod, port).name[0] == 'P' && DefaultName()[0] == 'D';
  }

  /** Who is re-pointing: a CreateMapping call, DefaultMapping called at start-up, or
      DefaultMapping called by the expiry goroutine for an event. */
  datatype Job =
    | Mapping(server: Server, event: Event, delay: int)
    | Reset
    | Expiry(event: Event)

  /** Where a call stands in changeProxy. */
  datatype Stage =
    | Reading                                  // about to read the server list
    | Replacing(names: seq<string>, next: nat) // about to replace names[next]
    | Adding                                   // the list was empty, about to add
    | Returned(ok: bool)                       // changeProxy has returned

  datatype Call = Call(job: Job, stage: Stage)

  /** What a CreateMapping call asks for: the server to point to, and the event that
      will end the mapping. */
  datatype Request = Request(server: Server, event: Event)

  /** `owner` is the event of the mapping that pointed the backend where it points
      (None for the default), `requested` what all CreateMapping calls asked for.
      `accurate` says that every read so far returned the servers, `reliable` that no
      default mapping failed although it was possible, `once` that no event was added
      after it had been delivered. */
  datatype State = State(
    servers: map<string, string>, queue: Queue<Event>, calls: map<int, Call>,
    owner: Option<Event>, requested: seq<Request>, accurate: bool, reliable: bool, once: bool)

  /** The expiry goroutine's place among the calls. */
  const POPPER: int := -1

  function TargetOf(controllerPort: int, job: Job): Server {
    if job.Mapping? then job.server else DefaultServer(controllerPort)
  }

  function OwnerOf(job: Job): Option<Event> {
    if job.Mapping? then Some(job.event) else None
  }

  /** The list has every server once, in any order. */
  predicate Accurate(names: seq<string>, servers: map<string, string>) {
    (set i | 0 <= i < |names| :: names[i]) == servers.Keys && |names| == |servers|
  }

  predicate CanReplace(servers: map<string, string>, old_: string, server: Server) {
    old_ in servers && (server.name == old_ || server.name !in servers)
  }

  function Replaced(servers: map<string, string>, old_: string, server: Server): map<string, string> {
    (servers - {old_})[server.name := server.address]
  }

  // ---- steps ----

  predicate StartStep(s: State, s': State, id: int, pod: Pod, port: int, key: string, delay: int) {
    && id >= 0 && id !in s.calls
    && var server := PodServer(pod, port);
       s' == s.(calls := s.calls[id := Call(Mapping(server, Event(key, port), delay), Reading)],
                requested := s.requested + [Request(server, Event(key, port))])
  }

  predicate ResetStep(s: State, s': State, id: int) {
    id >= 0 && id !in s.calls && s' == s.(calls := s.calls[id := Call(Reset, Reading)])
  }

  /** The expiry goroutine takes the next event. It never calls Done. */
  predicate PopStep(s: State, s': State) {
    && POPPER !in s.calls && |s.queue.order| > 0
    && s' == s.(queue := s.queue.Get(), calls := s.calls[POPPER := Call(Expiry(s.queue.order[0]), Reading)])
  }

  predicate FireStep(s: State, s': State, e: Event) {
    e in s.queue.waiting && s' == s.(queue := s.queue.Fire(e))
  }

  /** GetServers; a failed request yields an empty list, an unreadable answer any. */
  predicate ReadStep(s: State, s': State, id: int, names: seq<string>) {
    && id in s.calls && s.calls[id].stage == Reading
    && s' == s.(calls := s.calls[id := s.calls[id].(stage := if names == [] then Adding else Replacing(names, 0))],
                accurate := s.accurate && Accurate(names, s.servers))
  }

  /** One ReplaceServerFromBackend; the result of the last one is returned. */
  predicate ReplaceStep(controllerPort: int, s: State, s': State, id: int, ok: bool) {
    && id in s.calls && s.calls[id].stage.Replacing? && s.calls[id].stage.next < |s.calls[id].stage.names|
    && var call := s.calls[id];
       var st := call.stage;
       var server := TargetOf(controllerPort, call.job);
       var possible := CanReplace(s.servers, st.names[st.next], server);
       && (ok ==> possible)
       && s' == s.(servers := if ok then Replaced(s.servers, st.names[st.next], server) else s.servers,
                   owner := if ok then OwnerOf(call.job) else s.owner,
                   reliable := s.reliable && (call.job.Mapping? || ok || !possible),
                   calls := s.calls[id := call.(stage :=
                     if st.next + 1 == |st.names| then Returned(ok) else Replacing(st.names, st.next + 1))])
  }

  predicate AddStep(controllerPort: int, s: State, s': State, id: int, ok: bool) {
    && id in s.calls && s.calls[id].stage == Adding
    && var call := s.calls[id];
       var server := TargetOf(controllerPort, call.job);
       && (ok ==> server.name !in s.servers)
       && s' == s.(servers := if ok then s.servers[server.name := server.address] else s.servers,
                   owner := if ok then OwnerOf(call.job) else s.owner,
                   calls := s.calls[id := call.(stage := Returned(ok))])
  }

  /** A mapping that succeeded puts its expiry into the delaying queue. */
  predicate ReturnStep(s: State, s': State, id: int) {
    && id in s.calls && s.calls[id].stage.Returned?
    && var call := s.calls[id];
       s' == if call.job.Mapping? && call.stage.ok
             then s.(queue := s.queue.AddAfter(call.job.event, call.job.delay), calls := s.calls - {id},
                     once := s.once && call.job.event !in s.queue.processing)
             else s.(calls := s.calls - {id})
  }

  datatype Step =
    | Start(id: int, pod: Pod, port: int, key: string, delay: int) | StartReset(id: int)
    | Pop | Fire(e: Event) | Read(id: int, names: seq<string>)
    | Replace(id: int, ok: bool) | Add(id: int, ok: bool) | Return(id: int)

  predicate NextStep(controllerPort: int, s: State, s': State, step: Step) {
    match step
    case Start(id, pod, port, key, delay) => StartStep(s, s', id, pod, port, key, delay)
    case StartReset(id) => ResetStep(s, s', id)
    case Pop => PopStep(s, s')
    case Fire(e) => FireStep(s, s', e)
    case Read(id, names) => ReadStep(s, s', id, names)
    case Replace(id, ok) => ReplaceStep(controllerPort, s, s', id, ok)
    case Add(id, ok) => AddStep(controllerPort, s, s', id, ok)
    case Return(id) => ReturnStep(s, s', id)
  }

  ghost predicate Next(controllerPort: int, s: State, s': State) {
    exists step :: NextStep(controllerPort, s, s', step)
  }

  ghost predicate IsPath(controllerPort: int, path: seq<State>) {
    |path| > 0 && forall i :: 0 <= i < |path| - 1 ==> Next(controllerPort, path[i], path[i + 1])
  }

  ghost predicate Leads(controllerPort: int, s: State, t: State) {
    exists path :: IsPath(controllerPort, path) && path[0] == s && path[|path| - 1] == t
  }

  // ---- joining steps ----

  lemma LeadsSelf(controllerPort: int, s: State)
    ensures Leads(controllerPort, s, s)
  {
    hide Next;
    var path := [s];
    assert IsPath(controllerPort, path) && path[0] == s && path[|path| - 1] == s;
  }

  lemma LeadsStep(controllerPort: int, origin: State, s: State, s': State, step: Step)
    requires Leads(controllerPort, origin, s) && NextStep(controllerPort, s, s', step)
    ensures Leads(controllerPort, origin, s')
  {
    assert Next(controllerPort, s, s');
    hide Next;
    hide NextStep;
    var path :| IsPath(controllerPort, path) && path[0] == origin && path[|path| - 1] == s;
    var path' := path + [s'];
    forall i | 0 <= i < |path'| - 1 ensures Next(controllerPort, path'[i], path'[i + 1]) {
      if i < |path| - 1 { assert path'[i] == path[i] && path'[i + 1] == path[i + 1]; }
    }
    assert IsPath(controllerPort, path') && path'[0] == origin && path'[|path'| - 1] == s';
  }

  lemma LeadsOn(controllerPort: int, r: State, s: State, t: State)
    requires Leads(controllerPort, r, s) && Leads(controllerPort, s, t)
    ensures Leads(controllerPort, r, t)
  {
    hide Next;
    var p :| IsPath(controllerPort, p) && p[0] == r && p[|p| - 1] == s;
    var q :| IsPath(controllerPort, q) && q[0] == s && q[|q| - 1] == t;
    var path := p + q[1..];
    forall i | 0 <= i < |path| - 1 ensures Next(controllerPort, path[i], path[i + 1]) {
      if i < |p| - 1 {
        assert path[i] == p[i] && path[i + 1] == p[i + 1];
      } else {
        assert path[i] == q[i - (|p| - 1)] && path[i + 1] == q[i + 1 - (|p| - 1)];
      }
    }
    assert IsPath(controllerPort, path) && path[0] == r && path[|path| - 1] == t;
  }

  // ---- single server ----

  /** No call has read an empty list and is about to add. */
  ghost predicate NoneAdding(s: State) {
    forall id :: id in s.calls ==> s.calls[id].stage != Adding
  }

  ghost predicate WasRequested(server: Server, requested: seq<Request>) {
    exists i :: 0 <= i < |requested| && requested[i].server == server
  }

  ghost predicate KnownServers(controllerPort: int, servers: map<string, string>, requested: seq<Request>) {
    forall n :: n in servers ==> WasRequested(Server(n, servers[n]), requested) || Server(n, servers[n]) == DefaultServer(controllerPort)
  }

  ghost predicate JobKnown(job: Job, requested: seq<Request>) {
    job.Mapping? ==> Request(job.server, job.event) in requested
  }

  ghost predicate KnownCalls(calls: map<int, Call>, requested: seq<Request>) {
    forall id :: id in calls ==> JobKnown(calls[id].job, requested)
  }

  /** The recorded owner is the event of a request for a live server. */
  ghost predicate KnownOwner(servers: map<string, string>, owner: Option<Event>, requested: seq<Request>) {
    owner.Some? ==> exists n :: n in servers && Request(Server(n, servers[n]), owner.value) in requested
  }

  ghost predicate Known(controllerPort: int, s: State) {
    && KnownServers(controllerPort, s.servers, s.requested) && KnownCalls(s.calls, s.requested)
    && KnownOwner(s.servers, s.owner, s.requested)
  }

  lemma ReplacedSize(servers: map<string, string>, old_: string, server: Server)
    requires CanReplace(servers, old_, server)
    ensures |Replaced(servers, old_, server)| == |servers|
  {
    var rest := servers - {old_};
    assert |rest| == |servers| - 1 by { assert rest.Keys == servers.Keys - {old_}; }
    assert server.name !in rest;
  }

  lemma SingleOther(controllerPort: int, s: State, s': State, step: Step)
    requires |s.servers| == 1 && NoneAdding(s) && NextStep(controllerPort, s, s', step) && !step.Replace? && s'.accurate
    ensures |s'.servers| == 1 && NoneAdding(s')
  {
    hide PodServer;
    hide DefaultServer;
    hide ReplaceStep;
  }

  lemma SingleStep(controllerPort: int, s: State, s': State)
    requires |s.servers| == 1 && NoneAdding(s) && Next(controllerPort, s, s') && s'.accurate
    ensures |s'.servers| == 1 && NoneAdding(s')
  {
    hide StartStep;
    hide ResetStep;
    hide PopStep;
    hide FireStep;
    hide ReadStep;
    hide AddStep;
    hide ReturnStep;
    hide CanReplace;
    hide Replaced;
    hide TargetOf;
    var step :| NextStep(controllerPort, s, s', step);
    match step
    case Replace(id, ok) =>
      var st := s.calls[id].stage;
      if ok { ReplacedSize(s.servers, st.names[st.next], TargetOf(controllerPort, s.calls[id].job)); }
    case _ => SingleOther(controllerPort, s, s', step);
  }

  lemma KnownAfter(controllerPort: int, s: State, old_: string, job: Job)
    requires KnownServers(controllerPort, s.servers, s.requested) && JobKnown(job, s.requested)
    ensures KnownServers(controllerPort, Replaced(s.servers, old_, TargetOf(controllerPort, job)), s.requested)
    ensures KnownOwner(Replaced(s.servers, old_, TargetOf(controllerPort, job)), OwnerOf(job), s.requested)
    ensures var server := TargetOf(controllerPort, job);
            && KnownServers(controllerPort, s.servers[server.name := server.address], s.requested)
            && KnownOwner(s.servers[server.name := server.address], OwnerOf(job), s.requested)
  {
    hide DefaultServer;
    if job.Mapping? {
      RequestKnown(job, s.requested);
      var server, old_ := job.server, old_;
      assert server.name in Replaced(s.servers, old_, server) && server.name in s.servers[server.name := server.address];
    }
  }

  lemma RequestKnown(job: Job, requested: seq<Request>)
    requires job.Mapping? && JobKnown(job, requested)
    ensures WasRequested(job.server, requested)
  {
    var i :| 0 <= i < |requested| && requested[i] == Request(job.server, job.event);
  }

  lemma KnownCallsKept(calls: map<int, Call>, requested: seq<Request>, id: int, call: Call)
    requires KnownCalls(calls, requested)
    ensures KnownCalls(calls - {id}, requested)
    ensures JobKnown(call.job, requested) ==> KnownCalls(calls[id := call], requested)
    ensures id in calls ==> JobKnown(calls[id].job, requested)
  {
    hide JobKnown;
  }

  lemma KnownWrite(controllerPort: int, s: State, s': State, id: int, ok: bool)
    requires Known(controllerPort, s)
    requires ReplaceStep(controllerPort, s, s', id, ok) || AddStep(controllerPort, s, s', id, ok)
    ensures Known(controllerPort, s')
  {
    hide DefaultServer;
    hide CanReplace;
    hide Replaced;
    hide KnownServers;
    hide KnownCalls;
    hide KnownOwner;
    hide JobKnown;
    hide TargetOf;
    hide OwnerOf;
    KnownCallsKept(s.calls, s.requested, id, s'.calls[id]);
    var st := s.calls[id].stage;
    KnownAfter(controllerPort, s, if st.Replacing? then st.names[st.next] else "", s.calls[id].job);
  }

  /** A further request leaves everything known. */
  lemma MoreRequested(controllerPort: int, s: State, request: Request)
    requires Known(controllerPort, s)
    ensures Known(controllerPort, s.(requested := s.requested + [request]))
  {
    hide DefaultServer;
    var more := s.requested + [request];
    forall n | n in s.servers && WasRequested(Server(n, s.servers[n]), s.requested) ensures WasRequested(Server(n, s.servers[n]), more) {
      var i :| 0 <= i < |s.requested| && s.requested[i].server == Server(n, s.servers[n]);
      assert more[i] == s.requested[i];
    }
  }

  lemma KnownOther(controllerPort: int, s: State, s': State, step: Step)
    requires Known(controllerPort, s) && NextStep(controllerPort, s, s', step) && !step.Replace? && !step.Add?
    ensures Known(controllerPort, s')
  {
    hide PodServer;
    hide DefaultServer;
    hide Accurate;
    hide KnownServers;
    hide KnownCalls;
    hide KnownOwner;
    hide ReplaceStep;
    hide AddStep;
    match step
    case Start(id, pod, port, key, _) =>
      MoreRequested(controllerPort, s, Request(PodServer(pod, port), Event(key, port)));
      KnownCallsKept(s.calls, s'.requested, id, s'.calls[id]);
    case Read(id, _) =>
      KnownCallsKept(s.calls, s.requested, id, s'.calls[id]);
    case StartReset(id) =>
      KnownCallsKept(s.calls, s.requested, id, s'.calls[id]);
    case Pop =>
      KnownCallsKept(s.calls, s.requested, POPPER, s'.calls[POPPER]);
    case Fire(_) =>
    case Return(id) =>
      KnownCallsKept(s.calls, s.requested, id, s.calls[id]);
  }

  lemma KnownStep(controllerPort: int, s: State, s': State)
    requires Known(controllerPort, s) && Next(controllerPort, s, s')
    ensures Known(controllerPort, s')
  {
    hide Known;
    hide StartStep;
    hide ResetStep;
    hide PopStep;
    hide FireStep;
    hide ReadStep;
    hide ReplaceStep;
    hide AddStep;
    hide ReturnStep;
    var step :| NextStep(controllerPort, s, s', step);
    match step
    case Replace(id, ok) => KnownWrite(controllerPort, s, s', id, ok);
    case Add(id, ok) => KnownWrite(controllerPort, s, s', id, ok);
    case _ => KnownOther(controllerPort, s, s', step);
  }

  /** Single server: once the backend has one server and no call holds an empty list,
      it has one server in every later state of every interleaving in which reads are
      accurate, and that server is the default or one that was requested. */
  lemma {:induction false} SingleServer(controllerPort: int, path: seq<State>, n: nat)
    requires IsPath(controllerPort, path) && n < |path| && path[n].accurate
    requires |path[0].servers| == 1 && NoneAdding(path[0]) && Known(controllerPort, path[0])
    ensures |path[n].servers| == 1 && NoneAdding(path[n]) && Known(controllerPort, path[n])
  {
    hide NoneAdding;
    hide Known;
    if n > 0 {
      AccurateBefore(controllerPort, path[n - 1], path[n]);
      SingleServer(controllerPort, path, n - 1);
      SingleStep(controllerPort, path[n - 1], path[n]);
      KnownStep(controllerPort, path[n - 1], path[n]);
    }
  }

  lemma AccurateBefore(controllerPort: int, s: State, s': State)
    requires Next(controllerPort, s, s')
    ensures (s'.accurate ==> s.accurate) && (s'.reliable ==> s.reliable) && (s'.once ==> s.once)
  {
    hide PodServer;
    hide DefaultServer;
    var step :| NextStep(controllerPort, s, s', step);
  }

  /** Some call that read an empty list is about to add a server that is not there. */
  ghost predicate AddDue(controllerPort: int, s: State) {
    exists id :: id in s.calls && s.calls[id].stage == Adding && TargetOf(controllerPort, s.calls[id].job).name !in s.servers
  }

  lemma OnlyAddsGrow(controllerPort: int, s: State, s': State)
    requires Next(controllerPort, s, s') && |s'.servers| != |s.servers|
    ensures AddDue(controllerPort, s)
  {
    hide StartStep;
    hide ResetStep;
    hide PopStep;
    hide FireStep;
    hide ReadStep;
    hide ReturnStep;
    hide CanReplace;
    hide Replaced;
    hide TargetOf;
    var step :| NextStep(controllerPort, s, s', step);
    match step
    case Replace(id, ok) =>
      var st := s.calls[id].stage;
      if ok { ReplacedSize(s.servers, st.names[st.next], TargetOf(controllerPort, s.calls[id].job)); }
    case Add(_, _) =>
    case _ => OtherServersSame(controllerPort, s, s', step);
  }

  lemma OtherServersSame(controllerPort: int, s: State, s': State, step: Step)
    requires NextStep(controllerPort, s, s', step) && !step.Replace? && !step.Add?
    ensures s'.servers == s.servers
  {
    hide PodServer;
    hide Accurate;
  }

  /** The condition on pending adds is exact: from any state, some next step changes the
      number of servers if and only if some call that read an empty list is about to
      add a server that is not there. */
  lemma SingleServerIff(controllerPort: int, s: State)
    ensures (exists s' :: Next(controllerPort, s, s') && |s'.servers| != |s.servers|) <==> AddDue(controllerPort, s)
  {
    hide DefaultServer;
    hide Next;
    if s' :| Next(controllerPort, s, s') && |s'.servers| != |s.servers| {
      OnlyAddsGrow(controllerPort, s, s');
    }
    if AddDue(controllerPort, s) {
      var s' := AddOne(controllerPort, s);
    }
  }

  lemma AddOne(controllerPort: int, s: State) returns (s': State)
    requires AddDue(controllerPort, s)
    ensures Next(controllerPort, s, s') && |s'.servers| == |s.servers| + 1
  {
    hide DefaultServer;
    var id :| id in s.calls && s.calls[id].stage == Adding && TargetOf(controllerPort, s.calls[id].job).name !in s.servers;
    var call := s.calls[id];
    var server := TargetOf(controllerPort, call.job);
    s' := s.(servers := s.servers[server.name := server.address], owner := OwnerOf(call.job),
             calls := s.calls[id := call.(stage := Returned(true))]);
    assert NextStep(controllerPort, s, s', Add(id, true));
  }

  // ---- reversion ----

  /** A mapping of this event has succeeded and is about to add its expiry. */
  ghost predicate AboutToAdd(s: State, e: Event) {
    exists id :: id in s.calls && s.calls[id].stage == Returned(true) && s.calls[id].job.Mapping? && s.calls[id].job.event == e
  }

  /** The expiry goroutine is handling this event and will still see or replace the
      live server. */
  ghost predicate BeingHandled(s: State, e: Event) {
    POPPER in s.calls && s.calls[POPPER].job == Expiry(e)
    && match s.calls[POPPER].stage
       case Reading => true
       case Replacing(names, next) => next < |names| && names[next] in s.servers
       case _ => false
  }

  ghost predicate Covered(s: State, e: Event) {
    || (e in s.queue.waiting && e !in s.queue.processing)
    || e in s.queue.order
    || AboutToAdd(s, e)
    || BeingHandled(s, e)
  }

  /** Exactly the live server's owner is recorded. */
  ghost predicate OwnerOk(controllerPort: int, s: State) {
    && |s.servers| == 1
    && (s.owner == None ==> DefaultName() in s.servers && s.servers[DefaultName()] == DefaultServer(controllerPort).address)
    && (s.owner.Some? ==> DefaultName() !in s.servers)
    && (forall id :: id in s.calls ==> CallOk(id, s.calls[id]))
  }

  ghost predicate CallOk(id: int, call: Call) {
    && call.stage != Adding
    && (call.stage.Replacing? ==> |call.stage.names| == 1 && call.stage.next == 0)
    && (call.job.Mapping? ==> call.job.server.name != DefaultName() && id != POPPER)
    && (call.job.Expiry? <==> id == POPPER)
  }

  ghost predicate Reverting(controllerPort: int, s: State) {
    && s.queue.Valid() && OwnerOk(controllerPort, s)
    && (s.owner.Some? ==> Covered(s, s.owner.value))
  }

  lemma ReplaceReverts(controllerPort: int, s: State, s': State, id: int, ok: bool)
    requires Reverting(controllerPort, s) && ReplaceStep(controllerPort, s, s', id, ok) && s'.reliable
    ensures Reverting(controllerPort, s')
  {
    hide DefaultName;
    var call := s.calls[id];
    var server := TargetOf(controllerPort, call.job);
    var old_ := call.stage.names[0];
    if ok {
      ReplacedSize(s.servers, old_, server);
      assert Replaced(s.servers, old_, server) == map[server.name := server.address] by { OnlyOne(s.servers, old_); }
      assert call.job.Mapping? ==> s'.calls[id].stage == Returned(true);
    } else if s.owner.Some? {
      StillCovered(controllerPort, s, s', id);
    }
  }

  lemma OnlyOne(servers: map<string, string>, n: string)
    requires |servers| == 1 && n in servers
    ensures servers - {n} == map[]
  {
    assert |servers.Keys - {n}| == 0;
  }

  /** A replacement that failed leaves the live server's expiry where it was: the
      expiry goroutine itself cannot have failed on the live server. */
  lemma StillCovered(controllerPort: int, s: State, s': State, id: int)
    requires Reverting(controllerPort, s) && ReplaceStep(controllerPort, s, s', id, false) && s'.reliable && s.owner.Some?
    ensures Covered(s', s.owner.value)
  {
    hide DefaultName;
    var e := s.owner.value;
    var call := s.calls[id];
    if AboutToAdd(s, e) {
      var w :| w in s.calls && s.calls[w].stage == Returned(true) && s.calls[w].job.Mapping? && s.calls[w].job.event == e;
      assert w in s'.calls && s'.calls[w] == s.calls[w];
    }
  }

  lemma ReadReverts(controllerPort: int, s: State, s': State, id: int, names: seq<string>)
    requires Reverting(controllerPort, s) && ReadStep(s, s', id, names) && s'.accurate
    ensures Reverting(controllerPort, s')
  {
    hide DefaultName;
    assert names[0] in (set i | 0 <= i < |names| :: names[i]);
    if s.owner.Some? {
      var e := s.owner.value;
      if AboutToAdd(s, e) {
        var w :| w in s.calls && s.calls[w].stage == Returned(true) && s.calls[w].job.Mapping? && s.calls[w].job.event == e;
        assert w in s'.calls && s'.calls[w] == s.calls[w];
      }
    }
  }

  /** Calls other than the returning one still cover what they covered. */
  lemma OtherCover(s: State, s': State, e: Event, id: int)
    requires forall w :: w in s.calls && w != id ==> w in s'.calls && s'.calls[w] == s.calls[w]
    requires s'.servers == s.servers
    ensures AboutToAdd(s, e) ==>
              (AboutToAdd(s', e)
               || (id in s.calls && s.calls[id].stage == Returned(true) && s.calls[id].job.Mapping? && s.calls[id].job.event == e))
    ensures BeingHandled(s, e) && id != POPPER ==> BeingHandled(s', e)
  {
    if AboutToAdd(s, e) {
      var w :| w in s.calls && s.calls[w].stage == Returned(true) && s.calls[w].job.Mapping? && s.calls[w].job.event == e;
      if w != id { assert w in s'.calls && s'.calls[w] == s.calls[w]; }
    }
  }

  lemma ReturnReverts(controllerPort: int, s: State, s': State, id: int)
    requires Reverting(controllerPort, s) && ReturnStep(s, s', id) && s'.once
    ensures Reverting(controllerPort, s')
  {
    hide DefaultName;
    var call := s.calls[id];
    if call.job.Mapping? && call.stage.ok { AddKeeps(s.queue, call.job.event); }
    if s.owner.Some? { OtherCover(s, s', s.owner.value, id); }
  }

  lemma PopReverts(controllerPort: int, s: State, s': State)
    requires Reverting(controllerPort, s) && PopStep(s, s')
    ensures Reverting(controllerPort, s')
  {
    hide DefaultName;
    GetKeeps(s.queue);
    if s.owner.Some? {
      OtherCover(s, s', s.owner.value, POPPER);
      assert s.queue.order == [s.queue.order[0]] + s.queue.order[1..];
    }
  }

  lemma FireReverts(controllerPort: int, s: State, s': State, e: Event)
    requires Reverting(controllerPort, s) && FireStep(s, s', e)
    ensures Reverting(controllerPort, s')
  {
    hide DefaultName;
    AddKeeps(s.queue.(waiting := s.queue.waiting - {e}), e);
    if s.owner.Some? { OtherCover(s, s', s.owner.value, POPPER); }
  }

  lemma StartReverts(controllerPort: int, s: State, s': State, step: Step)
    requires Reverting(controllerPort, s) && NextStep(controllerPort, s, s', step) && (step.Start? || step.StartReset?)
    ensures Reverting(controllerPort, s')
  {
    hide DefaultName;
    hide PodServer;
    if step.Start? { PodIsNotDefault(step.pod, step.port); }
    if s.owner.Some? { OtherCover(s, s', s.owner.value, step.id); }
  }

  lemma NextReverts(controllerPort: int, s: State, s': State)
    requires Reverting(controllerPort, s) && Next(controllerPort, s, s') && s'.accurate && s'.reliable && s'.once
    ensures Reverting(controllerPort, s')
  {
    hide Reverting;
    hide StartStep;
    hide ResetStep;
    hide PopStep;
    hide FireStep;
    hide ReadStep;
    hide ReplaceStep;
    hide ReturnStep;
    var step :| NextStep(controllerPort, s, s', step);
    match step
    case Start(_, _, _, _, _) => StartReverts(controllerPort, s, s', step);
    case StartReset(_) => StartReverts(controllerPort, s, s', step);
    case Pop => PopReverts(controllerPort, s, s');
    case Fire(e) => FireReverts(controllerPort, s, s', e);
    case Read(id, names) => ReadReverts(controllerPort, s, s', id, names);
    case Replace(id, ok) => ReplaceReverts(controllerPort, s, s', id, ok);
    case Add(id, ok) => NobodyAdds(controllerPort, s, id);
    case Return(id) => ReturnReverts(controllerPort, s, s', id);
  }

  lemma NobodyAdds(controllerPort: int, s: State, id: int)
    requires Reverting(controllerPort, s) && id in s.calls
    ensures s.calls[id].stage != Adding
  {
    hide DefaultName;
  }

  /** The backend points at the default and nothing is going on. */
  ghost predicate AtRest(controllerPort: int, s: State) {
    && s.servers == map[DefaultName() := DefaultServer(controllerPort).address]
    && s.queue == Empty() && s.calls == map[] && s.owner == None && s.requested == []
    && s.accurate && s.reliable && s.once
  }

  lemma {:induction false} RunReverts(controllerPort: int, path: seq<State>, n: nat)
    requires IsPath(controllerPort, path) && AtRest(controllerPort, path[0]) && n < |path|
    requires path[n].accurate && path[n].reliable && path[n].once
    ensures Reverting(controllerPort, path[n])
  {
    hide Next;
    hide DefaultName;
    if n > 0 {
      AccurateBefore(controllerPort, path[n - 1], path[n]);
      RunReverts(controllerPort, path, n - 1);
      NextReverts(controllerPort, path[n - 1], path[n]);
    }
  }

  /** Every live server was requested or is the default, and its owner is the event of
      a request for it. */
  lemma {:induction false} RunKnown(controllerPort: int, path: seq<State>, n: nat)
    requires IsPath(controllerPort, path) && AtRest(controllerPort, path[0]) && n < |path|
    ensures Known(controllerPort, path[n])
  {
    hide Next;
    hide DefaultServer;
    if n > 0 {
      hide Known;
      RunKnown(controllerPort, path, n - 1);
      KnownStep(controllerPort, path[n - 1], path[n]);
    } else {
      RestKnown(controllerPort, path[0]);
    }
  }

  lemma RestKnown(controllerPort: int, s: State)
    requires AtRest(controllerPort, s)
    ensures Known(controllerPort, s)
  {
    hide DefaultName;
    assert DefaultServer(controllerPort).name == DefaultName();
  }

  /** The live server is one that a CreateMapping asked for, and that call's event is
      covered. */
  ghost predicate WillRevert(s: State) {
    exists i, n :: 0 <= i < |s.requested| && n in s.servers && s.requested[i].server == Server(n, s.servers[n])
                   && Covered(s, s.requested[i].event)
  }

  /** Reversion: in every interleaving in which reads are accurate, default mappings
      fail only when the server to replace is gone, and no event is added after it
      was delivered, a live pod's expiry is waiting, queued, being handled, or about
      to be added by its own CreateMapping; so when none of these is the case the
      backend points at the default again. */
  lemma Reversion(controllerPort: int, path: seq<State>, n: nat)
    requires IsPath(controllerPort, path) && AtRest(controllerPort, path[0]) && n < |path|
    requires path[n].accurate && path[n].reliable && path[n].once
    ensures |path[n].servers| == 1
    ensures DefaultName() !in path[n].servers ==> WillRevert(path[n])
    ensures path[n].queue.waiting == {} && path[n].queue.order == [] && path[n].calls == map[] ==>
              path[n].servers == map[DefaultName() := DefaultServer(controllerPort).address]
  {
    hide Next;
    hide DefaultName;
    hide AtRest;
    hide KnownServers;
    hide KnownCalls;
    RunReverts(controllerPort, path, n);
    RunKnown(controllerPort, path, n);
    var s := path[n];
    if DefaultName() !in s.servers {
      assert s.owner.Some?;
      OwnerReverts(s);
    }
    if s.queue.waiting == {} && s.queue.order == [] && s.calls == map[] {
      assert s.owner == None;
      OnlyOne(s.servers, DefaultName());
    }
  }

  lemma OwnerReverts(s: State)
    requires s.owner.Some? && Covered(s, s.owner.value) && KnownOwner(s.servers, s.owner, s.requested)
    ensures WillRevert(s)
  {
    hide Covered;
    var n :| n in s.servers && Request(Server(n, s.servers[n]), s.owner.value) in s.requested;
    var i :| 0 <= i < |s.requested| && s.requested[i] == Request(Server(n, s.servers[n]), s.owner.value);
  }

  /** Without Done an event is delivered at most once: once delivered it is in
      processing for ever, and adding it again never queues it. */
  lemma {:induction false} DeliveredOnce(controllerPort: int, path: seq<State>, i: nat, n: nat, e: Event)
    requires IsPath(controllerPort, path) && i <= n < |path| && path[0].queue.Valid() && e in path[i].queue.processing
    ensures path[n].queue.Valid() && e in path[n].queue.processing && e !in path[n].queue.order
  {
    hide Next;
    if i < n {
      DeliveredOnce(controllerPort, path, i, n - 1, e);
      QueueStep(controllerPort, path[n - 1], path[n]);
    } else {
      ValidUpTo(controllerPort, path, n);
    }
  }

  lemma {:induction false} ValidUpTo(controllerPort: int, path: seq<State>, n: nat)
    requires IsPath(controllerPort, path) && n < |path| && path[0].queue.Valid()
    ensures path[n].queue.Valid()
  {
    hide Next;
    if n > 0 {
      ValidUpTo(controllerPort, path, n - 1);
      QueueStep(controllerPort, path[n - 1], path[n]);
    }
  }

  lemma QueueStep(controllerPort: int, s: State, s': State)
    requires Next(controllerPort, s, s') && s.queue.Valid()
    ensures s'.queue.Valid() && s.queue.processing <= s'.queue.processing
  {
    hide StartStep;
    hide ResetStep;
    hide ReadStep;
    hide ReplaceStep;
    hide AddStep;
    hide Queue.Valid;
    var step :| NextStep(controllerPort, s, s', step);
    match step
    case Pop => ProcessingKept(s.queue, s.queue.order[0], 0);
    case Fire(e) => ProcessingKept(s.queue, e, 0);
    case Return(id) =>
      var job := s.calls[id].job;
      if job.Mapping? { ProcessingKept(s.queue, job.event, job.delay); }
    case _ => QueueUnchanged(controllerPort, s, s', step);
  }

  lemma QueueUnchanged(controllerPort: int, s: State, s': State, step: Step)
    requires NextStep(controllerPort, s, s', step) && !step.Pop? && !step.Fire? && !step.Return?
    ensures s'.queue == s.queue
  {
    hide PodServer;
    hide DefaultServer;
    hide Accurate;
    hide CanReplace;
    hide Replaced;
  }
}
