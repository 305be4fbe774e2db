/** Which servers the pod proxy puts into the backend: names and addresses. */
module PodServers {
  import opened Names
  import opened PodRuns

  /** The proxy's own listener. */
  predicate IsDefault(server: Server, controllerPort: int) {
    server.name == "DEFAULT_APP.pod-proxier" && IsAddress(server.address, "127.0.0.1", controllerPort)
  }

  /** A pod of this name and address, at this port. */
  predicate IsPodServer(server: Server, name: string, ip: string, port: int) {
    && server.name == "POD." + (name + ("." + ip))
    && IsAddress(server.address, ip, port)
  }

  lemma DefaultServerReads(controllerPort: int)
    ensures IsDefault(DefaultServer(controllerPort), controllerPort)
  {
    AddressReads("127.0.0.1", controllerPort);
    hide IsAddress;
  }

  lemma PodServerReads(pod: Pod, port: int)
    ensures IsPodServer(PodServer(pod, port), pod.name, pod.ip, port)
  {
    AddressReads(pod.ip, port);
  }

  lemma DefaultNameReads(controllerPort: int)
    ensures DefaultServer(controllerPort).name == "DEFAULT_APP.pod-proxier"
  {
  }

  // ---- runs ----

  ghost predicate IsPodRequest(r: Request) {
    exists name, ip :: IsPodServer(r.server, name, ip, r.event.port)
  }

  ghost predicate PodRequests(requested: seq<Request>) {
    forall i :: 0 <= i < |requested| ==> IsPodRequest(requested[i])
  }

  lemma NextRequests(controllerPort: int, s: State, s': State)
    requires PodRequests(s.requested) && Next(controllerPort, s, s')
    ensures PodRequests(s'.requested)
  {
    hide PodServer;
    hide DefaultServer;
    hide Accurate;
    hide CanReplace;
    hide Replaced;
    hide IsPodServer;
    var step :| NextStep(controllerPort, s, s', step);
    if step.Start? {
      PodServerReads(step.pod, step.port);
      assert IsPodRequest(Request(PodServer(step.pod, step.port), Event(step.key, step.port)));
    }
  }

  lemma {:induction false} RunRequests(controllerPort: int, path: seq<State>, n: nat)
    requires IsPath(controllerPort, path) && path[0].requested == [] && n < |path|
    ensures PodRequests(path[n].requested)
  {
    hide Next;
    hide IsPodRequest;
    if n > 0 {
      RunRequests(controllerPort, path, n - 1);
      NextRequests(controllerPort, path[n - 1], path[n]);
    }
  }

  /** Every live server is the proxy's own listener, or a pod under its own name, IP and
      the port of the request for it. */
  lemma LiveServers(controllerPort: int, path: seq<State>, n: nat, name: string)
    requires IsPath(controllerPort, path) && AtRest(controllerPort, path[0]) && n < |path| && name in path[n].servers
    ensures var live := Server(name, path[n].servers[name]);
            || IsDefault(live, controllerPort)
            || (exists i, pod, ip :: 0 <= i < |path[n].requested| && path[n].requested[i].server == live
                  && IsPodServer(live, pod, ip, path[n].requested[i].event.port))
  {
    hide Next;
    hide DefaultServer;
    hide IsPodServer;
    hide IsDefault;
    hide KnownCalls;
    hide KnownOwner;
    RunKnown(controllerPort, path, n);
    RunRequests(controllerPort, path, n);
    DefaultServerReads(controllerPort);
    var s, live := path[n], Server(name, path[n].servers[name]);
    if live != DefaultServer(controllerPort) {
      assert WasRequested(live, s.requested);
      var i :| 0 <= i < |s.requested| && s.requested[i].server == live;
      assert IsPodRequest(s.requested[i]);
    }
  }

  /** A successful replacement by a mapping makes the pod it was requested for live, one by
      a default mapping the proxy's own listener. */
  lemma AfterReplacement(controllerPort: int, path: seq<State>, n: nat, id: int)
    requires IsPath(controllerPort, path) && AtRest(controllerPort, path[0]) && n + 1 < |path|
    requires ReplaceStep(controllerPort, path[n], path[n + 1], id, true)
    ensures var job, servers := path[n].calls[id].job, path[n + 1].servers;
            if job.Mapping? then
              && job.server.name in servers && servers[job.server.name] == job.server.address
              && exists pod, ip :: IsPodServer(job.server, pod, ip, job.event.port)
            else
              && "DEFAULT_APP.pod-proxier" in servers
              && IsDefault(Server("DEFAULT_APP.pod-proxier", servers["DEFAULT_APP.pod-proxier"]), controllerPort)
  {
    hide Next;
    hide DefaultServer;
    hide IsPodServer;
    hide IsDefault;
    hide KnownServers;
    hide KnownOwner;
    hide CanReplace;
    RunKnown(controllerPort, path, n);
    RunRequests(controllerPort, path, n);
    DefaultServerReads(controllerPort);
    var s, s', job := path[n], path[n + 1], path[n].calls[id].job;
    var server := TargetOf(controllerPort, job);
    assert server.name in s'.servers && Server(server.name, s'.servers[server.name]) == server;
    if !job.Mapping? {
      DefaultNameReads(controllerPort);
    } else {
      assert JobKnown(job, s.requested);
      var i :| 0 <= i < |s.requested| && s.requested[i] == Request(job.server, job.event);
      assert IsPodRequest(s.requested[i]);
    }
  }

  /** When nothing is waiting, queued or in flight, the one server is the proxy's own
      listener. */
  lemma QuietServer(controllerPort: int, path: seq<State>, n: nat)
    requires IsPath(controllerPort, path) && AtRest(controllerPort, path[0]) && n < |path|
    requires path[n].accurate && path[n].reliable && path[n].once
    requires path[n].queue.waiting == {} && path[n].queue.order == [] && path[n].calls == map[]
    ensures |path[n].servers| == 1
    ensures forall name :: name in path[n].servers ==> IsDefault(Server(name, path[n].servers[name]), controllerPort)
  {
    hide Next;
    hide AtRest;
    hide DefaultName;
    Reversion(controllerPort, path, n);
    DefaultServerReads(controllerPort);
    DefaultNameIs(controllerPort);
    hide DefaultServer;
    hide IsDefault;
  }

  lemma DefaultNameIs(controllerPort: int)
    ensures DefaultServer(controllerPort).name == DefaultName()
  {
  }
}
