/** A mapping that is repeated after its expiry is not reverted. */
module PodRepeats {
  import opened Names
  import opened WorkQueue
  import opened PodRuns

  /** The backend after one complete re-pointing to `server`. */
  function Pointed(s: State, server: Server, owner: Option<Event>): State {
    s.(servers := map[server.name := server.address], owner := owner)
  }

  lemma OneName(name: string, servers: map<string, string>)
    requires |servers| == 1 && name in servers
    ensures Accurate([name], servers)
  {
    var names := [name];
    var one := set i | 0 <= i < |names| :: names[i];
    assert names[0] in one;
    assert one == {name};
    assert servers.Keys - {name} == {} by { assert |servers.Keys - {name}| == 0; }
  }

  lemma DefaultServerName(controllerPort: int)
    ensures DefaultServer(controllerPort).name == DefaultName()
  {
  }

  /** A changeProxy call that nothing interrupts and nothing fails. */
  lemma PointAlone(controllerPort: int, origin: State, s: State, id: int, job: Job, live: Server) returns (t: State)
    requires Leads(controllerPort, origin, s) && s.calls == map[id := Call(job, Reading)] && s.accurate
    requires s.servers == map[live.name := live.address] && live.name != TargetOf(controllerPort, job).name
    ensures Leads(controllerPort, origin, t)
    ensures t == Pointed(s, TargetOf(controllerPort, job), OwnerOf(job)).(calls := map[id := Call(job, Returned(true))])
  {
    hide Leads;
    hide TargetOf;
    hide OwnerOf;
    var names := [live.name];
    OneName(live.name, s.servers);
    var s1 := s.(calls := map[id := Call(job, Replacing(names, 0))]);
    assert s.calls[id := Call(job, Replacing(names, 0))] == s1.calls;
    LeadsStep(controllerPort, origin, s, s1, Read(id, names));
    var server := TargetOf(controllerPort, job);
    t := Pointed(s, server, OwnerOf(job)).(calls := map[id := Call(job, Returned(true))]);
    assert Replaced(s.servers, live.name, server) == t.servers;
    assert s1.calls[id := Call(job, Returned(true))] == t.calls;
    LeadsStep(controllerPort, origin, s1, t, Replace(id, true));
  }

  /** A CreateMapping call that nothing interrupts. */
  lemma MapAlone(controllerPort: int, origin: State, s: State, id: int, pod: Pod, port: int, key: string) returns (t: State)
    requires Leads(controllerPort, origin, s) && s.calls == map[] && id >= 0
    requires s.servers == map[DefaultName() := DefaultServer(controllerPort).address] && s.accurate
    ensures Leads(controllerPort, origin, t)
    ensures var server, e := PodServer(pod, port), Event(key, port);
            t == Pointed(s, server, Some(e)).(queue := s.queue.AddAfter(e, 1), requested := s.requested + [Request(server, e)],
                                              once := s.once && e !in s.queue.processing)
  {
    PodIsNotDefault(pod, port);
    DefaultServerName(controllerPort);
    hide Leads;
    hide PodServer;
    hide DefaultName;
    hide DefaultServer;
    hide Queue.AddAfter;
    var server, e := PodServer(pod, port), Event(key, port);
    var job := Mapping(server, e, 1);
    var s1 := s.(calls := map[id := Call(job, Reading)], requested := s.requested + [Request(server, e)]);
    assert s.calls[id := Call(job, Reading)] == s1.calls;
    LeadsStep(controllerPort, origin, s, s1, Start(id, pod, port, key, 1));
    var s2 := PointAlone(controllerPort, origin, s1, id, job, DefaultServer(controllerPort));
    t := s2.(queue := s.queue.AddAfter(e, 1), calls := map[], once := s.once && e !in s.queue.processing);
    assert s2.calls - {id} == map[];
    LeadsStep(controllerPort, origin, s2, t, Return(id));
  }

  /** The expiry of the live server's event, uninterrupted as well. */
  lemma ExpireAlone(controllerPort: int, origin: State, s: State, server: Server, e: Event) returns (t: State)
    requires Leads(controllerPort, origin, s) && s.calls == map[] && s.accurate
    requires s.servers == map[server.name := server.address] && server.name != DefaultName()
    requires s.queue.order == [e]
    ensures Leads(controllerPort, origin, t)
    ensures t == Pointed(s, DefaultServer(controllerPort), None).(queue := s.queue.Get())
  {
    DefaultServerName(controllerPort);
    hide Leads;
    hide DefaultName;
    hide DefaultServer;
    hide Queue.Get;
    var s1 := s.(queue := s.queue.Get(), calls := map[POPPER := Call(Expiry(e), Reading)]);
    assert s.calls[POPPER := Call(Expiry(e), Reading)] == s1.calls;
    LeadsStep(controllerPort, origin, s, s1, Pop);
    var s2 := PointAlone(controllerPort, origin, s1, POPPER, Expiry(e), server);
    t := s2.(calls := map[]);
    assert s2.calls - {POPPER} == map[];
    LeadsStep(controllerPort, origin, s2, t, Return(POPPER));
  }

  /** Expiry does not end every mapping: any pod that is mapped, reverted and mapped
      again keeps the backend until another call takes it. All reads are accurate and
      no request fails, yet the run ends with the pod live, no call in flight, and
      nothing queued or waiting; by DeliveredOnce the pod's event is never handed out
      again. */
  lemma RepeatIsNotReverted(controllerPort: int, s: State, pod: Pod, port: int, key: string) returns (t: State)
    requires AtRest(controllerPort, s)
    ensures Leads(controllerPort, s, t) && t.accurate && t.reliable && !t.once
    ensures var server := PodServer(pod, port); t.servers == map[server.name := server.address]
    ensures t.calls == map[] && t.queue.order == [] && t.queue.waiting == {} && Event(key, port) in t.queue.processing
  {
    var server, e := PodServer(pod, port), Event(key, port);
    PodIsNotDefault(pod, port);
    DefaultServerName(controllerPort);
    hide Leads;
    hide PodServer;
    hide DefaultName;
    hide DefaultServer;
    hide Pointed;
    LeadsSelf(controllerPort, s);
    var once := MapAlone(controllerPort, s, s, 0, pod, port, key);
    var due := Due(controllerPort, s, once, e);
    PointedParts(s, server, Some(e));
    var reverted := ExpireAlone(controllerPort, s, due, server, e);
    PointedParts(due, DefaultServer(controllerPort), None);
    var twice := MapAlone(controllerPort, s, reverted, 0, pod, port, key);
    PointedParts(reverted, server, Some(e));
    t := Due(controllerPort, s, twice, e);
  }

  lemma PointedParts(s: State, server: Server, owner: Option<Event>)
    ensures var t := Pointed(s, server, owner);
            && t.servers == map[server.name := server.address] && t.queue == s.queue && t.calls == s.calls
            && t.accurate == s.accurate && t.reliable == s.reliable && t.once == s.once
  {
  }

  /** The delay passes. */
  lemma Due(controllerPort: int, origin: State, s: State, e: Event) returns (t: State)
    requires Leads(controllerPort, origin, s) && e in s.queue.waiting
    ensures Leads(controllerPort, origin, t) && t == s.(queue := s.queue.Fire(e))
  {
    hide Leads;
    t := s.(queue := s.queue.Fire(e));
    LeadsStep(controllerPort, origin, s, t, Fire(e));
  }

  // ---- several servers ----

  /** Once the backend has a server of the new name, the call cannot replace another one
      by it, and what it returns in the end is a failure. */
  lemma LaterReplaceFails(controllerPort: int, s: State, s': State, id: int, ok: bool)
    requires ReplaceStep(controllerPort, s, s', id, ok)
    requires var st, server := s.calls[id].stage, TargetOf(controllerPort, s.calls[id].job);
             server.name in s.servers && st.names[st.next] != server.name
    ensures !ok && s'.servers == s.servers
    ensures s.calls[id].stage.next + 1 == |s.calls[id].stage.names| ==> s'.calls[id].stage == Returned(false)
  {
    hide TargetOf;
  }

  lemma {:induction false} ReplaceRest(controllerPort: int, origin: State, s: State, id: int, job: Job, names: seq<string>, next: nat)
    returns (t: State)
    requires Leads(controllerPort, origin, s) && next < |names| && s.calls == map[id := Call(job, Replacing(names, next))]
    requires var server := TargetOf(controllerPort, job);
             server.name in s.servers && forall i :: next <= i < |names| ==> names[i] != server.name
    ensures Leads(controllerPort, origin, t) && t.servers == s.servers && t.calls == map[id := Call(job, Returned(false))]
    ensures t.queue == s.queue
    decreases |names| - next
  {
    hide Leads;
    hide TargetOf;
    hide OwnerOf;
    var stage := if next + 1 == |names| then Returned(false) else Replacing(names, next + 1);
    t := s.(calls := map[id := Call(job, stage)]);
    assert s.calls[id := Call(job, stage)] == t.calls;
    LeadsStep(controllerPort, origin, s, t, Replace(id, false));
    if next + 1 < |names| { t := ReplaceRest(controllerPort, origin, t, id, job, names, next + 1); }
  }

  /** With several servers in the backend changeProxy fails although it has worked: it
      replaces the first server it read by the new one, cannot replace the others by it as
      well, and returns the last result. The caller ends without adding an expiry. */
  lemma SeveralServersFail(controllerPort: int, s: State, id: int, job: Job, names: seq<string>) returns (t: State)
    requires s.calls == map[id := Call(job, Reading)] && Accurate(names, s.servers) && |names| >= 2
    requires TargetOf(controllerPort, job).name !in s.servers
    ensures Leads(controllerPort, s, t) && t.calls == map[] && t.queue == s.queue
    ensures t.servers == Replaced(s.servers, names[0], TargetOf(controllerPort, job))
  {
    LeadsSelf(controllerPort, s);
    hide Leads;
    hide TargetOf;
    hide OwnerOf;
    var server := TargetOf(controllerPort, job);
    assert forall i :: 0 <= i < |names| ==> names[i] in s.servers by { ReadNames(names, s.servers); }
    var s1 := s.(calls := map[id := Call(job, Replacing(names, 0))]);
    assert s.calls[id := Call(job, Replacing(names, 0))] == s1.calls;
    LeadsStep(controllerPort, s, s, s1, Read(id, names));
    var s2 := s1.(servers := Replaced(s.servers, names[0], server), owner := OwnerOf(job),
                  calls := map[id := Call(job, Replacing(names, 1))]);
    assert s1.calls[id := Call(job, Replacing(names, 1))] == s2.calls;
    LeadsStep(controllerPort, s, s1, s2, Replace(id, true));
    var s3 := ReplaceRest(controllerPort, s, s2, id, job, names, 1);
    t := s3.(calls := map[]);
    assert s3.calls - {id} == t.calls;
    LeadsStep(controllerPort, s, s3, t, Return(id));
  }

  lemma ReadNames(names: seq<string>, servers: map<string, string>)
    requires Accurate(names, servers)
    ensures forall i :: 0 <= i < |names| ==> names[i] in servers
  {
    forall i | 0 <= i < |names| ensures names[i] in servers {
      assert names[i] in (set j | 0 <= j < |names| :: names[j]);
    }
  }
}
