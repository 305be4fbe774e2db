/** Which expiry events are handed out, and how often. */
module PodDelivery {
  import opened WorkQueue
  import opened PodRuns

  // ---- events that are all different ----

  ghost predicate DistinctEvents(requested: seq<Request>) {
    forall i, j :: 0 <= i < j < |requested| ==> requested[i].event != requested[j].event
  }

  predicate Queued(q: Queue<Event>, e: Event) { e in q.waiting || e in q.dirty || e in q.processing }

  ghost predicate Asked(requested: seq<Request>, e: Event) {
    exists i :: 0 <= i < |requested| && requested[i].event == e
  }

  predicate Brings(call: Call, e: Event) { call.job.Mapping? && call.job.event == e }

  /** Every event is either with the one call that will add it or with the queue. */
  ghost predicate Apart(s: State) {
    && s.once
    && (forall e :: Queued(s.queue, e) ==> Asked(s.requested, e))
    && (forall id, e :: id in s.calls && Brings(s.calls[id], e) ==> Asked(s.requested, e) && !Queued(s.queue, e))
    && (forall id, id', e :: id in s.calls && id' in s.calls && Brings(s.calls[id], e) && Brings(s.calls[id'], e) ==> id == id')
  }

  lemma AskedMore(requested: seq<Request>, r: Request)
    ensures forall e :: Asked(requested, e) ==> Asked(requested + [r], e)
    ensures Asked(requested + [r], r.event)
    ensures DistinctEvents(requested + [r]) ==> !Asked(requested, r.event)
  {
    var more := requested + [r];
    assert more[|requested|] == r;
    forall e | Asked(requested, e) ensures Asked(more, e) {
      var i :| 0 <= i < |requested| && requested[i].event == e;
      assert more[i] == requested[i];
    }
    forall i | 0 <= i < |requested| && DistinctEvents(more) ensures requested[i].event != r.event {
      assert more[i] == requested[i];
    }
  }

  lemma StartApart(controllerPort: int, s: State, s': State, id: int, pod: Pod, port: int, key: string, delay: int)
    requires Apart(s) && StartStep(s, s', id, pod, port, key, delay) && DistinctEvents(s'.requested)
    ensures Apart(s')
  {
    hide PodServer;
    hide Asked;
    hide DistinctEvents;
    hide Queued;
    AskedMore(s.requested, Request(PodServer(pod, port), Event(key, port)));
  }

  lemma CallApart(controllerPort: int, s: State, s': State, step: Step)
    requires Apart(s) && NextStep(controllerPort, s, s', step)
    requires step.StartReset? || step.Read? || step.Replace? || step.Add?
    ensures Apart(s')
  {
    hide Asked;
    hide Queued;
    hide Accurate;
    hide CanReplace;
    hide Replaced;
    hide TargetOf;
    hide OwnerOf;
    var id := step.id;
    assert forall e :: Brings(s'.calls[id], e) ==> id in s.calls && Brings(s.calls[id], e);
  }

  lemma QueueApart(controllerPort: int, s: State, s': State, step: Step)
    requires Apart(s) && s.queue.Valid() && NextStep(controllerPort, s, s', step) && (step.Pop? || step.Fire?)
    ensures Apart(s')
  {
    hide Asked;
    if step.Pop? { assert s.queue.order[0] in s.queue.order; }
    assert forall e :: Queued(s'.queue, e) <==> Queued(s.queue, e);
    hide Queued;
  }

  lemma ReturnApart(s: State, s': State, id: int)
    requires Apart(s) && ReturnStep(s, s', id)
    ensures Apart(s')
  {
    hide Asked;
    var job := s.calls[id].job;
    if job.Mapping? {
      assert Brings(s.calls[id], job.event);
      assert !Queued(s.queue, job.event) && job.event !in s.queue.processing;
      assert forall e :: Queued(s'.queue, e) ==> Queued(s.queue, e) || e == job.event;
    }
    hide Queued;
  }

  lemma NextApart(controllerPort: int, s: State, s': State)
    requires Apart(s) && s.queue.Valid() && Next(controllerPort, s, s') && DistinctEvents(s'.requested)
    ensures Apart(s')
  {
    hide Apart;
    hide Queue.Valid;
    hide StartStep;
    hide ResetStep;
    hide PopStep;
    hide FireStep;
    hide ReadStep;
    hide ReplaceStep;
    hide AddStep;
    hide ReturnStep;
    var step :| NextStep(controllerPort, s, s', step);
    match step
    case Start(id, pod, port, key, delay) => StartApart(controllerPort, s, s', id, pod, port, key, delay);
    case Pop => QueueApart(controllerPort, s, s', step);
    case Fire(_) => QueueApart(controllerPort, s, s', step);
    case Return(id) => ReturnApart(s, s', id);
    case _ => CallApart(controllerPort, s, s', step);
  }

  lemma RequestedGrows(controllerPort: int, s: State, s': State)
    requires Next(controllerPort, s, s')
    ensures s.requested <= s'.requested
  {
    hide PodServer;
    hide DefaultServer;
    hide Accurate;
    hide CanReplace;
    hide Replaced;
    var step :| NextStep(controllerPort, s, s', step);
  }

  lemma {:induction false} RunApart(controllerPort: int, path: seq<State>, n: nat)
    requires IsPath(controllerPort, path) && AtRest(controllerPort, path[0]) && n < |path|
    requires DistinctEvents(path[n].requested)
    ensures Apart(path[n])
  {
    hide Next;
    if n > 0 {
      RequestedGrows(controllerPort, path[n - 1], path[n]);
      RunApart(controllerPort, path, n - 1);
      ValidUpTo(controllerPort, path, n - 1);
      NextApart(controllerPort, path[n - 1], path[n]);
    }
  }

  /** Reversion, for callers that never ask for the same event twice: as long as reads
      are accurate and default mappings fail only when the server to replace is gone,
      every live pod's expiry is on its way. */
  lemma DistinctEventsRevert(controllerPort: int, path: seq<State>, n: nat)
    requires IsPath(controllerPort, path) && AtRest(controllerPort, path[0]) && n < |path|
    requires path[n].accurate && path[n].reliable && DistinctEvents(path[n].requested)
    ensures |path[n].servers| == 1
    ensures DefaultName() !in path[n].servers ==> WillRevert(path[n])
    ensures path[n].queue.waiting == {} && path[n].queue.order == [] && path[n].calls == map[] ==>
              path[n].servers == map[DefaultName() := DefaultServer(controllerPort).address]
  {
    hide Next;
    hide AtRest;
    hide DefaultName;
    hide DefaultServer;
    hide WillRevert;
    RunApart(controllerPort, path, n);
    Reversion(controllerPort, path, n);
  }

  // ---- handing out ----

  /** Between s and t the event was handed out. */
  ghost predicate Delivers(s: State, t: State, e: Event) {
    exists k :: |s.queue.delivered| <= k < |t.queue.delivered| && t.queue.delivered[k] == e
  }

  ghost predicate CanBeHandedOut(controllerPort: int, s: State, e: Event) {
    exists t :: Leads(controllerPort, s, t) && Delivers(s, t, e)
  }

  lemma DeliveredStep(controllerPort: int, s: State, s': State)
    requires Next(controllerPort, s, s')
    ensures s'.queue.delivered == s.queue.delivered
            || (|s.queue.order| > 0 && s'.queue.delivered == s.queue.delivered + [s.queue.order[0]])
  {
    hide PodServer;
    hide DefaultServer;
    hide Accurate;
    hide CanReplace;
    hide Replaced;
    var step :| NextStep(controllerPort, s, s', step);
  }

  lemma {:induction false} NeverAgain(controllerPort: int, path: seq<State>, n: nat, e: Event)
    requires IsPath(controllerPort, path) && n < |path| && path[0].queue.Valid() && e in path[0].queue.processing
    ensures !Delivers(path[0], path[n], e) && |path[0].queue.delivered| <= |path[n].queue.delivered|
  {
    hide Next;
    hide Queue.Valid;
    if n > 0 {
      NeverAgain(controllerPort, path, n - 1, e);
      DeliveredOnce(controllerPort, path, 0, n - 1, e);
      DeliveredStep(controllerPort, path[n - 1], path[n]);
    }
  }

  /** A call that is replacing has a server left to replace, and the expiry goroutine
      creates no mapping. */
  ghost predicate CallStaged(id: int, call: Call) {
    && (call.stage.Replacing? ==> call.stage.next < |call.stage.names|)
    && (call.job.Mapping? ==> id != POPPER)
  }

  ghost predicate Staged(s: State) {
    forall id :: id in s.calls ==> CallStaged(id, s.calls[id])
  }

  lemma StagedWith(s: State, s': State, id: int, call: Call)
    requires Staged(s) && CallStaged(id, call) && (s'.calls == s.calls[id := call] || s'.calls == s.calls - {id} || s'.calls == s.calls)
    ensures Staged(s')
  {
    hide CallStaged;
  }

  lemma NextStaged(controllerPort: int, s: State, s': State)
    requires Staged(s) && Next(controllerPort, s, s')
    ensures Staged(s')
  {
    hide PodServer;
    hide DefaultServer;
    hide Accurate;
    hide CanReplace;
    hide Replaced;
    hide TargetOf;
    hide OwnerOf;
    hide Queue.Fire;
    hide Queue.AddAfter;
    var step :| NextStep(controllerPort, s, s', step);
    var id := if step.Pop? || step.Fire? then POPPER else step.id;
    if id in s.calls { assert CallStaged(id, s.calls[id]); }
    if id in s'.calls { assert step.Fire? || CallStaged(id, s'.calls[id]); }
    hide Staged;
    hide CallStaged;
    if step.Fire? {
      SameCallsStaged(s, s');
    } else {
      StagedWith(s, s', id, if id in s'.calls then s'.calls[id] else s.calls[id]);
    }
  }

  lemma SameCallsStaged(s: State, s': State)
    requires Staged(s) && s'.calls == s.calls
    ensures Staged(s')
  {
  }

  lemma {:induction false} RunStaged(controllerPort: int, path: seq<State>, n: nat)
    requires IsPath(controllerPort, path) && path[0].calls == map[] && n < |path|
    ensures Staged(path[n])
  {
    hide Next;
    if n > 0 {
      RunStaged(controllerPort, path, n - 1);
      NextStaged(controllerPort, path[n - 1], path[n]);
    }
  }

  function StepsLeft(stage: Stage): nat {
    match stage
    case Reading => 3
    case Adding => 2
    case Replacing(names, next) => if next < |names| then |names| - next + 1 else 0
    case Returned(_) => 1
  }

  /** The expiry goroutine's call can always go on without touching the queue: the
      answers it gets may be empty or negative. */
  lemma PopperGoesOn(controllerPort: int, origin: State, s: State) returns (t: State)
    requires Leads(controllerPort, origin, s) && POPPER in s.calls && Staged(s) && !s.calls[POPPER].stage.Returned?
    ensures Leads(controllerPort, origin, t) && t.queue == s.queue && Staged(t)
    ensures POPPER in t.calls && StepsLeft(t.calls[POPPER].stage) < StepsLeft(s.calls[POPPER].stage)
  {
    hide Leads;
    hide Accurate;
    hide CanReplace;
    hide Replaced;
    hide TargetOf;
    hide OwnerOf;
    var call := s.calls[POPPER];
    assert CallStaged(POPPER, call);
    match call.stage
    case Reading =>
      t := s.(calls := s.calls[POPPER := call.(stage := Adding)], accurate := s.accurate && Accurate([], s.servers));
      LeadsStep(controllerPort, origin, s, t, Read(POPPER, []));
    case Adding =>
      t := s.(calls := s.calls[POPPER := call.(stage := Returned(false))]);
      LeadsStep(controllerPort, origin, s, t, Add(POPPER, false));
    case Replacing(names, next) =>
      var after := if next + 1 == |names| then Returned(false) else Replacing(names, next + 1);
      t := s.(calls := s.calls[POPPER := call.(stage := after)],
              reliable := s.reliable && !CanReplace(s.servers, names[next], TargetOf(controllerPort, call.job)));
      LeadsStep(controllerPort, origin, s, t, Replace(POPPER, false));
  }

  lemma {:induction false} PopperEnds(controllerPort: int, origin: State, s: State) returns (t: State)
    requires Leads(controllerPort, origin, s) && POPPER in s.calls && Staged(s)
    ensures Leads(controllerPort, origin, t) && POPPER !in t.calls && t.queue == s.queue && Staged(t)
    decreases StepsLeft(s.calls[POPPER].stage)
  {
    hide Leads;
    if s.calls[POPPER].stage.Returned? {
      assert CallStaged(POPPER, s.calls[POPPER]);
      t := s.(calls := s.calls - {POPPER});
      LeadsStep(controllerPort, origin, s, t, Return(POPPER));
    } else {
      t := PopperGoesOn(controllerPort, origin, s);
      t := PopperEnds(controllerPort, origin, t);
    }
  }

  /** An event in line can be handed out. */
  lemma {:induction false} PopUntil(controllerPort: int, origin: State, s: State, i: nat) returns (t: State)
    requires Leads(controllerPort, origin, s) && POPPER !in s.calls && Staged(s) && i < |s.queue.order|
    ensures Leads(controllerPort, origin, t) && Delivers(s, t, s.queue.order[i])
    ensures |t.queue.delivered| >= |s.queue.delivered|
    decreases i
  {
    hide Leads;
    var q := s.queue;
    t := s.(queue := q.Get(), calls := s.calls[POPPER := Call(Expiry(q.order[0]), Reading)]);
    LeadsStep(controllerPort, origin, s, t, Pop);
    if i == 0 {
      assert t.queue.delivered[|q.delivered|] == q.order[0];
    } else {
      var u := PopperEnds(controllerPort, origin, t);
      t := PopUntil(controllerPort, origin, u, i - 1);
      var k :| |u.queue.delivered| <= k < |t.queue.delivered| && t.queue.delivered[k] == u.queue.order[i - 1];
      assert u.queue.order[i - 1] == q.order[i];
    }
  }

  /** An event that waits or is in line can be handed out. */
  lemma Pending(controllerPort: int, s: State, e: Event)
    requires s.queue.Valid() && Staged(s)
    requires e !in s.queue.processing && (e in s.queue.waiting || e in s.queue.dirty)
    ensures CanBeHandedOut(controllerPort, s, e)
  {
    hide Staged;
    LeadsSelf(controllerPort, s);
    hide Leads;
    var u := s;
    if POPPER in s.calls { u := PopperEnds(controllerPort, s, s); }
    var v := u;
    if e !in u.queue.order {
      v := u.(queue := u.queue.Fire(e));
      LeadsStep(controllerPort, s, u, v, Fire(e));
      FireStaged(u, e);
    }
    assert e in v.queue.order;
    var i :| 0 <= i < |v.queue.order| && v.queue.order[i] == e;
    var t := PopUntil(controllerPort, s, v, i);
    assert Delivers(s, t, e);
  }

  lemma FireStaged(s: State, e: Event)
    requires Staged(s)
    ensures Staged(s.(queue := s.queue.Fire(e)))
  {
  }

  /** A mapping's expiry counts once. In every interleaving, whatever else is going on,
      the event of a mapping that has just returned successfully can still be handed out
      if and only if it has not been handed out before. */
  lemma HandedOutIff(controllerPort: int, path: seq<State>, n: nat, id: int)
    requires IsPath(controllerPort, path) && AtRest(controllerPort, path[0]) && n + 1 < |path|
    requires ReturnStep(path[n], path[n + 1], id)
    requires path[n].calls[id].job.Mapping? && path[n].calls[id].stage == Returned(true)
    ensures var e := path[n].calls[id].job.event;
            CanBeHandedOut(controllerPort, path[n + 1], e) <==> e !in path[n].queue.processing
  {
    hide Next;
    hide DefaultName;
    hide DefaultServer;
    hide Staged;
    var s, s', e := path[n], path[n + 1], path[n].calls[id].job.event;
    ValidUpTo(controllerPort, path, n);
    ValidUpTo(controllerPort, path, n + 1);
    RunStaged(controllerPort, path, n + 1);
    ReturnedEvent(s, s', id);
    hide Queue.Valid;
    if e !in s.queue.processing {
      Pending(controllerPort, s', e);
    } else if t :| Leads(controllerPort, s', t) && Delivers(s', t, e) {
      var q :| IsPath(controllerPort, q) && q[0] == s' && q[|q| - 1] == t;
      NeverAgain(controllerPort, q, |q| - 1, e);
      assert false;
    }
  }

  lemma ReturnedEvent(s: State, s': State, id: int)
    requires s.queue.Valid() && ReturnStep(s, s', id)
    requires s.calls[id].job.Mapping? && s.calls[id].stage == Returned(true)
    ensures var e := s.calls[id].job.event;
            && (e in s'.queue.waiting || e in s'.queue.dirty)
            && s'.queue.processing == s.queue.processing
  {
  }
}
