/** Undisturbed stretches of a run, from which particular runs are put together. */
module Episodes {
  import opened Names
  import opened HaproxyStore
  import opened ServiceSync
  import opened WorkQueue
  import opened ServiceRuns
  import opened CoreInvariant

  /** No key is pending and the worker waits for one. */
  ghost predicate Calm(s: State) {
    && s.notice == None && s.worker == Idle && s.queue.order == [] && s.queue.dirty == {}
    && s.queue.processing == {} && s.queue.waiting == {}
  }

  /** The informer may come to know `svc` under the key, in a new version, or to miss it. */
  ghost predicate CanChange(lister: map<string, Service>, key: string, svc: Option<Service>) {
    match svc
    case None => key in lister && ServiceOk(key, lister[key])
    case Some(new_) => ServiceOk(key, new_) && (key in lister ==> lister[key].version != new_.version)
  }

  function Opened(core: Core): Core { core.(store := Start(core.store)) }

  /** One key has been handed out, and nothing else is in the queue. */
  ghost predicate InHandAlone(q: Queue<string>, key: string) {
    q.order == [] && q.dirty == {} && q.processing == {key} && q.waiting == {}
  }

  ghost predicate About(s: State, key: string, svc: Option<Service>, core: Core) {
    && s.worker == Busy(Batch([key], true, [], [], core), Applying(svc)) && s.core == core
    && s.notice == None && InHandAlone(s.queue, key) && Lookup(s.lister, key) == svc
  }

  lemma Announce(c: Settings, origin: State, s: State, key: string, svc: Option<Service>) returns (t: State)
    requires Leads(c, origin, s) && s.notice == None && CanChange(s.lister, key, svc)
    ensures Leads(c, origin, t)
    ensures t == s.(lister := Changed(s.lister, key, svc), queue := s.queue.Add(key))
  {
    hide Leads;
    hide IsLabel;
    hide MetaKey;
    hide Queue.Add;
    var told := s.(lister := Changed(s.lister, key, svc), notice := Some(NoticeOf(s.lister, key, svc)));
    LeadsStep(c, origin, s, told, Change(key, svc));
    t := told.(notice := None, queue := s.queue.Add(key));
    LeadsStep(c, origin, told, t, Notify);
  }

  /** A change of one service in a calm state, up to the point where its key is about
      to be applied. */
  lemma Deliver(c: Settings, origin: State, s: State, key: string, svc: Option<Service>) returns (t: State)
    requires Leads(c, origin, s) && Calm(s) && CanChange(s.lister, key, svc) && KeyOk(key)
    ensures Leads(c, origin, t) && About(t, key, svc, Opened(s.core))
    ensures t.lister == Changed(s.lister, key, svc)
  {
    hide Leads;
    hide CanChange;
    hide KeyOk;
    var told := Announce(c, origin, s, key, svc);
    var b := Batch([key], false, [], [], s.core);
    var got := told.(queue := told.queue.Get(), worker := Busy(b, Collecting));
    LeadsStep(c, origin, told, got, Get);
    var looked := got.(worker := Busy(b, Starting));
    LeadsStep(c, origin, got, looked, Look);
    t := OpenAndRead(c, origin, looked, key, svc);
  }

  lemma OpenAndRead(c: Settings, origin: State, s: State, key: string, svc: Option<Service>) returns (t: State)
    requires Leads(c, origin, s) && s.worker == Busy(Batch([key], false, [], [], s.core), Starting)
    requires s.notice == None && InHandAlone(s.queue, key) && Lookup(s.lister, key) == svc && KeyOk(key)
    ensures Leads(c, origin, t) && About(t, key, svc, Opened(s.core)) && t.lister == s.lister
  {
    hide Leads;
    hide SplitMetaKey;
    hide Start;
    var core := Opened(s.core);
    var b := Batch([key], true, [], [], core);
    var open := s.(core := core, worker := Busy(b, Reading), starts := s.starts + 1);
    LeadsStep(c, origin, s, open, Open(true));
    var _, _ := KeyParts(key);
    t := open.(worker := Busy(b, Applying(svc)));
    LeadsStep(c, origin, open, t, Read(false));
  }

  /** From there to the end of the batch, whose commit may fail. */
  lemma Conclude(c: Settings, origin: State, s: State, key: string, svc: Option<Service>, keys: seq<string>,
                 core: Core, ok: bool) returns (t: State)
    requires Leads(c, origin, s) && s.core.store.staged.Some? && About(s, key, svc, s.core) && KeyOk(key)
    requires SplitMetaKey(key).Some? && SyncKey(c, s.core, key, svc, keys, core) && core.store.staged.Some?
    ensures Leads(c, origin, t) && Calm(t)
    ensures t.core == core.(store := Commit(core.store, ok)) && t.lister == s.lister
  {
    hide Leads;
    hide SyncKey;
    hide SplitMetaKey;
    hide KeyOk;
    hide Commit;
    var b := s.worker.batch;
    var applied := s.(core := core, worker := Busy(b, Marking(true)));
    LeadsStep(c, origin, s, applied, Apply(keys));
    var b' := b.(marks := [true]);
    var marked := applied.(worker := Busy(b', Finishing));
    assert b.marks + [true] == b'.marks;
    LeadsStep(c, origin, applied, marked, Mark);
    var finished := marked.(worker := Busy(b', Closing));
    LeadsStep(c, origin, marked, finished, Finish);
    t := CloseAndLeave(c, origin, finished, key, ok);
  }

  lemma CloseAndLeave(c: Settings, origin: State, s: State, key: string, ok: bool) returns (t: State)
    requires Leads(c, origin, s) && s.worker.Busy? && s.worker.pc == Closing && s.worker.batch.keys == [key]
    requires s.worker.batch.started && s.worker.batch.marks == [true] && s.core.store.staged.Some?
    requires s.notice == None && InHandAlone(s.queue, key)
    ensures Leads(c, origin, t) && Calm(t)
    ensures t.core == s.core.(store := Commit(s.core.store, ok)) && t.lister == s.lister
  {
    hide Leads;
    hide Commit;
    var b := s.worker.batch;
    assert b.marks[0] in b.marks;
    var closed := s.(core := s.core.(store := Commit(s.core.store, ok)), worker := Busy(b, Leaving));
    LeadsStep(c, origin, s, closed, Close(ok));
    t := closed.(queue := s.queue.Done(key), worker := Idle, log := s.log + [b.(released := b.released + [key])]);
    LeadsStep(c, origin, closed, t, Step.Leave);
  }

  /** A run that starts calm. */
  lemma InitialIsCalm(c: Settings, s: State)
    requires Initial(s)
    ensures Calm(s) && Leads(c, s, s) && Reachable(c, s)
  {
    hide IsSvcFrontend;
    LeadsSelf(c, s);
    hide Next;
    var path := [s];
    assert IsRun(c, path) && path[|path| - 1] == s;
  }

  // ---- a transaction that cannot be opened ----

  /** Keys can get stuck: when two services become known and the transaction of their
      batch cannot be opened, both keys wait for another try, but the second is never
      released. */
  lemma SecondKeySticks(c: Settings, s: State, svc: Service, svc': Service) returns (t: State)
    requires Initial(s) && c.maxBatch >= 2
    requires IsLabel(svc.ns) && IsLabel(svc.name) && IsLabel(svc'.ns) && IsLabel(svc'.name)
    requires (svc.ns, svc.name) != (svc'.ns, svc'.name)
    ensures Reachable(c, t) && t.worker == Idle && t.stuck == {MetaKey(svc'.ns, svc'.name)}
    ensures t.queue.processing == {MetaKey(svc'.ns, svc'.name)}
    ensures t.queue.order == [] && t.queue.waiting == {MetaKey(svc.ns, svc.name), MetaKey(svc'.ns, svc'.name)}
  {
    var key, key' := MetaKey(svc.ns, svc.name), MetaKey(svc'.ns, svc'.name);
    if key == key' { MetaKeyInjective(svc.ns, svc.name, svc'.ns, svc'.name); }
    assert ServiceOk(key, svc) && ServiceOk(key', svc');
    InitialIsCalm(c, s);
    hide Leads;
    hide Reachable;
    hide IsLabel;
    hide MetaKey;
    hide IsSvcFrontend;
    var told := Announce(c, s, s, key, Some(svc));
    var both := Announce(c, s, told, key', Some(svc'));
    assert both.queue.order == [key, key'];
    t := StickSecond(c, s, both, key, key');
    LeadsReachable(c, s, t);
  }

  lemma StickSecond(c: Settings, origin: State, s: State, key: string, key': string) returns (t: State)
    requires Leads(c, origin, s) && c.maxBatch >= 2 && key != key' && s.worker == Idle && s.stuck == {}
    requires s.queue.order == [key, key'] && s.queue.dirty == {key, key'} && s.queue.processing == {} && s.queue.waiting == {}
    ensures Leads(c, origin, t) && t.worker == Idle && t.stuck == {key'} && t.queue.processing == {key'}
    ensures t.queue.order == [] && t.queue.waiting == {key, key'}
  {
    hide Leads;
    var b := Batch([key], false, [], [], s.core);
    var s1 := s.(queue := s.queue.Get(), worker := Busy(b, Collecting));
    LeadsStep(c, origin, s, s1, Get);
    var s2 := s1.(worker := Busy(b, Taking));
    LeadsStep(c, origin, s1, s2, Look);
    var b' := Batch([key, key'], false, [], [], s.core);
    var s3 := s2.(queue := s2.queue.Get(), worker := Busy(b', Collecting));
    assert s2.queue.order[0] == key' && b.keys + [key'] == b'.keys;
    LeadsStep(c, origin, s2, s3, Take);
    var s4 := s3.(worker := Busy(b', Starting));
    LeadsStep(c, origin, s3, s4, Look);
    t := RequeueBoth(c, origin, s4, key, key');
  }

  lemma RequeueBoth(c: Settings, origin: State, s: State, key: string, key': string) returns (t: State)
    requires Leads(c, origin, s) && key != key' && s.worker == Busy(Batch([key, key'], false, [], [], s.core), Starting)
    requires s.queue.order == [] && s.queue.dirty == {} && s.queue.waiting == {} && s.queue.processing == {key, key'} && s.stuck == {}
    ensures Leads(c, origin, t) && t.worker == Idle && t.stuck == {key'} && t.queue.processing == {key'}
    ensures t.queue.order == [] && t.queue.waiting == {key, key'}
  {
    hide Leads;
    hide Queue.Done;
    var b := s.worker.batch;
    var s1 := s.(worker := Busy(b, Requeueing));
    LeadsStep(c, origin, s, s1, Open(false));
    var s2 := s1.(queue := s1.queue.AddRateLimited(key), worker := Busy(b.(marks := [false]), Requeueing));
    assert b.marks + [false] == [false];
    LeadsStep(c, origin, s1, s2, Requeue);
    var b' := b.(marks := [false, false]);
    t := s2.(queue := s2.queue.AddRateLimited(key'), worker := Busy(b', Leaving));
    assert [false] + [false] == b'.marks;
    LeadsStep(c, origin, s2, t, Requeue);
    t := LeaveUnopened(c, origin, t, key, key');
  }

  lemma LeaveUnopened(c: Settings, origin: State, s: State, key: string, key': string) returns (t: State)
    requires Leads(c, origin, s) && key != key' && s.worker.Busy? && s.worker.pc == Leaving
    requires s.worker.batch.keys == [key, key'] && !s.worker.batch.started
    requires s.queue.processing == {key, key'} && s.stuck == {}
    requires s.queue.order == [] && s.queue.dirty == {} && s.queue.waiting == {key, key'}
    ensures Leads(c, origin, t) && t.worker == Idle && t.stuck == {key'} && t.queue.processing == {key'}
    ensures t.queue.order == [] && t.queue.waiting == {key, key'}
  {
    hide Leads;
    var b := s.worker.batch;
    t := s.(queue := s.queue.Done(key), worker := Idle, log := s.log + [b.(released := b.released + [key])],
            stuck := s.stuck + Tail(b.keys));
    assert Tail(b.keys) == {b.keys[1]};
    LeadsStep(c, origin, s, t, Step.Leave);
  }
}
