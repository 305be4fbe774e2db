/** Runs of the service controller: one informer goroutine, one worker goroutine
    and the queue's timers, interleaved at every point where one can see what
    another did. */
module ServiceRuns {
  import opened Names
  import opened HaproxyStore
  import opened ServiceSync
  import opened WorkQueue

  /** An event handler's call that the informer is about to make. */
  datatype Notice = Added(svc: Service) | Updated(old_: Service, svc: Service) | Deleted(svc: Service)
  {
    function Key(): string { MetaKey(svc.ns, svc.name) }

    /** handleServiceUpdate returns early when the resource version is the same. */
    predicate Skip() { Updated? && old_.version == svc.version }
  }

  /** The keys of one batch; `marks` says for each key handled so far whether it was
      forgotten (true) or requeued (false); `released` lists the calls of Done;
      `base` is the state in which the transaction was opened. */
  datatype Batch = Batch(keys: seq<string>, started: bool, marks: seq<bool>, released: seq<string>, base: Core)

  /** Where the worker stands in processNextWorkItem. */
  datatype Pc =
    | Collecting                        // at the loop that gathers keys
    | Taking                            // the queue was seen non-empty, about to Get
    | Starting                          // about to open the transaction
    | Requeueing                        // no transaction: requeueing every key
    | Reading                           // about to look up the next key
    | Applying(seen: Option<Service>)   // the lister has answered
    | Marking(ok: bool)                 // syncService has returned
    | Finishing                         // calling Done for all keys but the first
    | Closing                           // about to commit or discard
    | Leaving                           // the deferred Done of the first key

  datatype Worker = Idle | Busy(batch: Batch, pc: Pc)

  /** `log` holds the finished batches, `stuck` the keys that were never released,
      `starts` counts transactions. */
  datatype State = State(
    lister: map<string, Service>, notice: Option<Notice>, queue: Queue<string>, worker: Worker, core: Core,
    log: seq<Batch>, stuck: set<string>, starts: nat)

  function Lookup(lister: map<string, Service>, key: string): Option<Service> {
    if key in lister then Some(lister[key]) else None
  }

  function Limit(c: Settings): nat { if c.maxBatch > 1 then c.maxBatch else 1 }

  predicate ServiceOk(key: string, svc: Service) {
    IsLabel(svc.ns) && IsLabel(svc.name) && key == MetaKey(svc.ns, svc.name)
  }

  // ---- the environment's steps ----

  function NoticeOf(lister: map<string, Service>, key: string, svc: Option<Service>): Notice
    requires svc == None ==> key in lister
  {
    match svc
    case None => Deleted(lister[key])
    case Some(new_) => if key in lister then Updated(lister[key], new_) else Added(new_)
  }

  function Changed(lister: map<string, Service>, key: string, svc: Option<Service>): map<string, Service> {
    if svc.Some? then lister[key := svc.value] else lister - {key}
  }

  function Notified(q: Queue<string>, n: Notice): Queue<string> { if n.Skip() then q else q.Add(n.Key()) }

  /** The informer's cache changes; equal resource versions mean equal objects. */
  predicate ChangeStep(s: State, s': State, key: string, svc: Option<Service>) {
    && s.notice == None
    && (match svc
        case None => key in s.lister
        case Some(new_) => ServiceOk(key, new_)
                           && (key in s.lister && s.lister[key].version == new_.version ==> new_ == s.lister[key]))
    && s' == s.(lister := Changed(s.lister, key, svc), notice := Some(NoticeOf(s.lister, key, svc)))
  }

  /** The handler runs. */
  predicate NotifyStep(s: State, s': State) {
    && s.notice.Some?
    && s' == s.(notice := None, queue := Notified(s.queue, s.notice.value))
  }

  predicate FireStep(s: State, s': State, key: string) {
    key in s.queue.waiting && s' == s.(queue := s.queue.Fire(key))
  }

  // ---- the worker's steps ----

  predicate GetStep(s: State, s': State) {
    && s.worker.Idle? && |s.queue.order| > 0
    && s' == s.(queue := s.queue.Get(), worker := Busy(Batch([s.queue.order[0]], false, [], [], s.core), Collecting))
  }

  predicate LookStep(c: Settings, s: State, s': State) {
    && s.worker.Busy? && s.worker.pc == Collecting
    && s' == s.(worker := s.worker.(pc :=
        if |s.worker.batch.keys| < c.maxBatch && |s.queue.order| > 0 then Taking else Starting))
  }

  predicate TakeStep(s: State, s': State) {
    && s.worker.Busy? && s.worker.pc == Taking && |s.queue.order| > 0
    && var b := s.worker.batch;
       s' == s.(queue := s.queue.Get(), worker := Busy(b.(keys := b.keys + [s.queue.order[0]]), Collecting))
  }

  predicate OpenStep(s: State, s': State, ok: bool) {
    && s.worker.Busy? && s.worker.pc == Starting
    && var b := s.worker.batch;
       if ok then
         var core := s.core.(store := Start(s.core.store));
         s' == s.(core := core, worker := Busy(b.(started := true, base := core), Reading), starts := s.starts + 1)
       else s' == s.(worker := Busy(b, Requeueing))
  }

  predicate RequeueStep(s: State, s': State) {
    && s.worker.Busy? && s.worker.pc == Requeueing
    && var b := s.worker.batch;
       && |b.marks| < |b.keys|
       && s' == s.(queue := s.queue.AddRateLimited(b.keys[|b.marks|]),
                   worker := Busy(b.(marks := b.marks + [false]), if |b.marks| + 1 == |b.keys| then Leaving else Requeueing))
  }

  /** The lookup: the key may not parse, and the lister may return an error. */
  predicate ReadStep(s: State, s': State, fails: bool) {
    && s.worker.Busy? && s.worker.pc == Reading
    && var b := s.worker.batch;
       && |b.marks| < |b.keys|
       && var key := b.keys[|b.marks|];
          s' == s.(worker := Busy(b,
            if fails || SplitMetaKey(key) == None then Marking(false) else Applying(Lookup(s.lister, key))))
  }

  ghost predicate ApplyStep(c: Settings, s: State, s': State, keys: seq<string>) {
    && s.worker.Busy? && s.worker.pc.Applying?
    && var b := s.worker.batch;
       && |b.marks| < |b.keys| && s.core.store.staged.Some? && SplitMetaKey(b.keys[|b.marks|]).Some?
       && SyncKey(c, s.core, b.keys[|b.marks|], s.worker.pc.seen, keys, s'.core)
       && s' == s.(core := s'.core, worker := Busy(b, Marking(true)))
  }

  /** Forget only resets the rate limiter. */
  predicate MarkStep(s: State, s': State) {
    && s.worker.Busy? && s.worker.pc.Marking?
    && var b, ok := s.worker.batch, s.worker.pc.ok;
       && |b.marks| < |b.keys|
       && s' == s.(queue := if ok then s.queue else s.queue.AddRateLimited(b.keys[|b.marks|]),
                   worker := Busy(b.(marks := b.marks + [ok]), if |b.marks| + 1 == |b.keys| then Finishing else Reading))
  }

  predicate FinishStep(s: State, s': State) {
    && s.worker.Busy? && s.worker.pc == Finishing
    && var b := s.worker.batch;
       var i := |b.released| + 1;
       if i < |b.keys| then
         s' == s.(queue := s.queue.Done(b.keys[i]), worker := Busy(b.(released := b.released + [b.keys[i]]), Finishing))
       else s' == s.(worker := Busy(b, Closing))
  }

  /** Commit when some key succeeded, otherwise discard. */
  predicate CloseStep(s: State, s': State, ok: bool) {
    && s.worker.Busy? && s.worker.pc == Closing && s.core.store.staged.Some?
    && var b := s.worker.batch;
       s' == s.(core := s.core.(store := if true in b.marks then Commit(s.core.store, ok) else Discard(s.core.store)),
                worker := Busy(b, Leaving))
  }

  function Tail(keys: seq<string>): set<string> { set i | 1 <= i < |keys| :: keys[i] }

  predicate LeaveStep(s: State, s': State) {
    && s.worker.Busy? && s.worker.pc == Leaving && |s.worker.batch.keys| > 0
    && var b := s.worker.batch;
       s' == s.(queue := s.queue.Done(b.keys[0]), worker := Idle,
                log := s.log + [b.(released := b.released + [b.keys[0]])],
                stuck := if b.started then s.stuck else s.stuck + Tail(b.keys))
  }

  // ---- runs ----

  datatype Step =
    | Change(key: string, svc: Option<Service>) | Notify | Fire(key: string)
    | Get | Look | Take | Open(ok: bool) | Requeue | Read(fails: bool) | Apply(keys: seq<string>)
    | Mark | Finish | Close(ok: bool) | Leave

  ghost predicate NextStep(c: Settings, s: State, s': State, step: Step) {
    match step
    case Change(key, svc) => ChangeStep(s, s', key, svc)
    case Notify => NotifyStep(s, s')
    case Fire(key) => FireStep(s, s', key)
    case Get => GetStep(s, s')
    case Look => LookStep(c, s, s')
    case Take => TakeStep(s, s')
    case Open(ok) => OpenStep(s, s', ok)
    case Requeue => RequeueStep(s, s')
    case Read(fails) => ReadStep(s, s', fails)
    case Apply(keys) => ApplyStep(c, s, s', keys)
    case Mark => MarkStep(s, s')
    case Finish => FinishStep(s, s')
    case Close(ok) => CloseStep(s, s', ok)
    case Leave => LeaveStep(s, s')
  }

  ghost predicate Next(c: Settings, s: State, s': State) {
    exists step :: NextStep(c, s, s', step)
  }

  /** Nothing known, nothing mapped, and no service frontend in HAProxy; other
      objects may be there. */
  ghost predicate Initial(s: State) {
    && s.lister == map[] && s.notice == None && s.queue == Empty() && s.worker == Idle
    && s.core.table == map[] && s.core.ledger == map[] && s.core.peak == 0
    && s.core.failed == {} && !s.core.shared
    && (forall f :: f in s.core.store.committed.frontends ==> !IsSvcFrontend(f))
    && s.core.store.staged == None && s.core.store.trail == [] && s.core.store.clean
    && s.log == [] && s.stuck == {} && s.starts == 0
  }

  ghost predicate IsPath(c: Settings, path: seq<State>) {
    |path| > 0 && forall i :: 0 <= i < |path| - 1 ==> Next(c, path[i], path[i + 1])
  }

  ghost predicate IsRun(c: Settings, path: seq<State>) {
    IsPath(c, path) && Initial(path[0])
  }

  ghost predicate Reachable(c: Settings, s: State) {
    exists path :: IsRun(c, path) && path[|path| - 1] == s
  }

  /** Some sequence of steps leads from s to t. */
  ghost predicate Leads(c: Settings, s: State, t: State) {
    exists path :: IsPath(c, path) && path[0] == s && path[|path| - 1] == t
  }

  // ---- joining steps ----

  lemma LeadsSelf(c: Settings, s: State)
    ensures Leads(c, s, s)
  {
    hide Next;
    var path := [s];
    assert IsPath(c, path) && path[0] == s && path[|path| - 1] == s;
  }

  lemma LeadsStep(c: Settings, origin: State, s: State, s': State, step: Step)
    requires Leads(c, origin, s) && NextStep(c, s, s', step)
    ensures Leads(c, origin, s')
  {
    assert Next(c, s, s');
    hide Next;
    hide NextStep;
    var path :| IsPath(c, path) && path[0] == origin && path[|path| - 1] == s;
    var path' := path + [s'];
    forall i | 0 <= i < |path'| - 1 ensures Next(c, path'[i], path'[i + 1]) {
      if i < |path| - 1 { assert path'[i] == path[i] && path'[i + 1] == path[i + 1]; }
    }
    assert IsPath(c, path') && path'[0] == origin && path'[|path'| - 1] == s';
  }

  lemma LeadsOn(c: Settings, r: State, s: State, t: State)
    requires Leads(c, r, s) && Leads(c, s, t)
    ensures Leads(c, r, t)
  {
    hide Next;
    var p :| IsPath(c, p) && p[0] == r && p[|p| - 1] == s;
    var q :| IsPath(c, q) && q[0] == s && q[|q| - 1] == t;
    var path := p + q[1..];
    forall i | 0 <= i < |path| - 1 ensures Next(c, path[i], path[i + 1]) {
      if i < |p| - 1 {
        assert path[i] == p[i] && path[i + 1] == p[i + 1];
      } else {
        assert path[i] == q[i - (|p| - 1)] && path[i + 1] == q[i + 1 - (|p| - 1)];
      }
    }
    assert IsPath(c, path) && path[0] == r && path[|path| - 1] == t;
  }

  /** Whatever a method of the class leads to from a reachable state is reachable, so
      every theorem about reachable states holds of the object. */
  lemma LeadsReachable(c: Settings, s: State, t: State)
    requires Reachable(c, s) && Leads(c, s, t)
    ensures Reachable(c, t)
  {
    hide Next;
    var p :| IsRun(c, p) && p[|p| - 1] == s;
    assert Leads(c, p[0], s);
    LeadsOn(c, p[0], s, t);
    var q :| IsPath(c, q) && q[0] == p[0] && q[|q| - 1] == t;
    assert IsRun(c, q);
  }
}
