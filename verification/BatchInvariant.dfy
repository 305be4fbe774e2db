/** Bookkeeping of the work queue and the batches, in every state of every run. */
module BatchInvariant {
  import Names
  import opened ServiceSync
  import opened WorkQueue
  import opened ServiceRuns

  predicate InTransaction(pc: Pc) {
    pc.Reading? || pc.Applying? || pc.Marking? || pc.Finishing? || pc.Closing?
  }

  ghost predicate Distinct(keys: seq<string>) {
    forall i, j :: 0 <= i < j < |keys| ==> keys[i] != keys[j]
  }

  ghost predicate NoneMarked(marks: seq<bool>) { true !in marks }

  ghost predicate BatchOk(c: Settings, b: Batch, pc: Pc) {
    && 0 < |b.keys| <= Limit(c) && Distinct(b.keys)
    && (InTransaction(pc) ==> b.started)
    && (pc.Collecting? || pc.Taking? || pc.Starting? ==> b.marks == [] && !b.started)
    && (pc.Taking? ==> |b.keys| < c.maxBatch)
    && (pc.Requeueing? ==> !b.started)
    && (pc.Requeueing? || pc.Reading? || pc.Applying? || pc.Marking? ==> |b.marks| < |b.keys|)
    && (pc.Finishing? || pc.Closing? || pc.Leaving? ==> |b.marks| == |b.keys|)
    && (!b.started ==> NoneMarked(b.marks))
    && (pc.Finishing? ==> |b.released| < |b.keys| && b.released == b.keys[1..1 + |b.released|])
    && ((pc.Closing? || pc.Leaving?) && b.started ==> b.released == b.keys[1..])
    && (!(pc.Finishing? || pc.Closing? || (pc.Leaving? && b.started)) ==> b.released == [])
  }

  /** The keys of the batch that still await Done. */
  function Hand(keys: seq<string>, released: seq<string>): set<string> {
    set k | k in keys && k !in released
  }

  function InHand(w: Worker): set<string> {
    if w.Idle? then {} else Hand(w.batch.keys, w.batch.released)
  }

  function Current(w: Worker): seq<string> { if w.Idle? then [] else w.batch.keys }

  function Delivered(log: seq<Batch>): seq<string> {
    if log == [] then [] else Delivered(log[..|log| - 1]) + log[|log| - 1].keys
  }

  /** How many keys the finished batches failed to release. */
  function Unreleased(log: seq<Batch>): nat {
    if log == [] then 0
    else
      var b := log[|log| - 1];
      Unreleased(log[..|log| - 1]) + (if b.started || b.keys == [] then 0 else |b.keys| - 1)
  }

  ghost predicate Finished(c: Settings, b: Batch) {
    && 0 < |b.keys| <= Limit(c) && Distinct(b.keys) && |b.marks| == |b.keys|
    && (b.started ==> b.released == b.keys[1..] + [b.keys[0]])
    && (!b.started ==> b.released == [b.keys[0]] && NoneMarked(b.marks))
  }

  /** Queue and worker agree on what has been handed out and not released. */
  ghost predicate Accounts(q: Queue<string>, hand: set<string>, delivered: seq<string>, stuck: set<string>) {
    && q.Valid() && q.processing == stuck + hand && stuck !! hand && q.delivered == delivered
  }

  ghost predicate LogOk(c: Settings, log: seq<Batch>, stuck: set<string>) {
    && (forall i :: 0 <= i < |log| ==> Finished(c, log[i]))
    && |stuck| == Unreleased(log)
  }

  ghost predicate Books(c: Settings, s: State) {
    && (s.worker.Busy? ==> BatchOk(c, s.worker.batch, s.worker.pc))
    && (s.core.store.staged.Some? <==> s.worker.Busy? && InTransaction(s.worker.pc))
    && (s.worker.Busy? && s.worker.pc == Taking ==> |s.queue.order| > 0)
    && Accounts(s.queue, InHand(s.worker), Delivered(s.log) + Current(s.worker), s.stuck)
    && LogOk(c, s.log, s.stuck)
  }

  // ---- accounts ----

  lemma AddAccounts(q: Queue<string>, k: string, hand: set<string>, delivered: seq<string>, stuck: set<string>)
    requires Accounts(q, hand, delivered, stuck)
    ensures Accounts(q.Add(k), hand, delivered, stuck) && Accounts(q.Fire(k), hand, delivered, stuck)
    ensures Accounts(q.AddRateLimited(k), hand, delivered, stuck)
    ensures |q.order| <= |q.Add(k).order| && |q.order| <= |q.Fire(k).order|
  {
    AddKeeps(q, k);
    AddKeeps(q.(waiting := q.waiting - {k}), k);
  }

  lemma GetAccounts(q: Queue<string>, keys: seq<string>, before: seq<string>, stuck: set<string>)
    requires Accounts(q, Hand(keys, []), before + keys, stuck) && |q.order| > 0
    ensures Accounts(q.Get(), Hand(keys + [q.order[0]], []), before + (keys + [q.order[0]]), stuck)
    ensures q.order[0] !in keys
  {
    var k := q.order[0];
    GetKeeps(q);
    assert k in q.order;
    assert Hand(keys + [k], []) == Hand(keys, []) + {k};
    assert before + (keys + [k]) == before + keys + [k];
    assert k in keys ==> k in Hand(keys, []);
  }

  lemma DoneAccounts(q: Queue<string>, k: string, keys: seq<string>, released: seq<string>, delivered: seq<string>, stuck: set<string>)
    requires Accounts(q, Hand(keys, released), delivered, stuck) && k in keys && k !in released
    ensures Accounts(q.Done(k), Hand(keys, released + [k]), delivered, stuck)
  {
    assert k in Hand(keys, released);
    DoneKeeps(q, k);
    assert Hand(keys, released + [k]) == Hand(keys, released) - {k};
  }

  // ---- every step keeps the books ----

  lemma EnvironmentKeepsBooks(c: Settings, s: State, s': State, step: Step)
    requires Books(c, s) && NextStep(c, s, s', step) && (step.Change? || step.Notify? || step.Fire?)
    ensures Books(c, s')
  {
    hide LogOk;
    hide Delivered;
    hide BatchOk;
    hide Accounts;
    match step
    case Change(_, _) =>
    case Notify =>
      AddAccounts(s.queue, s.notice.value.Key(), InHand(s.worker), Delivered(s.log) + Current(s.worker), s.stuck);
    case Fire(key) =>
      AddAccounts(s.queue, key, InHand(s.worker), Delivered(s.log) + Current(s.worker), s.stuck);
  }

  lemma GetKeepsBooks(c: Settings, s: State, s': State)
    requires Books(c, s) && GetStep(s, s')
    ensures Books(c, s')
  {
    hide LogOk;
    hide Delivered;
    hide Accounts;
    assert Hand([], []) == {};
    assert [] + [s.queue.order[0]] == [s.queue.order[0]];
    GetAccounts(s.queue, [], Delivered(s.log), s.stuck);
  }

  lemma TakeKeepsBooks(c: Settings, s: State, s': State)
    requires Books(c, s) && TakeStep(s, s')
    ensures Books(c, s')
  {
    hide LogOk;
    hide Delivered;
    hide Accounts;
    GetAccounts(s.queue, s.worker.batch.keys, Delivered(s.log), s.stuck);
  }

  lemma RequeueKeepsBooks(c: Settings, s: State, s': State)
    requires Books(c, s) && RequeueStep(s, s')
    ensures Books(c, s')
  {
    hide LogOk;
    hide Delivered;
    hide Accounts;
    hide Hand;
    var b := s.worker.batch;
    AddAccounts(s.queue, b.keys[|b.marks|], InHand(s.worker), Delivered(s.log) + Current(s.worker), s.stuck);
  }

  lemma MarkKeepsBooks(c: Settings, s: State, s': State)
    requires Books(c, s) && MarkStep(s, s')
    ensures Books(c, s')
  {
    hide LogOk;
    hide Delivered;
    hide Accounts;
    hide Hand;
    var b := s.worker.batch;
    AddAccounts(s.queue, b.keys[|b.marks|], InHand(s.worker), Delivered(s.log) + Current(s.worker), s.stuck);
  }

  lemma LookOrReadKeepsBooks(c: Settings, s: State, s': State, fails: bool)
    requires Books(c, s) && (LookStep(c, s, s') || ReadStep(s, s', fails))
    ensures Books(c, s')
  {
    hide LogOk;
    hide Delivered;
    hide Accounts;
    hide Hand;
    hide Names.SplitMetaKey;
  }

  lemma OpenOrCloseKeepsBooks(c: Settings, s: State, s': State, ok: bool)
    requires Books(c, s) && (OpenStep(s, s', ok) || CloseStep(s, s', ok))
    ensures Books(c, s')
  {
    hide LogOk;
    hide Delivered;
    hide Accounts;
    hide Hand;
  }

  lemma ApplyKeepsBooks(c: Settings, s: State, s': State, keys: seq<string>)
    requires Books(c, s) && ApplyStep(c, s, s', keys)
    ensures Books(c, s')
  {
    hide LogOk;
    hide Delivered;
    hide Accounts;
    hide Hand;
    hide ProcessService;
    hide RemoveListed;
    hide Lists;
    hide Names.SplitMetaKey;
  }

  lemma FinishKeepsBooks(c: Settings, s: State, s': State)
    requires Books(c, s) && FinishStep(s, s')
    ensures Books(c, s')
  {
    hide LogOk;
    hide Delivered;
    hide Accounts;
    hide Hand;
    var b := s.worker.batch;
    var i := |b.released| + 1;
    if i < |b.keys| {
      assert b.keys[i] !in b.keys[1..i];
      DoneAccounts(s.queue, b.keys[i], b.keys, b.released, Delivered(s.log) + b.keys, s.stuck);
      assert b.released + [b.keys[i]] == b.keys[1..1 + i];
    } else {
      assert b.keys[1..1 + |b.released|] == b.keys[1..];
    }
  }

  lemma TailSize(keys: seq<string>)
    requires Distinct(keys) && |keys| > 0
    ensures |Tail(keys)| == |keys| - 1
  {
    if |keys| == 1 {
      assert Tail(keys) == {};
    } else {
      var shorter := keys[..|keys| - 1];
      TailSize(shorter);
      assert Tail(keys) == Tail(shorter) + {keys[|keys| - 1]};
    }
  }

  lemma LogGrows(log: seq<Batch>, b: Batch)
    ensures Delivered(log + [b]) == Delivered(log) + b.keys
    ensures Unreleased(log + [b]) == Unreleased(log) + (if b.started || b.keys == [] then 0 else |b.keys| - 1)
  {
    assert (log + [b])[..|log|] == log;
  }

  lemma LeaveAccounts(q: Queue<string>, keys: seq<string>, released: seq<string>, delivered: seq<string>, stuck: set<string>)
    requires Accounts(q, Hand(keys, released), delivered, stuck) && |keys| > 0 && Distinct(keys)
    requires released == [] || released == keys[1..]
    ensures Accounts(q.Done(keys[0]), {}, delivered, stuck + (if released == keys[1..] then {} else Tail(keys)))
    ensures stuck !! Tail(keys) || released == keys[1..]
  {
    assert keys[0] !in keys[1..];
    DoneAccounts(q, keys[0], keys, released, delivered, stuck);
    assert Hand(keys, released + [keys[0]]) == if released == keys[1..] then {} else Tail(keys);
  }

  lemma LogGrowsOk(c: Settings, log: seq<Batch>, b: Batch, stuck: set<string>, stuck': set<string>)
    requires LogOk(c, log, stuck) && Finished(c, b)
    requires stuck' == if b.started then stuck else stuck + Tail(b.keys)
    requires b.started || stuck !! Tail(b.keys)
    ensures LogOk(c, log + [b], stuck')
  {
    hide Finished;
    LogGrows(log, b);
    if !b.started {
      FinishedKeys(c, b);
      TailSize(b.keys);
    }
  }

  lemma FinishedKeys(c: Settings, b: Batch)
    requires Finished(c, b)
    ensures Distinct(b.keys) && |b.keys| > 0
  {
  }

  lemma LeaveKeepsBooks(c: Settings, s: State, s': State)
    requires Books(c, s) && LeaveStep(s, s')
    ensures Books(c, s')
  {
    hide Delivered;
    hide Accounts;
    hide LogOk;
    hide Hand;
    var b := s.worker.batch;
    var done := b.(released := b.released + [b.keys[0]]);
    LogGrows(s.log, done);
    LeaveAccounts(s.queue, b.keys, b.released, Delivered(s.log) + b.keys, s.stuck);
    assert Finished(c, done);
    if !b.started && |b.keys| == 1 { assert Tail(b.keys) == {}; }
    assert s'.stuck == if b.started then s.stuck else s.stuck + Tail(b.keys);
    LogGrowsOk(c, s.log, done, s.stuck, s'.stuck);
    assert Delivered(s'.log) + [] == Delivered(s.log) + b.keys;
  }

  lemma NextKeepsBooks(c: Settings, s: State, s': State)
    requires Books(c, s) && Next(c, s, s')
    ensures Books(c, s')
  {
    hide Books;
    hide ChangeStep;
    hide NotifyStep;
    hide FireStep;
    hide GetStep;
    hide LookStep;
    hide TakeStep;
    hide OpenStep;
    hide RequeueStep;
    hide ReadStep;
    hide ApplyStep;
    hide MarkStep;
    hide FinishStep;
    hide CloseStep;
    hide LeaveStep;
    var step :| NextStep(c, s, s', step);
    match step
    case Change(_, _) => EnvironmentKeepsBooks(c, s, s', step);
    case Notify => EnvironmentKeepsBooks(c, s, s', step);
    case Fire(_) => EnvironmentKeepsBooks(c, s, s', step);
    case Get => GetKeepsBooks(c, s, s');
    case Take => TakeKeepsBooks(c, s, s');
    case Look => LookOrReadKeepsBooks(c, s, s', true);
    case Requeue => RequeueKeepsBooks(c, s, s');
    case Read(fails) => LookOrReadKeepsBooks(c, s, s', fails);
    case Mark => MarkKeepsBooks(c, s, s');
    case Open(ok) => OpenOrCloseKeepsBooks(c, s, s', ok);
    case Apply(keys) => ApplyKeepsBooks(c, s, s', keys);
    case Close(ok) => OpenOrCloseKeepsBooks(c, s, s', ok);
    case Finish => FinishKeepsBooks(c, s, s');
    case Leave => LeaveKeepsBooks(c, s, s');
  }
}
