/** Draining the queue: what the worker does when nothing is added behind it. */
module Drain {
  import opened Names
  import opened HaproxyStore
  import opened ServiceSync
  import opened ServiceRuns
  import opened BatchInvariant
  import opened CoreInvariant

  /** A step of the worker whose transactions can be opened. */
  ghost predicate QuietStep(c: Settings, s: State, s': State, step: Step) {
    NextStep(c, s, s', step) && !step.Change? && !step.Notify? && !step.Fire? && step != Open(false)
  }

  ghost predicate Quiet(c: Settings, s: State, s': State) {
    exists step :: QuietStep(c, s, s', step)
  }

  /** No key was added while it was being processed. */
  ghost predicate NoReadds(s: State) { s.queue.dirty !! s.queue.processing }

  function CeilDiv(n: nat, m: nat): nat
    requires m > 0
  {
    (n + m - 1) / m
  }

  function Min(a: nat, b: nat): nat { if a < b then a else b }

  /** How many keys of the queue the batch being collected will still take. */
  function Room(c: Settings, s: State): nat {
    if s.worker.Busy? && |s.worker.batch.keys| <= Limit(c) then Limit(c) - |s.worker.batch.keys| else 0
  }

  /** How many transactions are still to be opened until the queue is empty. */
  function Waves(c: Settings, s: State): nat {
    if s.worker.Idle? then CeilDiv(|s.queue.order|, Limit(c))
    else match s.worker.pc
      case Collecting => 1 + CeilDiv(|s.queue.order| - Min(|s.queue.order|, Room(c, s)), Limit(c))
      case Taking => 1 + CeilDiv(|s.queue.order| - Min(|s.queue.order|, Room(c, s)), Limit(c))
      case Starting => 1 + CeilDiv(|s.queue.order|, Limit(c))
      case _ => CeilDiv(|s.queue.order|, Limit(c))
  }

  lemma CeilDivMeans(n: nat, m: nat)
    requires m > 0
    ensures var q: int := CeilDiv(n, m); m * (q - 1) < n <= m * q || (n == 0 && q == 0)
  {
    var q: int := CeilDiv(n, m);
    assert n + m - 1 == m * q + (n + m - 1) % m;
    assert m * (q - 1) == m * q - m;
    if n == 0 { DivUnique(m - 1, m, 0, m - 1); }
  }

  lemma CeilStep(n: nat, m: nat)
    requires n > 0 && m > 0
    ensures CeilDiv(n, m) == 1 + CeilDiv((n - 1) - Min(n - 1, m - 1), m)
  {
    if n <= m {
      assert (n + m - 1) / m == 1 by {
        assert n + m - 1 == m * 1 + (n - 1);
        DivUnique(n + m - 1, m, 1, n - 1);
      }
      DivUnique(m - 1, m, 0, m - 1);
    } else {
      var q, r := (n - 1) / m, (n - 1) % m;
      DivUnique(n + m - 1, m, q + 1, r);
      assert (n - 1) - (m - 1) + m - 1 == n - 1;
    }
  }

  lemma {:induction false} MulAtLeast(m: int, d: int)
    requires m > 0 && d >= 1
    ensures m * d >= m
  {
    if d > 1 {
      MulAtLeast(m, d - 1);
      assert m * d == m * (d - 1) + m;
    }
  }

  lemma DivUnique(a: int, m: int, q: int, r: int)
    requires m > 0 && 0 <= r < m && a == m * q + r
    ensures a / m == q
  {
    var q', r' := a / m, a % m;
    var d := q - q';
    assert m * d == r' - r by {
      assert a == m * q' + r';
      assert m * d == m * q - m * q';
    }
    assert m * (-d) == -(m * d);
    if d >= 1 {
      MulAtLeast(m, d);
    } else if d <= -1 {
      MulAtLeast(m, -d);
    }
  }

  /** Every quiet step opens one of the transactions that were still to be opened, or
      leaves their number alone. */
  lemma WavesConserved(c: Settings, s: State, s': State, step: Step)
    requires Books(c, s) && NoReadds(s) && QuietStep(c, s, s', step)
    ensures NoReadds(s') && s'.starts + Waves(c, s') == s.starts + Waves(c, s)
  {
    hide CeilDiv;
    hide Accounts;
    hide LogOk;
    hide Distinct;
    hide SyncKey;
    hide SplitMetaKey;
    match step
    case Get =>
      CeilStep(|s.queue.order|, Limit(c));
    case Look =>
    case Take =>
    case Open(_) =>
    case Requeue =>
    case Read(_) =>
    case Apply(_) =>
    case Mark =>
    case Finish =>
      ReleaseReaddsNothing(c, s, s', step);
    case Close(_) =>
    case Leave =>
      ReleaseReaddsNothing(c, s, s', step);
  }

  lemma ReleaseReaddsNothing(c: Settings, s: State, s': State, step: Step)
    requires Books(c, s) && NoReadds(s) && QuietStep(c, s, s', step) && (step.Finish? || step.Leave?)
    ensures s'.queue.order == s.queue.order && s'.queue.dirty == s.queue.dirty && NoReadds(s')
  {
    hide LogOk;
    hide Delivered;
    var b := s.worker.batch;
    var i := if step.Finish? then |b.released| + 1 else 0;
    if i < |b.keys| {
      assert b.keys[i] in b.keys && b.keys[i] !in b.released;
      assert b.keys[i] in s.queue.processing;
    }
  }

  /** An upper bound on the worker's remaining steps. */
  function Work(s: State): int {
    9 * |s.queue.order| +
    if s.worker.Idle? then 0
    else
      var b := s.worker.batch;
      var n, i := |b.keys|, |b.marks|;
      match s.worker.pc
      case Collecting => 4 * n + 4
      case Taking => 4 * n + 3
      case Starting => 4 * n + 3
      case Requeueing => n - i + 2
      case Reading => 3 * (n - i) + n + 2
      case Applying(_) => 3 * (n - i) + n + 1
      case Marking(_) => 3 * (n - i) + n
      case Finishing => n - |b.released| + 2
      case Closing => 2
      case Leaving => 1
  }

  lemma WorkDecreases(c: Settings, s: State, s': State, step: Step)
    requires Books(c, s) && NoReadds(s) && QuietStep(c, s, s', step)
    ensures 0 <= Work(s') < Work(s)
  {
    hide Accounts;
    hide LogOk;
    hide Distinct;
    hide SyncKey;
    hide SplitMetaKey;
    match step
    case Get =>
    case Look =>
    case Take =>
    case Open(_) =>
    case Requeue =>
    case Read(_) =>
    case Apply(_) =>
    case Mark =>
    case Finish =>
      ReleaseReaddsNothing(c, s, s', step);
    case Close(_) =>
    case Leave =>
      ReleaseReaddsNothing(c, s, s', step);
  }

  ghost predicate QuietPath(c: Settings, path: seq<State>) {
    |path| > 0 && forall i :: 0 <= i < |path| - 1 ==> Quiet(c, path[i], path[i + 1])
  }

  lemma {:induction false} QuietRun(c: Settings, path: seq<State>, n: nat)
    requires QuietPath(c, path) && n < |path| && Books(c, path[0]) && NoReadds(path[0])
    ensures Books(c, path[n]) && NoReadds(path[n])
    ensures path[n].starts + Waves(c, path[n]) == path[0].starts + Waves(c, path[0])
    ensures 0 <= Work(path[n]) <= Work(path[0]) - n || n == 0
  {
    hide Books;
    hide NoReadds;
    hide NextStep;
    hide Waves;
    hide Work;
    if n > 0 {
      QuietRun(c, path, n - 1);
      var step :| QuietStep(c, path[n - 1], path[n], step);
      assert Next(c, path[n - 1], path[n]);
      NextKeepsBooks(c, path[n - 1], path[n]);
      WavesConserved(c, path[n - 1], path[n], step);
      WorkDecreases(c, path[n - 1], path[n], step);
    }
  }

  /** Drain bound: draining a queue of n keys, without failures to open and without
      keys added behind the worker, opens exactly ceil(n / max(1, maxBatchSize))
      transactions and takes a bounded number of steps. */
  lemma DrainBound(c: Settings, path: seq<State>)
    requires QuietPath(c, path) && Books(c, path[0]) && NoReadds(path[0]) && path[0].worker.Idle?
    ensures |path| - 1 <= 9 * |path[0].queue.order|
    ensures var last := path[|path| - 1];
            last.worker.Idle? && last.queue.order == [] ==>
              last.starts - path[0].starts == CeilDiv(|path[0].queue.order|, Limit(c))
    ensures var last := path[|path| - 1];
            var n, size, opened_ := |path[0].queue.order|, if c.maxBatch > 1 then c.maxBatch else 1, last.starts - path[0].starts;
            last.worker.Idle? && last.queue.order == [] ==> size * (opened_ - 1) < n <= size * opened_ || (n == 0 && opened_ == 0)
  {
    hide Books;
    hide NoReadds;
    hide Quiet;
    var last := path[|path| - 1];
    QuietRun(c, path, |path| - 1);
    if last.queue.order == [] {
      DivUnique(Limit(c) - 1, Limit(c), 0, Limit(c) - 1);
      CeilDivMeans(|path[0].queue.order|, Limit(c));
    }
  }

  // ---- the worker is never stuck ----

  ghost function Picked(table: map<string, Mapping>, prefix: string, rest: set<string>): (keys: seq<string>)
    ensures forall i, j :: 0 <= i < j < |keys| ==> keys[i] != keys[j]
    ensures forall k :: k in keys <==> k in rest && k in table && prefix <= k
    decreases rest
  {
    if rest == {} then []
    else
      var k :| k in rest;
      var others := Picked(table, prefix, rest - {k});
      if k in table && prefix <= k then [k] + others else others
  }

  /** A worker that is not idle on an empty queue can always take a quiet step. */
  lemma Progress(c: Settings, s: State) returns (s': State)
    requires Books(c, s) && KeysOk(s) && (s.worker.Busy? || s.queue.order != [])
    ensures Quiet(c, s, s')
  {
    hide Accounts;
    hide LogOk;
    hide Distinct;
    hide Delivered;
    hide Hand;
    hide QueueKeysOk;
    hide ListerOk;
    hide KeyOk;
    hide ServiceOk;
    hide SplitMetaKey;
    hide ServicePrefix;
    hide ProcessService;
    hide RemoveListed;
    if s.worker.Idle? {
      s' := s.(queue := s.queue.Get(), worker := Busy(Batch([s.queue.order[0]], false, [], [], s.core), Collecting));
      assert QuietStep(c, s, s', Get);
    } else {
      s' := BusyProgress(c, s);
    }
  }

  lemma BusyProgress(c: Settings, s: State) returns (s': State)
    requires Books(c, s) && KeysOk(s) && s.worker.Busy?
    ensures Quiet(c, s, s')
  {
    hide Books;
    hide KeysOk;
    hide Quiet;
    if s.worker.pc.Collecting? || s.worker.pc.Taking? || s.worker.pc.Starting? || s.worker.pc.Requeueing? {
      s' := OpeningProgress(c, s);
    } else {
      s' := SyncingProgress(c, s);
    }
  }

  lemma OpeningProgress(c: Settings, s: State) returns (s': State)
    requires Books(c, s) && KeysOk(s) && s.worker.Busy?
    requires s.worker.pc.Collecting? || s.worker.pc.Taking? || s.worker.pc.Starting? || s.worker.pc.Requeueing?
    ensures Quiet(c, s, s')
  {
    hide Accounts;
    hide LogOk;
    hide Distinct;
    hide Delivered;
    hide Hand;
    hide QueueKeysOk;
    hide ListerOk;
    hide KeyOk;
    hide ServiceOk;
    hide SplitMetaKey;
    hide SyncKey;
    var b, pc := s.worker.batch, s.worker.pc;
    match pc
    case Collecting =>
      s' := s.(worker := s.worker.(pc := if |b.keys| < c.maxBatch && |s.queue.order| > 0 then Taking else Starting));
      assert QuietStep(c, s, s', Look);
    case Taking =>
      s' := s.(queue := s.queue.Get(), worker := Busy(b.(keys := b.keys + [s.queue.order[0]]), Collecting));
      assert QuietStep(c, s, s', Take);
    case Starting =>
      var core := s.core.(store := Start(s.core.store));
      s' := s.(core := core, worker := Busy(b.(started := true, base := core), Reading), starts := s.starts + 1);
      assert QuietStep(c, s, s', Open(true));
    case Requeueing =>
      s' := s.(queue := s.queue.AddRateLimited(b.keys[|b.marks|]),
               worker := Busy(b.(marks := b.marks + [false]), if |b.marks| + 1 == |b.keys| then Leaving else Requeueing));
      assert QuietStep(c, s, s', Requeue);
  }

  lemma SyncingProgress(c: Settings, s: State) returns (s': State)
    requires Books(c, s) && KeysOk(s) && s.worker.Busy?
    requires !(s.worker.pc.Collecting? || s.worker.pc.Taking? || s.worker.pc.Starting? || s.worker.pc.Requeueing?)
    ensures Quiet(c, s, s')
  {
    hide Accounts;
    hide LogOk;
    hide Distinct;
    hide Delivered;
    hide Hand;
    hide QueueKeysOk;
    hide ListerOk;
    hide KeyOk;
    hide ServiceOk;
    hide SplitMetaKey;
    hide SyncKey;
    var b, pc := s.worker.batch, s.worker.pc;
    match pc
    case Reading =>
      s' := s.(worker := Busy(b, Marking(false)));
      assert QuietStep(c, s, s', Read(true));
    case Applying(_) =>
      s' := ApplyProgress(c, s);
    case Marking(ok) =>
      s' := s.(queue := if ok then s.queue else s.queue.AddRateLimited(b.keys[|b.marks|]),
               worker := Busy(b.(marks := b.marks + [ok]), if |b.marks| + 1 == |b.keys| then Finishing else Reading));
      assert QuietStep(c, s, s', Mark);
    case Finishing =>
      var i := |b.released| + 1;
      if i < |b.keys| {
        s' := s.(queue := s.queue.Done(b.keys[i]), worker := Busy(b.(released := b.released + [b.keys[i]]), Finishing));
      } else {
        s' := s.(worker := Busy(b, Closing));
      }
      assert QuietStep(c, s, s', Finish);
    case Closing =>
      s' := s.(core := s.core.(store := if true in b.marks then Commit(s.core.store, true) else Discard(s.core.store)),
               worker := Busy(b, Leaving));
      assert QuietStep(c, s, s', Close(true));
    case Leaving =>
      s' := s.(queue := s.queue.Done(b.keys[0]), worker := Idle,
               log := s.log + [b.(released := b.released + [b.keys[0]])],
               stuck := if b.started then s.stuck else s.stuck + Tail(b.keys));
      assert QuietStep(c, s, s', Leave);
  }

  lemma ApplyProgress(c: Settings, s: State) returns (s': State)
    requires Books(c, s) && KeysOk(s) && s.worker.Busy? && s.worker.pc.Applying?
    ensures Quiet(c, s, s')
  {
    hide Accounts;
    hide LogOk;
    hide Distinct;
    hide Delivered;
    hide Hand;
    hide QueueKeysOk;
    hide ListerOk;
    hide ServiceOk;
    hide MetaKey;
    hide IsLabel;
    hide SplitMetaKey;
    hide ServicePrefix;
    hide ProcessService;
    hide RemoveListed;
    var b := s.worker.batch;
    var key := b.keys[|b.marks|];
    var ns, name := KeyParts(key);
    var keys := Picked(s.core.table, ServicePrefix(ns, name), s.core.table.Keys);
    var core' := match s.worker.pc.seen
      case None => RemoveListed(c, s.core, keys, |keys|)
      case Some(svc) => if svc.ns in c.namespaces then ProcessService(c, s.core, svc) else s.core;
    s' := s.(core := core', worker := Busy(b, Marking(true)));
    assert SyncKey(c, s.core, key, s.worker.pc.seen, keys, core');
    assert QuietStep(c, s, s', Apply(keys));
  }
}
