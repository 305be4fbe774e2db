/** The contract of client-go's rate limiting work queue: an ordered queue, a
    dirty set, a processing set, and the keys waiting for a delay to pass.
    `entered` and `delivered` record every key ever appended and ever handed out. */
module WorkQueue {

  datatype Queue<T(!new,==)> = Queue(
    order: seq<T>, dirty: set<T>, processing: set<T>, waiting: set<T>,
    entered: seq<T>, delivered: seq<T>)
  {
    /** No duplicates, first in first out, and the order holds exactly the dirty
        keys that nobody is processing. */
    ghost predicate Valid() {
      && (forall i, j :: 0 <= i < j < |order| ==> order[i] != order[j])
      && (forall k :: k in order <==> k in dirty && k !in processing)
      && entered == delivered + order
    }

    function Add(k: T): Queue<T> {
      if k in dirty then this
      else if k in processing then this.(dirty := dirty + {k})
      else this.(dirty := dirty + {k}, order := order + [k], entered := entered + [k])
    }

    /** AddAfter: a delay that is not positive adds at once. */
    function AddAfter(k: T, delay: int): Queue<T> {
      if delay <= 0 then Add(k) else this.(waiting := waiting + {k})
    }

    /** The rate limiters' delays are positive. */
    function AddRateLimited(k: T): Queue<T> { AddAfter(k, 1) }

    /** The delay of a waiting key has passed. */
    function Fire(k: T): Queue<T> { this.(waiting := waiting - {k}).Add(k) }

    function Get(): Queue<T>
      requires |order| > 0
    {
      this.(order := order[1..], dirty := dirty - {order[0]}, processing := processing + {order[0]},
            delivered := delivered + [order[0]])
    }

    function Done(k: T): Queue<T> {
      var q := this.(processing := processing - {k});
      if k in dirty then q.(order := order + [k], entered := entered + [k]) else q
    }
  }

  function Empty<T(!new,==)>(): Queue<T> { Queue([], {}, {}, {}, [], []) }

  lemma AddKeeps<T(!new)>(q: Queue<T>, k: T)
    requires q.Valid()
    ensures q.Add(k).Valid()
    ensures k in q.Add(k).dirty
    ensures k in q.processing ==> q.Add(k).order == q.order
  {
  }

  lemma GetKeeps<T(!new)>(q: Queue<T>)
    requires q.Valid() && |q.order| > 0
    ensures q.Get().Valid()
    ensures q.order[0] !in q.processing
  {
  }

  lemma DoneKeeps<T(!new)>(q: Queue<T>, k: T)
    requires q.Valid() && k in q.processing
    ensures q.Done(k).Valid()
  {
  }

  /** Whatever is done to the queue, a key that is being processed is not in line,
      so it is not handed out again; only Done takes a key out of processing. */
  lemma ProcessingKept<T(!new)>(q: Queue<T>, k: T, delay: int)
    requires q.Valid()
    ensures q.AddAfter(k, delay).Valid() && q.AddAfter(k, delay).processing == q.processing
    ensures q.Fire(k).Valid() && q.Fire(k).processing == q.processing
    ensures |q.order| > 0 ==> q.Get().Valid() && q.processing < q.Get().processing
  {
    AddKeeps(q, k);
    AddKeeps(q.(waiting := q.waiting - {k}), k);
    if |q.order| > 0 {
      GetKeeps(q);
      assert q.order[0] in q.Get().processing;
    }
  }
}
