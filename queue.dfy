/**
 * The FIFO buffer of lib/queue.ts: a record keyed by consecutive integers,
 * written at `tail` and read (and deleted) at `head`.
 */
module Queues {
  import opened Options

  /** What one run of the `foreach` callback does: it returns normally after
      enqueueing `enqueued` into the queue being drained, or it throws `error`. */
  datatype Reaction<T, E> = Continue(enqueued: seq<T>) | Raise(error: E)

  /** The outcome of a `foreach`: the elements handed to the callback, in order,
      what is left in the queue afterwards, and the error that escaped, if any. */
  datatype Drain<T, E> = Drain(visited: seq<T>, rest: seq<T>, raised: Option<E>)

  /** From visit number `horizon` on, the callback enqueues nothing. Without
      such a bound the source's loop, which re-reads `tail`, need not stop. */
  ghost predicate Bounded<T(!new), E>(cb: (T, nat) -> Reaction<T, E>, horizon: nat)
  {
    forall x: T, k: nat :: horizon <= k && cb(x, k).Continue? ==> cb(x, k).enqueued == []
  }

  /** The callback never enqueues anything. */
  ghost predicate NoEnqueue<T(!new), E>(cb: (T, nat) -> Reaction<T, E>)
  {
    forall x: T, k: nat :: cb(x, k).Continue? ==> cb(x, k).enqueued == []
  }

  /** The callback never throws. */
  ghost predicate NoRaise<T(!new), E>(cb: (T, nat) -> Reaction<T, E>)
  {
    forall x: T, k: nat :: cb(x, k).Continue?
  }

  function Prepend<T, E>(vs: seq<T>, d: Drain<T, E>): Drain<T, E>
  {
    Drain(vs + d.visited, d.rest, d.raised)
  }

  /** Reference semantics of `foreach` on a queue holding `pending`, whose next
      callback run gets index `index`: dequeue the front, run the callback on it,
      append what the callback enqueued, go on until the queue is empty or the
      callback throws (the element it threw on is already dequeued). */
  ghost function Drained<T(!new), E>(pending: seq<T>, cb: (T, nat) -> Reaction<T, E>, index: nat, horizon: nat): Drain<T, E>
    requires Bounded(cb, horizon)
    decreases if index < horizon then horizon - index else 0, |pending|
  {
    if pending == [] then Drain([], [], None)
    else
      match cb(pending[0], index)
      case Raise(e) => Drain([pending[0]], pending[1..], Some(e))
      case Continue(more) => Prepend([pending[0]], Drained(pending[1..] + more, cb, index + 1, horizon))
  }

  /** Everything the callback enqueues while visiting `vs`, the first of them with index `index`. */
  ghost function Spawned<T, E>(cb: (T, nat) -> Reaction<T, E>, vs: seq<T>, index: nat): seq<T>
  {
    if vs == [] then []
    else (match cb(vs[0], index) case Continue(more) => more case Raise(_) => [])
         + Spawned(cb, vs[1..], index + 1)
  }

  /** One round of `Drained` on a callback run that returns normally. */
  lemma DrainedUnfold<T(!new), E>(pending: seq<T>, cb: (T, nat) -> Reaction<T, E>, index: nat, horizon: nat)
    requires Bounded(cb, horizon) && pending != [] && cb(pending[0], index).Continue?
    ensures Drained(pending, cb, index, horizon)
         == Prepend([pending[0]], Drained(pending[1..] + cb(pending[0], index).enqueued, cb, index + 1, horizon))
  {
  }

  lemma DrainedContinues<T(!new), E>(pending: seq<T>, cb: (T, nat) -> Reaction<T, E>, index: nat, horizon: nat, visited: seq<T>)
    requires Bounded(cb, horizon) && pending != [] && cb(pending[0], index).Continue?
    ensures Prepend(visited, Drained(pending, cb, index, horizon))
         == Prepend(visited + [pending[0]], Drained(pending[1..] + cb(pending[0], index).enqueued, cb, index + 1, horizon))
  {
    DrainedUnfold(pending, cb, index, horizon);
    var rest := Drained(pending[1..] + cb(pending[0], index).enqueued, cb, index + 1, horizon);
    assert visited + ([pending[0]] + rest.visited) == (visited + [pending[0]]) + rest.visited;
  }

  /** With a callback that neither enqueues nor throws, `foreach` hands every
      element to the callback, front to back, and leaves the queue empty. */
  lemma {:induction false} DrainedVisitsAll<T(!new), E>(pending: seq<T>, cb: (T, nat) -> Reaction<T, E>, index: nat)
    requires NoEnqueue(cb) && NoRaise(cb)
    ensures Bounded(cb, 0) && Drained(pending, cb, index, 0) == Drain(pending, [], None)
    decreases |pending|
  {
    if pending != [] {
      assert pending[1..] + cb(pending[0], index).enqueued == pending[1..];
      DrainedVisitsAll(pending[1..], cb, index + 1);
    }
  }

  /** With a callback that never throws but may enqueue, `foreach` runs until the
      queue is empty, and what it visits is the starting contents followed by
      everything the callback enqueued along the way, in the order enqueued. */
  lemma {:induction false} DrainedReentrant<T(!new), E>(pending: seq<T>, cb: (T, nat) -> Reaction<T, E>, index: nat, horizon: nat)
    requires Bounded(cb, horizon) && NoRaise(cb)
    ensures var d := Drained(pending, cb, index, horizon);
      d.rest == [] && d.raised == None && d.visited == pending + Spawned(cb, d.visited, index)
    decreases if index < horizon then horizon - index else 0, |pending|
  {
    if pending != [] {
      var x := pending[0];
      var more := cb(x, index).enqueued;
      var next := pending[1..] + more;
      DrainedReentrant(next, cb, index + 1, horizon);
      DrainedUnfold(pending, cb, index, horizon);
      var vs := Drained(next, cb, index + 1, horizon).visited;
      SpawnedStep(cb, x, vs, index);
      ConsAssoc(pending, more, Spawned(cb, vs, index + 1));
    }
  }

  lemma ConsAssoc<T>(s: seq<T>, a: seq<T>, b: seq<T>)
    requires s != []
    ensures [s[0]] + (s[1..] + a + b) == s + (a + b)
  {
    assert [s[0]] + s[1..] == s;
  }

  lemma SpawnedStep<T, E>(cb: (T, nat) -> Reaction<T, E>, x: T, vs: seq<T>, index: nat)
    requires cb(x, index).Continue?
    ensures Spawned(cb, [x] + vs, index) == cb(x, index).enqueued + Spawned(cb, vs, index + 1)
  {
    assert ([x] + vs)[1..] == vs;
  }

  /** `d` splits `pending` into a visited part and a part left behind; the
      visited part is empty only if `pending` is; every visited element but the
      last got Continue, the last got Continue too unless `d` ended on a Raise,
      and then it was that element, visited with index `index + |d.visited| - 1`,
      that raised. */
  ghost predicate Splits<T, E>(pending: seq<T>, d: Drain<T, E>, cb: (T, nat) -> Reaction<T, E>, index: nat)
  {
    d.visited + d.rest == pending &&
    (pending != [] ==> d.visited != []) &&
    (forall k :: 0 <= k < |d.visited| - 1 ==> cb(d.visited[k], index + k).Continue?) &&
    (d.raised.None? ==> d.rest == [] && forall k :: 0 <= k < |d.visited| ==> cb(d.visited[k], index + k).Continue?) &&
    (d.raised.Some? ==>
       d.visited != [] && cb(d.visited[|d.visited| - 1], index + |d.visited| - 1) == Raise(d.raised.value))
  }

  /** With a callback that never enqueues, `foreach` splits the queue into the
      part it visited and the part it left behind; it stops early only on the
      element the callback threw on, with that element's index, and passes the
      callback indices index, index + 1, ... */
  lemma {:induction false} DrainedSplits<T(!new), E>(pending: seq<T>, cb: (T, nat) -> Reaction<T, E>, index: nat)
    requires NoEnqueue(cb)
    ensures Bounded(cb, 0) && Splits(pending, Drained(pending, cb, index, 0), cb, index)
    decreases |pending|
  {
    if pending != [] && cb(pending[0], index).Continue? {
      var x, tail := pending[0], pending[1..];
      assert tail + cb(x, index).enqueued == tail;
      DrainedSplits(tail, cb, index + 1);
      var r := Drained(tail, cb, index + 1, 0);
      assert Drained(pending, cb, index, 0) == Prepend([x], r);
      SplitsStep(pending, r, cb, index);
    }
  }

  /** One visit that returned normally, in front of a split of the rest. */
  lemma SplitsStep<T, E>(pending: seq<T>, r: Drain<T, E>, cb: (T, nat) -> Reaction<T, E>, index: nat)
    requires pending != [] && cb(pending[0], index).Continue?
    requires Splits(pending[1..], r, cb, index + 1)
    ensures Splits(pending, Prepend([pending[0]], r), cb, index)
  {
    var v := [pending[0]] + r.visited;
    assert v + r.rest == [pending[0]] + (r.visited + r.rest);
    forall k | 0 < k < |v| ensures v[k] == r.visited[k - 1] { }
  }

  class Queue<T(!new)> {
    var store: map<int, T>
    var head: int
    var tail: int
    ghost var contents: seq<T>

    /** The keys of `store` are exactly [head, tail), and slot head + k holds contents[k]. */
    ghost predicate Valid()
      reads this
    {
      0 <= head <= tail &&
      |contents| == tail - head &&
      (forall k :: k in store <==> head <= k < tail) &&
      (forall k :: 0 <= k < |contents| ==> store[head + k] == contents[k])
    }

    constructor ()
      ensures Valid() && contents == []
      ensures head == 0 && tail == 0 && store == map[]
    {
      store := map[];
      head := 0;
      tail := 0;
      contents := [];
    }

    function Size(): (n: int)
      reads this
      requires Valid()
      ensures n == |contents| && n >= 0
    {
      tail - head
    }

    function IsEmpty(): (b: bool)
      reads this
      requires Valid()
      ensures b <==> contents == []
    {
      Size() == 0
    }

    method Enqueue(x: T)
      requires Valid()
      modifies this
      ensures Valid()
      ensures contents == old(contents) + [x]
      ensures head == old(head) && tail == old(tail) + 1 && store == old(store)[old(tail) := x]
    {
      store := store[tail := x];
      tail := tail + 1;
      contents := contents + [x];
    }

    method Dequeue() returns (r: Option<T>)
      requires Valid()
      modifies this
      ensures Valid()
      ensures old(contents) == [] ==>
        r == None && contents == old(contents) && head == old(head) && tail == old(tail) && store == old(store)
      ensures old(contents) != [] ==>
        r == Some(old(contents)[0]) && contents == old(contents)[1..] &&
        head == old(head) + 1 && tail == old(tail) && store == old(store) - {old(head)}
    {
      if IsEmpty() {
        return None;
      }
      var value := store[head];
      store := store - {head};
      head := head + 1;
      contents := contents[1..];
      r := Some(value);
    }

    /** The re-entrant `enqueue` calls one callback run makes, in order. */
    method EnqueueAll(items: seq<T>)
      requires Valid()
      modifies this
      ensures Valid()
      ensures contents == old(contents) + items
      ensures head == old(head) && tail == old(tail) + |items|
    {
      for j := 0 to |items|
        invariant Valid() && contents == old(contents) + items[..j]
        invariant head == old(head) && tail == old(tail) + j
      {
        Enqueue(items[j]);
      }
    }

    /** Drains the queue front to back through `cb`, re-reading `tail` on every
        round, so elements the callback enqueues are visited by the same call. */
    method Foreach<E>(cb: (T, nat) -> Reaction<T, E>, ghost horizon: nat) returns (visited: seq<T>, raised: Option<E>)
      requires Valid() && Bounded(cb, horizon)
      modifies this
      ensures Valid()
      ensures Drained(old(contents), cb, 0, horizon) == Drain(visited, contents, raised)
      ensures head == old(head) + |visited|
    {
      ghost var start := contents;
      visited := [];
      var index: nat := 0;
      var i := head;
      while i < tail
        invariant Valid()
        invariant i == head && head == old(head) + index && index == |visited|
        invariant Drained(start, cb, 0, horizon) == Prepend(visited, Drained(contents, cb, index, horizon))
        decreases if index < horizon then horizon - index else 0, tail - i
      {
        if !IsEmpty() {
          ghost var before := contents;
          var front := Dequeue();
          var x := front.value;
          match cb(x, index)
          case Raise(e) =>
            assert Drained(before, cb, index, horizon) == Drain([x], contents, Some(e));
            return visited + [x], Some(e);
          case Continue(more) =>
            EnqueueAll(more);
            DrainedContinues(before, cb, index, horizon, visited);
            visited := visited + [x];
            index := index + 1;
        }
        i := i + 1;
      }
      raised := None;
    }
  }

  /** FIFO: elements enqueued one after another come back out of successive
      dequeues in the order they went in. */
  method FifoOrder<T(!new)>(xs: seq<T>) returns (ys: seq<T>)
    ensures ys == xs
  {
    var q := new Queue<T>();
    for i := 0 to |xs|
      invariant q.Valid() && q.contents == xs[..i]
    {
      q.Enqueue(xs[i]);
      PrefixGrows(xs, i);
    }
    assert xs[..|xs|] == xs;
    ys := [];
    while !q.IsEmpty()
      invariant q.Valid() && ys + q.contents == xs
      decreases |q.contents|
    {
      ghost var c := q.contents;
      var r := q.Dequeue();
      MoveFront(ys, c);
      ys := ys + [r.value];
    }
  }

  lemma PrefixGrows<T>(xs: seq<T>, i: nat)
    requires i < |xs|
    ensures xs[..i] + [xs[i]] == xs[..i + 1]
  {
  }

  lemma MoveFront<T>(ys: seq<T>, c: seq<T>)
    requires c != []
    ensures (ys + [c[0]]) + c[1..] == ys + c
  {
    assert [c[0]] + c[1..] == c;
  }
}
