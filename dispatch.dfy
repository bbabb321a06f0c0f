/**
 * The deferred dispatcher of lib/index.ts. `ModuleSynchronizer` wraps a module
 * that is still loading: calls made before the load finishes are queued and
 * replayed, in order, when it does; calls made afterwards run at once.
 *
 * The promise machinery is replaced by explicit events: `OnLoad` is the
 * `.then` handler, `OnFail` the `.catch` handler chained after it, and each
 * caller-side promise is a handle in a table of settlements.
 */
module Dispatch {
  import opened Options
  import opened Queues

  /** The JavaScript values that flow through calls: arguments, results and thrown errors. */
  datatype Value = Undefined | Num(n: int) | Text(s: string)

  /** What a call reaches on the loaded module: the module itself, called as a
      function, or one of its members. */
  datatype Callee = Itself | Member(name: string)

  /** How one invocation of the loaded module ends. */
  datatype Outcome = Ok(value: Value) | Throw(error: Value)

  /** The loaded module, seen only through what calling it does. */
  type Target = (Callee, seq<Value>) -> Outcome

  type CallId = nat

  /** A queued call: the selector (a member name, or the sentinel "self"), the
      arguments as they were passed, and the handle its `resolve`/`reject` settle. */
  datatype CallRecord = CallRecord(selector: string, args: seq<Value>, handle: CallId)

  /** The state of the promise a call handed back to its caller. */
  datatype Settlement = Pending | Resolved(value: Value) | Rejected(reason: Value)

  /** One call that reached the loaded module. */
  datatype Invocation = Invocation(callee: Callee, args: seq<Value>)

  /** What a direct call of the wrapper returns: a promise before the load,
      and afterwards the module's raw result, or the exception it throws. */
  datatype Reply = Handle(id: CallId) | Raw(value: Value) | Thrown(error: Value)

  /** The selector a direct call is queued under. A member named "self" is
      queued under the same string. */
  const SelfSelector: string := "self"

  /** How a queued selector is replayed: the sentinel calls the module itself,
      any other string calls the member of that name. */
  function ResolveSelector(selector: string): (c: Callee)
    ensures c == Itself <==> selector == SelfSelector
    ensures c.Member? ==> c.name == selector
  {
    if selector == SelfSelector then Itself else Member(selector)
  }

  /** The invocation a queued call turns into when it is replayed. */
  function Replayed(r: CallRecord): Invocation
  {
    Invocation(ResolveSelector(r.selector), r.args)
  }

  function Invoke(t: Target, call: Invocation): Outcome
  {
    t(call.callee, call.args)
  }

  /** A promise whose executor returns `v` is resolved with `v`; one whose
      executor throws `e` is rejected with `e`. */
  function Settle(o: Outcome): Settlement
  {
    match o
    case Ok(v) => Resolved(v)
    case Throw(e) => Rejected(e)
  }

  /** The `.then` handler's `foreach` callback on one queued call: it invokes the
      module and resolves the call, unless the invocation throws, in which case
      the exception leaves the callback. */
  function ReplayStep(t: Target, r: CallRecord): Reaction<CallRecord, Value>
  {
    match Invoke(t, Replayed(r))
    case Ok(_) => Continue([])
    case Throw(e) => Raise(e)
  }

  function ReplayCallback(t: Target): (CallRecord, nat) -> Reaction<CallRecord, Value>
  {
    (r: CallRecord, k: nat) => ReplayStep(t, r)
  }

  /** The `.catch` handler's `foreach` callback: it only rejects, which never throws. */
  function RejectCallback(): (CallRecord, nat) -> Reaction<CallRecord, Value>
  {
    (r: CallRecord, k: nat) => Continue([])
  }

  /** The invocations that replaying `entries` makes, one per entry, in order,
      each with the entry's own recorded arguments. */
  function Calls(entries: seq<CallRecord>): (r: seq<Invocation>)
    ensures |r| == |entries|
    ensures forall k :: 0 <= k < |r| ==> r[k] == Invocation(ResolveSelector(entries[k].selector), entries[k].args)
  {
    if entries == [] then [] else [Replayed(entries[0])] + Calls(entries[1..])
  }

  function HandlesOf(entries: seq<CallRecord>): set<CallId>
  {
    set r | r in entries :: r.handle
  }

  ghost predicate Distinct(entries: seq<CallRecord>)
  {
    forall j, k :: 0 <= j < k < |entries| ==> entries[j].handle != entries[k].handle
  }

  ghost predicate AllPending(h: map<CallId, Settlement>, entries: seq<CallRecord>)
  {
    forall k :: 0 <= k < |entries| ==> entries[k].handle in h && h[entries[k].handle] == Pending
  }

  /** Queueing a call under a fresh handle, registered as pending, keeps the
      queued handles distinct and pending. */
  lemma QueueFresh(h: map<CallId, Settlement>, entries: seq<CallRecord>, r: CallRecord)
    requires Distinct(entries) && AllPending(h, entries) && r.handle !in h
    ensures Distinct(entries + [r]) && AllPending(h[r.handle := Pending], entries + [r])
  {
  }

  /** No handle disappears, and a settled handle keeps its settlement. */
  ghost predicate NoResettle(before: map<CallId, Settlement>, after: map<CallId, Settlement>)
  {
    forall id :: id in before ==> id in after && (before[id] != Pending ==> after[id] == before[id])
  }

  /** The `resolve` calls of the `.then` drain over `entries`, front to back: each
      entry whose invocation returned a value is resolved with it. */
  function ResolveAll(h: map<CallId, Settlement>, entries: seq<CallRecord>, t: Target): (r: map<CallId, Settlement>)
    requires HandlesOf(entries) <= h.Keys
    ensures r.Keys == h.Keys
  {
    if entries == [] then h
    else
      var h1 := match Invoke(t, Replayed(entries[0]))
                case Ok(v) => h[entries[0].handle := Resolved(v)]
                case Throw(_) => h;
      assert HandlesOf(entries[1..]) <= HandlesOf(entries) by {
        forall r | r in entries[1..] ensures r in entries { }
      }
      ResolveAll(h1, entries[1..], t)
  }

  /** The `reject(error)` calls of the `.catch` drain over `entries`, front to back. */
  function RejectAll(h: map<CallId, Settlement>, entries: seq<CallRecord>, error: Value): (r: map<CallId, Settlement>)
    requires HandlesOf(entries) <= h.Keys
    ensures r.Keys == h.Keys
  {
    if entries == [] then h
    else
      assert HandlesOf(entries[1..]) <= HandlesOf(entries) by {
        forall r | r in entries[1..] ensures r in entries { }
      }
      RejectAll(h[entries[0].handle := Rejected(error)], entries[1..], error)
  }

  /** The position of the first queued call whose replay throws, or |q| if none does. */
  function FirstThrow(q: seq<CallRecord>, t: Target): (n: nat)
    ensures n <= |q|
    ensures forall k :: 0 <= k < n ==> Invoke(t, Replayed(q[k])).Ok?
    ensures n < |q| ==> Invoke(t, Replayed(q[n])).Throw?
  {
    if q == [] || Invoke(t, Replayed(q[0])).Throw? then 0
    else 1 + FirstThrow(q[1..], t)
  }

  /** How many queued calls the `.then` drain takes out and invokes: all of them
      up to and including the first that throws. */
  function ReplayedCount(q: seq<CallRecord>, t: Target): nat
  {
    var n := FirstThrow(q, t);
    if n < |q| then n + 1 else n
  }

  /** The handle table once the load has succeeded with `t` while `q` was queued:
      the replayed calls that returned are resolved, and if one threw, the calls
      still queued behind it are rejected with what it threw. */
  ghost function AfterLoad(h: map<CallId, Settlement>, q: seq<CallRecord>, t: Target): map<CallId, Settlement>
    requires HandlesOf(q) <= h.Keys
  {
    var n := FirstThrow(q, t);
    var c := ReplayedCount(q, t);
    HandlesOfSlices(q, c);
    var h1 := ResolveAll(h, q[..c], t);
    if n < |q| then RejectAll(h1, q[c..], Invoke(t, Replayed(q[n])).error) else h1
  }

  lemma HandlesOfSlices(q: seq<CallRecord>, c: nat)
    requires c <= |q|
    ensures HandlesOf(q[..c]) <= HandlesOf(q) && HandlesOf(q[c..]) <= HandlesOf(q)
  {
    forall r | r in q[..c] ensures r in q { }
    forall r | r in q[c..] ensures r in q { }
  }

  /** Resolving distinct handles: each entry's handle holds its invocation's value
      if it returned, and is untouched if it threw; other handles are untouched. */
  lemma {:induction false} ResolveAllEffect(h: map<CallId, Settlement>, entries: seq<CallRecord>, t: Target)
    requires HandlesOf(entries) <= h.Keys && Distinct(entries)
    ensures var r := ResolveAll(h, entries, t);
      (forall k :: 0 <= k < |entries| ==>
        r[entries[k].handle] == (match Invoke(t, Replayed(entries[k]))
                                 case Ok(v) => Resolved(v)
                                 case Throw(_) => h[entries[k].handle])) &&
      (forall id :: id in h && id !in HandlesOf(entries) ==> r[id] == h[id])
  {
    if entries != [] {
      var e, rest := entries[0], entries[1..];
      HeadApart(entries);
      var h1 := match Invoke(t, Replayed(e)) case Ok(v) => h[e.handle := Resolved(v)] case Throw(_) => h;
      ResolveAllEffect(h1, rest, t);
    }
  }

  /** Rejecting handles: each entry's handle holds `error`; other handles are untouched. */
  lemma {:induction false} RejectAllEffect(h: map<CallId, Settlement>, entries: seq<CallRecord>, error: Value)
    requires HandlesOf(entries) <= h.Keys
    ensures var r := RejectAll(h, entries, error);
      (forall k :: 0 <= k < |entries| ==> r[entries[k].handle] == Rejected(error)) &&
      (forall id :: id in h && id !in HandlesOf(entries) ==> r[id] == h[id])
  {
    if entries != [] {
      HeadApart(entries);
      RejectAllEffect(h[entries[0].handle := Rejected(error)], entries[1..], error);
    }
  }

  /** The entries after the head: their handles are among the entries' handles,
      each later entry's handle is one of them, and with distinct handles the
      head's handle is not. */
  lemma HeadApart(entries: seq<CallRecord>)
    requires entries != []
    ensures HandlesOf(entries[1..]) <= HandlesOf(entries)
    ensures forall k :: 0 < k < |entries| ==> entries[k].handle in HandlesOf(entries[1..])
    ensures Distinct(entries) ==> Distinct(entries[1..]) && entries[0].handle !in HandlesOf(entries[1..])
  {
    var rest := entries[1..];
    forall r | r in rest ensures r in entries { }
    forall k | 0 < k < |entries| ensures entries[k].handle in HandlesOf(rest) {
      assert rest[k - 1] == entries[k];
    }
    if Distinct(entries) {
      forall r | r in rest ensures r.handle != entries[0].handle {
        var k :| 0 <= k < |rest| && rest[k] == r;
        assert entries[k + 1] == r;
      }
    }
  }

  lemma ReplayCallbackAt(t: Target, r: CallRecord, k: nat)
    ensures ReplayCallback(t)(r, k) == ReplayStep(t, r)
  {
  }

  lemma ReplayCallbackBounded(t: Target)
    ensures NoEnqueue(ReplayCallback(t)) && Bounded(ReplayCallback(t), 0)
  {
  }

  /** The `.catch` drain neither enqueues nor throws, so it takes out every
      queued call and leaves the queue empty. */
  lemma RejectDrain(q: seq<CallRecord>)
    ensures Bounded(RejectCallback(), 0) && Drained(q, RejectCallback(), 0, 0) == Drain(q, [], None)
  {
    DrainedVisitsAll(q, RejectCallback(), 0);
  }

  /** The failure drain settles only handles that were pending. */
  lemma RejectKeepsSettled(h: map<CallId, Settlement>, entries: seq<CallRecord>, error: Value)
    requires HandlesOf(entries) <= h.Keys && AllPending(h, entries)
    ensures NoResettle(h, RejectAll(h, entries, error))
  {
    RejectAllEffect(h, entries, error);
    var r := RejectAll(h, entries, error);
    forall id | id in h && h[id] != Pending ensures r[id] == h[id] {
      assert id !in HandlesOf(entries) by {
        forall r | r in entries ensures r.handle != id {
          var k :| 0 <= k < |entries| && entries[k] == r;
        }
      }
    }
  }

  /** The `.then` drain, as `foreach` runs it: it invokes the queued calls in
      order up to and including the first that throws, stops there with that
      error, and leaves the calls behind it in the queue. */
  lemma {:induction false} ReplayDrain(q: seq<CallRecord>, t: Target, index: nat)
    ensures Bounded(ReplayCallback(t), 0)
    ensures var n := FirstThrow(q, t);
      var c := ReplayedCount(q, t);
      Drained(q, ReplayCallback(t), index, 0)
        == Drain(q[..c], q[c..], if n < |q| then Some(Invoke(t, Replayed(q[n])).error) else None)
    decreases |q|
  {
    ReplayCallbackBounded(t);
    if q != [] {
      ReplayCallbackAt(t, q[0], index);
      if Invoke(t, Replayed(q[0])).Ok? {
        assert q[1..] + [] == q[1..];
        DrainedUnfold(q, ReplayCallback(t), index, 0);
        ReplayDrain(q[1..], t, index + 1);
        var c' := ReplayedCount(q[1..], t);
        assert ReplayedCount(q, t) == c' + 1;
        SliceShift(q, c');
      }
    }
  }

  /** Slicing after the head, shifted by one. */
  lemma SliceShift<X>(q: seq<X>, c: nat)
    requires c < |q|
    ensures [q[0]] + q[1..][..c] == q[..c + 1] && q[1..][c..] == q[c + 1..]
  {
  }

  /** A successful load settles each call queued before it according to its
      position: calls before the first throwing one are resolved with their own
      results, the throwing one stays pending (it was already dequeued when it
      threw), and every call after it is rejected with the thrown error. No other
      handle changes, and no settled handle is settled again. */
  lemma LoadSettlement(h: map<CallId, Settlement>, q: seq<CallRecord>, t: Target)
    requires HandlesOf(q) <= h.Keys && Distinct(q) && AllPending(h, q)
    ensures var r := AfterLoad(h, q, t);
      var n := FirstThrow(q, t);
      r.Keys == h.Keys &&
      (forall k :: 0 <= k < |q| ==>
        r[q[k].handle] == (if k < n then Resolved(Invoke(t, Replayed(q[k])).value)
                           else if k == n then Pending
                           else Rejected(Invoke(t, Replayed(q[n])).error))) &&
      (forall id :: id in h && id !in HandlesOf(q) ==> r[id] == h[id]) &&
      NoResettle(h, r)
  {
    var n := FirstThrow(q, t);
    var c := ReplayedCount(q, t);
    HandlesOfSlices(q, c);
    var front, back := q[..c], q[c..];
    SlicesApart(q, c);
    ResolveAllEffect(h, front, t);
    var h1 := ResolveAll(h, front, t);
    var r := AfterLoad(h, q, t);
    var err := if n < |q| then Invoke(t, Replayed(q[n])).error else Undefined;
    if n < |q| {
      RejectAllEffect(h1, back, err);
      assert r == RejectAll(h1, back, err);
    } else {
      assert back == [] && r == h1;
    }
    forall k | 0 <= k < |q|
      ensures r[q[k].handle] == (if k < n then Resolved(Invoke(t, Replayed(q[k])).value)
                                 else if k == n then Pending
                                 else Rejected(err))
    {
      if k < c {
        assert q[k] == front[k];
        assert r[q[k].handle] == h1[q[k].handle];
      } else {
        assert q[k] == back[k - c];
      }
    }
    forall id | id in h && id !in HandlesOf(q) ensures r[id] == h[id] {
      assert id !in HandlesOf(front) && id !in HandlesOf(back);
    }
    forall id | id in h ensures id in r && (h[id] != Pending ==> r[id] == h[id]) {
      if id in HandlesOf(q) {
        var k :| 0 <= k < |q| && q[k].handle == id;
      }
    }
  }

  /** How the `.then` drain's outcome over `q` determines the handle table after
      the load: the visited prefix is resolved, and if the drain stopped on a
      throw, what is left in the queue is rejected with the thrown error. */
  lemma LoadPlan(h: map<CallId, Settlement>, q: seq<CallRecord>, t: Target,
                 visited: seq<CallRecord>, rest: seq<CallRecord>, raised: Option<Value>)
    requires HandlesOf(q) <= h.Keys && Distinct(q) && AllPending(h, q)
    requires Bounded(ReplayCallback(t), 0)
    requires Drained(q, ReplayCallback(t), 0, 0) == Drain(visited, rest, raised)
    ensures visited == q[..ReplayedCount(q, t)] && HandlesOf(visited) <= h.Keys
    ensures HandlesOf(rest) <= h.Keys && (raised.None? ==> rest == [])
    ensures AfterLoad(h, q, t) == if raised.Some? then RejectAll(ResolveAll(h, visited, t), rest, raised.value)
                                  else ResolveAll(h, visited, t)
    ensures NoResettle(h, AfterLoad(h, q, t))
  {
    ReplayDrain(q, t, 0);
    HandlesOfSlices(q, ReplayedCount(q, t));
    LoadSettlement(h, q, t);
  }

  /** The two halves of a queue with distinct handles have distinct handles and share none. */
  lemma SlicesApart(q: seq<CallRecord>, c: nat)
    requires c <= |q| && Distinct(q)
    ensures Distinct(q[..c]) && Distinct(q[c..])
    ensures forall k :: 0 <= k < c ==> q[k].handle !in HandlesOf(q[c..])
    ensures forall k :: c <= k < |q| ==> q[k].handle !in HandlesOf(q[..c])
  {
    forall k | 0 <= k < c ensures q[k].handle !in HandlesOf(q[c..]) {
      forall r | r in q[c..] ensures r.handle != q[k].handle {
        var j :| 0 <= j < |q| - c && q[c..][j] == r;
        assert q[c + j] == r;
      }
    }
    forall k | c <= k < |q| ensures q[k].handle !in HandlesOf(q[..c]) {
      forall r | r in q[..c] ensures r.handle != q[k].handle {
        var j :| 0 <= j < c && q[..c][j] == r;
        assert q[j] == r;
      }
    }
  }

  /** The dispatcher: the closure state of `ModuleSynchronizer` — `loadedModule`
      and the queue of pending calls — plus the settlements of the promises it
      handed out and the record of the calls that reached the module. */
  class ModuleSynchronizer {
    var loaded: Option<Target>
    const queue: Queue<CallRecord>
    var handles: map<CallId, Settlement>
    /** The calls that reached the loaded module, in order: an observation of the
        module's side, with no counterpart in the dispatcher's runtime state. */
    ghost var invocations: seq<Invocation>
    var nextId: nat
    /** The load promise has settled: its handlers have run and never run again. */
    var settled: bool

    ghost predicate Valid()
      reads this, queue
    {
      queue.Valid() &&
      (forall id: CallId :: id in handles <==> id < nextId) &&
      Distinct(queue.contents) && AllPending(handles, queue.contents) &&
      (loaded.Some? ==> settled && queue.contents == [])
    }

    constructor ()
      ensures Valid() && fresh(queue)
      ensures loaded == None && queue.contents == [] && handles == map[] && invocations == []
      ensures nextId == 0 && !settled
    {
      loaded := None;
      queue := new Queue<CallRecord>();
      handles := map[];
      invocations := [];
      nextId := 0;
      settled := false;
    }

    /** The `get` trap's function, called as `name(...args)`: before the load the
        call is queued and its promise stays pending; after it the member runs at
        once and the promise settles with what it returned or threw. */
    method CallNamed(name: string, args: seq<Value>) returns (id: CallId)
      requires Valid()
      modifies this, queue
      ensures Valid() && id == old(nextId) && nextId == id + 1 && id !in old(handles)
      ensures loaded == old(loaded) && settled == old(settled)
      ensures old(loaded).None? ==>
        queue.contents == old(queue.contents) + [CallRecord(name, args, id)] &&
        handles == old(handles)[id := Pending] && invocations == old(invocations)
      ensures old(loaded).Some? ==>
        var call := Invocation(Member(name), args);
        queue.contents == [] && invocations == old(invocations) + [call] &&
        handles == old(handles)[id := Settle(Invoke(old(loaded).value, call))]
    {
      id := nextId;
      nextId := nextId + 1;
      match loaded
      case Some(m) =>
        var call := Invocation(Member(name), args);
        var outcome := Invoke(m, call);
        invocations := invocations + [call];
        handles := handles[id := Settle(outcome)];
      case None =>
        QueueFresh(handles, queue.contents, CallRecord(name, args, id));
        queue.Enqueue(CallRecord(name, args, id));
        handles := handles[id := Pending];
    }

    /** The `apply` trap, a direct call `(...args)`: before the load it is queued
        under the "self" selector and a pending promise is returned; after it the
        call is made synchronously and its raw result (or exception) comes back.
        The call after the load goes through the module's `apply` property, taken
        here to be the standard one, which calls the module itself. */
    method CallSelf(args: seq<Value>) returns (reply: Reply)
      requires Valid()
      modifies this, queue
      ensures Valid() && loaded == old(loaded) && settled == old(settled)
      ensures old(loaded).None? ==>
        reply == Handle(old(nextId)) && nextId == old(nextId) + 1 &&
        queue.contents == old(queue.contents) + [CallRecord(SelfSelector, args, old(nextId))] &&
        handles == old(handles)[old(nextId) := Pending] && invocations == old(invocations)
      ensures old(loaded).Some? ==>
        var call := Invocation(Itself, args);
        nextId == old(nextId) && handles == old(handles) && queue.contents == [] &&
        invocations == old(invocations) + [call] &&
        reply == match Invoke(old(loaded).value, call) case Ok(v) => Raw(v) case Throw(e) => Thrown(e)
    {
      match loaded
      case Some(m) =>
        var call := Invocation(Itself, args);
        invocations := invocations + [call];
        match Invoke(m, call) {
          case Ok(v) => reply := Raw(v);
          case Throw(e) => reply := Thrown(e);
        }
      case None =>
        var id := nextId;
        nextId := nextId + 1;
        QueueFresh(handles, queue.contents, CallRecord(SelfSelector, args, id));
        queue.Enqueue(CallRecord(SelfSelector, args, id));
        handles := handles[id := Pending];
        reply := Handle(id);
    }

    /** The `.then` handler: record the module, then drain the queue through the
        replay callback. If a replayed call throws, the drain stops and the
        chained `.catch` handler drains what is left with the thrown error. */
    method OnLoad(target: Target)
      requires Valid() && !settled
      modifies this, queue
      ensures Valid() && settled && loaded == Some(target) && nextId == old(nextId)
      ensures queue.contents == []
      ensures invocations == old(invocations) + Calls(old(queue.contents)[..ReplayedCount(old(queue.contents), target)])
      ensures handles == AfterLoad(old(handles), old(queue.contents), target)
      ensures NoResettle(old(handles), handles)
    {
      ghost var q, h := queue.contents, handles;
      loaded := Some(target);
      settled := true;
      ReplayCallbackBounded(target);
      var visited, raised := queue.Foreach(ReplayCallback(target), 0);
      LoadPlan(h, q, target, visited, queue.contents, raised);
      invocations := invocations + Calls(visited);
      handles := ResolveAll(handles, visited, target);
      if raised.Some? {
        RejectDrain(queue.contents);
        var rejected, _ := queue.Foreach(RejectCallback(), 0);
        handles := RejectAll(handles, rejected, raised.value);
      }
    }

    /** The `.catch` handler when the load itself fails: every queued call is
        rejected with the load error, front to back. `loadedModule` stays unset. */
    method OnFail(error: Value)
      requires Valid() && !settled
      modifies this, queue
      ensures Valid() && settled && loaded == None && nextId == old(nextId)
      ensures queue.contents == [] && invocations == old(invocations)
      ensures handles == RejectAll(old(handles), old(queue.contents), error)
      ensures NoResettle(old(handles), handles)
    {
      ghost var q := queue.contents;
      settled := true;
      RejectDrain(q);
      var rejected, _ := queue.Foreach(RejectCallback(), 0);
      RejectKeepsSettled(handles, rejected, error);
      handles := RejectAll(handles, rejected, error);
    }
  }
}
