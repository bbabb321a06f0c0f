/**
 * Client scenarios over `ModuleSynchronizer`: the cases of
 * lib/async-queue.spec.ts, and the corner cases of lib/index.ts that they do
 * not exercise, each proved from the dispatcher's contracts alone.
 */
module Scenarios {
  import opened Options
  import opened Queues
  import opened Dispatch

  const TypeError: Value := Text("TypeError")

  /** A module `{add, subtract}`; calling anything else is calling `undefined`. */
  function Arith(c: Callee, args: seq<Value>): Outcome
  {
    if |args| == 2 && args[0].Num? && args[1].Num? then
      if c == Member("add") then Ok(Num(args[0].n + args[1].n))
      else if c == Member("subtract") then Ok(Num(args[0].n - args[1].n))
      else Throw(TypeError)
    else Throw(TypeError)
  }

  /** A module that is itself the function (a, b) => a + b. */
  function Adder(c: Callee, args: seq<Value>): Outcome
  {
    if c == Itself && |args| == 2 && args[0].Num? && args[1].Num? then Ok(Num(args[0].n + args[1].n))
    else Throw(TypeError)
  }

  /** `{add, subtract}` plus a member `explode` that always throws "boom". */
  function Exploding(c: Callee, args: seq<Value>): Outcome
  {
    if c == Member("explode") then Throw(Text("boom")) else Arith(c, args)
  }

  /** A callable module that also has a member named "self". */
  function SelfMember(c: Callee, args: seq<Value>): Outcome
  {
    match c
    case Itself => Ok(Text("module"))
    case Member(name) => if name == "self" then Ok(Text("member")) else Throw(TypeError)
  }

  /** While the load is pending, calls are queued and the module is not touched. */
  method NothingRunsBeforeLoad() returns (ghost log: seq<Invocation>, queued: nat, s1: Settlement, s2: Settlement)
    ensures log == [] && queued == 2 && s1 == Pending && s2 == Pending
  {
    var m := new ModuleSynchronizer();
    var a := m.CallNamed("add", [Num(1), Num(2)]);
    var b := m.CallNamed("subtract", [Num(1), Num(2)]);
    log := m.invocations;
    queued, s1, s2 := m.queue.Size(), m.handles[a], m.handles[b];
  }

  /** After the load, the queued calls reach the module in the order issued, each
      with its own arguments, and each promise resolves with its own result. */
  method ReplayInIssueOrder() returns (ghost log: seq<Invocation>, s1: Settlement, s2: Settlement)
    ensures log == [Invocation(Member("add"), [Num(1), Num(2)]), Invocation(Member("subtract"), [Num(2), Num(3)])]
    ensures s1 == Resolved(Num(3)) && s2 == Resolved(Num(-1))
  {
    var m := new ModuleSynchronizer();
    var a := m.CallNamed("add", [Num(1), Num(2)]);
    var b := m.CallNamed("subtract", [Num(2), Num(3)]);
    ghost var h, q := m.handles, m.queue.contents;
    assert q == [CallRecord("add", [Num(1), Num(2)], a), CallRecord("subtract", [Num(2), Num(3)], b)];
    assert HandlesOf(q) <= h.Keys && Distinct(q) && AllPending(h, q);
    m.OnLoad(Arith);
    ArithReplay(h, q, a, b);
    log := m.invocations;
    s1, s2 := m.handles[a], m.handles[b];
  }

  /** What the load of `Arith` does to the two calls queued above. */
  lemma ArithReplay(h: map<CallId, Settlement>, q: seq<CallRecord>, a: CallId, b: CallId)
    requires q == [CallRecord("add", [Num(1), Num(2)], a), CallRecord("subtract", [Num(2), Num(3)], b)]
    requires HandlesOf(q) <= h.Keys && Distinct(q) && AllPending(h, q)
    ensures var r := AfterLoad(h, q, Arith);
      r[a] == Resolved(Num(3)) && r[b] == Resolved(Num(-1))
    ensures Calls(q[..ReplayedCount(q, Arith)])
      == [Invocation(Member("add"), [Num(1), Num(2)]), Invocation(Member("subtract"), [Num(2), Num(3)])]
  {
    assert FirstThrow(q, Arith) == 2 by {
      assert FirstThrow(q[1..], Arith) == 1;
    }
    assert q[..2] == q;
    LoadSettlement(h, q, Arith);
  }

  /** A load that finds a single queued call replays exactly that call: its
      promise is resolved if the module returned, and left pending if it threw. */
  lemma ReplayOne(h: map<CallId, Settlement>, q: seq<CallRecord>, t: Target)
    requires |q| == 1 && HandlesOf(q) <= h.Keys && Distinct(q) && AllPending(h, q)
    ensures ReplayedCount(q, t) == 1 && Calls(q[..1]) == [Replayed(q[0])]
    ensures var o := Invoke(t, Replayed(q[0]));
      AfterLoad(h, q, t)[q[0].handle] == if o.Ok? then Resolved(o.value) else Pending
  {
    assert q[1..] == [];
    assert q[..1] == q;
    LoadSettlement(h, q, t);
  }

  /** A failed load rejects the call queued before it with the load's own error. */
  method LoadFailureRejects() returns (s: Settlement, ghost log: seq<Invocation>)
    ensures s == Rejected(Text("Custom error")) && log == []
  {
    var m := new ModuleSynchronizer();
    var a := m.CallNamed("add", [Num(1), Num(2)]);
    ghost var h, q := m.handles, m.queue.contents;
    assert q == [CallRecord("add", [Num(1), Num(2)], a)] && HandlesOf(q) <= h.Keys;
    m.OnFail(Text("Custom error"));
    RejectAllEffect(h, q, Text("Custom error"));
    assert q[0].handle == a;
    s := m.handles[a];
    log := m.invocations;
  }

  /** A direct call made before the load is replayed against the module itself. */
  method DirectCallBeforeLoad() returns (s: Settlement)
    ensures s == Resolved(Num(8))
  {
    var m := new ModuleSynchronizer();
    var r := m.CallSelf([Num(4), Num(4)]);
    ghost var h, q := m.handles, m.queue.contents;
    assert q == [CallRecord(SelfSelector, [Num(4), Num(4)], r.id)];
    assert HandlesOf(q) <= h.Keys && Distinct(q) && AllPending(h, q);
    m.OnLoad(Adder);
    ReplayOne(h, q, Adder);
    s := m.handles[r.id];
  }

  /** After the load a direct call runs the module synchronously and returns its
      raw result instead of a promise; over both calls the module runs twice. */
  method DirectCallAfterLoad() returns (first: Reply, second: Reply, ghost runs: nat)
    ensures first.Handle? && second == Raw(Num(8)) && runs == 2
  {
    var m := new ModuleSynchronizer();
    first := m.CallSelf([Num(4), Num(4)]);
    ghost var h, q := m.handles, m.queue.contents;
    assert |q| == 1 && HandlesOf(q) <= h.Keys && Distinct(q) && AllPending(h, q);
    m.OnLoad(Adder);
    ReplayOne(h, q, Adder);
    second := m.CallSelf([Num(4), Num(4)]);
    runs := |m.invocations|;
  }

  /** After the load a named call runs at once and leaves the queue empty; the
      member has run twice, with (1, 2) and then (2, 3). */
  method NamedCallAfterLoad() returns (ghost log: seq<Invocation>, queued: nat, s: Settlement)
    ensures log == [Invocation(Member("add"), [Num(1), Num(2)]), Invocation(Member("add"), [Num(2), Num(3)])]
    ensures queued == 0 && s == Resolved(Num(5))
  {
    var m := new ModuleSynchronizer();
    var a := m.CallNamed("add", [Num(1), Num(2)]);
    ghost var h, q := m.handles, m.queue.contents;
    assert q == [CallRecord("add", [Num(1), Num(2)], a)];
    assert HandlesOf(q) <= h.Keys && Distinct(q) && AllPending(h, q);
    m.OnLoad(Arith);
    ReplayOne(h, q, Arith);
    var b := m.CallNamed("add", [Num(2), Num(3)]);
    log := m.invocations;
    queued, s := m.queue.Size(), m.handles[b];
  }

  /** A failed load leaves `loadedModule` unset: a call made afterwards is queued
      like any other, its promise stays pending, and since the load has settled
      neither handler will run again to drain it. */
  method CallAfterFailureStaysPending() returns (s: Settlement, queued: nat, loaded: Option<Target>, settled: bool)
    ensures s == Pending && queued == 1 && loaded.None? && settled
  {
    var m := new ModuleSynchronizer();
    m.OnFail(Text("Custom error"));
    var a := m.CallNamed("add", [Num(1), Num(2)]);
    s, queued, loaded := m.handles[a], m.queue.Size(), m.loaded;
    settled := m.settled;
  }

  /** A replayed call that throws stops the `.then` drain: the calls before it are
      resolved, its own promise is never settled, and the `.catch` handler rejects
      the calls behind it with the thrown error, not a load error. */
  method ReplayThrowStrandsCall() returns (ghost log: seq<Invocation>, s1: Settlement, s2: Settlement, s3: Settlement)
    ensures log == [Invocation(Member("add"), [Num(1), Num(2)]), Invocation(Member("explode"), [])]
    ensures s1 == Resolved(Num(3)) && s2 == Pending && s3 == Rejected(Text("boom"))
  {
    var m := new ModuleSynchronizer();
    var a := m.CallNamed("add", [Num(1), Num(2)]);
    var b := m.CallNamed("explode", []);
    var c := m.CallNamed("subtract", [Num(5), Num(1)]);
    ghost var h, q := m.handles, m.queue.contents;
    assert q == [CallRecord("add", [Num(1), Num(2)], a), CallRecord("explode", [], b), CallRecord("subtract", [Num(5), Num(1)], c)];
    assert HandlesOf(q) <= h.Keys && Distinct(q) && AllPending(h, q);
    m.OnLoad(Exploding);
    ExplodingReplay(h, q, a, b, c);
    log := m.invocations;
    s1, s2, s3 := m.handles[a], m.handles[b], m.handles[c];
  }

  /** A replay that throws still leaves the module loaded: a call made after it
      runs at once, while the call that threw stays pending. */
  method LoadedDespiteReplayThrow() returns (stranded: Settlement, later: Settlement, ghost log: seq<Invocation>)
    ensures stranded == Pending && later == Resolved(Num(5))
    ensures log == [Invocation(Member("explode"), []), Invocation(Member("add"), [Num(2), Num(3)])]
  {
    var m := new ModuleSynchronizer();
    var a := m.CallNamed("explode", []);
    ghost var h, q := m.handles, m.queue.contents;
    assert q == [CallRecord("explode", [], a)];
    assert HandlesOf(q) <= h.Keys && Distinct(q) && AllPending(h, q);
    assert Replayed(q[0]) == Invocation(Member("explode"), []);
    assert Invoke(Exploding, Invocation(Member("add"), [Num(2), Num(3)])) == Ok(Num(5));
    m.OnLoad(Exploding);
    ReplayOne(h, q, Exploding);
    stranded := m.handles[a];
    var b := m.CallNamed("add", [Num(2), Num(3)]);
    later := m.handles[b];
    log := m.invocations;
  }

  /** What the load of `Exploding` does to the three calls queued above. */
  lemma ExplodingReplay(h: map<CallId, Settlement>, q: seq<CallRecord>, a: CallId, b: CallId, c: CallId)
    requires q == [CallRecord("add", [Num(1), Num(2)], a), CallRecord("explode", [], b), CallRecord("subtract", [Num(5), Num(1)], c)]
    requires HandlesOf(q) <= h.Keys && Distinct(q) && AllPending(h, q)
    ensures var r := AfterLoad(h, q, Exploding);
      r[a] == Resolved(Num(3)) && r[b] == Pending && r[c] == Rejected(Text("boom"))
    ensures Calls(q[..ReplayedCount(q, Exploding)])
      == [Invocation(Member("add"), [Num(1), Num(2)]), Invocation(Member("explode"), [])]
  {
    assert FirstThrow(q, Exploding) == 1 by {
      assert FirstThrow(q[1..], Exploding) == 0;
    }
    assert q[..2] == [q[0], q[1]];
    LoadSettlement(h, q, Exploding);
  }

  /** The "self" sentinel collides with a member of that name: `self()` called as
      a member before the load is replayed as a call of the module itself, while
      the same call after the load reaches the member. */
  method SelfMemberCollision() returns (before: Settlement, after: Settlement)
    ensures before == Resolved(Text("module")) && after == Resolved(Text("member"))
  {
    var m := new ModuleSynchronizer();
    var a := m.CallNamed("self", []);
    ghost var h, q := m.handles, m.queue.contents;
    assert q == [CallRecord("self", [], a)];
    assert HandlesOf(q) <= h.Keys && Distinct(q) && AllPending(h, q);
    m.OnLoad(SelfMember);
    ReplayOne(h, q, SelfMember);
    before := m.handles[a];
    var b := m.CallNamed("self", []);
    after := m.handles[b];
  }
}
