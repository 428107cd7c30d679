/**
 * The continuation list of `Callbacks` (Sources/Promise/Callback.swift) and
 * its trampoline `run()`.
 *
 * `Callbacks` is a Swift struct, a value type: it is copied on assignment and
 * returned by value from every callback.  It is modelled as a datatype; its
 * `mutating func append` becomes a function from the old value to the new one,
 * which the owner assigns back to its field.
 *
 * For `run()` the callbacks are opaque ids.  An environment gives, for every
 * id, the `Callbacks` value that the callback returns when it is invoked; ids
 * returned by callback `k` are smaller than `k`, which is the well-founded rank
 * that makes `run()` terminate.  `Run` returns the trace of invoked ids.
 */
module Callback {
  import opened Opt

  /** The struct `Callbacks`: a single-element fast path and an overflow array. */
  datatype Callbacks<T> = Callbacks(first: Option<T>, furthers: Option<seq<T>>)

  /** The shape that `init` and `append` keep: an overflow array only behind a first element. */
  predicate Valid<T>(c: Callbacks<T>)
  {
    c.furthers.Some? ==> c.first.Some?
  }

  /** The queued elements in registration order (the abstract value of a list). */
  function Elements<T>(c: Callbacks<T>): seq<T>
  {
    if c.first.None? then []
    else [c.first.value] + (if c.furthers.Some? then c.furthers.value else [])
  }

  /** `init()` and `empty()`: a list that holds nothing. */
  function Empty<T>(): (c: Callbacks<T>)
    ensures Valid(c) && Elements(c) == []
  {
    Callbacks(None, None)
  }

  /** `init(_ ele)`: a list that holds exactly `ele`. */
  function Single<T>(ele: T): (c: Callbacks<T>)
    ensures Valid(c) && Elements(c) == [ele]
  {
    Callbacks(Some(ele), None)
  }

  /** `append(_ callback)`: the new element goes after all the old ones. */
  function Append<T>(c: Callbacks<T>, callback: T): (r: Callbacks<T>)
    ensures Valid(c) ==> Valid(r) && Elements(r) == Elements(c) + [callback]
    ensures Valid(c) && Elements(c) == [] ==> r == Single(callback)
    ensures Elements(c) != [] ==> r.first == c.first
  {
    if c.first.None? then Callbacks(Some(callback), c.furthers)
    else if c.furthers.Some? then Callbacks(c.first, Some(c.furthers.value + [callback]))
    else Callbacks(c.first, Some([callback]))
  }

  /** `putAll(into:)`: the slice keeps its prefix and receives every element after it. */
  function PutAll<T>(c: Callbacks<T>, into: seq<T>): (r: seq<T>)
    ensures r == into + Elements(c)
  {
    match (c.first, c.furthers)
    case (None, _) => into
    case (Some(only), None) => into + [only]
    case (Some(first), Some(others)) => into + [first] + others
  }

  /** `all()`: the elements in order, through the fast paths or through `putAll`. */
  function All<T>(c: Callbacks<T>): (r: seq<T>)
    ensures r == Elements(c)
    ensures r == PutAll(c, [])
  {
    match (c.first, c.furthers)
    case (None, _) => []
    case (Some(only), None) => [only]
    case _ => PutAll(c, [])
  }

  /** Concatenation is associative. */
  lemma ConcatAssoc<T>(a: seq<T>, b: seq<T>, c: seq<T>)
    ensures a + b + c == a + (b + c)
  {
  }

  /** A non-empty sequence is its head followed by its tail. */
  lemma HeadTail<T>(s: seq<T>)
    requires s != []
    ensures s == [s[0]] + s[1..]
  {
  }

  /** The list built by appending `xs` one at a time to a fresh list. */
  function Registered<T>(xs: seq<T>): Callbacks<T>
  {
    if xs == [] then Empty() else Append(Registered(xs[..|xs| - 1]), xs[|xs| - 1])
  }

  /** Registering callbacks one by one keeps their order: `all()` gives them back as registered. */
  lemma {:induction false} RegistrationOrder<T>(xs: seq<T>)
    ensures Valid(Registered(xs)) && All(Registered(xs)) == xs
  {
    if xs != [] {
      var init, last := xs[..|xs| - 1], xs[|xs| - 1];
      RegistrationOrder(init);
      assert init + [last] == xs;
    }
  }

  // ---------------------------------------------------------------------------
  // The trampoline
  // ---------------------------------------------------------------------------

  /** An opaque callback. */
  type Id = nat

  /** What each callback returns when it is invoked. */
  type Env = map<Id, Callbacks<Id>>

  /** Every id returned by callback `k` ranks below `k`. */
  ghost predicate Closed(env: Env)
  {
    forall k, i :: k in env && 0 <= i < |Elements(env[k])| ==> Elements(env[k])[i] < k
  }

  /** What callback `f` returns when invoked; a callback that `env` does not list returns an empty list. */
  function Returns(env: Env, f: Id): Callbacks<Id>
  {
    if f in env then env[f] else Empty()
  }

  /** Every callback returns an empty list, as every callback built in Promise.swift does. */
  ghost predicate Quiet(env: Env)
  {
    forall k :: k in env ==> Elements(env[k]) == []
  }

  /** What callback `f` returns, as a worklist. */
  ghost function Next(env: Env, f: Id): (s: seq<Id>)
    requires Closed(env)
    ensures forall i :: 0 <= i < |s| ==> s[i] < f
  {
    Elements(Returns(env, f))
  }

  /** A strict upper bound of the ids in `s`. */
  ghost function Bound(s: seq<Id>): (b: nat)
    ensures forall i :: 0 <= i < |s| ==> s[i] < b
  {
    if s == [] then 0
    else
      var t := Bound(s[1..]);
      assert forall i :: 1 <= i < |s| ==> s[i] == s[1..][i - 1];
      if s[0] + 1 > t then s[0] + 1 else t
  }

  lemma {:induction false} BoundBelow(s: seq<Id>, k: nat)
    requires forall i :: 0 <= i < |s| ==> s[i] < k
    ensures Bound(s) <= k
  {
    if s != [] {
      BoundBelow(s[1..], k);
    }
  }

  /**
   * Every invocation that running the worklist `s` causes, in pre-order: each
   * callback of `s`, followed by everything the callbacks it returns lead to.
   */
  ghost function Flat(env: Env, s: seq<Id>): seq<Id>
    requires Closed(env)
    decreases Bound(s), |s|
  {
    if s == [] then []
    else
      var ch := Next(env, s[0]);
      BoundBelow(ch, s[0]);
      [s[0]] + Flat(env, ch) + Flat(env, s[1..])
  }

  lemma {:induction false} FlatCons(env: Env, f: Id, rest: seq<Id>)
    requires Closed(env)
    ensures Flat(env, [f] + rest) == [f] + Flat(env, Next(env, f)) + Flat(env, rest)
  {
    assert ([f] + rest)[0] == f;
    assert ([f] + rest)[1..] == rest;
  }

  lemma {:induction false} FlatAppend(env: Env, a: seq<Id>, b: seq<Id>)
    requires Closed(env)
    ensures Flat(env, a + b) == Flat(env, a) + Flat(env, b)
  {
    if a == [] {
      assert a + b == b;
    } else {
      var f := a[0];
      FlatCons(env, f, a[1..]);
      assert [f] + a[1..] == a;
      assert [f] + (a[1..] + b) == a + b;
      FlatAppend(env, a[1..], b);
      FlatCons(env, f, a[1..] + b);
      ConcatAssoc([f] + Flat(env, Next(env, f)), Flat(env, a[1..]), Flat(env, b));
    }
  }

  /** The amount of work left in a worklist: the number of invocations it will cause. */
  ghost function Work(env: Env, s: seq<Id>): nat
    requires Closed(env)
  {
    |Flat(env, s)|
  }

  /** The invocations of `[f]`: `f` itself, then everything its returned list leads to. */
  lemma {:induction false} FlatOne(env: Env, f: Id)
    requires Closed(env)
    ensures Flat(env, [f]) == [f] + Flat(env, Next(env, f))
  {
    FlatCons(env, f, []);
    assert [f] + [] == [f];
    assert Flat(env, []) == [];
  }

  /** Popping `f` off the worklist and putting what it returns back removes exactly the invocation of `f`. */
  lemma {:induction false} FlatStep(env: Env, rest: seq<Id>, f: Id, p: seq<Id>)
    requires Closed(env)
    requires p == [f] + rest || p == rest + [f]
    ensures multiset(Flat(env, p)) == multiset{f} + multiset(Flat(env, rest + Next(env, f)))
    ensures Work(env, p) == 1 + Work(env, rest + Next(env, f))
  {
    var ch := Next(env, f);
    var b, c := Flat(env, ch), Flat(env, rest);
    FlatAppend(env, rest, ch);
    if p == [f] + rest {
      FlatCons(env, f, rest);
    } else {
      FlatAppend(env, rest, [f]);
      FlatOne(env, f);
    }
    assert Flat(env, p) == [f] + b + c || Flat(env, p) == c + ([f] + b);
    ShuffleCount(f, b, c, Flat(env, p), Flat(env, rest + ch));
  }

  /** The work part of `FlatStep`. */
  lemma WorkStep(env: Env, rest: seq<Id>, f: Id, p: seq<Id>)
    requires Closed(env)
    requires p == [f] + rest || p == rest + [f]
    ensures Work(env, p) == 1 + Work(env, rest + Next(env, f))
  {
    FlatStep(env, rest, f, p);
  }

  lemma {:induction false} ShuffleCount(f: Id, b: seq<Id>, c: seq<Id>, x: seq<Id>, y: seq<Id>)
    requires x == [f] + b + c || x == c + ([f] + b)
    requires y == c + b
    ensures multiset(x) == multiset{f} + multiset(y) && |x| == 1 + |y|
  {
    assert multiset(y) == multiset(c) + multiset(b);
    if x == [f] + b + c {
      assert multiset(x) == multiset([f]) + multiset(b) + multiset(c);
    } else {
      assert multiset(x) == multiset(c) + (multiset([f]) + multiset(b));
    }
  }

  /** The ids returned by the callbacks of `p`, concatenated in the order of `p`. */
  ghost function Children(env: Env, p: seq<Id>): (s: seq<Id>)
    requires Closed(env)
  {
    if p == [] then []
    else
      Next(env, p[0]) + Children(env, p[1..])
  }

  /** The trace of the multi-entry loop (lines 91-95): pop the front, queue what it returns at the back. */
  ghost function FifoTrace(env: Env, pending: seq<Id>): seq<Id>
    requires Closed(env)
    decreases Work(env, pending)
  {
    if pending == [] then []
    else
      var f := pending[0];
      assert [f] + pending[1..] == pending;
      WorkStep(env, pending[1..], f, pending);
      [f] + FifoTrace(env, pending[1..] + Next(env, f))
  }

  /** The trace of the inner loop of the single-entry path (lines 82-86): pop the back, push what it returns. */
  ghost function LifoTrace(env: Env, pending: seq<Id>): seq<Id>
    requires Closed(env)
    decreases Work(env, pending)
  {
    if pending == [] then []
    else
      var n := |pending| - 1;
      var f := pending[n];
      assert pending[..n] + [f] == pending;
      WorkStep(env, pending[..n], f, pending);
      [f] + LifoTrace(env, pending[..n] + Next(env, f))
  }

  /** One step of the multi-entry loop, and the work it leaves. */
  lemma {:induction false} FifoPop(env: Env, f: Id, rest: seq<Id>)
    requires Closed(env)
    ensures FifoTrace(env, [f] + rest) == [f] + FifoTrace(env, rest + Next(env, f))
    ensures Work(env, rest + Next(env, f)) < Work(env, [f] + rest)
  {
    var pending := [f] + rest;
    assert pending[0] == f && pending[1..] == rest;
    FlatStep(env, rest, f, pending);
  }

  /** One step of the inner single-entry loop, and the work it leaves. */
  lemma {:induction false} LifoPop(env: Env, init: seq<Id>, f: Id)
    requires Closed(env)
    ensures LifoTrace(env, init + [f]) == [f] + LifoTrace(env, init + Next(env, f))
    ensures Work(env, init + Next(env, f)) < Work(env, init + [f])
  {
    var pending := init + [f];
    var n := |pending| - 1;
    assert pending[..n] == init && pending[n] == f;
    FlatStep(env, init, f, pending);
  }

  lemma {:induction false} LifoUnfold(env: Env, pending: seq<Id>)
    requires Closed(env) && pending != []
    ensures var n := |pending| - 1;
            var rest := pending[..n] + Next(env, pending[n]);
            LifoTrace(env, pending) == [pending[n]] + LifoTrace(env, rest)
            && Work(env, rest) < Work(env, pending)
  {
    var n := |pending| - 1;
    assert pending[..n] + [pending[n]] == pending;
    LifoPop(env, pending[..n], pending[n]);
  }

  /** The trace of the single-entry path (lines 72-88), starting from callback `only`. */
  ghost function ChainTrace(env: Env, only: Id): seq<Id>
    requires Closed(env)
    decreases only
  {
    var cbl := Returns(env, only);
    if cbl.first.None? then [only]
    else if cbl.furthers.None? then
      assert Next(env, only)[0] == cbl.first.value;
      [only] + ChainTrace(env, cbl.first.value)
    else [only] + LifoTrace(env, Next(env, only))
  }

  /** The trace of `run()` on the list `c`. */
  ghost function RunTrace(env: Env, c: Callbacks<Id>): seq<Id>
    requires Closed(env)
  {
    if c.first.None? then []
    else if c.furthers.None? then
      assert Elements(c)[0] == c.first.value;
      ChainTrace(env, c.first.value)
    else FifoTrace(env, Elements(c))
  }

  /** One round of the single-entry loop: what invoking `only` leads to, by the shape of what it returns. */
  lemma {:induction false} ChainStep(env: Env, only: Id)
    requires Closed(env)
    ensures var cbl := Returns(env, only);
            && (cbl.first.None? ==> ChainTrace(env, only) == [only])
            && (cbl.first.Some? && cbl.furthers.None? ==>
                  cbl.first.value < only && ChainTrace(env, only) == [only] + ChainTrace(env, cbl.first.value))
            && (cbl.first.Some? && cbl.furthers.Some? ==>
                  All(cbl) == Next(env, only) && ChainTrace(env, only) == [only] + LifoTrace(env, All(cbl)))
  {
    var cbl := Returns(env, only);
    if cbl.first.Some? {
      assert Next(env, only)[0] == cbl.first.value;
    }
  }

  /** `run()`: executes the callbacks and everything they return, with worklists instead of recursion. */
  method Run(c: Callbacks<Id>, env: Env) returns (trace: seq<Id>)
    requires Closed(env)
    ensures trace == RunTrace(env, c)
    ensures multiset(trace) == multiset(Flat(env, Elements(c)))
  {
    if c.first.None? {
      trace := [];
    } else if c.furthers.None? {
      trace := RunChain(c.first.value, env);
    } else {
      trace := RunQueue(All(c), env);
    }
    RunRunsEachOnce(env, c);
  }

  /** The single-entry path of `run()` (lines 72-88): follow single results, drain the first longer one as a stack. */
  method RunChain(start: Id, env: Env) returns (trace: seq<Id>)
    requires Closed(env)
    ensures trace == ChainTrace(env, start)
  {
    trace := [];
    var only := start;
    while true
      invariant trace + ChainTrace(env, only) == ChainTrace(env, start)
      decreases only
    {
      ChainStep(env, only);
      var cbl := Returns(env, only);
      if cbl.first.None? {
        trace := trace + [only];
        break;
      } else if cbl.furthers.None? {
        ConcatAssoc(trace, [only], ChainTrace(env, cbl.first.value));
        trace, only := trace + [only], cbl.first.value;
      } else {
        var rest := RunStack(All(cbl), env);
        ConcatAssoc(trace, [only], rest);
        trace := trace + [only] + rest;
        break;
      }
    }
  }

  /** The inner loop of the single-entry path (lines 81-86): pop the last callback, push what it returns. */
  method RunStack(start: seq<Id>, env: Env) returns (trace: seq<Id>)
    requires Closed(env)
    ensures trace == LifoTrace(env, start)
  {
    trace := [];
    var pending := start;
    while pending != []
      invariant trace + LifoTrace(env, pending) == LifoTrace(env, start)
      decreases Work(env, pending)
    {
      var n := |pending| - 1;
      var f, rest := pending[n], pending[..n];
      var more := PutAll(Returns(env, f), rest);
      LifoStep(env, start, trace, pending, more);
      trace, pending := trace + [f], more;
    }
  }

  /** The multi-entry path of `run()` (lines 90-95): pop the first callback, queue what it returns at the back. */
  method RunQueue(start: seq<Id>, env: Env) returns (trace: seq<Id>)
    requires Closed(env)
    ensures trace == FifoTrace(env, start)
  {
    trace := [];
    var pending := start;
    while pending != []
      invariant trace + FifoTrace(env, pending) == FifoTrace(env, start)
      decreases Work(env, pending)
    {
      var f, rest := pending[0], pending[1..];
      var more := PutAll(Returns(env, f), rest);
      FifoStep(env, start, trace, pending, more);
      trace, pending := trace + [f], more;
    }
  }

  /** One turn of `RunStack`'s loop keeps its invariant and shrinks the work left. */
  lemma LifoStep(env: Env, start: seq<Id>, trace: seq<Id>, pending: seq<Id>, more: seq<Id>)
    requires Closed(env) && pending != []
    requires trace + LifoTrace(env, pending) == LifoTrace(env, start)
    requires more == pending[..|pending| - 1] + Next(env, pending[|pending| - 1])
    ensures (trace + [pending[|pending| - 1]]) + LifoTrace(env, more) == LifoTrace(env, start)
    ensures Work(env, more) < Work(env, pending)
  {
    var n := |pending| - 1;
    var f := pending[n];
    LifoUnfold(env, pending);
    assert LifoTrace(env, pending) == [f] + LifoTrace(env, more);
    ConcatAssoc(trace, [f], LifoTrace(env, more));
  }

  /** One turn of `RunQueue`'s loop keeps its invariant and shrinks the work left. */
  lemma FifoStep(env: Env, start: seq<Id>, trace: seq<Id>, pending: seq<Id>, more: seq<Id>)
    requires Closed(env) && pending != []
    requires trace + FifoTrace(env, pending) == FifoTrace(env, start)
    requires more == pending[1..] + Next(env, pending[0])
    ensures (trace + [pending[0]]) + FifoTrace(env, more) == FifoTrace(env, start)
    ensures Work(env, more) < Work(env, pending)
  {
    var f := pending[0];
    HeadTail(pending);
    FifoPop(env, f, pending[1..]);
    assert FifoTrace(env, pending) == [f] + FifoTrace(env, more);
    ConcatAssoc(trace, [f], FifoTrace(env, more));
  }

  // ---------------------------------------------------------------------------
  // What the traces promise
  // ---------------------------------------------------------------------------

  lemma {:induction false} FifoRunsEachOnce(env: Env, pending: seq<Id>)
    requires Closed(env)
    ensures multiset(FifoTrace(env, pending)) == multiset(Flat(env, pending))
    decreases Work(env, pending)
  {
    if pending != [] {
      var f := pending[0];
      var rest := pending[1..] + Next(env, f);
      assert [f] + pending[1..] == pending;
      FlatStep(env, pending[1..], f, pending);
      FifoRunsEachOnce(env, rest);
      assert FifoTrace(env, pending) == [f] + FifoTrace(env, rest);
    }
  }

  lemma {:induction false} LifoRunsEachOnce(env: Env, pending: seq<Id>)
    requires Closed(env)
    ensures multiset(LifoTrace(env, pending)) == multiset(Flat(env, pending))
    decreases Work(env, pending)
  {
    if pending != [] {
      var n := |pending| - 1;
      var f := pending[n];
      var rest := pending[..n] + Next(env, f);
      assert pending[..n] + [f] == pending;
      FlatStep(env, pending[..n], f, pending);
      LifoRunsEachOnce(env, rest);
      assert LifoTrace(env, pending) == [f] + LifoTrace(env, rest);
    }
  }

  lemma {:induction false} ChainRunsEachOnce(env: Env, only: Id)
    requires Closed(env)
    ensures multiset(ChainTrace(env, only)) == multiset(Flat(env, [only]))
    decreases only
  {
    var cbl := Returns(env, only);
    var ch := Next(env, only);
    FlatCons(env, only, []);
    assert [only] + [] == [only];
    assert Flat(env, [only]) == [only] + Flat(env, ch);
    match (cbl.first, cbl.furthers)
    case (None, _) =>
      assert ch == [];
    case (Some(ocb), None) =>
      assert ch == [ocb];
      ChainRunsEachOnce(env, ocb);
      assert ChainTrace(env, only) == [only] + ChainTrace(env, ocb);
    case (Some(_), Some(_)) =>
      LifoRunsEachOnce(env, All(cbl));
      assert ChainTrace(env, only) == [only] + LifoTrace(env, ch);
  }

  /**
   * `run()` invokes every queued callback, and every callback returned by an
   * invoked one, exactly as many times as it occurs: nothing is lost or repeated.
   */
  lemma {:induction false} RunRunsEachOnce(env: Env, c: Callbacks<Id>)
    requires Closed(env)
    ensures multiset(RunTrace(env, c)) == multiset(Flat(env, Elements(c)))
  {
    match (c.first, c.furthers)
    case (None, _) =>
    case (Some(only), None) =>
      assert Elements(c) == [only];
      ChainRunsEachOnce(env, only);
    case _ =>
      FifoRunsEachOnce(env, All(c));
  }

  lemma {:induction false} FifoQuiet(env: Env, pending: seq<Id>)
    requires Closed(env) && Quiet(env)
    ensures FifoTrace(env, pending) == pending
    decreases |pending|
  {
    if pending != [] {
      var f := pending[0];
      assert Next(env, f) == [];
      assert pending[1..] + Next(env, f) == pending[1..];
      FifoQuiet(env, pending[1..]);
      assert FifoTrace(env, pending) == [f] + FifoTrace(env, pending[1..]);
      assert [f] + pending[1..] == pending;
    }
  }

  /**
   * When every callback returns an empty list, `run()` invokes exactly the
   * elements of `all()`, each once, in registration order.
   */
  lemma {:induction false} RunTraceQuiet(env: Env, c: Callbacks<Id>)
    requires Closed(env) && Quiet(env)
    ensures RunTrace(env, c) == All(c)
  {
    match (c.first, c.furthers)
    case (None, _) =>
    case (Some(only), None) =>
      assert Elements(c) == [only];
      assert Elements(Returns(env, only)) == [];
      assert ChainTrace(env, only) == [only];
    case _ =>
      FifoQuiet(env, All(c));
  }

  /**
   * The multi-entry loop is breadth-first: the whole queue runs first, in
   * order, and then everything those callbacks returned, in the same order.
   */
  lemma {:induction false} FifoBreadthFirst(env: Env, p: seq<Id>, q: seq<Id>)
    requires Closed(env)
    ensures FifoTrace(env, p + q) == p + FifoTrace(env, q + Children(env, p))
    decreases |p|
  {
    if p == [] {
      assert p + q == q;
      assert q + Children(env, p) == q;
    } else {
      var f := p[0];
      var q' := q + Next(env, f);
      HeadTail(p);
      ConcatAssoc([f], p[1..], q);
      FifoPop(env, f, p[1..] + q);
      ConcatAssoc(p[1..], q, Next(env, f));
      FifoBreadthFirst(env, p[1..], q');
      assert Children(env, p) == Next(env, f) + Children(env, p[1..]);
      ConcatAssoc(q, Next(env, f), Children(env, p[1..]));
      ConcatAssoc([f], p[1..], FifoTrace(env, q + Children(env, p)));
    }
  }

  /** In the multi-entry path the registered callbacks are the first ones invoked, in registration order. */
  lemma {:induction false} RunStartsWithQueue(env: Env, c: Callbacks<Id>)
    requires Closed(env)
    requires c.first.Some? && c.furthers.Some?
    ensures |RunTrace(env, c)| >= |Elements(c)| && RunTrace(env, c)[..|Elements(c)|] == Elements(c)
  {
    var p := All(c);
    FifoBreadthFirst(env, p, []);
    assert p + [] == p;
    assert RunTrace(env, c) == p + FifoTrace(env, [] + Children(env, p));
  }

  /**
   * The inner loop of the single-entry path is a stack: callbacks pushed
   * later (`s`) run to completion, with everything they return, before any of
   * the earlier ones (`p`).
   */
  lemma {:induction false} LifoShift(env: Env, p: seq<Id>, s: seq<Id>)
    requires Closed(env) && s != []
    ensures var n := |s| - 1;
            LifoTrace(env, p + s) == [s[n]] + LifoTrace(env, p + (s[..n] + Next(env, s[n])))
  {
    var n := |s| - 1;
    var init, f := p + s[..n], s[n];
    assert s[..n] + [f] == s;
    assert init + [f] == p + s;
    LifoPop(env, init, f);
    assert init + Next(env, f) == p + (s[..n] + Next(env, f));
  }

  lemma {:induction false} LifoStack(env: Env, p: seq<Id>, s: seq<Id>)
    requires Closed(env)
    ensures LifoTrace(env, p + s) == LifoTrace(env, s) + LifoTrace(env, p)
    decreases Work(env, s)
  {
    if s == [] {
      assert p + s == p;
    } else {
      var n := |s| - 1;
      var s' := s[..n] + Next(env, s[n]);
      LifoUnfold(env, s);
      LifoShift(env, p, s);
      LifoStack(env, p, s');
      ConcatAssoc([s[n]], LifoTrace(env, s'), LifoTrace(env, p));
    }
  }

  /**
   * When the single callback returned a list `[a, b]`, `b` and all it leads to
   * run before `a`: siblings run in reverse registration order on this path.
   */
  lemma {:induction false} LifoSiblingsReversed(env: Env, a: Id, b: Id)
    requires Closed(env)
    ensures LifoTrace(env, [a, b]) == LifoTrace(env, [b]) + LifoTrace(env, [a])
  {
    LifoStack(env, [a], [b]);
    assert [a] + [b] == [a, b];
  }

  /** Callback 2 returns `[0, 1]`; callbacks 0 and 1 return nothing. */
  function SiblingEnv(): (env: Env)
    ensures Closed(env)
  {
    var env: Env := map[0 := Empty(), 1 := Empty(), 2 := Callbacks(Some(0), Some([1]))];
    assert Elements(env[0]) == [] && Elements(env[1]) == [] && Elements(env[2]) == [0, 1];
    env
  }

  /** On the multi-entry path, 0 runs before 1. */
  lemma {:induction false} SiblingsInQueue()
    ensures RunTrace(SiblingEnv(), Callbacks(Some(0), Some([1]))) == [0, 1]
  {
    var env := SiblingEnv();
    assert Next(env, 0) == [] && Next(env, 1) == [];
    FifoPop(env, 0, [1]);
    FifoPop(env, 1, []);
    assert [1] + [] == [1] && [] + Next(env, 1) == [];
  }

  /** On the single-entry path, 2 returns `[0, 1]` and 1 runs before 0. */
  lemma {:induction false} SiblingsOnStack()
    ensures RunTrace(SiblingEnv(), Single(2)) == [2, 1, 0]
  {
    var env := SiblingEnv();
    assert Next(env, 0) == [] && Next(env, 1) == [];
    assert Elements(Returns(env, 2)) == [0, 1];
    LifoPop(env, [0], 1);
    LifoPop(env, [], 0);
    assert [] + [0] == [0] && [0] + Next(env, 1) == [0] && [] + Next(env, 0) == [];
  }

  /** A concrete instance: the same two callbacks run in opposite orders on the two paths. */
  lemma SiblingOrderDiffersByPath()
    ensures var env := SiblingEnv();
            RunTrace(env, Callbacks(Some(0), Some([1]))) == [0, 1] && RunTrace(env, Single(2)) == [2, 1, 0]
  {
    SiblingsInQueue();
    SiblingsOnStack();
  }
}
