/**
 * What one `done` does to a whole tree of promises built by `map`, `then`,
 * `catch` and `finally`, stated on the state values of module `Promise`, and
 * small programs that chain those operations and then settle the root.
 *
 * The central facts: settling a pending promise settles it once, shows its
 * result to its own `finally` observers in registration order, and leaves the
 * subtree below each queued child exactly as that child's own `done` with
 * the mapped result would leave it.  Applied again at the child, this reaches
 * every promise of a chain, however long.
 */
module Chains {
  import opened Opt
  import opened Callback
  import opened Promise

  // ---------------------------------------------------------------------------
  // Two outcomes that agree below a promise
  // ---------------------------------------------------------------------------

  /** `t` and `u` hold the same promises below `p`, with the same fields. */
  ghost predicate Agree<V>(t: State<V>, u: State<V>, p: Promise<V>)
  {
    && (forall q :: q in t && Descends(q, p) ==> q in u && t[q] == u[q])
    && (forall q :: q in u && Descends(q, p) ==> q in t)
  }

  /** `o` and `o'` agree below `p`, and every promise of theirs below `p` observed the same events in both. */
  ghost predicate Same<V>(o: Outcome<V>, o': Outcome<V>, p: Promise<V>)
  {
    && Agree(o.state, o'.state, p)
    && forall q :: q in o.state && Descends(q, p) ==> Filter(o.events, q) == Filter(o'.events, q)
  }

  /** Two promises at the same depth with a common descendant are the same promise. */
  lemma {:induction false} SameDepthAncestor<V>(q: Promise<V>, m: Promise<V>, n: Promise<V>)
    requires Descends(q, m) && Descends(q, n) && m.depth == n.depth
    ensures m == n
    decreases q.depth
  {
    if q == m {
      DescendsDepth(q, n);
    } else if q == n {
      DescendsDepth(q, m);
    } else {
      SameDepthAncestor(q.parent, m, n);
    }
  }

  /** The children queued at `at` other than the one at `i` lie outside the subtree of the one at `i`. */
  lemma Apart<V>(world: set<Promise<V>>, at: Promise<V>, cbs: seq<Continuation<V>>, i: nat, q: Promise<V>)
    requires Offspring(at, cbs, world) && i < |cbs| && cbs[i].Forward? && Descends(q, cbs[i].next)
    ensures q != at
    ensures forall j :: 0 <= j < |cbs| && j != i && cbs[j].Forward? ==> !Descends(q, cbs[j].next)
  {
    DescendsDepth(q, cbs[i].next);
    forall j | 0 <= j < |cbs| && j != i && cbs[j].Forward?
      ensures !Descends(q, cbs[j].next)
    {
      if Descends(q, cbs[j].next) {
        SameDepthAncestor(q, cbs[i].next, cbs[j].next);
      }
    }
  }

  /** Below a child of `at` agreement follows from agreement below `at`. */
  lemma AgreeBelow<V>(t: State<V>, u: State<V>, at: Promise<V>, n: Promise<V>)
    requires Agree(t, u, at) && n.parent == at && at.depth < n.depth
    ensures Agree(t, u, n)
  {
    forall q | Descends(q, n)
      ensures (q in t <==> q in u) && (q in t ==> t[q] == u[q])
    {
      DescendsThrough(q, n, at);
    }
  }

  // ---------------------------------------------------------------------------
  // `done` depends only on the subtree it settles
  // ---------------------------------------------------------------------------

  /** Two states that agree below `p` give outcomes of `p.done(r)` that agree below `p`, with the same events. */
  lemma {:induction false} DoneLocal<V>(world: set<Promise<V>>, t: State<V>, u: State<V>, p: Promise<V>, r: Result<V>)
    requires p in world && p in t && Agree(t, u, p)
    decreases Deeper(world, p.depth), 2, 0
    ensures p in u
    ensures Agree(DoneEffect(world, t, p, r).state, DoneEffect(world, u, p, r).state, p)
    ensures DoneEffect(world, t, p, r).events == DoneEffect(world, u, p, r).events
  {
    assert Descends(p, p);
    if t[p].result.None? {
      SettleLocal(world, t, u, p, r);
    }
  }

  lemma {:induction false} SettleLocal<V>(world: set<Promise<V>>, t: State<V>, u: State<V>, p: Promise<V>, r: Result<V>)
    requires p in world && p in t && p in u && Agree(t, u, p)
    decreases Deeper(world, p.depth), 1, 0
    ensures Agree(SettleEffect(world, t, p, r).state, SettleEffect(world, u, p, r).state, p)
    ensures SettleEffect(world, t, p, r).events == SettleEffect(world, u, p, r).events
  {
    assert Descends(p, p);
    var cbs := Elements(t[p].callbacks);
    var st := t[p := Cell(Some(r), t[p].callbacks)];
    var su := u[p := Cell(Some(r), u[p].callbacks)];
    QueueLocal(world, st, su, p, r, cbs);
  }

  lemma {:induction false} QueueLocal<V>(world: set<Promise<V>>, t: State<V>, u: State<V>, at: Promise<V>, r: Result<V>,
                                         cbs: seq<Continuation<V>>)
    requires at in world && Agree(t, u, at)
    decreases Deeper(world, at.depth), 0, |cbs|
    ensures Agree(QueueEffect(world, t, at, r, cbs).state, QueueEffect(world, u, at, r, cbs).state, at)
    ensures QueueEffect(world, t, at, r, cbs).events == QueueEffect(world, u, at, r, cbs).events
  {
    if cbs != [] {
      CallLocal(world, t, u, at, cbs[0], r);
      QueueLocal(world, CallEffect(world, t, at, cbs[0], r).state, CallEffect(world, u, at, cbs[0], r).state, at, r, cbs[1..]);
    }
  }

  lemma {:induction false} CallLocal<V>(world: set<Promise<V>>, t: State<V>, u: State<V>, at: Promise<V>, c: Continuation<V>,
                                        r: Result<V>)
    requires at in world && Agree(t, u, at)
    decreases Deeper(world, at.depth), 0, 0
    ensures Agree(CallEffect(world, t, at, c, r).state, CallEffect(world, u, at, c, r).state, at)
    ensures CallEffect(world, t, at, c, r).events == CallEffect(world, u, at, c, r).events
  {
    if Reaches(world, at, c) {
      var n := c.next;
      assert Descends(n, at);
      if n in t {
        DeeperShrinks(world, at, n);
        AgreeBelow(t, u, at, n);
        DoneLocal(world, t, u, n, c.block(r));
        DoneFrame(world, t, n, c.block(r));
        DoneFrame(world, u, n, c.block(r));
      }
    }
  }

  // ---------------------------------------------------------------------------
  // What `done` does to the promise itself and to each child
  // ---------------------------------------------------------------------------

  /** The observations one closure of `at` makes at `at` itself: its own, if it is `finally`'s. */
  lemma CallRoot<V>(world: set<Promise<V>>, t: State<V>, at: Promise<V>, c: Continuation<V>, r: Result<V>)
    requires at in world
    ensures Filter(CallEffect(world, t, at, c, r).events, at) == if c.Finish? then [Observed(at, c.handler, r)] else []
  {
    match c
    case Finish(h) =>
      assert [Observed(at, h, r)][..0] == [];
    case Forward(n, b) =>
      if Reaches(world, at, c) && n in t {
        DeeperShrinks(world, at, n);
        DoneFrame(world, t, n, b(r));
        if Descends(at, n) {
          DescendsDepth(at, n);
        }
      }
  }

  /** The observations the queue of `at` makes at `at` itself are those of its `finally` closures, in order. */
  lemma {:induction false} QueueRoot<V>(world: set<Promise<V>>, t: State<V>, at: Promise<V>, r: Result<V>, cbs: seq<Continuation<V>>)
    requires at in world
    decreases |cbs|
    ensures Filter(QueueEffect(world, t, at, r, cbs).events, at) == Observations(cbs, at, r)
  {
    if cbs != [] {
      var first := CallEffect(world, t, at, cbs[0], r);
      var rest := QueueEffect(world, first.state, at, r, cbs[1..]);
      assert QueueEffect(world, t, at, r, cbs).events == first.events + rest.events;
      QueueRoot(world, first.state, at, r, cbs[1..]);
      FilterAppend(first.events, rest.events, at);
      CallRoot(world, t, at, cbs[0], r);
    }
  }

  /**
   * `p.done(r)` on the promise itself: the result is write-once; a pending
   * promise ends with an empty queue after its `finally` observers saw `r`
   * in registration order; a settled one is left as it was, with nothing observed.
   */
  lemma DoneRoot<V>(world: set<Promise<V>>, t: State<V>, p: Promise<V>, r: Result<V>)
    requires p in world && p in t
    ensures p in DoneEffect(world, t, p, r).state
    ensures DoneEffect(world, t, p, r).state[p].result == WriteOnce(t[p].result, r)
    ensures t[p].result.None? ==>
              && DoneEffect(world, t, p, r).state[p].callbacks == Empty()
              && Filter(DoneEffect(world, t, p, r).events, p) == Observations(Elements(t[p].callbacks), p, r)
    ensures t[p].result.Some? ==> DoneEffect(world, t, p, r) == Outcome(t, [])
  {
    if t[p].result.None? {
      var stored := t[p := Cell(Some(r), t[p].callbacks)];
      QueueRoot(world, stored, p, r, Elements(t[p].callbacks));
    }
  }

  /** Running the queue of `at` from position `k` on leaves the subtree of the child queued at `i` as that child's own `done`. */
  lemma {:induction false} QueueChild<V>(world: set<Promise<V>>, t: State<V>, at: Promise<V>, r: Result<V>,
                                         cbs: seq<Continuation<V>>, k: nat, i: nat)
    requires at in world && t.Keys == world
    requires Offspring(at, cbs, world) && k <= i < |cbs| && cbs[i].Forward?
    decreases |cbs| - k
    ensures Same(QueueEffect(world, t, at, r, cbs[k..]), DoneEffect(world, t, cbs[i].next, cbs[i].block(r)), cbs[i].next)
  {
    var n, b := cbs[i].next, cbs[i].block;
    assert cbs[k..][0] == cbs[k] && cbs[k..][1..] == cbs[k + 1..];
    var first := CallEffect(world, t, at, cbs[k], r);
    var rest := QueueEffect(world, first.state, at, r, cbs[k + 1..]);
    CallFrame(world, t, at, cbs[k], r);
    var child := DoneEffect(world, t, n, b(r));
    assert QueueEffect(world, t, at, r, cbs[k..]) == Outcome(rest.state, first.events + rest.events);
    if k == i {
      QueueFrame(world, first.state, at, r, cbs[k + 1..]);
      forall q | Descends(q, n)
        ensures (q in rest.state <==> q in child.state) && (q in rest.state ==> rest.state[q] == child.state[q])
        ensures Filter(first.events + rest.events, q) == Filter(child.events, q)
      {
        Apart(world, at, cbs, i, q);
        var tail := cbs[k + 1..];
        forall j | 0 <= j < |tail| && Reaches(world, at, tail[j])
          ensures !Descends(q, tail[j].next)
        {
          assert tail[j] == cbs[k + 1 + j];
        }
        FilterAppend(first.events, rest.events, q);
      }
    } else {
      QueueChild(world, first.state, at, r, cbs, k + 1, i);
      forall q | Descends(q, n)
        ensures (q in t <==> q in first.state) && (q in t ==> t[q] == first.state[q])
        ensures Filter(first.events + rest.events, q) == Filter(rest.events, q)
      {
        Apart(world, at, cbs, i, q);
        FilterAppend(first.events, rest.events, q);
        assert [] + Filter(rest.events, q) == Filter(rest.events, q);
      }
      DoneLocal(world, first.state, t, n, b(r));
      var moved := DoneEffect(world, first.state, n, b(r));
      assert moved.events == child.events;
      forall q | q in rest.state && Descends(q, n)
        ensures Filter(first.events + rest.events, q) == Filter(child.events, q)
      {
        assert Filter(rest.events, q) == Filter(moved.events, q);
      }
    }
  }

  /**
   * `p.done(r)` on a pending promise leaves the subtree of each child `n`
   * queued by `map` (as `Forward(n, block)`) exactly as `n.done(block(r))`
   * would leave it, with the same observations below `n`.
   */
  lemma DoneChild<V>(world: set<Promise<V>>, t: State<V>, p: Promise<V>, r: Result<V>, i: nat)
    requires p in world && t.Keys == world && t[p].result.None?
    requires Offspring(p, Elements(t[p].callbacks), world)
    requires i < |Elements(t[p].callbacks)| && Elements(t[p].callbacks)[i].Forward?
    ensures var c := Elements(t[p].callbacks)[i];
            Same(DoneEffect(world, t, p, r), DoneEffect(world, t, c.next, c.block(r)), c.next)
  {
    var cbs := Elements(t[p].callbacks);
    var n, b := cbs[i].next, cbs[i].block;
    var stored := t[p := Cell(Some(r), t[p].callbacks)];
    assert cbs[0..] == cbs;
    QueueChild(world, stored, p, r, cbs, 0, i);
    var run := QueueEffect(world, stored, p, r, cbs);
    forall q | Descends(q, n)
      ensures q != p
    {
      Apart(world, p, cbs, i, q);
    }
    DoneLocal(world, stored, t, n, b(r));
  }

  /**
   * The child queued at `i` after `p.done(r)` on a pending `p`: its result is
   * write-once with `block(r)`; a pending child ends with an empty queue after
   * its own `finally` observers saw `block(r)`; a settled one is left alone.
   */
  lemma ChildSettled<V>(world: set<Promise<V>>, t: State<V>, p: Promise<V>, r: Result<V>, i: nat)
    requires p in world && t.Keys == world && t[p].result.None?
    requires Offspring(p, Elements(t[p].callbacks), world)
    requires i < |Elements(t[p].callbacks)| && Elements(t[p].callbacks)[i].Forward?
    ensures var c := Elements(t[p].callbacks)[i];
            var o := DoneEffect(world, t, p, r);
            && c.next in o.state
            && o.state[c.next].result == WriteOnce(t[c.next].result, c.block(r))
            && (t[c.next].result.None? ==>
                  o.state[c.next].callbacks == Empty()
                  && Filter(o.events, c.next) == Observations(Elements(t[c.next].callbacks), c.next, c.block(r)))
            && (t[c.next].result.Some? ==> o.state[c.next] == t[c.next] && Filter(o.events, c.next) == [])
  {
    var c := Elements(t[p].callbacks)[i];
    DoneChild(world, t, p, r, i);
    DoneRoot(world, t, c.next, c.block(r));
    assert Descends(c.next, c.next);
    DoneFrame(world, t, c.next, c.block(r));
  }

  /** `blocks` applied to `r` one after another, first to last. */
  function Apply<V>(blocks: seq<Result<V> -> Result<V>>, r: Result<V>): Result<V>
  {
    if blocks == [] then r else Apply(blocks[1..], blocks[0](r))
  }

  /**
   * A chain of `map`s in the state `t`: each of `ps` except the last is
   * pending and has the next queued, at position `slots[j]`, as
   * `Forward(ps[j + 1], blocks[j])`.
   */
  ghost predicate Chain<V>(world: set<Promise<V>>, t: State<V>, ps: seq<Promise<V>>, blocks: seq<Result<V> -> Result<V>>,
                           slots: seq<nat>)
  {
    && |ps| == |blocks| + 1 && |slots| == |blocks|
    && t.Keys == world && ps[0] in world
    && forall j :: 0 <= j < |blocks| ==>
         && ps[j] in t && t[ps[j]].result.None?
         && Offspring(ps[j], Elements(t[ps[j]].callbacks), world)
         && slots[j] < |Elements(t[ps[j]].callbacks)|
         && Elements(t[ps[j]].callbacks)[slots[j]] == Forward(ps[j + 1], blocks[j])
  }

  /** The tail of a chain is a chain, and its last promise descends from each promise of it. */
  lemma {:induction false} ChainTail<V>(world: set<Promise<V>>, t: State<V>, ps: seq<Promise<V>>,
                                        blocks: seq<Result<V> -> Result<V>>, slots: seq<nat>)
    requires Chain(world, t, ps, blocks, slots) && blocks != []
    ensures Chain(world, t, ps[1..], blocks[1..], slots[1..])
    ensures Descends(ps[|ps| - 1], ps[1]) && ps[1] in t
    decreases |blocks|
  {
    var cbs := Elements(t[ps[0]].callbacks);
    assert cbs[slots[0]] == Forward(ps[1], blocks[0]);
    if |blocks| > 1 {
      ChainTail(world, t, ps[1..], blocks[1..], slots[1..]);
      var next := ps[2];
      var ce := Elements(t[ps[1]].callbacks);
      assert ce[slots[1]] == Forward(next, blocks[1]);
      assert ps[1..][1] == next && ps[1..][|ps[1..]| - 1] == ps[|ps| - 1];
      DescendsThrough(ps[|ps| - 1], next, ps[1]);
    }
  }

  /**
   * `done(r)` on the first promise of a chain reaches the last one as if it
   * were settled with every block of the chain applied to `r` in turn: its
   * result is write-once with that value, and if it was pending its queue is
   * emptied after its `finally` observers saw that value, in order.
   */
  lemma {:induction false} Delivered<V>(world: set<Promise<V>>, t: State<V>, ps: seq<Promise<V>>,
                                        blocks: seq<Result<V> -> Result<V>>, slots: seq<nat>, r: Result<V>)
    requires Chain(world, t, ps, blocks, slots)
    decreases |blocks|
    ensures var last, o := ps[|ps| - 1], DoneEffect(world, t, ps[0], r);
            && last in t && last in o.state
            && o.state[last].result == WriteOnce(t[last].result, Apply(blocks, r))
            && (t[last].result.None? ==>
                  o.state[last].callbacks == Empty()
                  && Filter(o.events, last) == Observations(Elements(t[last].callbacks), last, Apply(blocks, r)))
  {
    var last := ps[|ps| - 1];
    if blocks == [] {
      DoneRoot(world, t, ps[0], r);
    } else {
      ChainTail(world, t, ps, blocks, slots);
      assert ps[1..][|ps[1..]| - 1] == last && ps[1..][0] == ps[1];
      Delivered(world, t, ps[1..], blocks[1..], slots[1..], blocks[0](r));
      DoneChild(world, t, ps[0], r, slots[0]);
      DoneFrame(world, t, ps[0], r);
    }
  }

  /** A single promise is a chain of no `map`s. */
  lemma ChainOne<V>(world: set<Promise<V>>, t: State<V>, p: Promise<V>)
    requires t.Keys == world && p in world
    ensures Chain(world, t, [p], [], [])
  {
  }

  /** A pending promise that queued the first promise of a chain heads a longer chain. */
  lemma ChainCons<V>(world: set<Promise<V>>, t: State<V>, p: Promise<V>, block: Result<V> -> Result<V>, k: nat,
                     ps: seq<Promise<V>>, blocks: seq<Result<V> -> Result<V>>, slots: seq<nat>)
    requires Chain(world, t, ps, blocks, slots) && p in world
    requires t[p].result.None? && Offspring(p, Elements(t[p].callbacks), world)
    requires k < |Elements(t[p].callbacks)| && Elements(t[p].callbacks)[k] == Forward(ps[0], block)
    ensures Chain(world, t, [p] + ps, [block] + blocks, [k] + slots)
  {
    var ps', blocks', slots' := [p] + ps, [block] + blocks, [k] + slots;
    forall j | 0 <= j < |blocks'|
      ensures && ps'[j] in t && t[ps'[j]].result.None?
              && Offspring(ps'[j], Elements(t[ps'[j]].callbacks), world)
              && slots'[j] < |Elements(t[ps'[j]].callbacks)|
              && Elements(t[ps'[j]].callbacks)[slots'[j]] == Forward(ps'[j + 1], blocks'[j])
    {
      if j > 0 {
        assert ps'[j] == ps[j - 1] && ps'[j + 1] == ps[j] && blocks'[j] == blocks[j - 1] && slots'[j] == slots[j - 1];
      }
    }
  }

  /** `Delivered` for a chain of two `map`s below `p`, all three promises pending. */
  lemma TwoLinks<V>(world: set<Promise<V>>, t: State<V>, p: Promise<V>, q: Promise<V>, s: Promise<V>,
                    first: Result<V> -> Result<V>, second: Result<V> -> Result<V>, k: nat, r: Result<V>)
    requires t.Keys == world && p in world && q in world && s in world
    requires t[p].result.None? && Offspring(p, Elements(t[p].callbacks), world)
    requires k < |Elements(t[p].callbacks)| && Elements(t[p].callbacks)[k] == Forward(q, first)
    requires t[q].result.None? && Offspring(q, Elements(t[q].callbacks), world)
    requires Elements(t[q].callbacks) != [] && Elements(t[q].callbacks)[0] == Forward(s, second)
    requires t[s] == Cell(None, Empty())
    ensures DoneEffect(world, t, p, r).state.Keys == world
    ensures DoneEffect(world, t, p, r).state[p] == Cell(Some(r), Empty())
    ensures DoneEffect(world, t, p, r).state[q] == Cell(Some(first(r)), Empty())
    ensures DoneEffect(world, t, p, r).state[s] == Cell(Some(second(first(r))), Empty())
  {
    DoneFrame(world, t, p, r);
    ChainOne(world, t, s);
    ChainCons(world, t, q, second, 0, [s], [], []);
    ChainCons(world, t, p, first, k, [q, s], [second], [0]);
    assert [p] + [q, s] == [p, q, s] && [first] + [second] == [first, second];
    assert [first, second][1..] == [second] && [second][1..] == [];
    assert Apply([first, second], r) == Apply([second], first(r)) == second(first(r));
    Delivered(world, t, [p, q, s], [first, second], [k, 0], r);
    ChainOne(world, t, q);
    ChainCons(world, t, p, first, k, [q], [], []);
    Delivered(world, t, [p, q], [first], [k], r);
    DoneRoot(world, t, p, r);
  }

  /** An event kept by `Filter` is one of the events. */
  lemma {:induction false} FilterIn<V>(events: seq<Event<V>>, at: Promise<V>, e: Event<V>)
    requires e in Filter(events, at)
    ensures e in events && e.at == at
  {
    if events != [] {
      var last := events[|events| - 1];
      if e in Filter(events[..|events| - 1], at) {
        FilterIn(events[..|events| - 1], at, e);
      }
    }
  }

  /** The snapshot of a world holds each promise's own fields. */
  lemma Fields<V>(world: set<Promise<V>>, p: Promise<V>)
    requires p in world
    ensures Snapshot(world).Keys == world && Snapshot(world)[p] == Cell(p.result, p.callbacks)
  {
  }

  /** A linked world's snapshot has the shape the lemmas above ask of a queue. */
  lemma LinkedShaped<V>(world: set<Promise<V>>, p: Promise<V>)
    requires Linked(world) && p in world
    ensures Snapshot(world).Keys == world && Snapshot(world)[p] == Cell(p.result, p.callbacks)
    ensures Valid(p.callbacks) && Offspring(p, Elements(p.callbacks), world)
  {
    assert Sound(p, world);
  }

  // ---------------------------------------------------------------------------
  // Whole chains
  // ---------------------------------------------------------------------------

  /** `map` on a pending promise, then `done(r)`: the child ends up settled with `block(r)`, as when mapped afterwards. */
  method MapThenDone<V>(p: Promise<V>, block: Result<V> -> Result<V>, r: Result<V>, ghost world: set<Promise<V>>)
    returns (q: Promise<V>)
    requires p in world && Linked(world) && p.result == None
    modifies world
    ensures fresh(q) && q.parent == p && Linked(world + {q})
    ensures p.result == Some(r) && p.callbacks == Empty()
    ensures q.result == Some(block(r)) && q.callbacks == Empty()
  {
    LinkedShaped(world, p);
    ghost var before := p.callbacks;
    q := p.Map(block, world);
    Fields(world, p);
    ghost var w := world + {q};
    ghost var queued := Elements(p.callbacks);
    assert queued == Elements(before) + [Forward(q, block)];
    LinkedShaped(w, p);
    Fields(w, q);
    ghost var t := Snapshot(w);
    var events := p.Done(r, w);
    ChildSettled(w, t, p, r, |queued| - 1);
    DoneRoot(w, t, p, r);
    Fields(w, p);
    Fields(w, q);
  }

  /** Two `finally` closures appended to an empty queue observe in the order they were appended. */
  lemma TwoObservers<V>(c: Callbacks<Continuation<V>>, p: Promise<V>, first: HandlerId, second: HandlerId, r: Result<V>)
    requires Valid(c) && Elements(c) == []
    ensures Observations(Elements(Append(Append(c, Finish(first)), Finish(second))), p, r)
            == [Observed(p, first, r), Observed(p, second, r)]
  {
    var queued := Elements(Append(Append(c, Finish(first)), Finish(second)));
    assert queued == [Finish(first), Finish(second)];
    assert queued[1..] == [Finish(second)] && queued[1..][1..] == [];
    assert Observations(queued[1..], p, r) == [Observed(p, second, r)] + [];
  }

  /** Two `finally` observers on a pending promise see its result once each, in registration order. */
  method FinallyThenDone<V>(p: Promise<V>, first: HandlerId, second: HandlerId, r: Result<V>, ghost world: set<Promise<V>>)
    returns (events: seq<Event<V>>)
    requires p in world && Linked(world) && p.result == None && Elements(p.callbacks) == []
    modifies world
    ensures Linked(world) && p.result == Some(r) && p.callbacks == Empty()
    ensures Filter(events, p) == [Observed(p, first, r), Observed(p, second, r)]
  {
    LinkedShaped(world, p);
    ghost var none0 := p.callbacks;
    var none := p.Finally(first, world);
    Fields(world, p);
    none := p.Finally(second, world);
    Fields(world, p);
    TwoObservers(none0, p, first, second, r);
    ghost var t := Snapshot(world);
    events := p.Done(r, world);
    DoneRoot(world, t, p, r);
    Fields(world, p);
  }

  /** A child that only holds one `finally` closure: after `p.done(r)` its observer saw `block(r)` once. */
  lemma ObservedBelow<V>(world: set<Promise<V>>, t: State<V>, p: Promise<V>, q: Promise<V>, block: Result<V> -> Result<V>,
                         h: HandlerId, k: nat, r: Result<V>)
    requires t.Keys == world && p in world
    requires t[p].result.None? && Offspring(p, Elements(t[p].callbacks), world)
    requires k < |Elements(t[p].callbacks)| && Elements(t[p].callbacks)[k] == Forward(q, block)
    requires t[q].result.None? && Elements(t[q].callbacks) == [Finish(h)]
    ensures DoneEffect(world, t, p, r).state.Keys == world
    ensures DoneEffect(world, t, p, r).state[p] == Cell(Some(r), Empty())
    ensures DoneEffect(world, t, p, r).state[q] == Cell(Some(block(r)), Empty())
    ensures Filter(DoneEffect(world, t, p, r).events, q) == [Observed(q, h, block(r))]
    ensures Observed(q, h, block(r)) in DoneEffect(world, t, p, r).events
  {
    DoneFrame(world, t, p, r);
    assert Elements(t[q].callbacks)[1..] == [];
    ChildSettled(world, t, p, r, k);
    DoneRoot(world, t, p, r);
    FilterIn(DoneEffect(world, t, p, r).events, q, Observed(q, h, block(r)));
  }

  /** `map`, then `finally` on the new promise, then `done(r)` on the first: the observer sees `block(r)` once. */
  method MapFinallyThenDone<V>(p: Promise<V>, block: Result<V> -> Result<V>, h: HandlerId, r: Result<V>, ghost world: set<Promise<V>>)
    returns (q: Promise<V>, events: seq<Event<V>>)
    requires p in world && Linked(world) && p.result == None
    modifies world
    ensures fresh(q) && Linked(world + {q})
    ensures p.result == Some(r) && p.callbacks == Empty()
    ensures q.result == Some(block(r)) && q.callbacks == Empty()
    ensures Filter(events, q) == [Observed(q, h, block(r))] && Observed(q, h, block(r)) in events
  {
    LinkedShaped(world, p);
    ghost var before := p.callbacks;
    q := p.Map(block, world);
    Fields(world, p);
    ghost var w := world + {q};
    ghost var queued := Elements(p.callbacks);
    assert queued == Elements(before) + [Forward(q, block)];
    SnapshotGrows(world, q);
    var none := q.Finally(h, w);
    Fields(w, p);
    Fields(w, q);
    LinkedShaped(w, p);
    ghost var t := Snapshot(w);
    events := p.Done(r, w);
    ObservedBelow(w, t, p, q, block, h, |queued| - 1, r);
    Fields(w, p);
    Fields(w, q);
  }

  /** Two `map`s in a row, then `done(r)` on the first promise: the last one holds `second(first(r))`. */
  method MapMapThenDone<V>(p: Promise<V>, first: Result<V> -> Result<V>, second: Result<V> -> Result<V>, r: Result<V>,
                           ghost world: set<Promise<V>>)
    returns (q: Promise<V>, s: Promise<V>)
    requires p in world && Linked(world) && p.result == None
    modifies world
    ensures fresh(q) && fresh(s) && s.parent == q && q.parent == p && Linked(world + {q} + {s})
    ensures p.result == Some(r) && p.callbacks == Empty()
    ensures q.result == Some(first(r)) && q.callbacks == Empty()
    ensures s.result == Some(second(first(r))) && s.callbacks == Empty()
  {
    LinkedShaped(world, p);
    ghost var before := p.callbacks;
    q := p.Map(first, world);
    Fields(world, p);
    ghost var queued := Elements(p.callbacks);
    assert queued == Elements(before) + [Forward(q, first)];
    SnapshotGrows(world, q);
    Fields(world + {q}, p);
    Fields(world + {q}, q);
    s := q.Map(second, world + {q});
    ghost var w := world + {q} + {s};
    Fields(world + {q}, p);
    Fields(world + {q}, q);
    assert Elements(q.callbacks) == [Forward(s, second)];
    SnapshotGrows(world + {q}, s);
    LinkedShaped(w, p);
    LinkedShaped(w, q);
    Fields(w, s);
    ghost var t := Snapshot(w);
    var events := p.Done(r, w);
    TwoLinks(w, t, p, q, s, first, second, |queued| - 1, r);
    Fields(w, p);
    Fields(w, q);
    Fields(w, s);
  }
}
