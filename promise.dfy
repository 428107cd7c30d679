/**
 * The write-once promise cell of Sources/Promise/Promise.swift and its
 * chaining rules.
 *
 * A `Promise` holds an optional `result` and a `Callbacks` list of
 * continuations.  The only continuations the file ever registers are the
 * closures built by `map` (settle a child promise with `block(result)`) and by
 * `finally` (hand the result to an observer); both return `.empty()`.
 *
 * Every promise carries three ghost constants: the promise whose `map` created
 * it (`parent`), its distance from a root (`depth`) and its position in the
 * parent's queue (`slot`).  They give the recursion `done -> callback ->
 * next.done` a measure, and they say what a call may touch: only the promises
 * that descend from the one being settled.
 *
 * What `done` does is stated on values: `Snapshot` reads the two fields of
 * every promise of a world into a `State`, and `DoneEffect` computes, from one
 * state, the next one and the `finally` observations made on the way.  Each
 * method is proved to change the world exactly as those functions say; module
 * `Chains` proves what they mean for a tree of promises.
 */
module Promise {
  import opened Opt
  import opened Callback

  // ---------------------------------------------------------------------------
  // Results and the outcome tables of `then` and `catch`
  // ---------------------------------------------------------------------------

  /** The errors a chain can carry: one raised by user code, or the `UnexpectType` of `catch`. */
  datatype Error = Fault(code: nat) | UnexpectType(observed: string)

  /** Swift's `Result<Value, Error>`. */
  datatype Result<V> = Success(value: V) | Failure(error: Error)

  /**
   * What a `catch` handler hands back, read against the closed set of shapes
   * that `catch` tells apart: a value of the promise's type, an error, `Void`,
   * `nil`, a value of some other type (named), or a thrown error.
   */
  datatype Recovery<V> =
    | NewValue(value: V)
    | NewError(error: Error)
    | Nothing
    | Nil
    | OtherType(typeName: string)
    | Threw(thrown: Error)

  /** The closure `then` gives to `map` (lines 152-163); `block` returns `Failure` when it throws. */
  function ThenStep<V>(block: V -> Result<V>, r: Result<V>): Result<V>
  {
    match r
    case Success(v) => block(v)
    case Failure(err) => Failure(err)
  }

  /** The closure `catch` gives to `map` (lines 190-213). */
  function CatchStep<V>(handler: Error -> Recovery<V>, r: Result<V>): Result<V>
  {
    match r
    case Success(v) => Success(v)
    case Failure(err) =>
      match handler(err)
      case NewValue(v) => Success(v)
      case NewError(e) => Failure(e)
      case Nothing => Failure(err)
      case Nil => Failure(err)
      case OtherType(name) => Failure(UnexpectType(name))
      case Threw(e) => Failure(e)
  }

  /** `then` on a success is the block's outcome; on a failure it forwards the error without calling the block. */
  lemma ThenOutcome<V>(block: V -> Result<V>, other: V -> Result<V>, r: Result<V>)
    ensures r.Success? ==> ThenStep(block, r) == block(r.value)
    ensures r.Failure? ==> ThenStep(block, r) == r && ThenStep(block, r) == ThenStep(other, r)
  {
  }

  /** A block that returns its input makes `then` the identity. */
  lemma ThenIdentity<V>(r: Result<V>)
    ensures ThenStep(v => Success(v), r) == r
  {
  }

  /** Two `then`s in a row are one `then` whose block runs the second after the first. */
  lemma ThenThen<V>(f: V -> Result<V>, g: V -> Result<V>, r: Result<V>)
    ensures ThenStep(g, ThenStep(f, r)) == ThenStep(v => ThenStep(g, f(v)), r)
  {
  }

  /** `catch` passes a success through unchanged, whatever the handler. */
  lemma CatchPassesSuccess<V>(handler: Error -> Recovery<V>, r: Result<V>)
    requires r.Success?
    ensures CatchStep(handler, r) == r
  {
  }

  /** `catch` succeeds exactly when the promise succeeded or the handler produced a value of the promise's type. */
  lemma CatchSucceeds<V>(handler: Error -> Recovery<V>, r: Result<V>)
    ensures CatchStep(handler, r).Success? <==> r.Success? || handler(r.error).NewValue?
  {
  }

  /** `catch` keeps the original error exactly when the handler returned `Void` or `nil` (or re-raised that same error). */
  lemma CatchKeepsError<V>(handler: Error -> Recovery<V>, err: Error)
    ensures var h := handler(err);
            (CatchStep(handler, Failure(err)) == Failure(err)
             <==> (h.Nothing? || h.Nil? || (h.NewError? && h.error == err) || (h.Threw? && h.thrown == err)
                   || (h.OtherType? && UnexpectType(h.typeName) == err)))
  {
  }

  /** A handler outcome of a type that is neither the value type nor an error becomes an `UnexpectType` error naming it. */
  lemma CatchUnexpectedType<V>(handler: Error -> Recovery<V>, err: Error, name: string)
    requires handler(err) == OtherType(name)
    ensures CatchStep(handler, Failure(err)) == Failure(UnexpectType(name))
  {
  }

  // ---------------------------------------------------------------------------
  // The cell
  // ---------------------------------------------------------------------------

  /** An observer passed to `finally`. */
  type HandlerId = nat

  /** A queued closure: `map`'s (settle `next` with `block(result)`) or `finally`'s (show the result to `handler`). */
  datatype Continuation<!V> =
    | Forward(next: Promise<V>, block: Result<V> -> Result<V>)
    | Finish(handler: HandlerId)

  /** A `finally` observer receiving a result from the promise `at`. */
  datatype Event<V> = Observed(at: Promise<V>, handler: HandlerId, result: Result<V>)


  class Promise<V> {
    var result: Option<Result<V>>
    var callbacks: Callbacks<Continuation<V>>
    /** The promise whose `map` created this one; `null` for a promise made by an initializer. */
    ghost const parent: Promise?<V>
    ghost const depth: nat
    /** The position `parent`'s `map` gave this promise's closure in `parent`'s queue. */
    ghost const slot: nat

    /** `init()`: a pending promise with no callbacks. */
    constructor (ghost parent: Promise?<V>, ghost slot: nat)
      ensures result == None && callbacks == Empty()
      ensures this.parent == parent && depth == (if parent == null then 0 else parent.depth + 1) && this.slot == slot
    {
      result := None;
      callbacks := Empty();
      this.parent := parent;
      depth := if parent == null then 0 else parent.depth + 1;
      this.slot := slot;
    }

    /** `init(_ value)`: a promise settled with `.success(value)`. */
    constructor Resolved(value: V)
      ensures result == Some(Success(value)) && callbacks == Empty()
      ensures parent == null && depth == 0
    {
      result := None;
      callbacks := Empty();
      parent := null;
      depth := 0;
      slot := 0;
      new;
      ghost var before := Snapshot({this});
      DoneQuiet({this}, before, this, Success(value));
      var events := DoneValue(value, {this});
    }

    /** `init(_ error)`: a promise settled with `.failure(error)`. */
    constructor Rejected(error: Error)
      ensures result == Some(Failure(error)) && callbacks == Empty()
      ensures parent == null && depth == 0
    {
      result := None;
      callbacks := Empty();
      parent := null;
      depth := 0;
      slot := 0;
      new;
      ghost var before := Snapshot({this});
      DoneQuiet({this}, before, this, Failure(error));
      var events := DoneError(error, {this});
    }

    /** `done(_ value)`: `done` with `.success(value)`. */
    method DoneValue(value: V, ghost world: set<Promise<V>>) returns (events: seq<Event<V>>)
      requires this in world && Linked(world)
      modifies world
      ensures Linked(world)
      ensures Snapshot(world) == DoneEffect(world, old(Snapshot(world)), this, Success(value)).state
      ensures events == DoneEffect(world, old(Snapshot(world)), this, Success(value)).events
    {
      events := Done(Success(value), world);
    }

    /** `done(_ error)`: `done` with `.failure(error)`. */
    method DoneError(error: Error, ghost world: set<Promise<V>>) returns (events: seq<Event<V>>)
      requires this in world && Linked(world)
      modifies world
      ensures Linked(world)
      ensures Snapshot(world) == DoneEffect(world, old(Snapshot(world)), this, Failure(error)).state
      ensures events == DoneEffect(world, old(Snapshot(world)), this, Failure(error)).events
    {
      events := Done(Failure(error), world);
    }

    /**
     * `done(_ result)` (lines 88-94): every promise of `world` ends as
     * `DoneEffect` says, and `events` are the `finally` observations the
     * cascade makes, in the order it makes them.  What that means (write-once,
     * registration order, each child's subtree settled as by its own `done`)
     * is proved about `DoneEffect` in module `Chains`.
     */
    method Done(r: Result<V>, ghost world: set<Promise<V>>) returns (events: seq<Event<V>>)
      requires this in world && Linked(world)
      modifies world
      decreases Deeper(world, depth), 4
      ensures Linked(world)
      ensures Snapshot(world) == DoneEffect(world, old(Snapshot(world)), this, r).state
      ensures events == DoneEffect(world, old(Snapshot(world)), this, r).events
    {
      events := [];
      if result.None? {
        events := Settle(r, world);
      }
    }

    /** The first `done` (lines 89-92): store `r`, run the queued callbacks, empty the queue. */
    method Settle(r: Result<V>, ghost world: set<Promise<V>>) returns (events: seq<Event<V>>)
      requires this in world && Linked(world) && result.None?
      modifies world
      decreases Deeper(world, depth), 3
      ensures Linked(world)
      ensures Snapshot(world) == SettleEffect(world, old(Snapshot(world)), this, r).state
      ensures events == SettleEffect(world, old(Snapshot(world)), this, r).events
    {
      ghost var before := Snapshot(world);
      var cbs := All(callbacks);
      Store(r, world);
      ghost var stored := before[this := Cell(Some(r), before[this].callbacks)];
      // `callbacks.run()`: every continuation returns `.empty()`, so the
      // trampoline invokes exactly `all()`, in order (Callback.RunTraceQuiet).
      events := RunCallbacks(cbs, r, world);
      Reset(world);
    }

    /** `self.result = result` (line 90): the result of this promise is stored and nothing else changes. */
    method Store(r: Result<V>, ghost world: set<Promise<V>>)
      requires this in world
      modifies this`result
      ensures result == Some(r)
      ensures Snapshot(world) == old(Snapshot(world))[this := Cell(Some(r), callbacks)]
    {
      ghost var rest := Snapshot(world - {this});
      assert old(Snapshot(world)) == rest[this := Cell(result, callbacks)] by { SnapshotAt(world, this); }
      result := Some(r);
      assert Snapshot(world) == rest[this := Cell(Some(r), callbacks)] by { SnapshotAt(world, this); }
    }

    /** `self.callbacks = Callbacks()` (line 92): the queue of this promise is emptied and nothing else changes. */
    method Reset(ghost world: set<Promise<V>>)
      requires this in world && Linked(world)
      modifies this`callbacks
      ensures Linked(world)
      ensures Snapshot(world) == old(Snapshot(world))[this := Cell(result, Empty())]
    {
      ghost var rest := Snapshot(world - {this});
      assert old(Snapshot(world)) == rest[this := Cell(result, callbacks)] by { SnapshotAt(world, this); }
      callbacks := Empty();
      assert Snapshot(world) == rest[this := Cell(result, Empty())] by { SnapshotAt(world, this); }
    }

    /**
     * `callbacks.run()` on continuations that all return `.empty()`: nothing for
     * an empty list, otherwise each one, in order (Callback.RunTraceQuiet).
     */
    method RunCallbacks(cbs: seq<Continuation<V>>, r: Result<V>, ghost world: set<Promise<V>>) returns (events: seq<Event<V>>)
      requires this in world && Linked(world) && result == Some(r) && Offspring(this, cbs, world)
      modifies world
      decreases Deeper(world, depth), 2
      ensures Linked(world) && result == Some(r)
      ensures Snapshot(world) == QueueEffect(world, old(Snapshot(world)), this, r, cbs).state
      ensures events == QueueEffect(world, old(Snapshot(world)), this, r, cbs).events
    {
      ghost var start := Snapshot(world);
      events := [];
      var k := 0;
      PrefixedNothing(QueueEffect(world, start, this, r, cbs));
      assert cbs[k..] == cbs;
      while k < |cbs|
        invariant 0 <= k <= |cbs|
        invariant Linked(world) && result == Some(r)
        invariant QueueEffect(world, start, this, r, cbs) == Prefixed(events, QueueEffect(world, Snapshot(world), this, r, cbs[k..]))
      {
        ghost var now := Snapshot(world);
        var produced, more := Invoke(cbs[k], world);
        QueueStep(world, now, this, r, cbs, k, events);
        events := events + more;
        k := k + 1;
      }
      assert cbs[k..] == [] && events + [] == events;
    }

    /**
     * Calling a queued closure on a settled promise: `map`'s settles the child
     * with `block(self.result!)` (lines 129-132), `finally`'s hands
     * `self.result!` to the observer (lines 230-233).  Both return `.empty()`.
     */
    method Invoke(c: Continuation<V>, ghost world: set<Promise<V>>) returns (produced: Callbacks<Continuation<V>>, events: seq<Event<V>>)
      requires this in world && Linked(world) && result.Some?
      requires c.Forward? ==> c.next in world && c.next.parent == this
      modifies world
      decreases Deeper(world, depth), 0
      ensures Linked(world) && produced == Empty() && result == old(result)
      ensures Snapshot(world) == CallEffect(world, old(Snapshot(world)), this, c, old(result).value).state
      ensures events == CallEffect(world, old(Snapshot(world)), this, c, old(result).value).events
    {
      ghost var before := Snapshot(world);
      match c {
        case Finish(handler) =>
          events := [Observed(this, handler, result.value)];
        case Forward(next, block) =>
          DeeperShrinks(world, this, next);
          events := next.Done(block(result.value), world);
          CallFrame(world, before, this, c, old(result).value);
          NotDescendsFromChild(this, c);
      }
      produced := Empty();
    }

    /**
     * `addCallback(_:)` (lines 98-104): a pending promise queues the closure
     * and returns `.empty()`; a settled one calls it at once and returns what
     * it produced.
     */
    method AddCallback(c: Continuation<V>, ghost world: set<Promise<V>>) returns (produced: Callbacks<Continuation<V>>, events: seq<Event<V>>)
      requires this in world && Linked(world)
      requires c.Forward? ==> c.next in world && c.next.parent == this && NewTarget(callbacks, c.next)
      modifies world
      ensures Linked(world) && produced == Empty() && result == old(result)
      ensures old(result).None? ==>
                events == [] && Snapshot(world) == old(Snapshot(world))[this := Cell(None, Append(old(callbacks), c))]
      ensures old(result).Some? ==> Snapshot(world) == CallEffect(world, old(Snapshot(world)), this, c, old(result).value).state
      ensures old(result).Some? ==> events == CallEffect(world, old(Snapshot(world)), this, c, old(result).value).events
    {
      if result.None? {
        callbacks := Append(callbacks, c);
        produced, events := Empty(), [];
      } else {
        produced, events := Invoke(c, world);
      }
    }

    /** `withFinish(callback:)` (lines 95-97): `addCallback` followed by `run()` of what it produced. */
    method WithFinish(c: Continuation<V>, ghost world: set<Promise<V>>) returns (events: seq<Event<V>>)
      requires this in world && Linked(world)
      requires c.Forward? ==> c.next in world && c.next.parent == this && NewTarget(callbacks, c.next)
      modifies world
      ensures Linked(world) && result == old(result)
      ensures old(result).None? ==>
                events == [] && Snapshot(world) == old(Snapshot(world))[this := Cell(None, Append(old(callbacks), c))]
      ensures old(result).Some? ==> Snapshot(world) == CallEffect(world, old(Snapshot(world)), this, c, old(result).value).state
      ensures old(result).Some? ==> events == CallEffect(world, old(Snapshot(world)), this, c, old(result).value).events
    {
      var produced;
      produced, events := AddCallback(c, world);
      // `produced.run()`: the list is empty, so the trampoline invokes nothing.
      assert All(produced) == [];
    }

    /**
     * `map(_:)` (lines 127-134): a new promise that is settled with
     * `block(result)` once this one is settled, at once if it already is.
     */
    method Map(block: Result<V> -> Result<V>, ghost world: set<Promise<V>>) returns (next: Promise<V>)
      requires this in world && Linked(world)
      modifies world
      ensures fresh(next) && next.parent == this && Linked(world + {next}) && result == old(result)
      ensures next.callbacks == Empty()
      ensures old(result).None? ==>
                next.result == None
                && Snapshot(world) == old(Snapshot(world))[this := Cell(None, Append(old(callbacks), Forward(next, block)))]
      // settled already: the child is settled now and nothing else changes
      ensures old(result).Some? ==> next.result == Some(block(old(result).value)) && Snapshot(world) == old(Snapshot(world))
    {
      ghost var before := Snapshot(world);
      ghost var queued := callbacks;
      next := new Promise(this, |Elements(callbacks)|);
      LinkedGrows(world, next);
      ghost var grown: State<V> := before[next := Cell(None, Empty())];
      assert Snapshot(world + {next}) == grown by { SnapshotGrows(world, next); }
      var c := Forward(next, block);
      if result.Some? {
        ForwardQuiet(world + {next}, grown, this, c, result.value);
      }
      var events := WithFinish(c, world + {next});
      ghost var after: State<V> := Snapshot(world + {next});
      assert Snapshot(world) == after - {next} && after[next] == Cell(next.result, next.callbacks) by {
        SnapshotGrows(world, next);
      }
      if old(result).None? {
        DropNew(before, next, this, Cell(None, Empty()), Cell(None, Append(queued, c)));
      } else {
        DropNew(before, next, next, Cell(None, Empty()), Cell(Some(block(old(result).value)), Empty()));
      }
    }

    /** `then(_:)` (lines 151-164): `map` with the success-only closure. */
    method Then(block: V -> Result<V>, ghost world: set<Promise<V>>) returns (next: Promise<V>)
      requires this in world && Linked(world)
      modifies world
      ensures fresh(next) && next.parent == this && Linked(world + {next}) && result == old(result)
      ensures next.callbacks == Empty()
      ensures old(result).None? ==>
                next.result == None
                && Snapshot(world) == old(Snapshot(world))[this := Cell(None, Append(old(callbacks), Forward(next, ThenBlock(block))))]
      ensures old(result).Some? ==> next.result == Some(ThenStep(block, old(result).value)) && Snapshot(world) == old(Snapshot(world))
    {
      next := Map(ThenBlock(block), world);
    }

    /** `catch(_:)` (lines 189-214): `map` with the failure-only closure. */
    method Catch(handler: Error -> Recovery<V>, ghost world: set<Promise<V>>) returns (next: Promise<V>)
      requires this in world && Linked(world)
      modifies world
      ensures fresh(next) && next.parent == this && Linked(world + {next}) && result == old(result)
      ensures next.callbacks == Empty()
      ensures old(result).None? ==>
                next.result == None
                && Snapshot(world) == old(Snapshot(world))[this := Cell(None, Append(old(callbacks), Forward(next, CatchBlock(handler))))]
      ensures old(result).Some? ==> next.result == Some(CatchStep(handler, old(result).value)) && Snapshot(world) == old(Snapshot(world))
    {
      next := Map(CatchBlock(handler), world);
    }

    /** `finally(_:)` (lines 229-234): the observer sees the result once it is there, at once if it already is. */
    method Finally(handler: HandlerId, ghost world: set<Promise<V>>) returns (events: seq<Event<V>>)
      requires this in world && Linked(world)
      modifies world
      ensures Linked(world) && result == old(result)
      ensures old(result).None? ==>
                events == [] && Snapshot(world) == old(Snapshot(world))[this := Cell(None, Append(old(callbacks), Finish(handler)))]
      ensures old(result).Some? ==> events == [Observed(this, handler, old(result).value)] && Snapshot(world) == old(Snapshot(world))
    {
      events := WithFinish(Finish(handler), world);
    }
  }

  /** `then`'s closure as a value. */
  function ThenBlock<V>(block: V -> Result<V>): Result<V> -> Result<V>
  {
    r => ThenStep(block, r)
  }

  /** `catch`'s closure as a value. */
  function CatchBlock<V>(handler: Error -> Recovery<V>): Result<V> -> Result<V>
  {
    r => CatchStep(handler, r)
  }

  // ---------------------------------------------------------------------------
  // The shape of a world of promises
  // ---------------------------------------------------------------------------

  /** `q` is `t` or was created, through a chain of `map`s, from `t`. */
  ghost predicate Descends<V>(q: Promise<V>, t: Promise<V>)
    decreases q.depth
  {
    q == t || (q.parent != null && q.parent.depth < q.depth && Descends(q.parent, t))
  }

  /** The promises of `world` at depth `d` or below. */
  ghost function Deeper<V>(world: set<Promise<V>>, d: nat): set<Promise<V>>
  {
    set q | q in world && q.depth >= d
  }

  /** `n` may be queued at the end of `cbs`: its slot is the next position. */
  ghost predicate NewTarget<V>(cbs: Callbacks<Continuation<V>>, n: Promise<V>)
  {
    n.slot == |Elements(cbs)|
  }

  /**
   * What the code keeps true of every promise: a well-formed list, a depth one
   * below its parent, and `map` closures whose targets are its own distinct children.
   */
  ghost predicate Linked<V>(world: set<Promise<V>>)
    reads world`callbacks
  {
    forall q :: q in world ==> Sound(q, world)
  }

  /** What `Linked` demands of one promise. */
  ghost predicate Sound<V>(q: Promise<V>, world: set<Promise<V>>)
    reads q`callbacks
  {
    && Valid(q.callbacks)
    && (q.parent != null ==> q.depth == q.parent.depth + 1)
    && Offspring(q, Elements(q.callbacks), world)
  }

  /**
   * The targets of the `map` closures in `cbs` are children of `p` in `world`,
   * each at its own slot, so no two closures settle the same child.
   */
  ghost predicate Offspring<V>(p: Promise<V>, cbs: seq<Continuation<V>>, world: set<Promise<V>>)
  {
    forall i :: 0 <= i < |cbs| && cbs[i].Forward? ==>
      var n := cbs[i].next;
      n in world && n.parent == p && n.depth == p.depth + 1 && n.slot == i
  }

  // ---------------------------------------------------------------------------
  // The state of a world as a value, and what `done` does to it
  // ---------------------------------------------------------------------------

  /** The two fields of one promise. */
  datatype Cell<!V> = Cell(result: Option<Result<V>>, callbacks: Callbacks<Continuation<V>>)

  /** The fields of every promise of a world. */
  type State<!V> = map<Promise<V>, Cell<V>>

  /** A new state, and the `finally` observations made on the way to it. */
  datatype Outcome<!V> = Outcome(state: State<V>, events: seq<Event<V>>)

  /**
   * The current fields of every promise of `world`.  (The guard repeats the
   * domain so that the map's values outside `world` do not read the heap.)
   */
  ghost function Snapshot<V>(world: set<Promise<V>>): State<V>
    reads world`result, world`callbacks
  {
    map q | q in world :: if q in world then Cell(q.result, q.callbacks) else Cell(None, Empty())
  }

  /** `o` with `events` in front of its observations. */
  function Prefixed<V>(events: seq<Event<V>>, o: Outcome<V>): Outcome<V>
  {
    Outcome(o.state, events + o.events)
  }

  /** `n` is the child `map` queued on `at` in `world`: the only kind of closure whose call settles a promise. */
  ghost predicate Reaches<V>(world: set<Promise<V>>, at: Promise<V>, c: Continuation<V>)
  {
    c.Forward? && c.next in world && c.next.parent == at && at.depth < c.next.depth
  }

  /**
   * `p.done(r)` on the state `t` (lines 88-94): nothing if `p` is settled,
   * otherwise the settle cascade.
   */
  ghost function DoneEffect<V>(world: set<Promise<V>>, t: State<V>, p: Promise<V>, r: Result<V>): Outcome<V>
    requires p in world && p in t
    decreases Deeper(world, p.depth), 2, 0
  {
    if t[p].result.Some? then Outcome(t, []) else SettleEffect(world, t, p, r)
  }

  /** The first `done` (lines 89-92): store `r`, run the queue in order, empty the queue. */
  ghost function SettleEffect<V>(world: set<Promise<V>>, t: State<V>, p: Promise<V>, r: Result<V>): Outcome<V>
    requires p in world && p in t
    decreases Deeper(world, p.depth), 1, 0
  {
    var run := QueueEffect(world, t[p := Cell(Some(r), t[p].callbacks)], p, r, Elements(t[p].callbacks));
    Outcome(run.state[p := Cell(Some(r), Empty())], run.events)
  }

  /** Calling the closures `cbs` of the settled promise `at`, one after another. */
  ghost function QueueEffect<V>(world: set<Promise<V>>, t: State<V>, at: Promise<V>, r: Result<V>, cbs: seq<Continuation<V>>): Outcome<V>
    requires at in world
    decreases Deeper(world, at.depth), 0, |cbs|
  {
    if cbs == [] then Outcome(t, [])
    else
      var first := CallEffect(world, t, at, cbs[0], r);
      Prefixed(first.events, QueueEffect(world, first.state, at, r, cbs[1..]))
  }

  /** Calling one closure of `at`, settled with `r`: `finally`'s observes `r`, `map`'s runs `next.done(block(r))`. */
  ghost function CallEffect<V>(world: set<Promise<V>>, t: State<V>, at: Promise<V>, c: Continuation<V>, r: Result<V>): Outcome<V>
    requires at in world
    decreases Deeper(world, at.depth), 0, 0
  {
    match c
    case Finish(handler) => Outcome(t, [Observed(at, handler, r)])
    case Forward(n, block) =>
      if Reaches(world, at, c) && n in t then
        DeeperShrinks(world, at, n);
        DoneEffect(world, t, n, block(r))
      else Outcome(t, [])
  }

  /** A write-once cell holding `held` after an attempt to store `r`: the first value stored stays. */
  function WriteOnce<T>(held: Option<T>, r: T): Option<T>
  {
    if held.Some? then held else Some(r)
  }

  /** The observations the `finally` closures of `cbs` make when `at` settles with `r`, in order. */
  function Observations<V>(cbs: seq<Continuation<V>>, at: Promise<V>, r: Result<V>): (s: seq<Event<V>>)
    ensures |s| <= |cbs|
  {
    if cbs == [] then []
    else (if cbs[0].Finish? then [Observed(at, cbs[0].handler, r)] else []) + Observations(cbs[1..], at, r)
  }

  /** The events observed at the promise `at`. */
  function Filter<V>(events: seq<Event<V>>, at: Promise<V>): (s: seq<Event<V>>)
    ensures |s| <= |events|
  {
    if events == [] then []
    else
      var last := events[|events| - 1];
      Filter(events[..|events| - 1], at) + (if last.at == at then [last] else [])
  }

  // ---------------------------------------------------------------------------
  // Lemmas about the world
  // ---------------------------------------------------------------------------

  /** A descendant is at least as deep, and at the same depth only the promise itself. */
  lemma {:induction false} DescendsDepth<V>(q: Promise<V>, t: Promise<V>)
    requires Descends(q, t)
    ensures q.depth >= t.depth && (q.depth == t.depth ==> q == t)
    decreases q.depth
  {
    if q != t {
      DescendsDepth(q.parent, t);
    }
  }

  /** A descendant of a child is a descendant of the parent. */
  lemma {:induction false} DescendsThrough<V>(q: Promise<V>, n: Promise<V>, t: Promise<V>)
    requires Descends(q, n) && n.parent == t && t.depth < n.depth
    ensures Descends(q, t)
    decreases q.depth
  {
    if q != n {
      DescendsThrough(q.parent, n, t);
    }
  }

  lemma DeeperShrinks<V>(world: set<Promise<V>>, p: Promise<V>, n: Promise<V>)
    requires p in world && p.depth < n.depth
    ensures Deeper(world, n.depth) < Deeper(world, p.depth)
  {
    assert p in Deeper(world, p.depth) && p !in Deeper(world, n.depth);
  }

  /** The promise itself does not descend from one of its children. */
  lemma NotDescendsFromChild<V>(p: Promise<V>, c: Continuation<V>)
    requires c.Forward? ==> c.next.parent == p && c.next.depth == p.depth + 1
    ensures c.Forward? ==> !Descends(p, c.next)
  {
    if c.Forward? && Descends(p, c.next) {
      DescendsDepth(p, c.next);
    }
  }

  lemma LinkedGrows<V>(world: set<Promise<V>>, n: Promise<V>)
    requires Linked(world) && n !in world && Valid(n.callbacks) && Elements(n.callbacks) == []
    requires n.parent != null && n.parent in world && n.depth == n.parent.depth + 1
    ensures Linked(world + {n})
  {
  }

  /** The snapshot of a world is that of the others with `p`'s fields added. */
  lemma SnapshotAt<V>(world: set<Promise<V>>, p: Promise<V>)
    requires p in world
    ensures Snapshot(world) == Snapshot(world - {p})[p := Cell(p.result, p.callbacks)]
  {
  }

  /** Adding a key to a state, updating one key, then removing the added key. */
  lemma DropNew<V>(t: State<V>, n: Promise<V>, k: Promise<V>, x: Cell<V>, y: Cell<V>)
    requires n !in t
    ensures t[n := x][k := y] - {n} == if k == n then t else t[k := y]
  {
  }

  /** The snapshot of a world with one more promise. */
  lemma SnapshotGrows<V>(world: set<Promise<V>>, n: Promise<V>)
    ensures Snapshot(world + {n}) == Snapshot(world)[n := Cell(n.result, n.callbacks)]
    ensures n !in world ==> Snapshot(world) == Snapshot(world + {n}) - {n}
  {
  }

  lemma {:induction false} FilterAppend<V>(a: seq<Event<V>>, b: seq<Event<V>>, at: Promise<V>)
    ensures Filter(a + b, at) == Filter(a, at) + Filter(b, at)
    decreases |b|
  {
    if b != [] {
      var n := |b| - 1;
      assert (a + b)[..|a + b| - 1] == a + b[..n];
      FilterAppend(a, b[..n], at);
    } else {
      assert a + b == a;
    }
  }

  lemma PrefixedNothing<V>(o: Outcome<V>)
    ensures Prefixed([], o) == o
  {
    assert [] + o.events == o.events;
  }

  /** One turn of the loop of `RunCallbacks`: the closure at `k` moves from the queue still to run into the events. */
  lemma QueueStep<V>(world: set<Promise<V>>, t: State<V>, at: Promise<V>, r: Result<V>, cbs: seq<Continuation<V>>, k: nat,
                     events: seq<Event<V>>)
    requires at in world && k < |cbs|
    ensures var step := CallEffect(world, t, at, cbs[k], r);
            Prefixed(events, QueueEffect(world, t, at, r, cbs[k..]))
            == Prefixed(events + step.events, QueueEffect(world, step.state, at, r, cbs[k + 1..]))
  {
    assert cbs[k..][0] == cbs[k];
    assert cbs[k..][1..] == cbs[k + 1..];
    var step := CallEffect(world, t, at, cbs[k], r);
    ConcatAssoc(events, step.events, QueueEffect(world, step.state, at, r, cbs[k + 1..]).events);
  }

  /** `done` on a pending promise with an empty queue only stores the result. */
  lemma DoneQuiet<V>(world: set<Promise<V>>, t: State<V>, p: Promise<V>, r: Result<V>)
    requires p in world && p in t && t[p].result.None? && Elements(t[p].callbacks) == []
    ensures DoneEffect(world, t, p, r) == Outcome(t[p := Cell(Some(r), Empty())], [])
  {
    var stored := t[p := Cell(Some(r), t[p].callbacks)];
    assert QueueEffect(world, stored, p, r, []) == Outcome(stored, []);
    assert stored[p := Cell(Some(r), Empty())] == t[p := Cell(Some(r), Empty())];
  }

  /** Calling `map`'s closure for a pending child with an empty queue only settles the child. */
  lemma ForwardQuiet<V>(world: set<Promise<V>>, t: State<V>, at: Promise<V>, c: Continuation<V>, r: Result<V>)
    requires at in world && Reaches(world, at, c) && c.next in t
    requires t[c.next].result.None? && Elements(t[c.next].callbacks) == []
    ensures CallEffect(world, t, at, c, r) == Outcome(t[c.next := Cell(Some(c.block(r)), Empty())], [])
  {
    DoneQuiet(world, t, c.next, c.block(r));
  }

  // ---------------------------------------------------------------------------
  // What a cascade leaves alone
  // ---------------------------------------------------------------------------

  /** None of the closures of `cbs` that settle a child of `at` settles an ancestor of `q`. */
  ghost predicate Outside<V>(q: Promise<V>, world: set<Promise<V>>, at: Promise<V>, cbs: seq<Continuation<V>>)
  {
    forall j :: 0 <= j < |cbs| && Reaches(world, at, cbs[j]) ==> !Descends(q, cbs[j].next)
  }

  /** `done` on `p` changes only `p` and its descendants, and observes nothing elsewhere. */
  lemma {:induction false} DoneFrame<V>(world: set<Promise<V>>, t: State<V>, p: Promise<V>, r: Result<V>)
    requires p in world && p in t
    decreases Deeper(world, p.depth), 2, 0
    ensures DoneEffect(world, t, p, r).state.Keys == t.Keys
    ensures forall q :: q in t && !Descends(q, p) ==> DoneEffect(world, t, p, r).state[q] == t[q]
    ensures forall q :: !Descends(q, p) ==> Filter(DoneEffect(world, t, p, r).events, q) == []
  {
    if t[p].result.None? {
      SettleFrame(world, t, p, r);
    }
  }

  lemma {:induction false} SettleFrame<V>(world: set<Promise<V>>, t: State<V>, p: Promise<V>, r: Result<V>)
    requires p in world && p in t
    decreases Deeper(world, p.depth), 1, 0
    ensures SettleEffect(world, t, p, r).state.Keys == t.Keys
    ensures forall q :: q in t && !Descends(q, p) ==> SettleEffect(world, t, p, r).state[q] == t[q]
    ensures forall q :: !Descends(q, p) ==> Filter(SettleEffect(world, t, p, r).events, q) == []
  {
    var cbs := Elements(t[p].callbacks);
    var stored := t[p := Cell(Some(r), t[p].callbacks)];
    assert stored.Keys == t.Keys;
    QueueFrame(world, stored, p, r, cbs);
    forall q | !Descends(q, p)
      ensures q != p && Outside(q, world, p, cbs)
    {
      forall j | 0 <= j < |cbs| && Reaches(world, p, cbs[j])
        ensures !Descends(q, cbs[j].next)
      {
        if Descends(q, cbs[j].next) {
          DescendsThrough(q, cbs[j].next, p);
        }
      }
    }
  }

  lemma {:induction false} QueueFrame<V>(world: set<Promise<V>>, t: State<V>, at: Promise<V>, r: Result<V>, cbs: seq<Continuation<V>>)
    requires at in world
    decreases Deeper(world, at.depth), 0, |cbs|
    ensures QueueEffect(world, t, at, r, cbs).state.Keys == t.Keys
    ensures forall q :: q in t && Outside(q, world, at, cbs) ==> QueueEffect(world, t, at, r, cbs).state[q] == t[q]
    ensures forall q :: q != at && Outside(q, world, at, cbs) ==> Filter(QueueEffect(world, t, at, r, cbs).events, q) == []
  {
    if cbs != [] {
      var first := CallEffect(world, t, at, cbs[0], r);
      CallFrame(world, t, at, cbs[0], r);
      QueueFrame(world, first.state, at, r, cbs[1..]);
      var rest := QueueEffect(world, first.state, at, r, cbs[1..]);
      forall q | Outside(q, world, at, cbs)
        ensures (Reaches(world, at, cbs[0]) ==> !Descends(q, cbs[0].next)) && Outside(q, world, at, cbs[1..])
      {
        forall j | 0 <= j < |cbs[1..]| && Reaches(world, at, cbs[1..][j])
          ensures !Descends(q, cbs[1..][j].next)
        {
          assert cbs[1..][j] == cbs[j + 1];
        }
      }
      forall q | q != at && Outside(q, world, at, cbs)
        ensures Filter(first.events + rest.events, q) == []
      {
        FilterAppend(first.events, rest.events, q);
      }
    }
  }

  lemma {:induction false} CallFrame<V>(world: set<Promise<V>>, t: State<V>, at: Promise<V>, c: Continuation<V>, r: Result<V>)
    requires at in world
    decreases Deeper(world, at.depth), 0, 0
    ensures CallEffect(world, t, at, c, r).state.Keys == t.Keys
    ensures forall q :: q in t && (Reaches(world, at, c) ==> !Descends(q, c.next)) ==> CallEffect(world, t, at, c, r).state[q] == t[q]
    ensures forall q :: q != at && (Reaches(world, at, c) ==> !Descends(q, c.next)) ==> Filter(CallEffect(world, t, at, c, r).events, q) == []
  {
    match c
    case Finish(handler) =>
      var e := Observed(at, handler, r);
      assert [e][..0] == [];
    case Forward(n, block) =>
      if Reaches(world, at, c) && n in t {
        DeeperShrinks(world, at, n);
        DoneFrame(world, t, n, block(r));
      }
  }
}
