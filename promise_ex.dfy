/**
 * The array combinator `Promises(_ ps:)` of Sources/Promise/Promise.ex.swift
 * (lines 126-134): a promise of all the values, waited for one input after
 * another in array order, failing with the first failure met.
 *
 * Each input is represented by the result its `wait()` returns once it has
 * settled, so the combinator is a left-to-right fold over those results.
 */
module PromiseEx {
  import opened Opt
  import opened Callback
  import opened Promise

  /** The outcome of waiting, in order, on inputs that settle with `rs`: the values in order, or the first error. */
  function CollectAll<V>(rs: seq<Result<V>>): (r: Result<seq<V>>)
    ensures rs == [] ==> r == Success([])
    ensures r.Success? ==> |r.value| == |rs|
  {
    if rs == [] then Success([])
    else
      match rs[0]
      case Failure(e) => Failure(e)
      case Success(v) =>
        match CollectAll(rs[1..])
        case Success(vs) => Success([v] + vs)
        case Failure(e) => Failure(e)
  }

  /** The values of inputs that all succeeded. */
  function Values<V>(rs: seq<Result<V>>): (vs: seq<V>)
    requires forall i :: 0 <= i < |rs| ==> rs[i].Success?
    ensures |vs| == |rs| && forall i :: 0 <= i < |rs| ==> vs[i] == rs[i].value
  {
    if rs == [] then [] else Values(rs[..|rs| - 1]) + [rs[|rs| - 1].value]
  }

  /**
   * The loop of the combinator's initializer: `wait()` on each input in
   * order, append its value, and leave at the first error; `awaited` counts
   * the inputs waited on.
   */
  method AwaitAll<V>(rs: seq<Result<V>>) returns (r: Result<seq<V>>, awaited: nat)
    ensures r == CollectAll(rs)
    ensures awaited <= |rs|
    ensures r.Success? ==> awaited == |rs| && (forall j :: 0 <= j < |rs| ==> rs[j].Success?) && r.value == Values(rs)
    // every input before the last one waited on succeeded; the last one failed with the error returned
    ensures r.Failure? ==> 0 < awaited && rs[awaited - 1] == Failure(r.error)
    ensures forall j :: 0 <= j < awaited && (r.Success? || j < awaited - 1) ==> rs[j].Success?
  {
    var values: seq<V> := [];
    var i := 0;
    assert rs[i..] == rs;
    PrependNothing(CollectAll(rs));
    while i < |rs|
      invariant 0 <= i <= |rs|
      invariant forall j :: 0 <= j < i ==> rs[j].Success?
      invariant values == Values(rs[..i])
      invariant CollectAll(rs) == Prepend(values, CollectAll(rs[i..]))
    {
      match rs[i]
      case Failure(e) =>
        assert rs[i..][0] == rs[i];
        r, awaited := Failure(e), i + 1;
        return;
      case Success(v) =>
        CollectAllStep(rs[i..], values);
        assert rs[i..][1..] == rs[i + 1..];
        assert rs[..i + 1][..i] == rs[..i];
        values := values + [v];
        i := i + 1;
    }
    assert rs[..i] == rs && rs[i..] == [] && values + [] == values;
    r, awaited := Success(values), i;
  }

  /** `values` in front of the values of `r`, if `r` succeeded. */
  function Prepend<V>(values: seq<V>, r: Result<seq<V>>): (s: Result<seq<V>>)
    ensures s.Success? <==> r.Success?
    ensures r.Failure? ==> s == r
  {
    match r
    case Success(vs) => Success(values + vs)
    case Failure(e) => Failure(e)
  }

  /** Nothing in front changes nothing. */
  lemma PrependNothing<V>(r: Result<seq<V>>)
    ensures Prepend([], r) == r
  {
    if r.Success? {
      assert [] + r.value == r.value;
    }
  }

  /** One successful input moves from the rest of the array to the collected values. */
  lemma CollectAllStep<V>(rs: seq<Result<V>>, values: seq<V>)
    requires rs != [] && rs[0].Success?
    ensures Prepend(values, CollectAll(rs)) == Prepend(values + [rs[0].value], CollectAll(rs[1..]))
  {
    match CollectAll(rs[1..])
    case Success(vs) =>
      ConcatAssoc(values, [rs[0].value], vs);
    case Failure(_) =>
  }

  /**
   * `Promises(_ ps:)`: a fresh promise whose initializer settles it, through
   * `done`, with the collected values or with the first error.
   */
  method Promises<V>(rs: seq<Result<V>>) returns (p: Promise<seq<V>>)
    ensures fresh(p) && p.result == Some(CollectAll(rs)) && p.callbacks == Empty()
  {
    p := new Promise(null, 0);
    var r, awaited := AwaitAll(rs);
    ghost var before := Snapshot({p});
    DoneQuiet({p}, before, p, r);
    var events := p.Done(r, {p});
    assert Snapshot({p})[p] == Cell(p.result, p.callbacks);
  }

  /** The combinator succeeds exactly when every input does, with their values in input order. */
  lemma {:induction false} AllSucceed<V>(rs: seq<Result<V>>)
    ensures CollectAll(rs).Success? <==> forall i :: 0 <= i < |rs| ==> rs[i].Success?
    ensures CollectAll(rs).Success? ==>
              |CollectAll(rs).value| == |rs| && forall i :: 0 <= i < |rs| ==> CollectAll(rs).value[i] == rs[i].value
  {
    if rs != [] {
      AllSucceed(rs[1..]);
      if rs[0].Success? && CollectAll(rs[1..]).Success? {
        var vs := CollectAll(rs[1..]).value;
        forall i | 0 < i < |rs|
          ensures CollectAll(rs).value[i] == rs[i].value
        {
          assert rs[1..][i - 1] == rs[i];
        }
      }
      if forall i :: 0 <= i < |rs| ==> rs[i].Success? {
        assert forall i :: 0 <= i < |rs[1..]| ==> rs[1..][i] == rs[i + 1];
      }
      if !(forall i :: 0 <= i < |rs| ==> rs[i].Success?) && rs[0].Success? {
        var k :| 0 <= k < |rs| && !rs[k].Success?;
        assert rs[1..][k - 1] == rs[k];
      }
    }
  }

  /** A failing input whose predecessors all succeeded decides the outcome: its error. */
  lemma {:induction false} FirstFailureWins<V>(rs: seq<Result<V>>, k: nat)
    requires k < |rs| && rs[k].Failure?
    requires forall j :: 0 <= j < k ==> rs[j].Success?
    ensures CollectAll(rs) == Failure(rs[k].error)
  {
    if k > 0 {
      FirstFailureWins(rs[1..], k - 1);
    }
  }

  /** Once the inputs so far have failed, the inputs after them are never looked at. */
  lemma {:induction false} RestIgnored<V>(rs: seq<Result<V>>, later: seq<Result<V>>)
    requires CollectAll(rs).Failure?
    ensures CollectAll(rs + later) == CollectAll(rs)
  {
    assert rs != [];
    assert (rs + later)[0] == rs[0];
    if rs[0].Success? {
      assert (rs + later)[1..] == rs[1..] + later;
      RestIgnored(rs[1..], later);
    }
  }
}
