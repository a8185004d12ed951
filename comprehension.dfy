/**
 * `[item for item in items if test(item)]`, where evaluating the test may
 * raise: the items are tested in order and the first exception aborts the
 * whole comprehension.
 */
module Comprehension {
  import opened Wrappers
  import opened Json
  import opened PyOps

  function Filter(items: seq<Json>, test: Json -> Result<bool, PyError>): (r: Result<seq<Json>, PyError>)
    ensures r.Success? ==> |r.value| <= |items|
    decreases |items|
  {
    if items == [] then Success([])
    else
      var keep :- test(items[0]);
      var rest :- Filter(items[1..], test);
      Success(if keep then [items[0]] + rest else rest)
  }

  /** `a` is `b` with some elements left out, the rest in their original order. */
  ghost predicate SubsequenceOf(a: seq<Json>, b: seq<Json>)
    decreases |b|
  {
    if a == [] then true
    else if b == [] then false
    else (a[0] == b[0] && SubsequenceOf(a[1..], b[1..])) || SubsequenceOf(a, b[1..])
  }

  /** The comprehension fails exactly when some test raises, and then with the first exception raised. */
  lemma {:induction false} FilterFailure(items: seq<Json>, test: Json -> Result<bool, PyError>)
    ensures Filter(items, test).Failure? <==> exists i :: 0 <= i < |items| && test(items[i]).Failure?
    ensures forall i :: 0 <= i < |items| && test(items[i]).Failure?
                        && (forall j :: 0 <= j < i ==> test(items[j]).Success?)
                        ==> Filter(items, test) == Failure(test(items[i]).error)
    decreases |items|
  {
    if items != [] {
      FilterFailure(items[1..], test);
      assert forall i :: 1 <= i < |items| ==> items[1..][i - 1] == items[i];
      if exists i :: 0 <= i < |items| && test(items[i]).Failure? {
        var i :| 0 <= i < |items| && test(items[i]).Failure?;
        if i > 0 {
          assert test(items[1..][i - 1]).Failure?;
        }
      }
      forall i | 0 <= i < |items| && test(items[i]).Failure? && (forall j :: 0 <= j < i ==> test(items[j]).Success?)
        ensures Filter(items, test) == Failure(test(items[i]).error)
      {
        if i > 0 {
          assert test(items[0]).Success?;
          assert test(items[1..][i - 1]).Failure?;
          assert forall j :: 0 <= j < i - 1 ==> test(items[1..][j]).Success? by {
            forall j | 0 <= j < i - 1 ensures test(items[1..][j]).Success? {
              assert items[1..][j] == items[j + 1];
            }
          }
        }
      }
    }
  }

  /** In a successful comprehension every test ran without raising, and each kept item passed. */
  lemma {:induction false} FilterSound(items: seq<Json>, test: Json -> Result<bool, PyError>, kept: seq<Json>)
    requires Filter(items, test) == Success(kept)
    ensures forall i :: 0 <= i < |items| ==> test(items[i]).Success?
    ensures forall i :: 0 <= i < |kept| ==> test(kept[i]) == Success(true)
    decreases |items|
  {
    if items != [] {
      var rest := Filter(items[1..], test).value;
      FilterSound(items[1..], test, rest);
      assert forall i :: 1 <= i < |items| ==> items[1..][i - 1] == items[i];
      if test(items[0]) == Success(true) {
        assert kept == [items[0]] + rest;
      }
    }
  }

  /** Every item whose test is true is kept, as many times as it occurs, and nothing else is added. */
  lemma {:induction false} FilterComplete(items: seq<Json>, test: Json -> Result<bool, PyError>, kept: seq<Json>)
    requires Filter(items, test) == Success(kept)
    ensures multiset(kept) <= multiset(items)
    ensures forall i :: 0 <= i < |items| && test(items[i]) == Success(true)
                        ==> multiset(kept)[items[i]] == multiset(items)[items[i]]
    decreases |items|
  {
    if items != [] {
      var x := items[0];
      var rest := Filter(items[1..], test).value;
      FilterComplete(items[1..], test, rest);
      assert items == [x] + items[1..];
      if test(x) == Success(true) {
        assert kept == [x] + rest;
      } else {
        assert kept == rest;
      }
      forall i | 0 <= i < |items| && test(items[i]) == Success(true)
        ensures multiset(kept)[items[i]] == multiset(items)[items[i]]
      {
        if i > 0 {
          assert items[i] == items[1..][i - 1];
        }
        if test(x) != Success(true) {
          assert items[i] != x;
        }
      }
    }
  }

  /** The kept items are an order-preserving selection of the input. */
  lemma {:induction false} FilterOrder(items: seq<Json>, test: Json -> Result<bool, PyError>, kept: seq<Json>)
    requires Filter(items, test) == Success(kept)
    ensures SubsequenceOf(kept, items)
    ensures |kept| <= |items|
    decreases |items|
  {
    if items != [] {
      var rest := Filter(items[1..], test).value;
      FilterOrder(items[1..], test, rest);
      if test(items[0]) == Success(true) {
        assert kept == [items[0]] + rest;
        assert kept[1..] == rest;
      }
    }
  }

  /** Filtering a comprehension's result again returns it unchanged. */
  lemma {:induction false} FilterIdempotent(items: seq<Json>, test: Json -> Result<bool, PyError>, kept: seq<Json>)
    requires Filter(items, test) == Success(kept)
    ensures Filter(kept, test) == Success(kept)
    decreases |items|
  {
    if items != [] {
      var rest := Filter(items[1..], test).value;
      FilterIdempotent(items[1..], test, rest);
      if test(items[0]) == Success(true) {
        assert kept[1..] == rest;
      }
    }
  }

  /**
   * A `for` loop appending `step(item)` for every item in order, where the
   * step may raise: the first exception aborts the loop.
   */
  function MapAll(items: seq<Json>, step: Json -> Result<Json, PyError>): (r: Result<seq<Json>, PyError>)
    ensures r.Success? ==> |r.value| == |items|
    decreases |items|
  {
    if items == [] then Success([])
    else
      var n := |items| - 1;
      var front :- MapAll(items[..n], step);
      var v :- step(items[n]);
      Success(front + [v])
  }

  /**
   * One result per item, in the same order; the loop aborts exactly when
   * some step raises, with the first such step's exception.
   */
  lemma {:induction false} MapAllEntries(items: seq<Json>, step: Json -> Result<Json, PyError>)
    ensures MapAll(items, step).Success? <==> forall i :: 0 <= i < |items| ==> step(items[i]).Success?
    ensures MapAll(items, step).Success? ==>
              && |MapAll(items, step).value| == |items|
              && forall i :: 0 <= i < |items| ==> step(items[i]) == Success(MapAll(items, step).value[i])
    ensures MapAll(items, step).Failure? ==>
              exists i :: 0 <= i < |items| && step(items[i]).Failure?
                          && MapAll(items, step).error == step(items[i]).error
                          && forall j :: 0 <= j < i ==> step(items[j]).Success?
    decreases |items|
  {
    if items != [] {
      var n := |items| - 1;
      var front := items[..n];
      MapAllEntries(front, step);
      assert forall i :: 0 <= i < n ==> front[i] == items[i];
      if MapAll(front, step).Failure? {
        var i :| 0 <= i < n && step(front[i]).Failure? && MapAll(front, step).error == step(front[i]).error
                 && forall j :: 0 <= j < i ==> step(front[j]).Success?;
        assert step(items[i]).Failure?;
      } else if step(items[n]).Failure? {
        assert forall j :: 0 <= j < n ==> step(items[j]).Success?;
      }
    }
  }

  /** One more step of the loop appends its result. */
  lemma MapAllSnoc(items: seq<Json>, step: Json -> Result<Json, PyError>, k: nat, done: seq<Json>)
    requires k < |items|
    requires MapAll(items[..k], step) == Success(done) && step(items[k]).Success?
    ensures MapAll(items[..k + 1], step) == Success(done + [step(items[k]).value])
  {
    assert items[..k + 1][..k] == items[..k];
  }

  /** A step that raises after a prefix that did not aborts the whole loop with its exception. */
  lemma {:induction false} MapAllAborts(items: seq<Json>, step: Json -> Result<Json, PyError>, k: nat)
    requires k < |items|
    requires MapAll(items[..k], step).Success? && step(items[k]).Failure?
    ensures MapAll(items, step) == Failure(step(items[k]).error)
    decreases |items|
  {
    var n := |items| - 1;
    assert items[..k + 1][..k] == items[..k];
    if k < n {
      assert items[..n][..k] == items[..k];
      MapAllAborts(items[..n], step, k);
    }
  }
}
