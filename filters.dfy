/**
 * The filtering loop the views run over song lists,
 * `for x in xs: if test(x): kept.append(x)`, where evaluating `test` may raise.
 * A raise ends the loop: the items kept so far stay kept and the loop reports
 * that it did not finish.
 */
module Filters {
  import opened Wrappers

  /** Items kept before the first raise (None from `test`), and whether the loop finished. */
  function Scan<T>(xs: seq<T>, test: T -> Option<bool>): (seq<T>, bool)
  {
    if |xs| == 0 then ([], true)
    else
      var (kept, ok) := Scan(xs[..|xs| - 1], test);
      var last := xs[|xs| - 1];
      if !ok then (kept, false)
      else match test(last)
        case None => (kept, false)
        case Some(b) => (if b then kept + [last] else kept, true)
  }

  /** The position of the first item `raises` holds for, or None: where a loop that raises on those items stops. */
  function FirstWhere<T>(xs: seq<T>, raises: T -> bool): (r: Option<nat>)
    ensures r.None? <==> forall k :: 0 <= k < |xs| ==> !raises(xs[k])
    ensures r.Some? ==> r.value < |xs| && raises(xs[r.value])
    ensures r.Some? ==> forall k :: 0 <= k < r.value ==> !raises(xs[k])
  {
    if |xs| == 0 then None
    else if raises(xs[0]) then Some(0)
    else
      match FirstWhere(xs[1..], raises)
      case None => None
      case Some(i) => Some(i + 1)
  }

  /** One more step of the loop. */
  lemma ScanStep<T>(xs: seq<T>, i: nat, test: T -> Option<bool>)
    requires i < |xs|
    ensures Scan(xs[..i + 1], test) ==
      var (kept, ok) := Scan(xs[..i], test);
      if !ok then (kept, false)
      else match test(xs[i])
        case None => (kept, false)
        case Some(b) => (if b then kept + [xs[i]] else kept, true)
  {
    assert xs[..i + 1][..i] == xs[..i];
  }

  /** Once `test` has raised, the rest of the input changes nothing. */
  lemma {:induction false} ScanStops<T>(xs: seq<T>, i: nat, test: T -> Option<bool>)
    requires i <= |xs| && !Scan(xs[..i], test).1
    ensures Scan(xs, test) == Scan(xs[..i], test)
    decreases |xs| - i
  {
    if i < |xs| {
      ScanStep(xs, i, test);
      ScanStops(xs, i + 1, test);
    } else {
      assert xs[..i] == xs;
    }
  }

  /**
   * The loop finishes exactly when `test` never raises, and then an item is kept
   * exactly when it is in the input and passes `test`.
   */
  lemma {:induction false} ScanMeaning<T>(xs: seq<T>, test: T -> Option<bool>)
    ensures Scan(xs, test).1 <==> forall i :: 0 <= i < |xs| ==> test(xs[i]).Some?
    ensures |Scan(xs, test).0| <= |xs|
    ensures Scan(xs, test).1 ==> forall x :: x in Scan(xs, test).0 <==> x in xs && test(x) == Some(true)
    decreases |xs|
  {
    if |xs| > 0 {
      var init := xs[..|xs| - 1];
      ScanMeaning(init, test);
      assert xs == init + [xs[|xs| - 1]];
      if Scan(xs, test).1 {
        assert forall x :: x in xs <==> x in init || x == xs[|xs| - 1];
      }
    }
  }

  /** Filtering distributes over concatenation, so the kept items stay in input order. */
  lemma {:induction false} ScanAppend<T>(xs: seq<T>, ys: seq<T>, test: T -> Option<bool>)
    requires Scan(xs + ys, test).1
    ensures Scan(xs, test).1 && Scan(ys, test).1
    ensures Scan(xs + ys, test).0 == Scan(xs, test).0 + Scan(ys, test).0
    decreases |ys|
  {
    if |ys| == 0 {
      assert xs + ys == xs;
    } else {
      var yi := ys[..|ys| - 1];
      var last := ys[|ys| - 1];
      assert (xs + ys)[..|xs + ys| - 1] == xs + yi;
      assert (xs + ys)[|xs + ys| - 1] == last;
      ScanAppend(xs, yi, test);
    }
  }
}
