/**
 * Python's `sorted(xs, key=f, reverse=rev)`: the keys are computed once per item,
 * then the items are ordered stably by `<` on the keys. With `reverse=True` the
 * order is descending while items with equal keys keep their input order.
 * Items are carried as (key, item) pairs; the sort itself is an insertion sort,
 * which is one stable sort and therefore gives the same result as Python's.
 */
module StableSort {
  import opened Wrappers
  import Json
  import Strings

  /** A key as Python's `<` sees it: a `str`, an `int` (or `bool`), or something `<` rejects. */
  datatype Key = KStr(s: string) | KInt(i: int) | KOther

  /** A value used as a sort key as it is: strings, ints and bools compare, other values do not. */
  function KeyOf(v: Json.Value): Key
  {
    if v.Str? then KStr(v.s)
    else if v.Int? then KInt(v.i)
    else if v.Bool? then KInt(if v.b then 1 else 0)
    else KOther
  }

  /** `v.lower()`: None when `v` is not a string (`AttributeError`). */
  function LowerKey(v: Json.Value): Option<Key>
  {
    if v.Str? then Some(KStr(Strings.Lower(v.s))) else None
  }

  /** `a < b` on Python strings: lexicographic on code points. */
  predicate StrLess(a: string, b: string)
    decreases |a|
  {
    if |b| == 0 then false
    else if |a| == 0 then true
    else if a[0] != b[0] then a[0] < b[0]
    else StrLess(a[1..], b[1..])
  }

  lemma {:induction false} StrLessIrreflexive(a: string)
    ensures !StrLess(a, a)
    decreases |a|
  {
    if |a| > 0 {
      StrLessIrreflexive(a[1..]);
    }
  }

  lemma {:induction false} StrLessTransitive(a: string, b: string, c: string)
    requires StrLess(a, b) && StrLess(b, c)
    ensures StrLess(a, c)
    decreases |a|
  {
    if |a| > 0 && a[0] == b[0] && b[0] == c[0] {
      StrLessTransitive(a[1..], b[1..], c[1..]);
    }
  }

  lemma {:induction false} StrLessTotal(a: string, b: string)
    requires a != b
    ensures StrLess(a, b) || StrLess(b, a)
    decreases |a|
  {
    if |a| > 0 && |b| > 0 && a[0] == b[0] {
      assert a == [a[0]] + a[1..];
      assert b == [b[0]] + b[1..];
      StrLessTotal(a[1..], b[1..]);
    }
  }

  /** Python's `a < b` on two keys of the same kind; keys of different kinds raise instead. */
  predicate Less(a: Key, b: Key)
  {
    match (a, b)
    case (KStr(x), KStr(y)) => StrLess(x, y)
    case (KInt(x), KInt(y)) => x < y
    case _ => false
  }

  /** `a` has to be placed before `b`. */
  predicate Before(a: Key, b: Key, reverse: bool)
  {
    if reverse then Less(b, a) else Less(a, b)
  }

  /** Every pair of keys can be compared by Python: all strings or all integers. */
  predicate SameKind<T>(s: seq<(Key, T)>)
  {
    (forall i :: 0 <= i < |s| ==> s[i].0.KStr?) || (forall i :: 0 <= i < |s| ==> s[i].0.KInt?)
  }

  /** Insert `x` after every element it does not have to precede. */
  function Insert<T>(x: (Key, T), t: seq<(Key, T)>, reverse: bool): (r: seq<(Key, T)>)
    ensures |r| == |t| + 1
  {
    if |t| == 0 then [x]
    else if Before(x.0, t[|t| - 1].0, reverse) then Insert(x, t[..|t| - 1], reverse) + [t[|t| - 1]]
    else t + [x]
  }

  function Sort<T>(s: seq<(Key, T)>, reverse: bool): (r: seq<(Key, T)>)
    ensures |r| == |s|
  {
    if |s| == 0 then [] else Insert(s[|s| - 1], Sort(s[..|s| - 1], reverse), reverse)
  }

  /** `sorted`: a `TypeError` when two keys cannot be compared, otherwise the stable order. */
  function PySorted<T>(s: seq<(Key, T)>, reverse: bool): Result<seq<(Key, T)>, string>
  {
    if |s| >= 2 && !SameKind(s) then Err("TypeError") else Ok(Sort(s, reverse))
  }

  /** The items without their keys. */
  function Vals<T>(s: seq<(Key, T)>): (r: seq<T>)
    ensures |r| == |s|
    ensures forall i :: 0 <= i < |s| ==> r[i] == s[i].1
  {
    seq(|s|, i requires 0 <= i < |s| => s[i].1)
  }

  /** The subsequence of items whose key is `k`. */
  function Run<T>(s: seq<(Key, T)>, k: Key): seq<(Key, T)>
  {
    if |s| == 0 then []
    else Run(s[..|s| - 1], k) + (if s[|s| - 1].0 == k then [s[|s| - 1]] else [])
  }

  /** No element has to precede an earlier one. */
  predicate Ordered<T>(s: seq<(Key, T)>, reverse: bool)
  {
    forall i, j :: 0 <= i < j < |s| ==> !Before(s[j].0, s[i].0, reverse)
  }

  // ---------------------------------------------------------------- permutation

  lemma {:induction false} InsertPermutes<T>(x: (Key, T), t: seq<(Key, T)>, reverse: bool)
    ensures multiset(Insert(x, t, reverse)) == multiset(t) + multiset{x}
    decreases |t|
  {
    if |t| > 0 && Before(x.0, t[|t| - 1].0, reverse) {
      var init := t[..|t| - 1];
      InsertPermutes(x, init, reverse);
      assert t == init + [t[|t| - 1]];
    }
  }

  lemma ValsAppend<T>(a: seq<(Key, T)>, b: seq<(Key, T)>)
    ensures Vals(a + b) == Vals(a) + Vals(b)
  {
  }

  lemma {:induction false} InsertPermutesItems<T>(x: (Key, T), t: seq<(Key, T)>, reverse: bool)
    ensures multiset(Vals(Insert(x, t, reverse))) == multiset(Vals(t)) + multiset{x.1}
    decreases |t|
  {
    if |t| == 0 {
      assert Vals([x]) == [x.1];
    } else if Before(x.0, t[|t| - 1].0, reverse) {
      var init := t[..|t| - 1];
      var last := t[|t| - 1];
      InsertPermutesItems(x, init, reverse);
      assert t == init + [last];
      ValsAppend(init, [last]);
      ValsAppend(Insert(x, init, reverse), [last]);
      assert Vals([last]) == [last.1];
    } else {
      ValsAppend(t, [x]);
      assert Vals([x]) == [x.1];
    }
  }

  /** The sorted sequence holds the same pairs as the input. */
  lemma {:induction false} SortPermutesPairs<T>(s: seq<(Key, T)>, reverse: bool)
    ensures multiset(Sort(s, reverse)) == multiset(s)
    decreases |s|
  {
    if |s| > 0 {
      var init := s[..|s| - 1];
      SortPermutesPairs(init, reverse);
      InsertPermutes(s[|s| - 1], Sort(init, reverse), reverse);
      assert s == init + [s[|s| - 1]];
    }
  }

  /** The sorted sequence holds the same items as the input. */
  lemma {:induction false} SortPermutesItems<T>(s: seq<(Key, T)>, reverse: bool)
    ensures multiset(Vals(Sort(s, reverse))) == multiset(Vals(s))
    decreases |s|
  {
    if |s| > 0 {
      var init := s[..|s| - 1];
      SortPermutesItems(init, reverse);
      InsertPermutesItems(s[|s| - 1], Sort(init, reverse), reverse);
      assert s == init + [s[|s| - 1]];
      ValsAppend(init, [s[|s| - 1]]);
      assert Vals([s[|s| - 1]]) == [s[|s| - 1].1];
    }
  }

  /** The sorted sequence holds the same pairs, and the same items, as the input. */
  lemma SortPermutes<T>(s: seq<(Key, T)>, reverse: bool)
    ensures multiset(Sort(s, reverse)) == multiset(s)
    ensures multiset(Vals(Sort(s, reverse))) == multiset(Vals(s))
  {
    SortPermutesPairs(s, reverse);
    SortPermutesItems(s, reverse);
  }

  // ---------------------------------------------------------------- stability

  lemma LessIrreflexive(a: Key)
    ensures !Less(a, a)
  {
    if a.KStr? {
      StrLessIrreflexive(a.s);
    }
  }

  lemma {:induction false} InsertRun<T>(x: (Key, T), t: seq<(Key, T)>, reverse: bool, k: Key)
    ensures Run(Insert(x, t, reverse), k) == Run(t, k) + (if x.0 == k then [x] else [])
    decreases |t|
  {
    if |t| > 0 && Before(x.0, t[|t| - 1].0, reverse) {
      InsertRun(x, t[..|t| - 1], reverse, k);
      InsertRunBefore(x, t, reverse, k);
    } else if |t| > 0 {
      RunSnoc(t, x, k);
    }
  }

  /** The step of `InsertRun` where `x` moves in front of the last pair, whose key differs from its own. */
  lemma InsertRunBefore<T>(x: (Key, T), t: seq<(Key, T)>, reverse: bool, k: Key)
    requires |t| > 0 && Before(x.0, t[|t| - 1].0, reverse)
    requires Run(Insert(x, t[..|t| - 1], reverse), k) == Run(t[..|t| - 1], k) + (if x.0 == k then [x] else [])
    ensures Run(Insert(x, t, reverse), k) == Run(t, k) + (if x.0 == k then [x] else [])
  {
    var init := t[..|t| - 1];
    var last := t[|t| - 1];
    LessIrreflexive(x.0);
    var ins := Insert(x, init, reverse);
    assert Insert(x, t, reverse) == ins + [last];
    RunSnoc(ins, last, k);
    assert t == init + [last];
    RunSnoc(init, last, k);
    var lastRun := if last.0 == k then [last] else [];
    var xRun := if x.0 == k then [x] else [];
    assert xRun == [] || lastRun == [];
    assert Run(init, k) + xRun + lastRun == Run(init, k) + lastRun + xRun;
  }

  /** Appending one pair adds it to its key's run. */
  lemma RunSnoc<T>(s: seq<(Key, T)>, e: (Key, T), k: Key)
    ensures Run(s + [e], k) == Run(s, k) + (if e.0 == k then [e] else [])
  {
    assert (s + [e])[..|s + [e]| - 1] == s;
  }

  /** Stability: for every key, the items carrying it appear in input order. */
  lemma {:induction false} SortStable<T>(s: seq<(Key, T)>, reverse: bool, k: Key)
    ensures Run(Sort(s, reverse), k) == Run(s, k)
    decreases |s|
  {
    if |s| > 0 {
      var init := s[..|s| - 1];
      SortStable(init, reverse, k);
      InsertRun(s[|s| - 1], Sort(init, reverse), reverse, k);
    }
  }

  /** When every key is the same, `sorted` returns the input order, in either direction. */
  lemma {:induction false} SortConstantKey<T>(s: seq<(Key, T)>, reverse: bool, k: Key)
    requires forall i :: 0 <= i < |s| ==> s[i].0 == k
    ensures Sort(s, reverse) == s
    decreases |s|
  {
    if |s| > 0 {
      var init := s[..|s| - 1];
      SortConstantKey(init, reverse, k);
      LessIrreflexive(k);
      assert s == init + [s[|s| - 1]];
    }
  }

  // ---------------------------------------------------------------- order

  lemma KeyTransitive(a: Key, b: Key, c: Key)
    requires Less(a, b) && Less(b, c)
    ensures Less(a, c)
  {
    if a.KStr? {
      StrLessTransitive(a.s, b.s, c.s);
    }
  }

  lemma KeyTotal(a: Key, b: Key)
    requires (a.KStr? && b.KStr?) || (a.KInt? && b.KInt?)
    requires a != b
    ensures Less(a, b) || Less(b, a)
  {
    if a.KStr? {
      StrLessTotal(a.s, b.s);
    }
  }

  /** `!(x < l)` and `!(l < e)` give `!(x < e)` for comparable keys. */
  lemma NotBeforeTransitive(x: Key, l: Key, e: Key, reverse: bool)
    requires (x.KStr? && l.KStr? && e.KStr?) || (x.KInt? && l.KInt? && e.KInt?)
    requires !Before(x, l, reverse) && !Before(l, e, reverse)
    ensures !Before(x, e, reverse)
  {
    if Before(x, e, reverse) {
      if l == e {
      } else {
        KeyTotal(l, e);
        if reverse {
          KeyTransitive(l, e, x);
        } else {
          KeyTransitive(x, e, l);
        }
      }
    }
  }

  predicate KindOf(a: Key, b: Key)
  {
    (a.KStr? && b.KStr?) || (a.KInt? && b.KInt?)
  }

  lemma {:induction false} InsertKeys<T>(x: (Key, T), t: seq<(Key, T)>, reverse: bool)
    ensures forall e :: e in Insert(x, t, reverse) ==> e == x || e in t
    decreases |t|
  {
    if |t| > 0 && Before(x.0, t[|t| - 1].0, reverse) {
      InsertKeys(x, t[..|t| - 1], reverse);
    }
  }

  lemma {:induction false} InsertOrdered<T>(x: (Key, T), t: seq<(Key, T)>, reverse: bool)
    requires Ordered(t, reverse)
    requires forall i :: 0 <= i < |t| ==> KindOf(x.0, t[i].0)
    ensures Ordered(Insert(x, t, reverse), reverse)
    decreases |t|
  {
    if |t| > 0 {
      var init := t[..|t| - 1];
      var last := t[|t| - 1];
      if Before(x.0, last.0, reverse) {
        InsertOrdered(x, init, reverse);
        var ins := Insert(x, init, reverse);
        InsertKeys(x, init, reverse);
        assert !Before(last.0, x.0, reverse) by {
          if Before(last.0, x.0, reverse) {
            if reverse {
              KeyTransitive(last.0, x.0, last.0);
            } else {
              KeyTransitive(x.0, last.0, x.0);
            }
            LessIrreflexive(x.0);
            LessIrreflexive(last.0);
          }
        }
        forall e | e in ins
          ensures !Before(last.0, e.0, reverse)
        {
          if e != x {
            var i :| 0 <= i < |init| && init[i] == e;
            assert t[i] == e;
          }
        }
        var r := ins + [last];
        forall i, j | 0 <= i < j < |r|
          ensures !Before(r[j].0, r[i].0, reverse)
        {
          if j == |r| - 1 {
            assert r[i] in ins;
          }
        }
      } else {
        var r := t + [x];
        forall i, j | 0 <= i < j < |r|
          ensures !Before(r[j].0, r[i].0, reverse)
        {
          if j == |r| - 1 && i < |t| - 1 {
            assert KindOf(x.0, last.0) && KindOf(x.0, t[i].0);
            NotBeforeTransitive(x.0, last.0, t[i].0, reverse);
          }
        }
      }
    }
  }

  /** With comparable keys the result is ordered: no element has to precede an earlier one. */
  lemma {:induction false} SortOrdered<T>(s: seq<(Key, T)>, reverse: bool)
    requires SameKind(s)
    ensures Ordered(Sort(s, reverse), reverse)
    decreases |s|
  {
    if |s| > 0 {
      var init := s[..|s| - 1];
      assert SameKind(init);
      SortOrdered(init, reverse);
      var sorted := Sort(init, reverse);
      SortPermutes(init, reverse);
      forall i | 0 <= i < |sorted|
        ensures KindOf(s[|s| - 1].0, sorted[i].0)
      {
        assert sorted[i] in multiset(init);
        var j :| 0 <= j < |init| && init[j] == sorted[i];
        assert s[j] == sorted[i];
      }
      InsertOrdered(s[|s| - 1], sorted, reverse);
    }
  }

  /**
   * `PySorted` fails exactly when two keys cannot be compared; otherwise its result is a
   * permutation of the input, ordered by the keys, and stable for every key.
   */
  lemma PySortedMeaning<T>(s: seq<(Key, T)>, reverse: bool, k: Key)
    ensures PySorted(s, reverse).Err? <==> |s| >= 2 && !SameKind(s)
    ensures PySorted(s, reverse).Ok? ==>
      var r := PySorted(s, reverse).value;
      && multiset(r) == multiset(s)
      && multiset(Vals(r)) == multiset(Vals(s))
      && Run(r, k) == Run(s, k)
      && (SameKind(s) ==> Ordered(r, reverse))
  {
    SortPermutes(s, reverse);
    SortStable(s, reverse, k);
    if SameKind(s) {
      SortOrdered(s, reverse);
    }
  }

  // ---------------------------------------------------------------- sorted(items, key=f)

  /** Pair every item with its key `f(item)`; None when computing some key raises. */
  function Decorate<T>(items: seq<T>, f: T -> Option<Key>): (r: Option<seq<(Key, T)>>)
    ensures r.Some? <==> forall i :: 0 <= i < |items| ==> f(items[i]).Some?
    ensures r.Some? ==> KeyedBy(r.value, f) && Vals(r.value) == items
  {
    if |items| == 0 then Some([])
    else
      var init := items[..|items| - 1];
      var last := items[|items| - 1];
      var ps := Decorate(init, f);
      var k := f(last);
      if ps.None? || k.None? then None
      else
        assert items == init + [last];
        Some(ps.value + [(k.value, last)])
  }

  /** Every pair carries its item's own key. */
  predicate KeyedBy<T>(ps: seq<(Key, T)>, f: T -> Option<Key>)
  {
    forall i :: 0 <= i < |ps| ==> f(ps[i].1) == Some(ps[i].0)
  }

  lemma DecorateSnoc<T>(items: seq<T>, x: T, f: T -> Option<Key>, ps: seq<(Key, T)>, k: Key)
    requires Decorate(items, f) == Some(ps) && f(x) == Some(k)
    ensures Decorate(items + [x], f) == Some(ps + [(k, x)])
  {
    assert (items + [x])[..|items|] == items;
  }

  /** `sorted(items, key=f, reverse=reverse)`; Err when computing a key or comparing two keys raises. */
  function SortedBy<T>(items: seq<T>, f: T -> Option<Key>, reverse: bool): Result<seq<T>, string>
  {
    var ps := Decorate(items, f);
    if ps.None? then Err("key")
    else
      var r := PySorted(ps.value, reverse);
      if r.Err? then Err(r.error) else Ok(Vals(r.value))
  }

  lemma KeyedByPermutation<T>(ps: seq<(Key, T)>, qs: seq<(Key, T)>, f: T -> Option<Key>)
    requires KeyedBy(ps, f) && multiset(qs) == multiset(ps)
    ensures KeyedBy(qs, f)
  {
    forall i | 0 <= i < |qs|
      ensures f(qs[i].1) == Some(qs[i].0)
    {
      assert qs[i] in multiset(ps);
      var j :| 0 <= j < |ps| && ps[j] == qs[i];
    }
  }

  /**
   * `sorted` raises exactly when a key raises or two keys cannot be compared;
   * otherwise it returns a permutation of its input.
   */
  lemma SortedByPermutes<T>(items: seq<T>, f: T -> Option<Key>, reverse: bool)
    ensures SortedBy(items, f, reverse).Err? <==>
      (exists i :: 0 <= i < |items| && f(items[i]).None?) ||
      (|items| >= 2 && !SameKind(Decorate(items, f).value))
    ensures SortedBy(items, f, reverse).Ok? ==> multiset(SortedBy(items, f, reverse).value) == multiset(items)
  {
    if Decorate(items, f).Some? {
      SortPermutes(Decorate(items, f).value, reverse);
    }
  }

  /** The result is ordered by the keys: no item has to precede an earlier one. */
  lemma SortedByOrdered<T>(items: seq<T>, f: T -> Option<Key>, reverse: bool)
    requires SortedBy(items, f, reverse).Ok?
    ensures var r := SortedBy(items, f, reverse).value;
      forall i, j :: 0 <= i < j < |r| ==>
        f(r[i]).Some? && f(r[j]).Some? && !Before(f(r[j]).value, f(r[i]).value, reverse)
  {
    var ps := Decorate(items, f).value;
    var sorted := Sort(ps, reverse);
    SortPermutes(ps, reverse);
    KeyedByPermutation(ps, sorted, f);
    if |ps| >= 2 {
      SortOrdered(ps, reverse);
    }
  }

  /** The items whose key is `k`, in order. */
  function WithKey<T>(items: seq<T>, f: T -> Option<Key>, k: Key): seq<T>
  {
    if |items| == 0 then []
    else WithKey(items[..|items| - 1], f, k) + (if f(items[|items| - 1]) == Some(k) then [items[|items| - 1]] else [])
  }

  lemma {:induction false} WithKeyOfPairs<T>(ps: seq<(Key, T)>, f: T -> Option<Key>, k: Key)
    requires KeyedBy(ps, f)
    ensures WithKey(Vals(ps), f, k) == Vals(Run(ps, k))
    decreases |ps|
  {
    if |ps| > 0 {
      var init := ps[..|ps| - 1];
      WithKeyOfPairs(init, f, k);
      assert Vals(ps)[..|ps| - 1] == Vals(init);
      var tail: seq<(Key, T)> := if ps[|ps| - 1].0 == k then [ps[|ps| - 1]] else [];
      ValsAppend(Run(init, k), tail);
    }
  }

  /** Stability: items with equal keys keep their input order, ascending or descending. */
  lemma SortedByStable<T>(items: seq<T>, f: T -> Option<Key>, reverse: bool, k: Key)
    requires SortedBy(items, f, reverse).Ok?
    ensures WithKey(SortedBy(items, f, reverse).value, f, k) == WithKey(items, f, k)
  {
    var ps := Decorate(items, f).value;
    var sorted := Sort(ps, reverse);
    SortPermutes(ps, reverse);
    KeyedByPermutation(ps, sorted, f);
    SortStable(ps, reverse, k);
    WithKeyOfPairs(ps, f, k);
    WithKeyOfPairs(sorted, f, k);
  }

  /** When every key that can be computed is `k`, `sorted` keeps the input order, even reversed. */
  lemma SortedByConstant<T>(items: seq<T>, f: T -> Option<Key>, reverse: bool, k: Key)
    requires k.KStr? || k.KInt?
    requires forall i :: 0 <= i < |items| ==> f(items[i]).Some? ==> f(items[i]) == Some(k)
    ensures SortedBy(items, f, reverse).Ok? <==> forall i :: 0 <= i < |items| ==> f(items[i]).Some?
    ensures SortedBy(items, f, reverse).Ok? ==> SortedBy(items, f, reverse).value == items
  {
    if Decorate(items, f).Some? {
      var ps := Decorate(items, f).value;
      assert forall i :: 0 <= i < |ps| ==> ps[i].0 == k;
      SortConstantKey(ps, reverse, k);
    } else {
      var i :| 0 <= i < |items| && f(items[i]).None?;
    }
  }
}
