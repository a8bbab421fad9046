/**
 * Paged API results (`results['items']`, then `sp.next(results)` while
 * `results['next']` is set) and the 1-based `original_index` the song loaders
 * write into every item they collect.
 */
module Pages {
  import opened Wrappers
  import opened Json

  /** All pages' items, in page order. */
  function Flatten<T>(pages: seq<seq<T>>): seq<T>
  {
    if |pages| == 0 then [] else Flatten(pages[..|pages| - 1]) + pages[|pages| - 1]
  }

  lemma FlattenSnoc<T>(pages: seq<seq<T>>, page: seq<T>)
    ensures Flatten(pages + [page]) == Flatten(pages) + page
  {
    assert (pages + [page])[..|pages + [page]| - 1] == pages;
  }

  /** Flattening one more page of a prefix appends that page. */
  lemma FlattenPrefix<T>(pages: seq<seq<T>>, i: nat)
    requires i < |pages|
    ensures Flatten(pages[..i + 1]) == Flatten(pages[..i]) + pages[i]
  {
    assert pages[..i + 1][..i] == pages[..i];
  }

  /** `item['original_index'] = k` on a dict item; None when the item is not a dict (`TypeError`). */
  function WithIndex(item: Value, k: int): Option<Value>
  {
    if item.Obj? then Some(Obj(item.fields["original_index" := Int(k)])) else None
  }

  /** `out[k]` is `items[k]` carrying `original_index = start + k`, and nothing else differs. */
  predicate IndexedFrom(out: seq<Value>, items: seq<Value>, start: int)
  {
    && |out| == |items|
    && (forall k :: 0 <= k < |items| ==> items[k].Obj? && WithIndex(items[k], start + k) == Some(out[k]))
  }

  /** What `IndexedFrom` promises about each item: the index it now carries, and its other keys. */
  lemma IndexedItem(out: seq<Value>, items: seq<Value>, start: int, k: int)
    requires IndexedFrom(out, items, start) && 0 <= k < |items|
    ensures out[k].Obj? && Get(out[k].fields, "original_index", Null) == Int(start + k)
    ensures forall key :: key in items[k].fields && key != "original_index" ==> out[k].fields[key] == items[k].fields[key]
    ensures out[k].fields.Keys == items[k].fields.Keys + {"original_index"}
  {
  }

  /** Index every item of a page, continuing from `start`; None if some item is not a dict. */
  function IndexPage(items: seq<Value>, start: int): (r: Option<seq<Value>>)
    ensures r.Some? <==> forall k :: 0 <= k < |items| ==> items[k].Obj?
    ensures r.Some? ==> IndexedFrom(r.value, items, start)
  {
    if |items| == 0 then Some([])
    else if !items[0].Obj? then None
    else
      match IndexPage(items[1..], start + 1)
      case None => None
      case Some(rest) => Some([Obj(items[0].fields["original_index" := Int(start)])] + rest)
  }

  lemma {:induction false} IndexedAppend(a: seq<Value>, xs: seq<Value>, b: seq<Value>, ys: seq<Value>, start: int)
    requires IndexedFrom(a, xs, start) && IndexedFrom(b, ys, start + |xs|)
    ensures IndexedFrom(a + b, xs + ys, start)
  {
    forall k | 0 <= k < |xs + ys|
      ensures (xs + ys)[k].Obj? && WithIndex((xs + ys)[k], start + k) == Some((a + b)[k])
    {
      if k >= |xs| {
        assert (xs + ys)[k] == ys[k - |xs|];
        assert (a + b)[k] == b[k - |xs|];
      }
    }
  }

  /** A non-dict item on page `p` at position `j` is a non-dict item of all the pages together. */
  lemma NotAllDicts(pages: seq<seq<Value>>, p: nat, j: nat)
    requires p < |pages| && j < |pages[p]| && !pages[p][j].Obj?
    ensures exists k :: 0 <= k < |Flatten(pages)| && !Flatten(pages)[k].Obj?
  {
    var k := FlattenContains(pages, p, j);
  }

  /** Where item `j` of page `p` lands in the flattened list. */
  lemma {:induction false} FlattenContains<T>(pages: seq<seq<T>>, p: nat, j: nat) returns (k: nat)
    requires p < |pages| && j < |pages[p]|
    ensures k < |Flatten(pages)| && Flatten(pages)[k] == pages[p][j]
    decreases |pages|
  {
    var init := pages[..|pages| - 1];
    assert pages == init + [pages[|pages| - 1]];
    FlattenSnoc(init, pages[|pages| - 1]);
    if p == |pages| - 1 {
      k := |Flatten(init)| + j;
    } else {
      k := FlattenContains(init, p, j);
    }
  }

  lemma IndexedAllDicts(out: seq<Value>, items: seq<Value>)
    requires IndexedFrom(out, items, 1)
    ensures forall k :: 0 <= k < |items| ==> items[k].Obj?
  {
  }
}
