/**
 * The per-category thread registry of `src/utils/thread_manager.py`. Threads are opaque
 * ids; whether a thread is alive is a parameter, and the stop requests `stop_threads`
 * sends (`quit` or `_stop`, then a bounded wait) are recorded in order. The lock is left
 * out: every method runs as one step.
 */
module ThreadManager {
  import opened Wrappers

  type ThreadId = nat

  /** The position of the first `x` in `s`. */
  function FirstIndex(s: seq<ThreadId>, x: ThreadId): (i: nat)
    requires x in s
    ensures i < |s| && s[i] == x && x !in s[..i]
  {
    if s[0] == x then 0
    else
      var j := FirstIndex(s[1..], x);
      assert s[..j + 1] == [s[0]] + s[1..][..j];
      j + 1
  }

  /** `list.remove(x)` when `x` is present: the first occurrence goes. */
  function RemoveFirst(s: seq<ThreadId>, x: ThreadId): (r: seq<ThreadId>)
    requires x in s
    ensures |r| == |s| - 1
    ensures multiset(r) == multiset(s) - multiset{x}
  {
    var i := FirstIndex(s, x);
    assert s == s[..i] + [s[i]] + s[i + 1..];
    s[..i] + s[i + 1..]
  }

  /** Unregistering a thread registered once leaves its category as it was before. */
  lemma RegisterThenUnregister(s: seq<ThreadId>, t: ThreadId)
    requires t !in s
    ensures RemoveFirst(s + [t], t) == s
  {
    var i := FirstIndex(s + [t], t);
    assert i == |s| by {
      assert forall j :: 0 <= j < |s| ==> (s + [t])[j] == s[j];
    }
    assert (s + [t])[..i] == s;
  }

  /** The threads of `cats`, in category order, skipping categories that are not registered. */
  function AllOf(cats: seq<string>, threads: map<string, seq<ThreadId>>): seq<ThreadId>
  {
    if |cats| == 0 then []
    else AllOf(cats[..|cats| - 1], threads) + (if cats[|cats| - 1] in threads then threads[cats[|cats| - 1]] else [])
  }

  /** The alive threads of `s`, in order. */
  function AliveOf(s: seq<ThreadId>, alive: set<ThreadId>): seq<ThreadId>
  {
    if |s| == 0 then [] else AliveOf(s[..|s| - 1], alive) + (if s[|s| - 1] in alive then [s[|s| - 1]] else [])
  }

  /** The categories `stop_threads(category)` goes through: the one given, or every one when it is None or empty. */
  function Targets(category: Option<string>, categories: seq<string>): seq<string>
  {
    if category.Some? && category.value != "" then [category.value] else categories
  }

  class ThreadManager {
    /** The keys of `_active_threads` in insertion order. */
    var categories: seq<string>
    var threads: map<string, seq<ThreadId>>
    /** Threads that `safe_thread_run` started. */
    var started: seq<ThreadId>
    /** The alive threads `stop_threads` asked to stop, in order. */
    var stopRequests: seq<ThreadId>

    ghost predicate Valid()
      reads this
    {
      (forall i, j :: 0 <= i < j < |categories| ==> categories[i] != categories[j])
      && (forall c :: c in threads <==> c in categories)
    }

    /** `_init`: no category yet. */
    constructor()
      ensures Valid() && categories == [] && threads == map[] && started == [] && stopRequests == []
    {
      categories := [];
      threads := map[];
      started := [];
      stopRequests := [];
    }

    /** `register_thread`: the category is created when absent and the thread goes at its end; a thread may appear twice. */
    method RegisterThread(t: ThreadId, category: string)
      requires Valid()
      modifies this`categories, this`threads
      ensures Valid()
      ensures categories == old(categories) + (if category in old(threads) then [] else [category])
      ensures threads == old(threads)[category := (if category in old(threads) then old(threads)[category] else []) + [t]]
    {
      if category !in threads {
        categories := categories + [category];
        threads := threads[category := []];
      }
      threads := threads[category := threads[category] + [t]];
    }

    /** `unregister_thread`: the first occurrence goes when the thread is registered there; otherwise nothing changes. */
    method UnregisterThread(t: ThreadId, category: string)
      requires Valid()
      modifies this`threads
      ensures Valid()
      ensures category in old(threads) && t in old(threads)[category] ==>
        threads == old(threads)[category := RemoveFirst(old(threads)[category], t)]
      ensures !(category in old(threads) && t in old(threads)[category]) ==> threads == old(threads)
    {
      if category in threads && t in threads[category] {
        threads := threads[category := RemoveFirst(threads[category], t)];
      }
    }

    /**
     * `stop_threads`: every alive thread of the target categories is asked to stop, in
     * order, and each registered target category's list is emptied; the keys stay.
     */
    method StopThreads(category: Option<string>, alive: set<ThreadId>)
      requires Valid()
      modifies this`threads, this`stopRequests
      ensures Valid()
      ensures threads == Cleared(old(threads), Targets(category, categories))
      ensures stopRequests == old(stopRequests) + AliveOf(AllOf(Targets(category, categories), old(threads)), alive)
    {
      TargetsDistinct(category, categories);
      StopCategories(Targets(category, categories), alive);
    }

    /** The loop of `stop_threads` over distinct categories. */
    method StopCategories(cats: seq<string>, alive: set<ThreadId>)
      requires forall a, b :: 0 <= a < b < |cats| ==> cats[a] != cats[b]
      modifies this`threads, this`stopRequests
      ensures threads == Cleared(old(threads), cats)
      ensures stopRequests == old(stopRequests) + AliveOf(AllOf(cats, old(threads)), alive)
    {
      var i := 0;
      assert cats[..0] == [];
      assert threads == Cleared(threads, []);
      while i < |cats|
        invariant 0 <= i <= |cats|
        invariant threads == Cleared(old(threads), cats[..i])
        invariant stopRequests == old(stopRequests) + AliveOf(AllOf(cats[..i], old(threads)), alive)
      {
        NotBefore(cats, i);
        ghost var before := stopRequests;
        StopOne(old(threads), cats, i, alive);
        RequestsStep(old(threads), cats, i, alive, old(stopRequests), before, stopRequests);
        i := i + 1;
      }
      assert cats[..i] == cats;
    }

    /** One category of the loop of `stop_threads`, on a registry cleared of the categories before it. */
    method StopOne(ghost t0: map<string, seq<ThreadId>>, cats: seq<string>, i: nat, alive: set<ThreadId>)
      requires i < |cats| && cats[i] !in cats[..i]
      requires threads == Cleared(t0, cats[..i])
      modifies this`threads, this`stopRequests
      ensures threads == Cleared(t0, cats[..i + 1])
      ensures stopRequests == old(stopRequests) + (if cats[i] in t0 then AliveOf(t0[cats[i]], alive) else [])
    {
      var cat := cats[i];
      ClearStep(t0, cats, i);
      if cat in threads {
        ClearCategory(cat, alive);
      }
    }

    /** One category of `stop_threads`: its alive threads are asked to stop and its list is emptied. */
    method ClearCategory(cat: string, alive: set<ThreadId>)
      requires cat in threads
      modifies this`threads, this`stopRequests
      ensures threads == old(threads)[cat := []]
      ensures stopRequests == old(stopRequests) + AliveOf(old(threads)[cat], alive)
    {
      RequestStops(threads[cat], alive);
      threads := threads[cat := []];
    }

    /** The inner loop of `stop_threads`: a stop request for each alive thread of one list, in order. */
    method RequestStops(list: seq<ThreadId>, alive: set<ThreadId>)
      modifies this`stopRequests
      ensures stopRequests == old(stopRequests) + AliveOf(list, alive)
    {
      var j := 0;
      while j < |list|
        invariant 0 <= j <= |list|
        invariant stopRequests == old(stopRequests) + AliveOf(list[..j], alive)
      {
        assert list[..j + 1][..j] == list[..j];
        if list[j] in alive {
          stopRequests := stopRequests + [list[j]];
        }
        j := j + 1;
      }
      assert list[..j] == list;
    }

    /** `get_active_threads`: one category's list (or none), or every list in category order. */
    method GetActiveThreads(category: Option<string>) returns (r: seq<ThreadId>)
      requires Valid()
      ensures category.Some? && category.value != "" ==>
        r == if category.value in threads then threads[category.value] else []
      ensures !(category.Some? && category.value != "") ==> r == AllOf(categories, threads)
    {
      if category.Some? && category.value != "" {
        return if category.value in threads then threads[category.value] else [];
      }
      r := [];
      var i := 0;
      while i < |categories|
        invariant 0 <= i <= |categories|
        invariant r == AllOf(categories[..i], threads)
      {
        assert categories[..i + 1][..i] == categories[..i];
        r := r + threads[categories[i]];
        i := i + 1;
      }
      assert categories[..i] == categories;
    }

    /** `safe_thread_run`: the new thread is registered before it starts. */
    method SafeThreadRun(t: ThreadId, category: string)
      requires Valid()
      modifies this`categories, this`threads, this`started
      ensures Valid()
      ensures categories == old(categories) + (if category in old(threads) then [] else [category])
      ensures threads == old(threads)[category := (if category in old(threads) then old(threads)[category] else []) + [t]]
      ensures started == old(started) + [t]
    {
      RegisterThread(t, category);
      started := started + [t];
    }

    /** The end of `wrapped_target`: whether the target returned or raised, the thread unregisters itself. */
    method FinishThread(t: ThreadId, category: string, raised: bool)
      requires Valid()
      modifies this`threads
      ensures Valid()
      ensures category in old(threads) && t in old(threads)[category] ==>
        threads == old(threads)[category := RemoveFirst(old(threads)[category], t)]
      ensures !(category in old(threads) && t in old(threads)[category]) ==> threads == old(threads)
    {
      UnregisterThread(t, category);
    }
  }

  /** The registry after the lists of `cats` are emptied; the keys stay. */
  function Cleared(threads: map<string, seq<ThreadId>>, cats: seq<string>): map<string, seq<ThreadId>>
  {
    map c | c in threads :: if c in cats then [] else threads[c]
  }

  lemma ClearedSnoc(threads: map<string, seq<ThreadId>>, cats: seq<string>, cat: string)
    requires cat !in cats
    ensures cat in threads ==> Cleared(threads, cats)[cat] == threads[cat]
    ensures cat in threads ==> Cleared(threads, cats + [cat]) == Cleared(threads, cats)[cat := []]
    ensures cat !in threads ==> Cleared(threads, cats + [cat]) == Cleared(threads, cats)
  {
  }

  /** How the registry of `stop_threads` changes with one more category. */
  lemma ClearStep(threads: map<string, seq<ThreadId>>, cats: seq<string>, i: nat)
    requires i < |cats| && cats[i] !in cats[..i]
    ensures var cat := cats[i];
      && (cat in Cleared(threads, cats[..i]) <==> cat in threads)
      && (cat in threads ==> Cleared(threads, cats[..i])[cat] == threads[cat])
      && (cat in threads ==> Cleared(threads, cats[..i + 1]) == Cleared(threads, cats[..i])[cat := []])
      && (cat !in threads ==> Cleared(threads, cats[..i + 1]) == Cleared(threads, cats[..i]))
  {
    assert cats[..i + 1] == cats[..i] + [cats[i]];
    ClearedSnoc(threads, cats[..i], cats[i]);
  }

  /** How the stop requests of `stop_threads` grow with one more category. */
  lemma AliveStep(threads: map<string, seq<ThreadId>>, cats: seq<string>, i: nat, alive: set<ThreadId>)
    requires i < |cats|
    ensures AliveOf(AllOf(cats[..i + 1], threads), alive) ==
      AliveOf(AllOf(cats[..i], threads), alive) + (if cats[i] in threads then AliveOf(threads[cats[i]], alive) else [])
  {
    var cat := cats[i];
    assert cats[..i + 1][..i] == cats[..i];
    if cat in threads {
      assert AllOf(cats[..i + 1], threads) == AllOf(cats[..i], threads) + threads[cat];
      AliveAppend(AllOf(cats[..i], threads), threads[cat], alive);
    } else {
      assert AllOf(cats[..i + 1], threads) == AllOf(cats[..i], threads);
    }
  }

  /** In a sequence without repeats, no element occurs before its own position. */
  lemma NotBefore(cats: seq<string>, i: nat)
    requires forall a, b :: 0 <= a < b < |cats| ==> cats[a] != cats[b]
    requires i < |cats|
    ensures cats[i] !in cats[..i]
  {
    assert forall a :: 0 <= a < i ==> cats[..i][a] == cats[a];
  }

  /** The stop requests after one more category are those of all categories up to it. */
  lemma RequestsStep(threads: map<string, seq<ThreadId>>, cats: seq<string>, i: nat, alive: set<ThreadId>,
                     base: seq<ThreadId>, before: seq<ThreadId>, after: seq<ThreadId>)
    requires i < |cats|
    requires before == base + AliveOf(AllOf(cats[..i], threads), alive)
    requires after == before + (if cats[i] in threads then AliveOf(threads[cats[i]], alive) else [])
    ensures after == base + AliveOf(AllOf(cats[..i + 1], threads), alive)
  {
    AliveStep(threads, cats, i, alive);
    var done := AliveOf(AllOf(cats[..i], threads), alive);
    var more := if cats[i] in threads then AliveOf(threads[cats[i]], alive) else [];
    assert AliveOf(AllOf(cats[..i + 1], threads), alive) == done + more;
    assert (base + done) + more == base + (done + more);
  }

  /** The target categories are distinct. */
  lemma TargetsDistinct(category: Option<string>, categories: seq<string>)
    requires forall a, b :: 0 <= a < b < |categories| ==> categories[a] != categories[b]
    ensures var cats := Targets(category, categories); forall a, b :: 0 <= a < b < |cats| ==> cats[a] != cats[b]
  {
  }

  lemma {:induction false} AliveAppend(a: seq<ThreadId>, b: seq<ThreadId>, alive: set<ThreadId>)
    ensures AliveOf(a + b, alive) == AliveOf(a, alive) + AliveOf(b, alive)
    decreases |b|
  {
    if |b| > 0 {
      assert (a + b)[..|a + b| - 1] == a + b[..|b| - 1];
      AliveAppend(a, b[..|b| - 1], alive);
    } else {
      assert a + b == a;
    }
  }

  /** The module-level `thread_manager`: every construction returns the one instance. */
  class Singleton {
    var instance: Option<ThreadManager>

    constructor()
      ensures instance.None?
    {
      instance := None;
    }

    /** `ThreadManager()`: the first call creates the instance, every later call returns it. */
    method Get() returns (m: ThreadManager)
      modifies this
      ensures old(instance).Some? ==> m == old(instance).value
      ensures old(instance).None? ==> fresh(m) && m.Valid() && m.threads == map[] && m.categories == []
      ensures instance == Some(m)
    {
      if instance.Some? {
        return instance.value;
      }
      m := new ThreadManager();
      instance := Some(m);
    }
  }
}
