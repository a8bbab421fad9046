/**
 * The playlist sidebar of `src/ui/sidebar_view.py`: the list of playlist items with at
 * most one selected, the stacked page showing loading (0), the playlists (1) or the
 * empty/error text (2), and the collapse toggle. Items are their playlist dicts; an
 * item's `is_selected` flag is kept in `marks`. The background loading thread is the
 * method `LoadPlaylistsThread`, run as one step, with the API's pages as a parameter.
 */
module Sidebar {
  import opened Wrappers
  import opened Json
  import Pages
  import Filters

  const LoadingPage := 0
  const ContentPage := 1
  const EmptyPage := 2
  const ExpandedWidth := 200
  const CollapsedWidth := 50

  /** What the loading thread emits: `_playlists_loaded` with every playlist, or `_loading_error`. */
  datatype LoadEvent = PlaylistsLoaded(playlists: seq<Value>) | LoadingError

  /**
   * `_load_playlists_thread`: the first page's items extended by every further page's, in
   * order, or the error signal when one of the API calls raised.
   */
  method LoadPlaylistsThread(first: seq<Value>, more: seq<seq<Value>>, raised: bool) returns (event: LoadEvent)
    ensures raised ==> event == LoadingError
    ensures !raised ==> event == PlaylistsLoaded(first + Pages.Flatten(more))
  {
    if raised {
      return LoadingError;
    }
    var playlists := first;
    var i := 0;
    while i < |more|
      invariant 0 <= i <= |more|
      invariant playlists == first + Pages.Flatten(more[..i])
    {
      LoadStep(first, more, i, playlists);
      playlists := playlists + more[i];
      i := i + 1;
    }
    assert more[..i] == more;
    return PlaylistsLoaded(playlists);
  }

  /** One more page of `_load_playlists_thread`'s loop extends the list loaded so far. */
  lemma LoadStep(first: seq<Value>, more: seq<seq<Value>>, i: nat, acc: seq<Value>)
    requires i < |more| && acc == first + Pages.Flatten(more[..i])
    ensures acc + more[i] == first + Pages.Flatten(more[..i + 1])
  {
    Pages.FlattenPrefix(more, i);
  }

  /** Every playlist of every page is in the loaded list, each page's in its own order after the pages before it. */
  lemma LoadedKeepsPages(first: seq<Value>, more: seq<seq<Value>>, page: seq<Value>)
    ensures first + Pages.Flatten(more + [page]) == (first + Pages.Flatten(more)) + page
    ensures |first + Pages.Flatten(more + [page])| == |first| + |Pages.Flatten(more)| + |page|
  {
    Pages.FlattenSnoc(more, page);
  }

  /** `n` unselected items, with item `j` selected when `j` is given. */
  function Marks(n: nat, j: Option<nat>): (r: seq<bool>)
    ensures |r| == n
    ensures forall k :: 0 <= k < n ==> (r[k] <==> j == Some(k))
  {
    seq(n, k => j == Some(k))
  }

  /** Index of the first item equal to `data`, or `|items|` when there is none. */
  function FirstMatch(items: seq<Value>, data: Value): (k: nat)
    ensures k <= |items|
    ensures k < |items| ==> items[k] == data
    ensures forall i :: 0 <= i < k ==> items[i] != data
  {
    if |items| == 0 then 0
    else if items[0] == data then 0
    else 1 + FirstMatch(items[1..], data)
  }

  /** `d["id"]` on a playlist dict, None where that raises. */
  function IdOf(d: Value): Option<Value>
  {
    if d.Obj? && "id" in d.fields then Some(d.fields["id"]) else None
  }

  /**
   * Whether `_on_playlist_item_clicked` raises before changing anything: reading the ids
   * when an item is selected, or the clicked playlist's name when the ids agree.
   */
  function ClickRaises(selected: Option<Value>, data: Value): bool
  {
    selected.Some? &&
      (IdOf(selected.value).None? || IdOf(data).None? ||
       (IdOf(selected.value) == IdOf(data) && "name" !in data.fields))
  }

  /** A dict with an id can always be clicked when nothing (or it itself, named) is selected. */
  lemma ClickRaisesMeaning(data: Value)
    requires IdOf(data).Some?
    ensures !ClickRaises(None, data)
    ensures "name" in data.fields <==> !ClickRaises(Some(data), data)
  {
  }

  /**
   * Whether `PlaylistItem(playlist)` raises: `playlist_data.get` needs a dict, the title's
   * `QLabel` a str or None name, and truthy images need `len` and `images[0].get`, so a
   * list whose first item is a dict. The cover loader catches its own errors.
   */
  predicate ItemRaises(playlist: Value)
  {
    || !playlist.Obj?
    || !LabelArgument(Get(playlist.fields, "name", Str("未知播放列表")))
    || (var images := Get(playlist.fields, "images", List([]));
        Truthy(images) && !(images.List? && images.items[0].Obj?))
  }

  /** How many items `_handle_playlists_loaded` adds: every playlist, or those before the first raising one. */
  function Added(playlists: seq<Value>): (n: nat)
    ensures n <= |playlists|
    ensures forall k :: 0 <= k < n ==> !ItemRaises(playlists[k])
    ensures n < |playlists| ==> ItemRaises(playlists[n])
  {
    match Filters.FirstWhere(playlists, ItemRaises)
    case None => |playlists|
    case Some(k) => k
  }

  /** A raising playlist after readable ones ends the items there, whatever follows it. */
  lemma AddedStopsAt(before: seq<Value>, bad: Value, rest: seq<Value>)
    requires forall k :: 0 <= k < |before| ==> !ItemRaises(before[k])
    requires ItemRaises(bad)
    ensures Added(before + [bad] + rest) == |before|
  {
    var all := before + [bad] + rest;
    assert all[|before|] == bad;
  }

  /** A playlist that is not a dict, has a number for a name, or a string for images raises; a named one without images does not. */
  lemma ItemRaisesCases(name: string)
    ensures ItemRaises(Str(name))
    ensures ItemRaises(Obj(map["name" := Int(5)]))
    ensures ItemRaises(Obj(map["name" := Str(name), "images" := Str("u")]))
    ensures ItemRaises(Obj(map["images" := List([Str("u")])]))
    ensures !ItemRaises(Obj(map["name" := Str(name)]))
    ensures !ItemRaises(Obj(map["images" := List([Obj(map[])])]))
  {
    assert Get(map["name" := Str(name), "images" := Str("u")], "images", List([])) == Str("u");
    assert List([Str("u")]).items[0] == Str("u");
  }

  class SidebarView {
    /** `playlists_loaded`. */
    var playlistsLoaded: bool
    /** `is_collapsed`. */
    var isCollapsed: bool
    /** The current index of `playlist_stack`. */
    var stackIndex: int
    /** The translation key shown by `empty_label`. */
    var emptyText: string
    /** The playlist dict of each entry of `playlist_items`. */
    var items: seq<Value>
    /** Each item's `is_selected`. */
    var marks: seq<bool>
    /** The position of `selected_item` in `playlist_items`. */
    var selected: Option<nat>
    /** The width the collapse animation runs to. */
    var targetWidth: int
    /** The playlists sent with `playlist_selected`, and the states sent with `collapsed_changed`. */
    var selectedSignals: seq<Value>
    var collapsedSignals: seq<bool>
    /** The loading threads started. */
    var threadsStarted: nat

    /** Each item has its flag, the selection points at an item, and only the selected item is marked. */
    ghost predicate Valid()
      reads this
    {
      && |marks| == |items|
      && (selected.Some? ==> selected.value < |items|)
      && forall k :: 0 <= k < |marks| && marks[k] ==> selected == Some(k)
    }

    constructor()
      ensures Valid()
      ensures !playlistsLoaded && !isCollapsed && stackIndex == LoadingPage && emptyText == "sidebar.no_playlists"
      ensures items == [] && marks == [] && selected.None? && targetWidth == ExpandedWidth
      ensures selectedSignals == [] && collapsedSignals == [] && threadsStarted == 0
    {
      playlistsLoaded := false;
      isCollapsed := false;
      stackIndex := LoadingPage;
      emptyText := "sidebar.no_playlists";
      items := [];
      marks := [];
      selected := None;
      targetWidth := ExpandedWidth;
      selectedSignals := [];
      collapsedSignals := [];
      threadsStarted := 0;
    }

    /** `load_playlists`: nothing once loaded; otherwise the loading page and a loading thread. */
    method LoadPlaylists()
      modifies this`stackIndex, this`threadsStarted
      ensures old(playlistsLoaded) ==> stackIndex == old(stackIndex) && threadsStarted == old(threadsStarted)
      ensures !old(playlistsLoaded) ==> stackIndex == LoadingPage && threadsStarted == old(threadsStarted) + 1
    {
      if playlistsLoaded {
        return;
      }
      stackIndex := LoadingPage;
      threadsStarted := threadsStarted + 1;
    }

    /** `_show_error_state`: the failure text on the empty page. */
    method ShowErrorState()
      modifies this`emptyText, this`stackIndex
      ensures emptyText == "sidebar.loading_failed" && stackIndex == EmptyPage
    {
      emptyText := "sidebar.loading_failed";
      stackIndex := EmptyPage;
    }

    /** `_clear_playlists`. */
    method ClearPlaylists()
      modifies this`items, this`marks, this`selected
      ensures items == [] && marks == [] && selected.None?
      ensures Valid()
    {
      items := [];
      marks := [];
      selected := None;
    }

    /**
     * `_handle_playlists_loaded`: one unselected item per playlist on the content page, or
     * the empty page for no playlists; the sidebar counts as loaded either way. A playlist
     * whose item raises ends the call: the items before it stay, and neither the page nor
     * the loaded flag is set.
     */
    method HandlePlaylistsLoaded(playlists: seq<Value>) returns (raised: bool)
      modifies this`items, this`marks, this`selected, this`stackIndex, this`playlistsLoaded
      ensures Valid()
      ensures raised <==> Added(playlists) < |playlists|
      ensures items == playlists[..Added(playlists)] && marks == Marks(Added(playlists), None) && selected.None?
      ensures raised ==> stackIndex == old(stackIndex) && playlistsLoaded == old(playlistsLoaded)
      ensures !raised ==> stackIndex == (if |playlists| > 0 then ContentPage else EmptyPage) && playlistsLoaded
    {
      ClearPlaylists();
      if |playlists| > 0 {
        var i := 0;
        while i < |playlists|
          invariant 0 <= i <= |playlists|
          invariant items == playlists[..i] && marks == Marks(i, None) && selected.None?
          invariant forall k :: 0 <= k < i ==> !ItemRaises(playlists[k])
          invariant stackIndex == old(stackIndex) && playlistsLoaded == old(playlistsLoaded)
        {
          if ItemRaises(playlists[i]) {
            return true;
          }
          items := items + [playlists[i]];
          marks := marks + [false];
          assert playlists[..i + 1] == playlists[..i] + [playlists[i]];
          i := i + 1;
        }
        assert playlists[..i] == playlists;
        stackIndex := ContentPage;
      } else {
        stackIndex := EmptyPage;
      }
      playlistsLoaded := true;
      return false;
    }

    /**
     * `_on_playlist_item_clicked`: the previous selection is unmarked and the first item
     * equal to the clicked playlist becomes the selected, marked one; when no item equals
     * it the stale selection stays, unmarked. The playlist is sent on either way. A click
     * whose ids cannot be read raises and changes nothing.
     */
    method OnPlaylistItemClicked(data: Value)
      requires Valid()
      modifies this`marks, this`selected, this`selectedSignals
      ensures Valid()
      ensures var selectedData := if old(selected).Some? then Some(items[old(selected).value]) else None;
        if ClickRaises(selectedData, data) then
          marks == old(marks) && selected == old(selected) && selectedSignals == old(selectedSignals)
        else
          var k := FirstMatch(items, data);
          && selected == (if k < |items| then Some(k) else old(selected))
          && marks == Marks(|items|, if k < |items| then Some(k) else None)
          && selectedSignals == old(selectedSignals) + [data]
    {
      var selectedData := if selected.Some? then Some(items[selected.value]) else None;
      if ClickRaises(selectedData, data) {
        return;
      }
      if selected.Some? {
        marks := marks[selected.value := false];
      }
      assert marks == Marks(|items|, None);
      var i := 0;
      while i < |items|
        invariant 0 <= i <= |items|
        invariant forall j :: 0 <= j < i ==> items[j] != data
        invariant marks == Marks(|items|, None) && selected == old(selected)
      {
        if items[i] == data {
          selected := Some(i);
          marks := marks[i := true];
          assert marks == Marks(|items|, Some(i));
          break;
        }
        i := i + 1;
      }
      assert i == FirstMatch(items, data) by {
        if i < |items| {
          assert items[i] == data;
        }
      }
      selectedSignals := selectedSignals + [data];
    }

    /** At most one item is marked selected, and a marked item is the selection. */
    lemma AtMostOneSelected(i: nat, j: nat)
      requires Valid()
      requires i < |marks| && j < |marks| && marks[i] && marks[j]
      ensures i == j && selected == Some(i)
    {
    }

    /** `reload_playlists`: the loading page, the loaded flag reset, another loading thread. */
    method ReloadPlaylists()
      modifies this`stackIndex, this`playlistsLoaded, this`threadsStarted
      ensures stackIndex == LoadingPage && !playlistsLoaded && threadsStarted == old(threadsStarted) + 1
    {
      stackIndex := LoadingPage;
      playlistsLoaded := false;
      threadsStarted := threadsStarted + 1;
    }

    /** `toggle_sidebar`: flips the collapsed state, aims the width at 50 or 200 and emits the new state. */
    method ToggleSidebar()
      modifies this`isCollapsed, this`targetWidth, this`collapsedSignals
      ensures isCollapsed == !old(isCollapsed)
      ensures targetWidth == if isCollapsed then CollapsedWidth else ExpandedWidth
      ensures collapsedSignals == old(collapsedSignals) + [isCollapsed]
    {
      isCollapsed := !isCollapsed;
      targetWidth := if isCollapsed then CollapsedWidth else ExpandedWidth;
      collapsedSignals := collapsedSignals + [isCollapsed];
    }
  }
}
