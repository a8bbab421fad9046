/**
 * The main window of `src/ui/home.py`: the sidebar collapse hysteresis on resize, the
 * playlist page it shows, and the layout-adjustment flags. Widths are integer pixels.
 * The playlist page is known by the id of the playlist it shows; a sidebar toggle is
 * scheduled on a 100 ms timer and is recorded as pending here.
 */
module Home {
  import opened Wrappers
  import opened Json

  const CollapseBelow := 900
  const ExpandAbove := 1100

  /** What `adjust_responsive_layout` does for a window width and the sidebar's state. */
  function ShouldToggle(width: int, collapsed: bool): (r: bool)
    ensures r <==> (width < CollapseBelow && !collapsed) || (width > ExpandAbove && collapsed)
  {
    if width < CollapseBelow && !collapsed then true
    else if width > ExpandAbove && collapsed then true
    else false
  }

  /**
   * The hysteresis: between 900 and 1100 the sidebar never toggles; once a toggle has
   * run, the same width asks for no further toggle, so a window that stays put never
   * oscillates; a narrow window ends collapsed and a wide one expanded.
   */
  lemma Hysteresis(width: int, collapsed: bool)
    ensures CollapseBelow <= width <= ExpandAbove ==> !ShouldToggle(width, collapsed)
    ensures ShouldToggle(width, collapsed) ==> !ShouldToggle(width, !collapsed)
    ensures width < CollapseBelow ==> (if ShouldToggle(width, collapsed) then !collapsed else collapsed)
    ensures width > ExpandAbove ==> (if ShouldToggle(width, collapsed) then collapsed else !collapsed)
  {
  }

  /**
   * `width_change_percent > 0.05`, where the percentage is 0 unless the last width is
   * positive: |w - last| / last > 1/20, compared exactly.
   */
  predicate SignificantChange(width: int, last: int)
  {
    last > 0 && 20 * (if width >= last then width - last else last - width) > last
  }

  /** A change of more than 5 % of a positive last width in either direction is significant; no change never is. */
  lemma SignificantChangeMeaning(last: int, d: int)
    requires last > 0
    ensures SignificantChange(last + d, last) <==> 20 * d > last || 20 * d < -last
    ensures !SignificantChange(last, last)
    ensures !SignificantChange(d, 0)
  {
  }

  class HomePage {
    /** `last_window_width` and `last_window_height`. */
    var lastWidth: int
    var lastHeight: int
    /** Whether `playlist_view` is set, and the id of the playlist it shows. */
    var hasPlaylistView: bool
    var shownId: Option<Value>
    /** Playlist views created, and refreshes asked of the current one. */
    var viewsCreated: nat
    var refreshes: nat
    /** Sidebar toggles scheduled by `adjust_responsive_layout`. */
    var pendingToggles: nat
    /** Current-page geometry updates from resizes of more than 5 pixels. */
    var geometryUpdates: nat
    /** `is_adjusting_layout`. */
    var isAdjustingLayout: bool
    /** For each child widget: whether its style sheet sets a background colour, and its `needs_update` property. */
    var styled: seq<bool>
    var needsUpdate: seq<bool>

    ghost predicate Valid()
      reads this
    {
      |needsUpdate| == |styled|
    }

    constructor(width: int, height: int, styled: seq<bool>)
      ensures Valid()
      ensures lastWidth == width && lastHeight == height && !hasPlaylistView && shownId.None?
      ensures viewsCreated == 0 && refreshes == 0 && pendingToggles == 0 && geometryUpdates == 0
      ensures !isAdjustingLayout && this.styled == styled && needsUpdate == seq(|styled|, i => false)
    {
      lastWidth := width;
      lastHeight := height;
      hasPlaylistView := false;
      shownId := None;
      viewsCreated := 0;
      refreshes := 0;
      pendingToggles := 0;
      geometryUpdates := 0;
      isAdjustingLayout := false;
      this.styled := styled;
      needsUpdate := seq(|styled|, i => false);
    }

    /** `adjust_responsive_layout` for the current width and the sidebar's state. */
    method AdjustResponsiveLayout(width: int, sidebarCollapsed: bool)
      modifies this`pendingToggles
      ensures pendingToggles == old(pendingToggles) + (if ShouldToggle(width, sidebarCollapsed) then 1 else 0)
    {
      if width < CollapseBelow && !sidebarCollapsed {
        pendingToggles := pendingToggles + 1;
      } else if width > ExpandAbove && sidebarCollapsed {
        pendingToggles := pendingToggles + 1;
      }
    }

    /**
     * `resizeEvent`: the layout is adjusted only on a significant width change, the page
     * geometry refreshed on a change of more than 5 pixels when the stack has a current
     * page (`hasPage`), and the new size stored.
     */
    method ResizeEvent(width: int, height: int, sidebarCollapsed: bool, hasPage: bool)
      modifies this`pendingToggles, this`geometryUpdates, this`lastWidth, this`lastHeight
      ensures pendingToggles == old(pendingToggles) +
        (if SignificantChange(width, old(lastWidth)) && ShouldToggle(width, sidebarCollapsed) then 1 else 0)
      ensures geometryUpdates == old(geometryUpdates) +
        (if hasPage && (width - old(lastWidth) > 5 || old(lastWidth) - width > 5 || height - old(lastHeight) > 5 || old(lastHeight) - height > 5) then 1 else 0)
      ensures lastWidth == width && lastHeight == height
    {
      if SignificantChange(width, lastWidth) {
        AdjustResponsiveLayout(width, sidebarCollapsed);
      }
      var dw := if width >= lastWidth then width - lastWidth else lastWidth - width;
      var dh := if height >= lastHeight then height - lastHeight else lastHeight - height;
      if (dw > 5 || dh > 5) && hasPage {
        geometryUpdates := geometryUpdates + 1;
      }
      lastWidth := width;
      lastHeight := height;
    }

    /** `clear_content`. */
    method ClearContent()
      modifies this`hasPlaylistView, this`shownId
      ensures !hasPlaylistView && shownId.None?
    {
      hasPlaylistView := false;
      shownId := None;
    }

    /**
     * `show_playlist`: the playlist already shown is refreshed (`load_songs(force_refresh=True)`)
     * and no view is created; any other playlist replaces the page with a new view. While
     * a view is shown, a playlist without an id (or, when it is the one shown, without a
     * name) raises before anything changes.
     */
    method ShowPlaylist(playlist: Value)
      modifies this`hasPlaylistView, this`shownId, this`viewsCreated, this`refreshes
      ensures var id := if playlist.Obj? && "id" in playlist.fields then Some(playlist.fields["id"]) else None;
        if old(hasPlaylistView) && (id.None? || (old(shownId) == id && "name" !in playlist.fields)) then
          && hasPlaylistView && shownId == old(shownId)
          && viewsCreated == old(viewsCreated) && refreshes == old(refreshes)
        else if old(hasPlaylistView) && old(shownId) == id then
          && hasPlaylistView && shownId == old(shownId)
          && viewsCreated == old(viewsCreated) && refreshes == old(refreshes) + 1
        else
          && hasPlaylistView && shownId == id
          && viewsCreated == old(viewsCreated) + 1 && refreshes == old(refreshes)
    {
      var id := if playlist.Obj? && "id" in playlist.fields then Some(playlist.fields["id"]) else None;
      if hasPlaylistView {
        if id.None? {
          return;
        }
        if shownId == id {
          if "name" in playlist.fields {
            refreshes := refreshes + 1;
          }
          return;
        }
      }
      ClearContent();
      hasPlaylistView := true;
      shownId := id;
      viewsCreated := viewsCreated + 1;
    }

    /** `adjust_layout`: the adjusting flag, and every child with a background style marked for update. */
    method AdjustLayout()
      requires Valid()
      modifies this`isAdjustingLayout, this`needsUpdate
      ensures Valid() && isAdjustingLayout
      ensures forall i :: 0 <= i < |styled| ==> needsUpdate[i] == (old(needsUpdate)[i] || styled[i])
    {
      isAdjustingLayout := true;
      var i := 0;
      while i < |styled|
        invariant 0 <= i <= |styled| && |needsUpdate| == |styled| && isAdjustingLayout
        invariant forall j :: 0 <= j < i ==> needsUpdate[j] == (old(needsUpdate)[j] || styled[j])
        invariant forall j :: i <= j < |styled| ==> needsUpdate[j] == old(needsUpdate)[j]
      {
        if styled[i] {
          needsUpdate := needsUpdate[i := true];
        }
        i := i + 1;
      }
    }

    /** `finish_layout_adjustment`: every marked child is unmarked and the adjusting flag cleared. */
    method FinishLayoutAdjustment()
      requires Valid()
      modifies this`isAdjustingLayout, this`needsUpdate
      ensures Valid() && !isAdjustingLayout
      ensures forall i :: 0 <= i < |needsUpdate| ==> !needsUpdate[i]
    {
      var i := 0;
      while i < |needsUpdate|
        invariant 0 <= i <= |needsUpdate| && |needsUpdate| == |styled|
        invariant forall j :: 0 <= j < i ==> !needsUpdate[j]
      {
        if needsUpdate[i] {
          needsUpdate := needsUpdate[i := false];
        }
        i := i + 1;
      }
      isAdjustingLayout := false;
    }
  }
}
