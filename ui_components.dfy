/**
 * The responsive layout of the newer playlist view
 * (`src/ui/playlist_module/ui_components.py`): the width breakpoints of
 * `adjust_responsive_ui` with its re-entrancy flag, and the column widths
 * `update_song_item_widths` gives every song row. Widths are whole pixels; the
 * ratios 0.38, 0.24 and so on are exact hundredths here.
 */
module UiComponents {
  import opened Wrappers

  function Max(a: int, b: int): int
  {
    if a >= b then a else b
  }

  // ---------------------------------------------------------------- adjust_responsive_ui breakpoints

  /** `width_factor` in hundredths, the cover's side and the title's font size. */
  datatype Breakpoint = Breakpoint(factorPercent: int, coverSize: int, titleFontSize: int)

  function BreakpointFor(width: int): Breakpoint
  {
    if width < 800 then Breakpoint(80, 150, 22)
    else if width < 1000 then Breakpoint(90, 180, 24)
    else Breakpoint(100, 192, 28)
  }

  /**
   * Below 800 px the factor is 0.8 with a 150 px cover, below 1000 px 0.9 with 180 px,
   * otherwise 1.0 with 192 px; a wider window never gets a smaller factor, cover or font.
   */
  lemma BreakpointMeaning(w1: int, w2: int)
    requires w1 <= w2
    ensures var b := BreakpointFor(w1);
      && (w1 < 800 <==> b.factorPercent == 80 && b.coverSize == 150)
      && (800 <= w1 < 1000 <==> b.factorPercent == 90 && b.coverSize == 180)
      && (1000 <= w1 <==> b.factorPercent == 100 && b.coverSize == 192)
    ensures var b1 := BreakpointFor(w1);
      var b2 := BreakpointFor(w2);
      b1.factorPercent <= b2.factorPercent && b1.coverSize <= b2.coverSize && b1.titleFontSize <= b2.titleFontSize
  {
  }

  // ---------------------------------------------------------------- update_song_item_widths

  datatype Columns = Columns(index: int, checkbox: int, artwork: int, title: int, album: int, artist: int)

  /** `max(viewport_width - 60, 500)`. */
  function EffectiveWidth(viewport: int): (e: int)
    ensures e >= 500 && e >= viewport - 60 && (e == 500 || e == viewport - 60)
  {
    Max(viewport - 60, 500)
  }

  /** The artwork column, the extra margin and the title, album and artist ratios in hundredths. */
  datatype Ratios = Ratios(artwork: int, margin: int, title: int, album: int, artist: int)

  function RatiosFor(viewport: int): Ratios
  {
    if viewport < 800 then Ratios(40, 60, 38, 24, 38)
    else if viewport < 1000 then Ratios(50, 70, 34, 28, 38)
    else Ratios(50, 80, 33, 33, 34)
  }

  /** `remaining_width`: what is left for the three text columns. */
  function Remaining(viewport: int): int
  {
    EffectiveWidth(viewport) - 30 - 30 - RatiosFor(viewport).artwork - RatiosFor(viewport).margin
  }

  /** `int(x * factor)` for the reduction `remaining_width / total_allocated`, read exactly. */
  function Reduce(x: int, remaining: int, total: int): int
    requires total > 0
  {
    x * remaining / total
  }

  function SongItemWidths(viewport: int): (c: Columns)
    ensures c.index == 30 && c.checkbox == 30
    ensures c.artwork == if viewport < 800 then 40 else 50
    ensures c.title >= 60 && c.album >= 50 && c.artist >= 60
  {
    var r := RatiosFor(viewport);
    var remaining := Remaining(viewport);
    var title := Max(remaining * r.title / 100, 60);
    var album := Max(remaining * r.album / 100, 50);
    var artist := Max(remaining * r.artist / 100, 60);
    var total := title + album + artist;
    if total > remaining then
      Columns(30, 30, r.artwork, Max(Reduce(title, remaining, total), 60), Max(Reduce(album, remaining, total), 50),
              Max(Reduce(artist, remaining, total), 60))
    else Columns(30, 30, r.artwork, title, album, artist)
  }

  lemma FloorSum(remaining: int, a: int, b: int, c: int)
    requires remaining >= 0 && a >= 0 && b >= 0 && c >= 0 && a + b + c == 100
    ensures remaining * a / 100 + remaining * b / 100 + remaining * c / 100 <= remaining
  {
    assert (remaining * a / 100) * 100 <= remaining * a;
    assert (remaining * b / 100) * 100 <= remaining * b;
    assert (remaining * c / 100) * 100 <= remaining * c;
    assert remaining * a + remaining * b + remaining * c == remaining * 100;
  }

  /**
   * At least 310 px are always left for the text columns, so the minimums never bind and
   * the three columns fit: each is its ratio's share of the remaining width, rounded down,
   * and the proportional reduction is never taken.
   */
  lemma WidthsAreShares(viewport: int)
    ensures Remaining(viewport) >= 310
    ensures var c := SongItemWidths(viewport);
      var r := RatiosFor(viewport);
      && c.title == Remaining(viewport) * r.title / 100
      && c.album == Remaining(viewport) * r.album / 100
      && c.artist == Remaining(viewport) * r.artist / 100
      && c.title + c.album + c.artist <= Remaining(viewport)
  {
    var r := RatiosFor(viewport);
    var remaining := Remaining(viewport);
    assert remaining >= 310;
    assert remaining * r.title >= 310 * r.title;
    assert remaining * r.album >= 310 * r.album;
    assert remaining * r.artist >= 310 * r.artist;
    FloorSum(remaining, r.title, r.album, r.artist);
  }

  /** The size a row's widget gets: a fixed width, a fixed square, or a minimum and maximum width. */
  datatype Size = Fixed(width: int) | Square(side: int) | Between(min: int, max: int)

  /** Widget `j` of a song row: index, checkbox, artwork, then title, album and artist at most 20 px above their minimum. */
  function ColumnSize(c: Columns, j: nat): (s: Option<Size>)
    ensures 3 <= j <= 5 ==> s.Some? && s.value.Between? && s.value.max == s.value.min + 20
    ensures j > 5 ==> s.None?
  {
    if j == 0 then Some(Fixed(c.index))
    else if j == 1 then Some(Fixed(c.checkbox))
    else if j == 2 then Some(Square(c.artwork))
    else if j == 3 then Some(Between(c.title, c.title + 20))
    else if j == 4 then Some(Between(c.album, c.album + 20))
    else if j == 5 then Some(Between(c.artist, c.artist + 20))
    else None
  }

  /**
   * The loops of `update_song_item_widths` over the song rows and their widgets. `rows`
   * holds each layout item's widget count (None when it has no widget with a layout); the
   * last layout item is the stretch and is skipped. The count is of the row layout's
   * items that hold a widget: the inner loop skips an item without one, and a row built
   * by `create_song_item` only adds widgets, so its items are all counted.
   */
  method UpdateSongItemWidths(viewport: int, rows: seq<Option<nat>>) returns (sizes: seq<seq<Option<Size>>>)
    ensures |sizes| == if |rows| == 0 then 0 else |rows| - 1
    ensures forall i :: 0 <= i < |sizes| ==>
      |sizes[i]| == rows[i].GetOr(0) && forall j :: 0 <= j < |sizes[i]| ==> sizes[i][j] == ColumnSize(SongItemWidths(viewport), j)
  {
    var c := SongItemWidths(viewport);
    sizes := [];
    var i := 0;
    while i < |rows| - 1
      invariant 0 <= i <= if |rows| == 0 then 0 else |rows| - 1
      invariant |sizes| == i
      invariant forall k :: 0 <= k < i ==>
        |sizes[k]| == rows[k].GetOr(0) && forall j :: 0 <= j < |sizes[k]| ==> sizes[k][j] == ColumnSize(c, j)
    {
      var row: seq<Option<Size>> := [];
      var count := rows[i].GetOr(0);
      var j := 0;
      while j < count
        invariant 0 <= j <= count && |row| == j
        invariant forall k :: 0 <= k < j ==> row[k] == ColumnSize(c, k)
      {
        row := row + [ColumnSize(c, j)];
        j := j + 1;
      }
      sizes := sizes + [row];
      i := i + 1;
    }
  }

  // ---------------------------------------------------------------- the view's layout state

  class ResponsiveLayout {
    /** `self.is_redrawing`. */
    var isRedrawing: bool
    /** `self.width_factor` in hundredths. */
    var widthFactor: int
    var coverSize: int
    var titleFontSize: int
    /** Adjustments deferred with `QTimer.singleShot(100, ...)` and not yet run. */
    var deferred: nat
    /** The widget sizes of the song rows. */
    var rowSizes: seq<seq<Option<Size>>>

    /** The fields `__init__` sets; the cover and title keep their initial look. */
    constructor(coverSize: int, titleFontSize: int)
      ensures !isRedrawing && widthFactor == 100 && deferred == 0 && rowSizes == []
      ensures this.coverSize == coverSize && this.titleFontSize == titleFontSize
    {
      isRedrawing := false;
      widthFactor := 100;
      this.coverSize := coverSize;
      this.titleFontSize := titleFontSize;
      deferred := 0;
      rowSizes := [];
    }

    /**
     * `adjust_responsive_ui`. While a redraw is under way the call is deferred and nothing
     * else changes; otherwise the breakpoint for `width` is applied, the rows get the widths
     * for the viewport, and the flag is clear again afterwards.
     */
    method AdjustResponsiveUi(width: int, viewport: int, rows: seq<Option<nat>>)
      modifies this
      ensures old(isRedrawing) ==>
        && deferred == old(deferred) + 1 && isRedrawing
        && widthFactor == old(widthFactor) && coverSize == old(coverSize) && titleFontSize == old(titleFontSize)
        && rowSizes == old(rowSizes)
      ensures !old(isRedrawing) ==>
        && !isRedrawing && deferred == old(deferred)
        && Breakpoint(widthFactor, coverSize, titleFontSize) == BreakpointFor(width)
        && |rowSizes| == (if |rows| == 0 then 0 else |rows| - 1)
        && (forall i, j :: 0 <= i < |rowSizes| && 0 <= j < |rowSizes[i]| ==> rowSizes[i][j] == ColumnSize(SongItemWidths(viewport), j))
    {
      if isRedrawing {
        deferred := deferred + 1;
        return;
      }
      isRedrawing := true;
      var b := BreakpointFor(width);
      widthFactor := b.factorPercent;
      coverSize := b.coverSize;
      titleFontSize := b.titleFontSize;
      rowSizes := UpdateSongItemWidths(viewport, rows);
      isRedrawing := false;
    }
  }
}
