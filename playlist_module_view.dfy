/**
 * The state of the newer playlist view (`src/ui/playlist_module/playlist_view.py`) and the
 * methods `song_list_manager.py` and `export_manager.py` attach to it: loading, the song
 * list with its batches, filter and sort, the selection, export mode and `export_selected`,
 * the image cache and the scroll throttle. Widgets are left out; a song row is a
 * `SongListManager.SongItem` and the status label is a `Status`.
 */
module PlaylistModuleView {
  import opened Wrappers
  import opened Json
  import Strings
  import Filters
  import SongListManager
  import ExportManager
  import FileExporter

  // ---------------------------------------------------------------- get_text

  /**
   * `get_text`: the locale manager's answer, or `default` when there is no manager, when
   * its `get_text` raises (None) or when it answers with a dict. The answer is never a dict.
   */
  function ViewText(locale: Option<(string, string) -> Option<Value>>, key: string, default: string): (r: Value)
    ensures !r.Obj?
    ensures locale.None? ==> r == Str(default)
    ensures locale.Some? && locale.value(key, default).None? ==> r == Str(default)
    ensures locale.Some? && locale.value(key, default).Some? ==>
      r == if locale.value(key, default).value.Obj? then Str(default) else locale.value(key, default).value
  {
    if locale.None? then Str(default)
    else
      var res := locale.value(key, default);
      if res.None? || res.value.Obj? then Str(default) else res.value
  }

  // ---------------------------------------------------------------- the create_song_list filter, on records

  /** `_process_track_data` as the view applies it to an item. */
  function Processor(hash: Value -> int): Value -> map<string, Value>
  {
    item => SongListManager.ProcessTrackData(item, hash)
  }

  /** The filter test applied to the record `record` builds from a playlist item. */
  function RecordFilterTest(q: string, record: Value -> map<string, Value>): Value -> Option<bool>
  {
    item => SongListManager.FilterMatch(q, Obj(record(item)))
  }

  /**
   * The filter of `create_song_list` over the playlist items the view holds, reading each
   * item's name, artist and album from its processed record. No filter text keeps all.
   */
  function RecordFilter(songs: seq<Value>, filterText: Option<string>, record: Value -> map<string, Value>): (seq<Value>, bool)
  {
    if filterText.None? || filterText.value == "" then (songs, true)
    else Filters.Scan(songs, RecordFilterTest(Strings.Lower(filterText.value), record))
  }

  /**
   * When the loop finishes, an item is kept exactly when its record matches, and the
   * kept items of a concatenation are those of its parts, in order.
   */
  lemma RecordFilterMeaning(songs: seq<Value>, more: seq<Value>, filterText: string, record: Value -> map<string, Value>)
    requires filterText != ""
    requires RecordFilter(songs + more, Some(filterText), record).1
    ensures var q := Strings.Lower(filterText);
      && (forall s :: s in RecordFilter(songs, Some(filterText), record).0 <==>
            s in songs && SongListManager.FilterMatch(q, Obj(record(s))) == Some(true))
      && RecordFilter(songs + more, Some(filterText), record).0 ==
           RecordFilter(songs, Some(filterText), record).0 + RecordFilter(more, Some(filterText), record).0
  {
    var test := RecordFilterTest(Strings.Lower(filterText), record);
    Filters.ScanAppend(songs, more, test);
    Filters.ScanMeaning(songs, test);
  }

  lemma ProcessedMatch(q: string, item: Value, hash: Value -> int, name: string, album: string)
    requires SongListManager.ProcessTrackData(item, hash)["name"] == Str(name)
    requires SongListManager.ProcessTrackData(item, hash)["album"] == Str(album)
    ensures var r := SongListManager.ProcessTrackData(item, hash);
      SongListManager.FilterMatch(q, Obj(r)) == Some(
        Strings.Contains(Strings.Lower(name), q) || Strings.Contains(Strings.Lower(r["artist"].s), q) ||
        Strings.Contains(Strings.Lower(album), q))
  {
    var r := SongListManager.ProcessTrackData(item, hash);
    SongListManager.FilterMatchMeaning(q, r, name, r["artist"].s, album);
  }

  /**
   * An item whose record has a string name and album passes the filter exactly when the
   * text occurs in the lowered name, artist or album.
   */
  lemma RecordFilterOfStrings(q: string, item: Value, hash: Value -> int, name: string, album: string)
    requires SongListManager.ProcessTrackData(item, hash)["name"] == Str(name)
    requires SongListManager.ProcessTrackData(item, hash)["album"] == Str(album)
    ensures var artist := SongListManager.ProcessTrackData(item, hash)["artist"].s;
      RecordFilterTest(q, Processor(hash))(item) == Some(
        Strings.Contains(Strings.Lower(name), q) || Strings.Contains(Strings.Lower(artist), q) ||
        Strings.Contains(Strings.Lower(album), q))
  {
    ProcessedMatch(q, item, hash, name, album);
  }

  // ---------------------------------------------------------------- finding: filtering raw playlist items

  /** A playlist item as the loader delivers it: the song's fields sit under "track". */
  const RawItem: Value := Obj(map["track" := Obj(map["id" := Str("1"), "name" := Str("b")]), "original_index" := Int(1)])

  /** The filter as written reads `song["name"]` from the item, which has no such key: it raises. */
  lemma FilterOnItemsRaises()
    ensures SongListManager.FilterSongs([RawItem], Some("b")) == ([], false)
  {
    assert Strings.Lower("b") == "b";
    assert "name" !in RawItem.fields;
    assert SongListManager.FieldContains(RawItem, "name", "b").None?;
    assert SongListManager.FilterTest("b")(RawItem).None?;
    assert [RawItem][..0] == [];
    assert Filters.Scan([RawItem], SongListManager.FilterTest("b")) == ([], false);
  }

  /** The record of `RawItem` is named "b". */
  lemma RawItemRecord(hash: Value -> int)
    ensures SongListManager.ProcessTrackData(RawItem, hash)["name"] == Str("b")
    ensures SongListManager.ProcessTrackData(RawItem, hash)["album"] == Str(FileExporter.UnknownAlbum)
  {
    var track := map["id" := Str("1"), "name" := Str("b")];
    assert "id" in track;
    SongListManager.ProcessWellFormed(RawItem.fields, track, map[], [], hash);
  }

  /** An item whose record's name contains the text matches it. */
  lemma NameMatches(q: string, item: Value, hash: Value -> int, name: string, album: string)
    requires SongListManager.ProcessTrackData(item, hash)["name"] == Str(name)
    requires SongListManager.ProcessTrackData(item, hash)["album"] == Str(album)
    requires Strings.Contains(Strings.Lower(name), q)
    ensures RecordFilterTest(q, Processor(hash))(item) == Some(true)
  {
    RecordFilterOfStrings(q, item, hash, name, album);
  }

  lemma BContainsB()
    ensures Strings.Contains(Strings.Lower("b"), "b")
  {
    assert Strings.Lower("b") == "b";
    assert Strings.OccursAt("b", "b", 0);
  }

  lemma ScanKeepsOne(x: Value, test: Value -> Option<bool>)
    requires test(x) == Some(true)
    ensures Filters.Scan([x], test) == ([x], true)
  {
    var xs := [x];
    assert xs[..|xs| - 1] == [];
    assert Filters.Scan([], test) == ([], true);
    assert Filters.Scan(xs, test) == ([] + [x], true);
    assert [] + [x] == xs;
  }

  /** Reading the item's record instead keeps it. */
  lemma FilterOnRecordsKeeps(hash: Value -> int)
    ensures RecordFilter([RawItem], Some("b"), Processor(hash)) == ([RawItem], true)
  {
    assert Strings.Lower("b") == "b";
    RawItemRecord(hash);
    BContainsB();
    NameMatches("b", RawItem, hash, "b", FileExporter.UnknownAlbum);
    ScanKeepsOne(RawItem, RecordFilterTest("b", Processor(hash)));
  }

  // ---------------------------------------------------------------- rows and outcomes

  /** An opaque handle for a loaded `QPixmap`. */
  type Pixmap = nat

  /** The status label: a text fetched through `get_text`, or a literal text. */
  datatype Status = Localised(key: string, default: string) | Literal(text: string)

  /** `f"{count} 首歌曲"`. */
  function CountText(n: nat): Status
  {
    Literal(Strings.NatToString(n) + " 首歌曲")
  }

  /** The records `record` gives for a batch, in batch order. */
  function Records(batch: seq<Value>, record: Value -> map<string, Value>): (r: seq<map<string, Value>>)
    ensures |r| == |batch|
  {
    seq(|batch|, i requires 0 <= i < |batch| => record(batch[i]))
  }

  lemma RecordsSnoc(batch: seq<Value>, i: nat, record: Value -> map<string, Value>)
    requires i < |batch|
    ensures Records(batch[..i + 1], record) == Records(batch[..i], record) + [record(batch[i])]
  {
  }

  /** `_process_track_data` gives every item an id, so no item of a batch is skipped. */
  lemma ProcessedRecordsHaveIds(batch: seq<Value>, hash: Value -> int)
    ensures forall i :: 0 <= i < |batch| ==> "id" in Records(batch, Processor(hash))[i]
  {
  }

  const NoItems := SongListManager.Items([], map[])

  /** What `request_song_image` does: reuse the view's pixmap, or start an `ImageLoader`. */
  datatype ImageRequest = FromViewCache(pixmap: Pixmap) | StartLoader(url: Value, trackId: Value)

  function ImageRequestFor(cache: map<Value, Pixmap>, url: Value, trackId: Value): ImageRequest
  {
    if trackId in cache then FromViewCache(cache[trackId]) else StartLoader(url, trackId)
  }

  /** After `on_song_image_loaded` stores a pixmap, requests for that id reuse it; other ids are unaffected. */
  lemma LoadedImageIsReused(cache: map<Value, Pixmap>, trackId: Value, p: Pixmap, url: Value, other: Value)
    requires other != trackId
    ensures ImageRequestFor(cache[trackId := p], url, trackId) == FromViewCache(p)
    ensures ImageRequestFor(cache[trackId := p], url, other) == ImageRequestFor(cache, url, other)
    ensures trackId !in cache ==> ImageRequestFor(cache, url, trackId) == StartLoader(url, trackId)
  {
  }

  /** What one call of `export_selected` leads to. */
  datatype ExportOutcome =
    | EnteredExportMode
    | NoSelection
    | Crashed(error: string)
    | Cancelled
    | Exported(songs: seq<map<string, Value>>, path: string, format: string)

  /** The records of the rows with the given ids, in that order. */
  function SongsOf(s: SongListManager.Items, ids: seq<Value>): (r: seq<map<string, Value>>)
    requires forall x :: x in ids ==> x in s.byId
    ensures |r| == |ids|
    ensures forall i :: 0 <= i < |ids| ==> r[i] == s.byId[ids[i]].track
  {
    seq(|ids|, i requires 0 <= i < |ids| => s.byId[ids[i]].track)
  }

  /**
   * `export_selected` as written: outside export mode it enters it; with nothing selected it
   * warns; otherwise `self.song_items[song_id].song_data` raises, since rows carry `track_data`.
   * Past that, `self.file_exporter` would raise too: nothing assigns it.
   */
  function ExportSelectedAsWritten(exportMode: bool, s: SongListManager.Items): ExportOutcome
    requires SongListManager.ItemsValid(s)
  {
    if !exportMode then EnteredExportMode
    else if |SongListManager.SelectedIds(s)| == 0 then NoSelection
    else Crashed("AttributeError: song_data")
  }

  /**
   * `export_selected` reading the rows' records: the selected records go to the exporter
   * with the path from the save dialog, unless the dialog gives the empty path.
   * `format` is the `file_format` of the exporter `get_file_exporter()` gives, stored as
   * `self.file_exporter`, which the source never assigns; `chosen` is the dialog's answer.
   */
  function ExportSelectedOutcome(exportMode: bool, s: SongListManager.Items, format: string, chosen: Option<string>): ExportOutcome
    requires SongListManager.ItemsValid(s)
  {
    if !exportMode then EnteredExportMode
    else
      var ids := SongListManager.SelectedIds(s);
      if |ids| == 0 then NoSelection
      else
        var path := ExportManager.SaveFilePath(format, chosen);
        if path == "" then Cancelled else Exported(SongsOf(s, ids), path, format)
  }

  /**
   * The exporter receives exactly the checked rows' records, in row order, and a path that
   * ends in the effective format's extension; a cancelled dialog exports nothing.
   */
  lemma ExportSelectedMeaning(s: SongListManager.Items, format: string, chosen: Option<string>)
    requires SongListManager.ItemsValid(s)
    ensures var r := ExportSelectedOutcome(true, s, format, chosen);
      && (r.NoSelection? <==> forall x :: x in s.byId ==> !s.byId[x].checked)
      && (r.Exported? ==>
            && (forall rec :: rec in r.songs <==> exists x :: x in s.byId && s.byId[x].checked && s.byId[x].track == rec)
            && Strings.EndsWith(Strings.Lower(r.path), "." + ExportManager.EffectiveFormat(format)))
      && (chosen.None? || chosen == Some("") ==> r.NoSelection? || r.Cancelled?)
  {
    var ids := SongListManager.SelectedIds(s);
    if |ids| > 0 {
      var x := ids[0];
      assert x in s.byId && s.byId[x].checked;
    } else {
      forall x | x in s.byId ensures !s.byId[x].checked {
        assert x !in ids;
      }
    }
    if chosen.Some? && chosen.value != "" {
      ExportManager.SaveFilePathExtension(format, chosen.value);
    }
    var r := ExportSelectedOutcome(true, s, format, chosen);
    if r.Exported? {
      forall rec ensures rec in r.songs <==> exists x :: x in s.byId && s.byId[x].checked && s.byId[x].track == rec {
        SelectedSong(s, rec);
      }
    }
  }

  /** A record is among the selected rows' records exactly when some checked row holds it. */
  lemma SelectedSong(s: SongListManager.Items, rec: map<string, Value>)
    requires SongListManager.ItemsValid(s)
    ensures var ids := SongListManager.SelectedIds(s);
      rec in SongsOf(s, ids) <==> exists x :: x in s.byId && s.byId[x].checked && s.byId[x].track == rec
  {
    var ids := SongListManager.SelectedIds(s);
    var songs := SongsOf(s, ids);
    if rec in songs {
      var i :| 0 <= i < |ids| && songs[i] == rec;
      assert ids[i] in s.byId && s.byId[ids[i]].checked;
    }
    if exists x :: x in s.byId && s.byId[x].checked && s.byId[x].track == rec {
      var x :| x in s.byId && s.byId[x].checked && s.byId[x].track == rec;
      CheckedRowSong(s, x);
    }
  }

  /** The record of a checked row is among the selected rows' records. */
  lemma CheckedRowSong(s: SongListManager.Items, x: Value)
    requires SongListManager.ItemsValid(s)
    requires x in s.byId && s.byId[x].checked
    ensures s.byId[x].track in SongsOf(s, SongListManager.SelectedIds(s))
  {
    var ids := SongListManager.SelectedIds(s);
    var i := Position(ids, x);
    assert SongsOf(s, ids)[i] == s.byId[x].track;
  }

  /** A position at which an element of a sequence stands. */
  lemma Position(ids: seq<Value>, x: Value) returns (i: nat)
    requires x in ids
    ensures i < |ids| && ids[i] == x
  {
    i :| 0 <= i < |ids| && ids[i] == x;
  }

  /** A single checked row with id "1". */
  function OneCheckedRow(rec: map<string, Value>): SongListManager.Items
  {
    SongListManager.Items([Str("1")], map[Str("1") := SongListManager.SongItem(rec, true, true)])
  }

  lemma OneCheckedRowSelected(rec: map<string, Value>)
    ensures SongListManager.ItemsValid(OneCheckedRow(rec))
    ensures SongListManager.SelectedIds(OneCheckedRow(rec)) == [Str("1")]
  {
    var s := OneCheckedRow(rec);
    assert (set x | x in s.ids) == {Str("1")};
    assert SongListManager.ItemsValid(s);
    assert s.ids[..|s.ids| - 1] == [];
    assert s.byId[s.ids[0]].checked;
    assert SongListManager.SelectedIn([], s.byId) == [];
  }

  /** A row that is checked in export mode: as written the export crashes, reading the record it goes ahead. */
  lemma ExportOfOneSongCrashes(rec: map<string, Value>, path: string)
    requires path != "" && Strings.EndsWith(Strings.Lower(path), ".txt")
    ensures SongListManager.ItemsValid(OneCheckedRow(rec))
    ensures ExportSelectedAsWritten(true, OneCheckedRow(rec)).Crashed?
    ensures ExportSelectedOutcome(true, OneCheckedRow(rec), "txt", Some(path)) == Exported([rec], path, "txt")
  {
    OneCheckedRowSelected(rec);
    OneCheckedRowSongs(rec);
    TxtPathKept(path);
  }

  lemma OneCheckedRowSongs(rec: map<string, Value>)
    requires SongListManager.ItemsValid(OneCheckedRow(rec))
    ensures SongsOf(OneCheckedRow(rec), [Str("1")]) == [rec]
  {
    var songs := SongsOf(OneCheckedRow(rec), [Str("1")]);
    assert songs[0] == rec;
  }

  /** A picked path that already ends in ".txt" comes back from the TXT save dialog unchanged. */
  lemma TxtPathKept(path: string)
    requires path != "" && Strings.EndsWith(Strings.Lower(path), ".txt")
    ensures ExportManager.SaveFilePath("txt", Some(path)) == path
  {
    assert ExportManager.EffectiveFormat("txt") == "txt";
    assert "." + "txt" == ".txt";
    assert ExportManager.ForceExtension(path, "txt") == path;
  }

  // ---------------------------------------------------------------- loops over rows

  /** Which checkbox property a loop over the rows sets. */
  datatype Flag = Checked | Shown

  function SetAll(s: SongListManager.Items, which: Flag, v: bool): SongListManager.Items
  {
    if which == Checked then SongListManager.Items(s.ids, SongListManager.SetAllChecked(s.byId, v))
    else SongListManager.Items(s.ids, SongListManager.SetAllShown(s.byId, v))
  }

  /** One row's checkbox with the property set. */
  function Flip(item: SongListManager.SongItem, which: Flag, v: bool): SongListManager.SongItem
  {
    if which == Checked then item.(checked := v) else item.(shown := v)
  }

  /** `for song_id, song_item in self.song_items.items(): song_item.checkbox.setChecked(v)` (or `show`/`hide`). */
  method SetEachRow(s: SongListManager.Items, which: Flag, v: bool) returns (r: SongListManager.Items)
    requires SongListManager.ItemsValid(s)
    ensures SongListManager.ItemsValid(r)
    ensures r == SetAll(s, which, v)
  {
    var m := FlipEach(s.ids, s.byId, which, v);
    SetAllFlips(s, which, v, m);
    r := SongListManager.Items(s.ids, m);
  }

  /** The loop of `SetEachRow`: the rows of the listed ids are flipped, the others kept. */
  method FlipEach(ids: seq<Value>, byId: map<Value, SongListManager.SongItem>, which: Flag, v: bool)
    returns (m: map<Value, SongListManager.SongItem>)
    requires forall k :: 0 <= k < |ids| ==> ids[k] in byId
    ensures m.Keys == byId.Keys
    ensures forall x :: x in m ==> m[x] == if x in ids then Flip(byId[x], which, v) else byId[x]
  {
    m := byId;
    ghost var done: set<Value> := {};
    var i := 0;
    while i < |ids|
      invariant 0 <= i <= |ids|
      invariant m.Keys == byId.Keys
      invariant done == set k | 0 <= k < i :: ids[k]
      invariant forall x :: x in m ==> m[x] == if x in done then Flip(byId[x], which, v) else byId[x]
    {
      var x := ids[i];
      m := m[x := if which == Checked then m[x].(checked := v) else m[x].(shown := v)];
      done := done + {x};
      i := i + 1;
    }
    assert forall x :: x in ids <==> x in done;
  }

  /** A map that holds every row flipped is the one `SetAll` describes. */
  lemma SetAllFlips(s: SongListManager.Items, which: Flag, v: bool, m: map<Value, SongListManager.SongItem>)
    requires SongListManager.ItemsValid(s)
    requires m.Keys == s.byId.Keys
    requires forall x :: x in m ==> m[x] == if x in s.ids then Flip(s.byId[x], which, v) else s.byId[x]
    ensures m == SetAll(s, which, v).byId
  {
    var t := SetAll(s, which, v).byId;
    assert t.Keys == m.Keys;
    forall x | x in m
      ensures m[x] == t[x]
    {
    }
  }

  /** Checking or unchecking every row selects all of them or none, and keeps the rows. */
  lemma SelectionOfSetAll(s: SongListManager.Items, v: bool)
    requires SongListManager.ItemsValid(s)
    ensures SetAll(s, Checked, v).ids == s.ids
    ensures SongListManager.ItemsValid(SetAll(s, Checked, v))
    ensures SongListManager.SelectedIds(SetAll(s, Checked, v)) == if v then s.ids else []
  {
    SongListManager.SelectAllThenCount(s);
  }

  /** `get_selected_song_ids`: the checked ids in row order. */
  method GetSelectedSongIds(s: SongListManager.Items) returns (ids: seq<Value>)
    requires SongListManager.ItemsValid(s)
    ensures ids == SongListManager.SelectedIds(s)
  {
    ids := [];
    var i := 0;
    while i < |s.ids|
      invariant 0 <= i <= |s.ids|
      invariant ids == SongListManager.SelectedIn(s.ids[..i], s.byId)
    {
      assert s.ids[..i + 1][..i] == s.ids[..i];
      if s.byId[s.ids[i]].checked {
        ids := ids + [s.ids[i]];
      }
      i := i + 1;
    }
    assert s.ids[..i] == s.ids;
  }

  /** The counting loop of `update_song_selection`. */
  method CountSelected(s: SongListManager.Items) returns (n: nat)
    requires SongListManager.ItemsValid(s)
    ensures n == |SongListManager.SelectedIds(s)|
  {
    n := 0;
    var i := 0;
    while i < |s.ids|
      invariant 0 <= i <= |s.ids|
      invariant n == |SongListManager.SelectedIn(s.ids[..i], s.byId)|
    {
      assert s.ids[..i + 1][..i] == s.ids[..i];
      if s.byId[s.ids[i]].checked {
        n := n + 1;
      }
      i := i + 1;
    }
    assert s.ids[..i] == s.ids;
  }

  /**
   * The loop of `_add_next_songs_batch` over one batch: a row per record, keyed by its id,
   * until `create_song_item` or the dict store raises on a record (`ok` false).
   */
  method AddBatch(s: SongListManager.Items, batch: seq<Value>, exportMode: bool, record: Value -> map<string, Value>)
    returns (r: SongListManager.Items, ok: bool)
    requires SongListManager.ItemsValid(s)
    ensures SongListManager.ItemsValid(r)
    ensures (r, ok) == SongListManager.BatchAdded(s, Records(batch, record), exportMode)
  {
    ghost var recs := Records(batch, record);
    r := s;
    var i := 0;
    while i < |batch|
      invariant 0 <= i <= |batch|
      invariant SongListManager.ItemsValid(r)
      invariant r == SongListManager.AddAll(s, recs[..i], exportMode)
      invariant forall k :: 0 <= k < i ==> !SongListManager.CreateRaises(recs[k])
    {
      var track := record(batch[i]);
      assert track == recs[i];
      assert recs[..i + 1][..i] == recs[..i];
      if SongListManager.CreateRaises(track) {
        SongListManager.BatchAddedStops(s, recs, exportMode, i);
        return r, false;
      }
      if "id" in track {
        r := SongListManager.Put(r, track["id"], SongListManager.SongItem(track, false, exportMode));
      }
      i := i + 1;
    }
    assert recs[..i] == recs;
    return r, true;
  }

  /** The loop of `create_song_list` that collects the matching items. */
  method FilterRecords(songs: seq<Value>, q: string, record: Value -> map<string, Value>) returns (kept: seq<Value>, finished: bool)
    ensures (kept, finished) == Filters.Scan(songs, RecordFilterTest(q, record))
  {
    var test := RecordFilterTest(q, record);
    kept := [];
    var i := 0;
    while i < |songs|
      invariant 0 <= i <= |songs|
      invariant Filters.Scan(songs[..i], test) == (kept, true)
    {
      Filters.ScanStep(songs, i, test);
      var m := SongListManager.FilterMatch(q, Obj(record(songs[i])));
      if m.None? {
        Filters.ScanStops(songs, i + 1, test);
        return kept, false;
      }
      if m.value {
        kept := kept + [songs[i]];
      }
      i := i + 1;
    }
    assert songs[..i] == songs;
    return kept, true;
  }

  /** The filter step of `create_song_list`: with filter text the matching loop runs, without it every item is kept. */
  method FilterStep(songs: seq<Value>, filterText: Option<string>, record: Value -> map<string, Value>) returns (kept: seq<Value>, finished: bool)
    ensures (kept, finished) == RecordFilter(songs, filterText, record)
  {
    kept, finished := songs, true;
    if filterText.Some? && filterText.value != "" {
      kept, finished := FilterRecords(songs, Strings.Lower(filterText.value), record);
    }
  }

  /** An empty list passes every filter and keeps nothing. */
  lemma NothingToFilter(filterText: Option<string>, record: Value -> map<string, Value>)
    ensures RecordFilter([], filterText, record) == ([], true)
  {
  }

  const ScrollThrottle := 100

  /**
   * The rows `_add_songs_batch(songs)` leaves on top of `base`: those of its first batch of
   * at most 30 items, up to the first item whose row raises, and whether none raised.
   */
  function FirstBatch(base: SongListManager.Items, songs: seq<Value>, exportMode: bool, record: Value -> map<string, Value>)
    : (r: (SongListManager.Items, bool))
    requires SongListManager.ItemsValid(base)
    ensures SongListManager.ItemsValid(r.0)
  {
    SongListManager.BatchAdded(base, Records(songs[..SongListManager.Cursor(1, |songs|)], record), exportMode)
  }

  /**
   * A playlist whose one track has a number for a name gets no row: the first batch raises,
   * so `create_song_list` ends there and `on_songs_loaded` never clears `is_loading`.
   */
  lemma NumberNameEndsFirstBatch(base: SongListManager.Items, hash: Value -> int, exportMode: bool)
    requires SongListManager.ItemsValid(base)
    ensures var item := Obj(map["track" := Obj(map["id" := Str("1"), "name" := Int(5)])]);
      FirstBatch(base, [item], exportMode, Processor(hash)) == (base, false)
  {
    var item := Obj(map["track" := Obj(map["id" := Str("1"), "name" := Int(5)])]);
    assert SongListManager.Cursor(0, 1) == 0;
    assert SongListManager.Cursor(1, 1) == 1;
    assert [item][..1] == [item];
    assert Records([item], Processor(hash)) == [SongListManager.ProcessTrackData(item, hash)];
    SongListManager.NumberNameRaises(base, hash, exportMode);
  }

  // ---------------------------------------------------------------- the view

  class PlaylistView {
    /** `self._process_track_data`. */
    const record: Value -> map<string, Value>
    const playlistId: Value
    var playlistName: string
    var currentSongs: seq<Value>
    /** `self.song_items`. */
    var items: SongListManager.Items
    var imageCache: map<Value, Pixmap>
    var isLoading: bool
    var isCreatingList: bool
    var exportMode: bool
    var pendingSongs: seq<Value>
    var currentBatchIndex: nat
    var status: Status
    /** `current_sort_key` and `current_sort_reverse`, unset until the first sort. */
    var currentSort: Option<(string, bool)>
    /** `_last_filter_time`, unset until the first `filter_songs`. */
    var lastFilterTime: Option<int>
    var lastScrollTime: int
    /** The `force_refresh` of every `SongLoader` started, in order. */
    var songLoaders: seq<bool>

    predicate Valid()
      reads this
    {
      SongListManager.ItemsValid(items) && currentBatchIndex <= |pendingSongs|
    }

    /**
     * `__init__`. `hash` stands for `hash(str(...))`, which the processed records use for
     * fallback ids. A truthy playlist id runs `load_playlist()`, which finds no songs yet
     * and starts a loader without a forced refresh.
     */
    constructor(playlistId: Value, name: Option<string>, hash: Value -> int)
      ensures Valid() && record == Processor(hash) && this.playlistId == playlistId
      ensures playlistName == if name.None? || name.value == "" then "未知播放列表" else name.value
      ensures currentSongs == [] && items == NoItems && imageCache == map[]
      ensures isLoading == Truthy(playlistId) && !isCreatingList && !exportMode
      ensures songLoaders == if Truthy(playlistId) then [false] else []
      ensures pendingSongs == [] && currentBatchIndex == 0
      ensures status == if Truthy(playlistId) then Localised("playlist.loading", "加载中...") else Literal("")
      ensures currentSort.None? && lastFilterTime.None? && lastScrollTime == 0
    {
      record := Processor(hash);
      this.playlistId := playlistId;
      playlistName := if name.None? || name.value == "" then "未知播放列表" else name.value;
      currentSongs := [];
      items := NoItems;
      imageCache := map[];
      isLoading := false;
      isCreatingList := false;
      exportMode := false;
      pendingSongs := [];
      currentBatchIndex := 0;
      status := Literal("");
      currentSort := None;
      lastFilterTime := None;
      lastScrollTime := 0;
      songLoaders := [];
      new;
      if Truthy(playlistId) {
        var raised := LoadPlaylist(false);
      }
    }

    /**
     * The rows after a rebuild of the list from `shown`: nothing changed when the filter
     * raised; otherwise the matching items are pending and their first batch has rows,
     * added to the old rows or, with `replace`, to an emptied list.
     */
    twostate predicate ListRebuilt(shown: seq<Value>, filterText: Option<string>, replace: bool, raised: bool)
      reads this
    {
      var f := RecordFilter(shown, filterText, record);
      var base := if replace then NoItems else old(items);
      && SongListManager.ItemsValid(old(items))
      && (!f.1 ==> raised && items == old(items) && pendingSongs == old(pendingSongs) && currentBatchIndex == old(currentBatchIndex))
      && (f.1 && |f.0| == 0 ==>
            !raised && items == base && pendingSongs == old(pendingSongs) && currentBatchIndex == old(currentBatchIndex))
      && (f.1 && |f.0| > 0 ==>
            var added := FirstBatch(base, f.0, exportMode, record);
            && pendingSongs == f.0
            && items == added.0
            && (raised <==> !added.1)
            && currentBatchIndex == if raised then 0 else SongListManager.Cursor(1, |f.0|))
    }

    /** `_clear_song_list`. */
    method ClearSongList()
      modifies this`items
      ensures items == NoItems
    {
      items := NoItems;
    }

    /**
     * `_add_next_songs_batch`: the next batch of at most 30 pending items gets rows and the
     * cursor moves to its end. A raising row ends the batch and leaves the cursor.
     */
    method AddNextSongsBatch() returns (raised: bool)
      requires Valid()
      modifies this`currentBatchIndex, this`items
      ensures Valid()
      ensures |pendingSongs| == 0 || old(currentBatchIndex) >= |pendingSongs| ==>
        !raised && items == old(items) && currentBatchIndex == old(currentBatchIndex)
      ensures |pendingSongs| > 0 && old(currentBatchIndex) < |pendingSongs| ==>
        var end := SongListManager.BatchEnd(old(currentBatchIndex), |pendingSongs|);
        var added := SongListManager.BatchAdded(old(items), Records(pendingSongs[old(currentBatchIndex)..end], record), exportMode);
        && items == added.0
        && (raised <==> !added.1)
        && currentBatchIndex == if raised then old(currentBatchIndex) else end
    {
      if |pendingSongs| == 0 || currentBatchIndex >= |pendingSongs| {
        return false;
      }
      var start := currentBatchIndex;
      var end := SongListManager.BatchEnd(start, |pendingSongs|);
      var ok;
      items, ok := AddBatch(items, pendingSongs[start..end], exportMode, record);
      if !ok {
        return true;
      }
      currentBatchIndex := end;
      return false;
    }

    /** `_add_songs_batch`: the items become pending and their first batch is added, up to a raise. */
    method AddSongsBatch(songs: seq<Value>) returns (raised: bool)
      requires Valid()
      modifies this`pendingSongs, this`currentBatchIndex, this`items
      ensures Valid()
      ensures pendingSongs == songs
      ensures var added := FirstBatch(old(items), songs, exportMode, record);
        && items == added.0
        && (raised <==> !added.1)
        && currentBatchIndex == if raised then 0 else SongListManager.Cursor(1, |songs|)
    {
      pendingSongs := songs;
      currentBatchIndex := 0;
      raised := AddNextSongsBatch();
      var c := SongListManager.Cursor(1, |songs|);
      assert SongListManager.Cursor(0, |songs|) == 0;
      assert c == SongListManager.BatchEnd(0, |songs|);
      assert songs[0..c] == songs[..c];
    }

    /**
     * `create_song_list(songs, filter_text, replace)`. While a list is being created the call
     * is skipped; otherwise `is_creating_list` is false on every exit, including a raise.
     */
    method CreateSongList(songs: Option<seq<Value>>, filterText: Option<string>, replace: bool) returns (raised: bool)
      requires Valid()
      modifies this`isCreatingList, this`items, this`pendingSongs, this`currentBatchIndex, this`status
      ensures Valid()
      ensures old(isCreatingList) ==> !raised && unchanged(this)
      ensures !old(isCreatingList) ==> !isCreatingList && ListRebuilt(songs.GetOr(currentSongs), filterText, replace, raised)
      ensures !old(isCreatingList) ==>
        var f := RecordFilter(songs.GetOr(currentSongs), filterText, record);
        status == if raised || !replace then old(status)
                  else if |songs.GetOr(currentSongs)| == 0 then Localised("playlist.empty", "播放列表为空")
                  else if |f.0| == 0 then Localised("playlist.no_results", "没有符合条件的歌曲")
                  else CountText(|f.0|)
    {
      if isCreatingList {
        return false;
      }
      isCreatingList := true;
      var shown := songs.GetOr(currentSongs);
      if |shown| == 0 {
        NothingToFilter(filterText, record);
        if replace {
          ClearSongList();
          status := Localised("playlist.empty", "播放列表为空");
        }
        isCreatingList := false;
        return false;
      }
      var kept, finished := FilterStep(shown, filterText, record);
      if !finished {
        isCreatingList := false;
        return true;
      }
      raised := ShowKept(kept, replace);
      isCreatingList := false;
    }

    /**
     * The end of `create_song_list` once the filter has run: the kept items' first batch, or
     * the no-results text. A raising row skips the count text.
     */
    method ShowKept(kept: seq<Value>, replace: bool) returns (raised: bool)
      requires Valid()
      modifies this`items, this`pendingSongs, this`currentBatchIndex, this`status
      ensures Valid()
      ensures var base := if replace then NoItems else old(items);
        && (|kept| == 0 ==> !raised && items == base && pendingSongs == old(pendingSongs) && currentBatchIndex == old(currentBatchIndex))
        && (|kept| > 0 ==>
              var added := FirstBatch(base, kept, exportMode, record);
              && pendingSongs == kept
              && items == added.0
              && (raised <==> !added.1)
              && currentBatchIndex == if raised then 0 else SongListManager.Cursor(1, |kept|))
      ensures status == if !replace || raised then old(status)
                        else if |kept| == 0 then Localised("playlist.no_results", "没有符合条件的歌曲")
                        else CountText(|kept|)
    {
      if |kept| == 0 {
        if replace {
          ClearSongList();
          status := Localised("playlist.no_results", "没有符合条件的歌曲");
        }
        return false;
      }
      if replace {
        ClearSongList();
      }
      raised := AddSongsBatch(kept);
      if replace && !raised {
        status := CountText(|kept|);
      }
    }

    /** `filter_songs`: ignored within 100 ms of the previous call; otherwise the list is rebuilt filtered. */
    method FilterSongs(filterText: string, now: int) returns (raised: bool)
      requires Valid()
      modifies this`lastFilterTime, this`isCreatingList, this`items, this`pendingSongs, this`currentBatchIndex, this`status
      ensures Valid()
      ensures !SongListManager.FilterDue(old(lastFilterTime), now) ==> !raised && unchanged(this)
      ensures SongListManager.FilterDue(old(lastFilterTime), now) ==> lastFilterTime == Some(now)
      ensures SongListManager.FilterDue(old(lastFilterTime), now) && !old(isCreatingList) ==>
        !isCreatingList && ListRebuilt(currentSongs, Some(filterText), true, raised)
    {
      if !SongListManager.FilterDue(lastFilterTime, now) {
        return false;
      }
      lastFilterTime := Some(now);
      raised := CreateSongList(Some(currentSongs), Some(filterText), true);
    }

    /**
     * `sort_songs`: nothing happens without songs or with a key outside index, name, artist and
     * album; otherwise the sort is recorded and the list rebuilt from the sorted songs,
     * filtered by the search box text. `current_songs` keeps its order.
     */
    method SortSongs(key: string, reverse: bool, searchText: string) returns (raised: bool)
      requires Valid()
      modifies this`currentSort, this`isCreatingList, this`items, this`pendingSongs, this`currentBatchIndex, this`status
      ensures Valid()
      ensures |currentSongs| == 0 || !SongListManager.IsSongSortKey(key) ==> !raised && unchanged(this)
      ensures |currentSongs| > 0 && SongListManager.IsSongSortKey(key) ==> (
        var sorted := SongListManager.SortSongs(currentSongs, key, reverse);
        && (sorted.Err? ==> raised && unchanged(this))
        && (sorted.Ok? ==> (
              && currentSort == Some((key, reverse))
              && (!old(isCreatingList) ==> !isCreatingList && ListRebuilt(sorted.value, Some(searchText), true, raised)))))
    {
      if |currentSongs| == 0 || !SongListManager.IsSongSortKey(key) {
        return false;
      }
      var sorted := SongListManager.SortSongs(currentSongs, key, reverse);
      if sorted.Err? {
        return true;
      }
      currentSort := Some((key, reverse));
      raised := CreateSongList(Some(sorted.value), Some(searchText), true);
    }

    /** `update_song_selection`. */
    method UpdateSongSelection()
      requires Valid()
      modifies this`status
      ensures status == Literal(SongListManager.SelectionText(|SongListManager.SelectedIds(items)|, |items.ids|))
    {
      var n := CountSelected(items);
      status := Literal(SongListManager.SelectionText(n, |items.ids|));
    }

    /** `on_select_all_changed`, and with `true`/`false` `select_all_songs`/`clear_song_selection`. */
    method SetSelection(v: bool)
      requires Valid()
      modifies this`items, this`status
      ensures Valid()
      ensures items == SetAll(old(items), Checked, v)
      ensures SongListManager.SelectedIds(items) == if v then items.ids else []
      ensures status == Literal(SongListManager.SelectionText(if v then |items.ids| else 0, |items.ids|))
    {
      var before := items;
      SelectionOfSetAll(before, v);
      var after := SetEachRow(before, Checked, v);
      items := after;
      UpdateSongSelection();
    }

    /**
     * `toggle_export_mode`: export mode flips. Entering shows every checkbox; leaving hides
     * them and clears the selection.
     */
    method ToggleExportMode()
      requires Valid()
      modifies this`exportMode, this`items, this`status
      ensures Valid() && exportMode == !old(exportMode) && items.ids == old(items).ids
      ensures exportMode ==> items == SetAll(old(items), Shown, true) && status == Localised("playlist.select_export", "请选择要导出的歌曲")
      ensures !exportMode ==> items == SetAll(SetAll(old(items), Shown, false), Checked, false)
      ensures !exportMode ==> SongListManager.SelectedIds(items) == [] && status == Literal(SongListManager.SelectionText(0, |items.ids|))
    {
      exportMode := !exportMode;
      if exportMode {
        status := Localised("playlist.select_export", "请选择要导出的歌曲");
        items := SetEachRow(items, Shown, true);
      } else {
        items := SetEachRow(items, Shown, false);
        SetSelection(false);
      }
    }

    /** `export_selected`, reading each selected row's record. */
    method ExportSelected(format: string, chosen: Option<string>) returns (r: ExportOutcome)
      requires Valid()
      modifies this`exportMode, this`items, this`status
      ensures Valid()
      ensures r == ExportSelectedOutcome(old(exportMode), old(items), format, chosen)
      ensures !old(exportMode) ==> exportMode && items == SetAll(old(items), Shown, true)
      ensures old(exportMode) ==> unchanged(this)
    {
      if !exportMode {
        ToggleExportMode();
        return EnteredExportMode;
      }
      var ids := GetSelectedSongIds(items);
      if |ids| == 0 {
        return NoSelection;
      }
      var songs := SongsOf(items, ids);
      var path := ExportManager.SaveFilePath(format, chosen);
      if path == "" {
        return Cancelled;
      }
      return Exported(songs, path, format);
    }

    /**
     * `load_playlist(force_refresh)`. A loaded list is only rebuilt unless a refresh is forced,
     * and a raise of that rebuild ends the call (`raised`); a running load makes the call a
     * no-op; otherwise the rows are cleared and a loader is started with `force_refresh`.
     */
    method LoadPlaylist(force: bool) returns (raised: bool)
      requires Valid()
      modifies this`isLoading, this`isCreatingList, this`items, this`pendingSongs, this`currentBatchIndex, this`status, this`songLoaders
      ensures Valid()
      ensures !force && |old(currentSongs)| > 0 ==>
        && songLoaders == old(songLoaders) && isLoading == old(isLoading)
        && (old(isCreatingList) ==> !raised && items == old(items) && status == old(status))
        && (!old(isCreatingList) ==> !isCreatingList && ListRebuilt(currentSongs, None, false, raised))
      ensures (force || |currentSongs| == 0) && old(isLoading) ==> !raised && unchanged(this)
      ensures (force || |currentSongs| == 0) && !old(isLoading) ==>
        && !raised && songLoaders == old(songLoaders) + [force] && isLoading && items == NoItems
        && status == Localised("playlist.loading", "加载中...")
        && isCreatingList == old(isCreatingList) && pendingSongs == old(pendingSongs) && currentBatchIndex == old(currentBatchIndex)
    {
      if !force && |currentSongs| > 0 {
        raised := CreateSongList(Some(currentSongs), None, false);
        return;
      }
      if isLoading {
        return false;
      }
      isLoading := true;
      status := Localised("playlist.loading", "加载中...");
      ClearSongList();
      songLoaders := songLoaders + [force];
      return false;
    }

    /**
     * `on_songs_loaded`: the songs are kept and listed, the status says they are loaded and
     * loading ends. A raise of the rebuild ends the call before the status and the flag.
     */
    method OnSongsLoaded(songs: seq<Value>, fromCache: bool) returns (raised: bool)
      requires Valid()
      modifies this`currentSongs, this`isLoading, this`isCreatingList, this`items, this`pendingSongs, this`currentBatchIndex, this`status
      ensures Valid()
      ensures currentSongs == songs
      ensures old(isCreatingList) ==> !raised && items == old(items)
      ensures !old(isCreatingList) ==> !isCreatingList && ListRebuilt(songs, None, false, raised)
      ensures raised ==> isLoading == old(isLoading) && status == old(status)
      ensures !raised ==> !isLoading
      ensures !raised ==>
        status == if fromCache then Localised("playlist.loaded_from_cache", "从缓存加载") else Localised("playlist.loaded", "加载完成")
    {
      currentSongs := songs;
      raised := CreateSongList(Some(songs), None, false);
      if raised {
        return;
      }
      status := if fromCache then Localised("playlist.loaded_from_cache", "从缓存加载") else Localised("playlist.loaded", "加载完成");
      isLoading := false;
    }

    /** `on_load_error`: loading ends. */
    method OnLoadError()
      modifies this`isLoading, this`status
      ensures !isLoading && status == Localised("playlist.load_error", "加载失败")
    {
      status := Localised("playlist.load_error", "加载失败");
      isLoading := false;
    }

    /** `refresh_songs`: a no-op while loading; otherwise a forced `load_playlist`, which starts a loader. */
    method RefreshSongs()
      requires Valid()
      modifies this`isLoading, this`isCreatingList, this`items, this`pendingSongs, this`currentBatchIndex, this`status, this`songLoaders
      ensures Valid()
      ensures old(isLoading) ==> unchanged(this)
      ensures !old(isLoading) ==> songLoaders == old(songLoaders) + [true] && isLoading && items == NoItems
    {
      if isLoading {
        return;
      }
      var raised := LoadPlaylist(true);
    }

    /** `on_scroll`: handled only 100 ms or more after the last handled event. */
    method OnScroll(now: int) returns (handled: bool)
      modifies this`lastScrollTime
      ensures handled <==> now - old(lastScrollTime) >= ScrollThrottle
      ensures lastScrollTime == if handled then now else old(lastScrollTime)
    {
      if now - lastScrollTime < ScrollThrottle {
        return false;
      }
      lastScrollTime := now;
      return true;
    }

    /** `request_song_image`. */
    method RequestSongImage(url: Value, trackId: Value) returns (r: ImageRequest)
      ensures r == ImageRequestFor(imageCache, url, trackId)
    {
      if trackId in imageCache {
        return FromViewCache(imageCache[trackId]);
      }
      return StartLoader(url, trackId);
    }

    /** `on_song_image_loaded`: the pixmap is cached under the track id. */
    method OnSongImageLoaded(image: Pixmap, trackId: Value)
      modifies this`imageCache
      ensures imageCache == old(imageCache)[trackId := image]
    {
      imageCache := imageCache[trackId := image];
    }
  }
}
