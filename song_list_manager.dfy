/**
 * The song-list helpers of the newer playlist view
 * (`src/ui/playlist_module/song_list_manager.py`): the record `_process_track_data`
 * builds from a Spotify playlist item, the `create_song_list` filter, the sort keys of
 * `sort_songs`, the `_add_next_songs_batch` cursor, the `song_items` dictionary and the
 * selection text. The view state that uses them is in `PlaylistModuleView`.
 */
module SongListManager {
  import opened Wrappers
  import opened Json
  import Strings
  import StableSort
  import Filters
  import FileExporter

  const ProcessingError := "处理错误"

  // ---------------------------------------------------------------- _process_track_data

  /** `track_item.get('track', {})`, replaced by the item itself when it is falsy. */
  function ChosenTrack(item: map<string, Value>): Value
  {
    var t := Get(item, "track", Obj(map[]));
    if Truthy(t) then t else Obj(item)
  }

  /** `[artist.get('name', '未知艺术家') for artist in l]`; None when an artist is not a dict. */
  function ArtistGets(l: seq<Value>): (r: Option<seq<Value>>)
    ensures r.Some? <==> forall i :: 0 <= i < |l| ==> l[i].Obj?
    ensures r.Some? ==> |r.value| == |l|
    ensures r.Some? ==> forall i :: 0 <= i < |l| ==> r.value[i] == Get(l[i].fields, "name", Str(FileExporter.UnknownArtist))
  {
    if |l| == 0 then Some([])
    else if !l[0].Obj? then None
    else
      var rest := ArtistGets(l[1..]);
      if rest.None? then None
      else Some([Get(l[0].fields, "name", Str(FileExporter.UnknownArtist))] + rest.value)
  }

  /**
   * The loop over `track.get('artists', [])`. Iterating an empty string or an empty dict
   * yields nothing; a non-empty string or dict yields strings, whose `.get` raises;
   * anything else is not iterable.
   */
  function ArtistNameValues(artists: Value): Option<seq<Value>>
  {
    match artists
    case List(l) => ArtistGets(l)
    case Str(s) => if s == "" then Some([]) else None
    case Obj(m) => if m == map[] then Some([]) else None
    case _ => None
  }

  /** `', '.join(artist_names) if artist_names else '未知艺术家'`; None when a name is not a string. */
  function ArtistField(artists: Value): Option<string>
  {
    var names :- ArtistNameValues(artists);
    if |names| == 0 then Some(FileExporter.UnknownArtist)
    else
      var strs :- AllStrings(names);
      Some(Strings.Join(", ", strs))
  }

  /** `album_images[0].get('url') if album_images else ''`; None when that raises. */
  function ImageUrl(album: map<string, Value>): Option<Value>
  {
    var images := Get(album, "images", List([]));
    if !Truthy(images) then Some(Str(""))
    else if images.List? && images.items[0].Obj? then Some(Get(images.items[0].fields, "url", Null))
    else None
  }

  /** What the `try` body of `_process_track_data` reads from an item before building the record. */
  datatype Extracted = Extracted(track: map<string, Value>, id: Value, name: Value, album: Value, artist: string, imageUrl: Value)

  /**
   * The `try` body shared by every copy of `_process_track_data`; None when it raises.
   * `hash` stands for `hash(str(...))`, which is not modelled.
   */
  function Extract(item: Value, hash: Value -> int): (r: Option<Extracted>)
    ensures r.Some? ==> item.Obj?
  {
    if !item.Obj? then None
    else
      var track := ChosenTrack(item.fields);
      if !track.Obj? then None
      else
        var album := Get(track.fields, "album", Obj(map[]));
        if !album.Obj? then None
        else
          var artist := ArtistField(Get(track.fields, "artists", List([])));
          var url := ImageUrl(album.fields);
          if artist.None? || url.None? then None
          else
            Some(Extracted(track.fields,
                           Get(track.fields, "id", Str("unknown_" + Strings.IntToString(hash(track)))),
                           Get(track.fields, "name", Str(FileExporter.UnknownSong)),
                           Get(album.fields, "name", Str(FileExporter.UnknownAlbum)),
                           artist.value, url.value))
  }

  /** The `processed_track` dictionary. */
  function Record(e: Extracted): map<string, Value>
  {
    map["id" := e.id, "name" := e.name, "album" := e.album, "artist" := Str(e.artist),
        "image_url" := e.imageUrl, "raw_data" := Obj(e.track)]
  }

  /** The dictionary the `except` branch returns. */
  function ErrorRecord(item: Value, hash: Value -> int): map<string, Value>
  {
    map["id" := Str("error_" + Strings.IntToString(hash(item))), "name" := Str(ProcessingError),
        "album" := Str(FileExporter.UnknownAlbum), "artist" := Str(FileExporter.UnknownArtist), "image_url" := Str("")]
  }

  /**
   * `_process_track_data(track_item)`. It never raises: every outcome is a dict with an id,
   * a name, an album, a string artist and an image url.
   */
  function ProcessTrackData(item: Value, hash: Value -> int): (r: map<string, Value>)
    ensures {"id", "name", "album", "artist", "image_url"} <= r.Keys && r["artist"].Str?
    ensures Extract(item, hash).None? ==> r == ErrorRecord(item, hash)
    ensures ("original_index" in r) <==> Extract(item, hash).Some? && "original_index" in item.fields
  {
    var e := Extract(item, hash);
    if e.None? then ErrorRecord(item, hash)
    else
      var rec := Record(e.value);
      if "original_index" in item.fields then rec["original_index" := item.fields["original_index"]] else rec
  }

  /** Artist dicts, each contributing its name or '未知艺术家', joined with ', '. */
  lemma ArtistFieldOfDicts(l: seq<Value>)
    requires forall i :: 0 <= i < |l| ==> l[i].Obj?
    ensures var names := seq(|l|, i requires 0 <= i < |l| => Get(l[i].fields, "name", Str(FileExporter.UnknownArtist)));
      && (ArtistField(List(l)).Some? <==> forall i :: 0 <= i < |l| ==> names[i].Str?)
      && (ArtistField(List(l)).Some? ==>
            ArtistField(List(l)).value ==
              if |l| == 0 then FileExporter.UnknownArtist
              else Strings.Join(", ", seq(|l|, i requires 0 <= i < |l| => names[i].s)))
  {
    var names := seq(|l|, i requires 0 <= i < |l| => Get(l[i].fields, "name", Str(FileExporter.UnknownArtist)));
    assert ArtistGets(l).Some?;
    assert ArtistGets(l).value == names;
    if |l| > 0 && forall i :: 0 <= i < |l| ==> names[i].Str? {
      assert AllStrings(names).value == seq(|l|, i requires 0 <= i < |l| => names[i].s);
    }
  }

  /**
   * A well-formed playlist item: its `track` dict has an album dict without images and
   * artist dicts. Then the record carries the track's own id and name, the album's name,
   * the artists' names, an empty image url, the track as `raw_data`, and the item's
   * `original_index` when it has one.
   */
  lemma ProcessWellFormed(item: map<string, Value>, track: map<string, Value>, album: map<string, Value>,
                          artists: seq<Value>, hash: Value -> int)
    requires "track" in item && item["track"] == Obj(track) && track != map[]
    requires Get(track, "album", Obj(map[])) == Obj(album) && "images" !in album
    requires Get(track, "artists", List([])) == List(artists)
    requires forall i :: 0 <= i < |artists| ==> artists[i].Obj? && Get(artists[i].fields, "name", Str(FileExporter.UnknownArtist)).Str?
    ensures var r := ProcessTrackData(Obj(item), hash);
      && "raw_data" in r && r["raw_data"] == Obj(track)
      && r["id"] == Get(track, "id", Str("unknown_" + Strings.IntToString(hash(Obj(track)))))
      && r["name"] == Get(track, "name", Str(FileExporter.UnknownSong))
      && r["album"] == Get(album, "name", Str(FileExporter.UnknownAlbum))
      && Some(r["artist"].s) == ArtistField(List(artists))
      && r["image_url"] == Str("")
      && ("original_index" in item ==> "original_index" in r && r["original_index"] == item["original_index"])
  {
    ArtistFieldOfDicts(artists);
    ExtractWellFormed(item, track, album, artists, hash);
    var e := Extract(Obj(item), hash).value;
    RecordFields(e);
    var rec := Record(e);
    assert ProcessTrackData(Obj(item), hash) == if "original_index" in item then rec["original_index" := item["original_index"]] else rec;
  }

  /** The keys of the `processed_track` dictionary and what each holds. */
  lemma RecordFields(e: Extracted)
    ensures var r := Record(e);
      && r.Keys == {"id", "name", "album", "artist", "image_url", "raw_data"}
      && r["id"] == e.id && r["name"] == e.name && r["album"] == e.album && r["artist"] == Str(e.artist)
      && r["image_url"] == e.imageUrl && r["raw_data"] == Obj(e.track)
  {
  }

  /** What the `try` body reads from a well-formed item. */
  lemma ExtractWellFormed(item: map<string, Value>, track: map<string, Value>, album: map<string, Value>,
                          artists: seq<Value>, hash: Value -> int)
    requires "track" in item && item["track"] == Obj(track) && track != map[]
    requires Get(track, "album", Obj(map[])) == Obj(album) && "images" !in album
    requires Get(track, "artists", List([])) == List(artists)
    requires ArtistField(List(artists)).Some?
    ensures Extract(Obj(item), hash) ==
      Some(Extracted(track, Get(track, "id", Str("unknown_" + Strings.IntToString(hash(Obj(track))))),
                     Get(track, "name", Str(FileExporter.UnknownSong)), Get(album, "name", Str(FileExporter.UnknownAlbum)),
                     ArtistField(List(artists)).value, Str("")))
  {
    assert ChosenTrack(item) == Obj(track);
    assert ImageUrl(album) == Some(Str(""));
  }

  /** An item whose `track` is falsy is read as the track itself. */
  lemma ProcessFallsBackToItem(item: map<string, Value>, hash: Value -> int)
    requires !Truthy(Get(item, "track", Obj(map[])))
    requires Extract(Obj(item), hash).Some?
    ensures ProcessTrackData(Obj(item), hash)["raw_data"] == Obj(item)
  {
  }

  /** An item that is not a dict gives the error record. */
  lemma ProcessNonDict(item: Value, hash: Value -> int)
    requires !item.Obj?
    ensures ProcessTrackData(item, hash) == ErrorRecord(item, hash)
    ensures ProcessTrackData(item, hash)["name"] == Str(ProcessingError)
  {
  }

  // ---------------------------------------------------------------- create_song_list filter

  /** `q in song[field].lower()`; None when `song[field]` raises or is not a string. */
  function FieldContains(song: Value, field: string, q: string): Option<bool>
  {
    if song.Obj? && field in song.fields && song.fields[field].Str?
    then Some(Strings.Contains(Strings.Lower(song.fields[field].s), q))
    else None
  }

  /** The `or` of the three tests, evaluated left to right and stopping at the first true one. */
  function FilterMatch(q: string, song: Value): Option<bool>
  {
    var n :- FieldContains(song, "name", q);
    if n then Some(true)
    else
      var a :- FieldContains(song, "artist", q);
      if a then Some(true) else FieldContains(song, "album", q)
  }

  function FilterTest(q: string): Value -> Option<bool>
  {
    song => FilterMatch(q, song)
  }

  /**
   * The filter step of `create_song_list`: no filter text keeps every song; otherwise the
   * songs matching the lowered text, and whether the loop finished without raising.
   */
  function FilterSongs(songs: seq<Value>, filterText: Option<string>): (seq<Value>, bool)
  {
    if filterText.None? || filterText.value == "" then (songs, true)
    else Filters.Scan(songs, FilterTest(Strings.Lower(filterText.value)))
  }

  /** A song with string name, artist and album matches exactly when one of them contains the text. */
  lemma FilterMatchMeaning(q: string, song: map<string, Value>, name: string, artist: string, album: string)
    requires "name" in song && "artist" in song && "album" in song
    requires song["name"] == Str(name) && song["artist"] == Str(artist) && song["album"] == Str(album)
    ensures FilterMatch(q, Obj(song)) == Some(
      Strings.Contains(Strings.Lower(name), q) || Strings.Contains(Strings.Lower(artist), q) ||
      Strings.Contains(Strings.Lower(album), q))
  {
  }

  /**
   * When the filter loop finishes, a song is kept exactly when it matches, and the kept songs
   * of a concatenation are those of its parts in order.
   */
  lemma FilterSongsMeaning(songs: seq<Value>, more: seq<Value>, filterText: string)
    requires filterText != ""
    requires FilterSongs(songs + more, Some(filterText)).1
    ensures var q := Strings.Lower(filterText);
      && (forall s :: s in FilterSongs(songs, Some(filterText)).0 <==> s in songs && FilterMatch(q, s) == Some(true))
      && FilterSongs(songs + more, Some(filterText)).0 == FilterSongs(songs, Some(filterText)).0 + FilterSongs(more, Some(filterText)).0
  {
    var test := FilterTest(Strings.Lower(filterText));
    Filters.ScanAppend(songs, more, test);
    Filters.ScanMeaning(songs, test);
  }

  // ---------------------------------------------------------------- sort_songs keys

  predicate IsSongSortKey(key: string)
  {
    key in {"index", "name", "artist", "album"}
  }

  /** The `key_mapping` lambdas: `x.get('index', 0)`, or `x.get(key, '').lower()`. */
  function SongSortValue(song: Value, key: string): Option<StableSort.Key>
  {
    if !song.Obj? then None
    else if key == "index" then Some(StableSort.KeyOf(Get(song.fields, "index", Int(0))))
    else StableSort.LowerKey(Get(song.fields, key, Str("")))
  }

  function SongSortKey(key: string): Value -> Option<StableSort.Key>
  {
    song => SongSortValue(song, key)
  }

  /** The `sorted(...)` call of `sort_songs`. */
  function SortSongs(songs: seq<Value>, key: string, reverse: bool): Result<seq<Value>, string>
  {
    StableSort.SortedBy(songs, SongSortKey(key), reverse)
  }

  /**
   * `sort_songs` reads the keys at the top level of each song. Dicts that lack the key
   * all get the same key, so their order is kept, in either direction.
   */
  lemma SortWithoutKeyKeepsOrder(songs: seq<Value>, key: string, reverse: bool)
    requires IsSongSortKey(key)
    requires forall i :: 0 <= i < |songs| ==> songs[i].Obj? && key !in songs[i].fields
    ensures SortSongs(songs, key, reverse) == Ok(songs)
  {
    var k := if key == "index" then StableSort.KInt(0) else StableSort.KStr("");
    assert Strings.Lower("") == "";
    StableSort.SortedByConstant(songs, SongSortKey(key), reverse, k);
  }

  /** The sorted songs are a permutation of the input, ordered by key and stable. */
  lemma SortSongsMeaning(songs: seq<Value>, key: string, reverse: bool, k: StableSort.Key)
    requires SortSongs(songs, key, reverse).Ok?
    ensures var r := SortSongs(songs, key, reverse).value;
      && multiset(r) == multiset(songs)
      && StableSort.WithKey(r, SongSortKey(key), k) == StableSort.WithKey(songs, SongSortKey(key), k)
      && forall i, j :: 0 <= i < j < |r| ==>
           SongSortValue(r[i], key).Some? && SongSortValue(r[j], key).Some? &&
           !StableSort.Before(SongSortValue(r[j], key).value, SongSortValue(r[i], key).value, reverse)
  {
    StableSort.SortedByPermutes(songs, SongSortKey(key), reverse);
    StableSort.SortedByStable(songs, SongSortKey(key), reverse, k);
    StableSort.SortedByOrdered(songs, SongSortKey(key), reverse);
  }

  // ---------------------------------------------------------------- _add_next_songs_batch cursor

  const BatchSize: nat := 30

  /** `min(start + batch_size, len(pending_songs))`. */
  function BatchEnd(start: nat, n: nat): (e: nat)
    ensures start < n ==> start < e <= n
    ensures e <= start + BatchSize
  {
    if start + BatchSize < n then start + BatchSize else if start < n then n else start
  }

  /** The cursor after `k` calls from 0. */
  function Cursor(k: nat, n: nat): (c: nat)
    ensures c <= n
  {
    if k == 0 then 0 else BatchEnd(Cursor(k - 1, n), n)
  }

  /** The items the first `k` calls have processed, batch by batch. */
  function Processed<T>(pending: seq<T>, k: nat): seq<T>
  {
    if k == 0 then []
    else Processed(pending, k - 1) + pending[Cursor(k - 1, |pending|)..Cursor(k, |pending|)]
  }

  /**
   * The batches cover the pending songs in order, each exactly once: after `k` calls the
   * cursor is `min(30 k, n)` and the processed items are the first that many.
   */
  lemma {:induction false} BatchesCover<T>(pending: seq<T>, k: nat)
    ensures Cursor(k, |pending|) == if BatchSize * k < |pending| then BatchSize * k else |pending|
    ensures Processed(pending, k) == pending[..Cursor(k, |pending|)]
  {
    if k > 0 {
      BatchesCover(pending, k - 1);
      var c := Cursor(k - 1, |pending|);
      assert pending[..c] + pending[c..Cursor(k, |pending|)] == pending[..Cursor(k, |pending|)];
    }
  }

  /** Enough calls process every pending song. */
  lemma BatchesFinish<T>(pending: seq<T>, k: nat)
    requires BatchSize * k >= |pending|
    ensures Processed(pending, k) == pending
  {
    BatchesCover(pending, k);
    assert pending[..|pending|] == pending;
  }

  // ---------------------------------------------------------------- song_items

  /** A song row: the processed record and its checkbox. */
  datatype SongItem = SongItem(track: map<string, Value>, checked: bool, shown: bool)

  /**
   * `self.song_items`, a dict in insertion order: `ids` lists its keys in that order.
   * Assigning an existing key replaces the value and keeps the key's position.
   */
  datatype Items = Items(ids: seq<Value>, byId: map<Value, SongItem>)

  predicate ItemsValid(s: Items)
  {
    && (forall i, j :: 0 <= i < j < |s.ids| ==> s.ids[i] != s.ids[j])
    && s.byId.Keys == set x | x in s.ids
  }

  /** `song_items[key] = item`. */
  function Put(s: Items, key: Value, item: SongItem): (r: Items)
    requires ItemsValid(s)
    ensures ItemsValid(r)
    ensures r.byId == s.byId[key := item]
    ensures key in s.byId ==> r.ids == s.ids
    ensures key !in s.byId ==> r.ids == s.ids + [key]
  {
    if key in s.byId then Items(s.ids, s.byId[key := item]) else Items(s.ids + [key], s.byId[key := item])
  }

  /**
   * The loop body over one batch: a new unchecked row per record, its checkbox shown in
   * export mode; a record without an id is skipped.
   */
  function AddAll(s: Items, records: seq<map<string, Value>>, exportMode: bool): (r: Items)
    requires ItemsValid(s)
    ensures ItemsValid(r)
  {
    if |records| == 0 then s
    else
      var init := AddAll(s, records[..|records| - 1], exportMode);
      var last := records[|records| - 1];
      if "id" in last then Put(init, last["id"], SongItem(last, false, exportMode)) else init
  }

  /**
   * Whether the loop body raises on a record with an id: `create_song_item` passes the
   * name, album and artist to `QLabel`, and `song_items[track["id"]]` needs a hashable id.
   * A record without an id is skipped before either.
   */
  predicate CreateRaises(rec: map<string, Value>)
  {
    && "id" in rec
    && (|| !("name" in rec && LabelArgument(rec["name"]))
        || !("album" in rec && LabelArgument(rec["album"]))
        || !("artist" in rec && LabelArgument(rec["artist"]))
        || !Hashable(rec["id"]))
  }

  /**
   * The loop over one batch, raise included: the rows of the records before the first one
   * the body raises on, and whether the loop got through. The raising record gets no row,
   * and through it the rows are exactly those `AddAll` gives.
   */
  function BatchAdded(s: Items, records: seq<map<string, Value>>, exportMode: bool): (r: (Items, bool))
    requires ItemsValid(s)
    ensures ItemsValid(r.0)
    ensures r.1 <==> forall k :: 0 <= k < |records| ==> !CreateRaises(records[k])
    ensures r.1 ==> r.0 == AddAll(s, records, exportMode)
    ensures !r.1 ==> exists k :: 0 <= k < |records| && CreateRaises(records[k]) && r.0 == AddAll(s, records[..k], exportMode)
  {
    match Filters.FirstWhere(records, CreateRaises)
    case None =>
      assert records[..|records|] == records;
      (AddAll(s, records, exportMode), true)
    case Some(k) => (AddAll(s, records[..k], exportMode), false)
  }

  /** A raise at `j`, with none before it, ends the loop there: the records before `j` have rows, the rest none. */
  lemma BatchAddedStops(s: Items, records: seq<map<string, Value>>, exportMode: bool, j: nat)
    requires ItemsValid(s)
    requires j < |records| && CreateRaises(records[j])
    requires forall k :: 0 <= k < j ==> !CreateRaises(records[k])
    ensures BatchAdded(s, records, exportMode) == (AddAll(s, records[..j], exportMode), false)
  {
  }

  /** A record `_process_track_data` built raises exactly on a name or album that is no label text, or an unhashable id. */
  lemma ProcessedCreateRaises(item: Value, hash: Value -> int)
    ensures var r := ProcessTrackData(item, hash);
      CreateRaises(r) <==> !LabelArgument(r["name"]) || !LabelArgument(r["album"]) || !Hashable(r["id"])
  {
  }

  /**
   * A track whose name is a number: its record's `QLabel` raises, so a batch of that one
   * item adds no row and the loop stops.
   */
  lemma NumberNameRaises(s: Items, hash: Value -> int, exportMode: bool)
    requires ItemsValid(s)
    ensures var item := Obj(map["track" := Obj(map["id" := Str("1"), "name" := Int(5)])]);
      BatchAdded(s, [ProcessTrackData(item, hash)], exportMode) == (s, false)
  {
    var track := map["id" := Str("1"), "name" := Int(5)];
    var item := map["track" := Obj(track)];
    assert "id" in track;
    ProcessWellFormed(item, track, map[], [], hash);
    var r := ProcessTrackData(Obj(item), hash);
    assert r["name"] == Int(5);
    BatchAddedStops(s, [r], exportMode, 0);
    assert [r][..0] == [];
  }

  /** A track whose id is a list: the row is built, but storing it under that id raises. */
  lemma ListIdRaises(s: Items, hash: Value -> int, exportMode: bool)
    requires ItemsValid(s)
    ensures var item := Obj(map["track" := Obj(map["id" := List([Str("1")]), "name" := Str("a")])]);
      BatchAdded(s, [ProcessTrackData(item, hash)], exportMode) == (s, false)
  {
    var track := map["id" := List([Str("1")]), "name" := Str("a")];
    var item := map["track" := Obj(track)];
    assert "id" in track;
    ProcessWellFormed(item, track, map[], [], hash);
    var r := ProcessTrackData(Obj(item), hash);
    assert r["id"] == List([Str("1")]);
    BatchAddedStops(s, [r], exportMode, 0);
    assert [r][..0] == [];
  }

  /** A later record with the same id replaces the earlier row; ids already present keep their place. */
  lemma {:induction false} AddAllLastWins(s: Items, records: seq<map<string, Value>>, exportMode: bool, j: nat)
    requires ItemsValid(s)
    requires j < |records| && "id" in records[j]
    requires forall i :: j < i < |records| && "id" in records[i] ==> records[i]["id"] != records[j]["id"]
    ensures records[j]["id"] in AddAll(s, records, exportMode).byId
    ensures AddAll(s, records, exportMode).byId[records[j]["id"]] == SongItem(records[j], false, exportMode)
    decreases |records|
  {
    if j < |records| - 1 {
      AddAllLastWins(s, records[..|records| - 1], exportMode, j);
    }
  }

  /**
   * Rows for ids outside the batch are unchanged, records without an id add nothing, and the
   * key order only grows at the end.
   */
  lemma {:induction false} AddAllKeepsOthers(s: Items, records: seq<map<string, Value>>, exportMode: bool, x: Value)
    requires ItemsValid(s)
    requires forall i :: 0 <= i < |records| && "id" in records[i] ==> records[i]["id"] != x
    ensures (x in AddAll(s, records, exportMode).byId) <==> x in s.byId
    ensures x in s.byId ==> AddAll(s, records, exportMode).byId[x] == s.byId[x]
    ensures s.ids <= AddAll(s, records, exportMode).ids
    decreases |records|
  {
    if |records| > 0 {
      AddAllKeepsOthers(s, records[..|records| - 1], exportMode, x);
    }
  }

  /** `get_selected_song_ids`: the checked ids in dict order. */
  function SelectedIds(s: Items): (r: seq<Value>)
    requires ItemsValid(s)
    ensures forall x :: x in r <==> x in s.byId && s.byId[x].checked
  {
    SelectedIn(s.ids, s.byId)
  }

  function SelectedIn(ids: seq<Value>, byId: map<Value, SongItem>): (r: seq<Value>)
    requires forall x :: x in ids ==> x in byId
    ensures forall x :: x in r <==> x in ids && byId[x].checked
  {
    if |ids| == 0 then []
    else SelectedIn(ids[..|ids| - 1], byId) + (if byId[ids[|ids| - 1]].checked then [ids[|ids| - 1]] else [])
  }

  /** Every row's checkbox set to `v`, as `select_all_songs` and `clear_song_selection` do. */
  function SetAllChecked(byId: map<Value, SongItem>, v: bool): (r: map<Value, SongItem>)
    ensures r.Keys == byId.Keys
    ensures forall x :: x in r ==> r[x] == byId[x].(checked := v)
  {
    map x | x in byId :: byId[x].(checked := v)
  }

  /** Every row's checkbox shown or hidden, as `toggle_export_mode` does. */
  function SetAllShown(byId: map<Value, SongItem>, v: bool): (r: map<Value, SongItem>)
    ensures r.Keys == byId.Keys
    ensures forall x :: x in r ==> r[x] == byId[x].(shown := v)
  {
    map x | x in byId :: byId[x].(shown := v)
  }

  /** The status text of `update_song_selection`. */
  function SelectionText(selected: nat, total: nat): (t: string)
    ensures selected > 0 ==> t == "已选择 " + Strings.NatToString(selected) + " 首歌曲"
    ensures selected == 0 ==> t == Strings.NatToString(total) + " 首歌曲"
  {
    if selected > 0 then "已选择 " + Strings.NatToString(selected) + " 首歌曲"
    else Strings.NatToString(total) + " 首歌曲"
  }

  /** `select_all_songs` followed by a count checks every row; `clear_song_selection` none. */
  lemma SelectAllThenCount(s: Items)
    requires ItemsValid(s)
    ensures ItemsValid(Items(s.ids, SetAllChecked(s.byId, true)))
    ensures SelectedIds(Items(s.ids, SetAllChecked(s.byId, true))) == s.ids
    ensures SelectedIds(Items(s.ids, SetAllChecked(s.byId, false))) == []
  {
    AllCheckedIn(s.ids, SetAllChecked(s.byId, true));
    NoneCheckedIn(s.ids, SetAllChecked(s.byId, false));
  }

  lemma {:induction false} AllCheckedIn(ids: seq<Value>, byId: map<Value, SongItem>)
    requires forall x :: x in ids ==> x in byId && byId[x].checked
    ensures SelectedIn(ids, byId) == ids
    decreases |ids|
  {
    if |ids| > 0 {
      var init, last := ids[..|ids| - 1], ids[|ids| - 1];
      assert ids == init + [last];
      assert forall x :: x in init ==> x in ids;
      AllCheckedIn(init, byId);
      assert last in ids;
      assert SelectedIn(ids, byId) == SelectedIn(init, byId) + [last];
    }
  }

  lemma {:induction false} NoneCheckedIn(ids: seq<Value>, byId: map<Value, SongItem>)
    requires forall x :: x in ids ==> x in byId && !byId[x].checked
    ensures SelectedIn(ids, byId) == []
    decreases |ids|
  {
    if |ids| > 0 {
      NoneCheckedIn(ids[..|ids| - 1], byId);
    }
  }

  // ---------------------------------------------------------------- filter_songs debounce

  /** `filter_songs` goes ahead unless the previous call was less than 100 ms ago. */
  predicate FilterDue(last: Option<int>, now: int)
  {
    last.None? || now - last.value >= 100
  }
}
