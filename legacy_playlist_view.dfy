/**
 * The older playlist view (`views/playlist_view.py`): its track formatter,
 * the `m:ss` duration text, the CSV field table, the derived sort keys, the
 * search filters, and the view state behind paging, loading and export mode.
 * Songs are the Spotify playlist items, kept as Python values.
 */
module LegacyPlaylistView {
  import opened Wrappers
  import opened Json
  import Strings
  import StableSort
  import Filters
  import Pages

  // ---------------------------------------------------------------- export format

  /** The keys of `export_fields`, in their declared order. */
  const ExportFieldKeys: seq<string> := ["name", "artists", "album", "release_date", "duration", "url"]

  /** `export_format` as read from the settings store: default 'name-artists', 'custom' retired. */
  function StoredFormat(stored: Option<string>): (f: string)
    ensures f != "custom"
    ensures stored == None ==> f == "name-artists"
    ensures stored.Some? && stored.value != "custom" ==> f == stored.value
    ensures stored == Some("custom") ==> f == "name-artists"
  {
    var v := stored.GetOr("name-artists");
    if v == "custom" then "name-artists" else v
  }

  /** The per-track record `export_selected` builds; values keep their Python types. */
  datatype TrackInfo = TrackInfo(name: Value, artists: string, album: Value, releaseDate: Value, duration: string, url: Value)

  /** The five export formats of the TXT file. */
  datatype TxtFormat = NameArtists | ArtistsName | NameOnly | NameArtistsAlbum | Full

  /** The format `format_track_name` applies for an export format key: an unknown key gets the 'name-artists' rule. */
  function TxtFormatOf(exportFormat: string): TxtFormat
  {
    if exportFormat == "name-artists" then NameArtists
    else if exportFormat == "artists-name" then ArtistsName
    else if exportFormat == "name" then NameOnly
    else if exportFormat == "name-artists-album" then NameArtistsAlbum
    else if exportFormat == "full" then Full
    else NameArtists
  }

  /** `format_track_name`: the TXT line for one track under an export format. */
  function FormatTrackName(exportFormat: string, t: TrackInfo): string
  {
    FormatAs(TxtFormatOf(exportFormat), t)
  }

  /** The line for one track under a decoded format: empty without a name. */
  function FormatAs(format: TxtFormat, t: TrackInfo): string
  {
    var name := PyStr(t.name);
    var artists := t.artists;
    var album := PyStr(t.album);
    if !Truthy(t.name) then ""
    else
      match format
      case NameArtists => if artists != "" then name + " - " + artists else name
      case ArtistsName => if artists != "" then artists + " - " + name else name
      case NameOnly => name
      case NameArtistsAlbum =>
        if artists != "" && Truthy(t.album) then name + " - " + artists + " - " + album
        else if artists != "" then name + " - " + artists
        else name
      case Full =>
        if artists != "" && Truthy(t.album) then name + " - " + artists + " (" + album + ")"
        else if artists != "" then name + " - " + artists
        else name
  }

  lemma FormatEmptyName(f: string, t: TrackInfo)
    requires !Truthy(t.name)
    ensures FormatTrackName(f, t) == ""
  {
  }

  /** The two-part formats put name and artists in opposite orders and drop empty artists. */
  lemma FormatNameArtists(t: TrackInfo)
    requires Truthy(t.name)
    ensures t.artists != "" ==> FormatTrackName("name-artists", t) == PyStr(t.name) + " - " + t.artists
    ensures t.artists != "" ==> FormatTrackName("artists-name", t) == t.artists + " - " + PyStr(t.name)
    ensures t.artists == "" ==> FormatTrackName("name-artists", t) == PyStr(t.name)
    ensures t.artists == "" ==> FormatTrackName("artists-name", t) == PyStr(t.name)
  {
  }

  lemma FormatFull(t: TrackInfo)
    requires Truthy(t.name) && t.artists != "" && Truthy(t.album)
    ensures FormatTrackName("full", t) == PyStr(t.name) + " - " + t.artists + " (" + PyStr(t.album) + ")"
  {
  }

  /** A format key outside the known five formats like 'name-artists'. */
  lemma FormatUnknownIsNameArtists(f: string, t: TrackInfo)
    requires f !in {"name-artists", "artists-name", "name", "name-artists-album", "full"}
    ensures FormatTrackName(f, t) == FormatTrackName("name-artists", t)
  {
  }

  /** Every line written for a track with a name is non-empty, so no track is dropped from the TXT file. */
  lemma FormatNonEmpty(f: string, t: TrackInfo)
    requires Truthy(t.name)
    ensures FormatTrackName(f, t) != ""
  {
    PyStrOfTruthy(t.name);
  }

  lemma PyStrOfTruthy(v: Value)
    requires Truthy(v)
    ensures PyStr(v) != ""
  {
    if v.Int? {
      var i := v.i;
      if i < 0 {
        assert |Strings.NatToString(-i)| >= 1;
      }
    }
  }

  // ---------------------------------------------------------------- CSV

  /** The CSV column table of `export_selected`. */
  function CsvFieldnames(exportFormat: string): (r: seq<string>)
    ensures |r| >= 1
    ensures forall i :: 0 <= i < |r| ==> r[i] in ExportFieldKeys
  {
    if exportFormat == "name" then ["name"]
    else if exportFormat == "name-artists" then ["name", "artists"]
    else if exportFormat == "artists-name" then ["artists", "name"]
    else if exportFormat == "name-artists-album" then ["name", "artists", "album"]
    else if exportFormat == "full" then ExportFieldKeys
    else ["name", "artists"]
  }

  /** `track_info[field]`. */
  function Field(t: TrackInfo, field: string): Value
  {
    if field == "name" then t.name
    else if field == "artists" then Str(t.artists)
    else if field == "album" then t.album
    else if field == "release_date" then t.releaseDate
    else if field == "duration" then Str(t.duration)
    else t.url
  }

  /** How `csv.DictWriter` writes a value: `None` as the empty string, everything else by `str`. */
  function CsvCell(v: Value): string
  {
    if v.Null? then "" else PyStr(v)
  }

  function CsvRow(fieldnames: seq<string>, t: TrackInfo): (r: seq<string>)
    ensures |r| == |fieldnames|
    ensures forall i :: 0 <= i < |r| ==> r[i] == CsvCell(Field(t, fieldnames[i]))
  {
    seq(|fieldnames|, i requires 0 <= i < |fieldnames| => CsvCell(Field(t, fieldnames[i])))
  }

  /** The localized header row: `export_fields.get(field, field)` for every column. */
  function HeaderRow(fieldnames: seq<string>, labels: map<string, string>): (r: seq<string>)
    ensures |r| == |fieldnames|
    ensures forall i :: 0 <= i < |r| ==> r[i] == if fieldnames[i] in labels then labels[fieldnames[i]] else fieldnames[i]
  {
    seq(|fieldnames|, i requires 0 <= i < |fieldnames| =>
      if fieldnames[i] in labels then labels[fieldnames[i]] else fieldnames[i])
  }

  /**
   * TXT and CSV agree: when every field a format uses is filled in, its TXT line is
   * the CSV row's cells joined by " - " (the 'full' TXT line instead uses album only,
   * in parentheses).
   */
  lemma FormatMatchesCsvRow(f: string, t: TrackInfo)
    requires f in {"name", "name-artists", "artists-name", "name-artists-album"}
    requires Truthy(t.name) && t.artists != "" && Truthy(t.album)
    ensures FormatTrackName(f, t) == Strings.Join(" - ", CsvRow(CsvFieldnames(f), t))
  {
    var row := CsvRow(CsvFieldnames(f), t);
    if f == "name-artists-album" {
      assert row == [PyStr(t.name), t.artists, PyStr(t.album)];
      assert row[1..] == [t.artists, PyStr(t.album)];
      assert Strings.Join(" - ", row[1..][1..]) == PyStr(t.album);
    } else if f == "name-artists" {
      assert row == [PyStr(t.name), t.artists];
      assert Strings.Join(" - ", row[1..]) == t.artists;
    } else if f == "artists-name" {
      assert row == [t.artists, PyStr(t.name)];
      assert Strings.Join(" - ", row[1..]) == PyStr(t.name);
    } else {
      assert row == [PyStr(t.name)];
    }
  }

  // ---------------------------------------------------------------- duration

  /** `f'{ms // 60000}:{(ms % 60000) // 1000:02d}'` (floor division, as Python's). */
  function FormatDuration(ms: int): string
  {
    Strings.IntToString(ms / 60000) + ":" + Strings.Pad2((ms % 60000) / 1000)
  }

  /** Reads an "m:ss" text back into minutes and seconds. */
  function ParseDuration(s: string): Option<(int, nat)>
  {
    var i := Strings.IndexOf(s, ':');
    if i == |s| then None
    else
      var secs := s[i + 1..];
      if !Strings.AllDigits(secs) then None
      else match ParseInt(s[..i])
        case None => None
        case Some(m) => Some((m, Strings.DigitsValue(secs)))
  }

  lemma IntTextHasNoColon(i: int)
    ensures ':' !in Strings.IntToString(i)
  {
    var n: nat := if i < 0 then -i else i;
    var d := Strings.NatToString(n);
    assert Strings.AllDigits(d);
    assert forall k :: 0 <= k < |d| ==> d[k] != ':';
  }

  lemma Pad2Value(n: nat)
    ensures Strings.DigitsValue(Strings.Pad2(n)) == n
  {
    Strings.DigitsOfNat(n);
    if n < 10 {
      var p := Strings.Pad2(n);
      assert p == "0" + Strings.NatToString(n);
      assert p[..|p| - 1] == "0";
      assert p[|p| - 1..] == Strings.NatToString(n);
    }
  }

  /**
   * The duration text reads back as the floored minutes and the seconds within the
   * minute; seconds are below 60, and for a non-negative duration minutes and seconds
   * together are the whole seconds.
   */
  lemma DurationRoundTrip(ms: int)
    ensures ParseDuration(FormatDuration(ms)) == Some((ms / 60000, (ms % 60000) / 1000))
    ensures 0 <= (ms % 60000) / 1000 < 60
    ensures ms >= 0 ==> 60 * (ms / 60000) + (ms % 60000) / 1000 == ms / 1000
  {
    var m := ms / 60000;
    var sec := (ms % 60000) / 1000;
    var mt := Strings.IntToString(m);
    var st := Strings.Pad2(sec);
    var s := FormatDuration(ms);
    assert s == mt + [':'] + st;
    IntTextHasNoColon(m);
    Strings.IndexOfAfter(mt, ':', st);
    var i := Strings.IndexOf(s, ':');
    assert s[..i] == mt;
    assert s[i + 1..] == st;
    ToIntOfStr(m);
    Pad2Value(sec);
  }

  // ---------------------------------------------------------------- track info

  /** Artist names `export_selected` collects: dicts with a truthy 'name'; None when iteration raises. */
  function TruthyArtistNames(artists: Value): Option<seq<Value>>
  {
    match artists
    case List(l) => Some(NamesFrom(l))
    case Str(_) => Some([])
    case Obj(_) => Some([])
    case _ => None
  }

  function NamesFrom(l: seq<Value>): (r: seq<Value>)
    ensures forall i :: 0 <= i < |r| ==> Truthy(r[i])
  {
    if |l| == 0 then []
    else
      var rest := NamesFrom(l[1..]);
      if l[0].Obj? && Truthy(Get(l[0].fields, "name", Null)) then [Get(l[0].fields, "name", Null)] + rest else rest
  }

  /** The whole-number duration `//` and `%` accept: an int or a bool. */
  function DurationNumber(v: Value): Option<int>
  {
    match v
    case Int(i) => Some(i)
    case Bool(b) => Some(if b then 1 else 0)
    case _ => None
  }

  /**
   * The record `export_selected` builds from one visible song, or None when the song
   * is skipped: not a dict, a track that is not a dict, a raise while reading it, or
   * a track without a name.
   */
  function TrackInfoOf(song: Value): Option<TrackInfo>
  {
    if !song.Obj? then None
    else
      var track := Get(song.fields, "track", Null);
      if !track.Obj? then None
      else
        var tf := track.fields;
        var names :- TruthyArtistNames(Get(tf, "artists", List([])));
        var parts :- AllStrings(names);
        var album := Get(tf, "album", Obj(map[]));
        var albumName := if album.Obj? then Get(album.fields, "name", Str("")) else Str("");
        var albumDate := if album.Obj? then Get(album.fields, "release_date", Str("")) else Str("");
        var ms :- DurationNumber(Get(tf, "duration_ms", Int(0)));
        var name := Get(tf, "name", Str(""));
        var ext := Get(tf, "external_urls", Obj(map[]));
        if !ext.Obj? then None
        else if !Truthy(name) then None
        else Some(TrackInfo(name, Strings.Join(", ", parts), albumName, albumDate, FormatDuration(ms),
                            Get(ext.fields, "spotify", Str(""))))
  }

  /** A kept record always has a name, so its TXT line is never empty. */
  lemma TrackInfoHasName(song: Value)
    requires TrackInfoOf(song).Some?
    ensures Truthy(TrackInfoOf(song).value.name)
    ensures forall f :: FormatTrackName(f, TrackInfoOf(song).value) != ""
  {
    forall f {
      FormatNonEmpty(f, TrackInfoOf(song).value);
    }
  }

  /**
   * A dict track with well-typed fields gives its name, the non-empty artist names
   * joined by ", ", its album name and release date, its duration text and its URL.
   */
  lemma TrackInfoOfWellFormed(song: Value, track: map<string, Value>, name: string, artistNames: seq<string>,
                              album: map<string, Value>, ms: int, urls: map<string, Value>)
    requires song.Obj? && Get(song.fields, "track", Null) == Obj(track)
    requires Get(track, "name", Str("")) == Str(name) && name != ""
    requires Get(track, "artists", List([])) == List(StrNameDicts(artistNames))
    requires Get(track, "album", Obj(map[])) == Obj(album)
    requires Get(track, "duration_ms", Int(0)) == Int(ms)
    requires Get(track, "external_urls", Obj(map[])) == Obj(urls)
    ensures TrackInfoOf(song) ==
      Some(TrackInfo(Str(name), Strings.Join(", ", Nonempty(artistNames)), Get(album, "name", Str("")),
                     Get(album, "release_date", Str("")), FormatDuration(ms), Get(urls, "spotify", Str(""))))
  {
    NamesOfNamed(artistNames);
    StrValuesAllStrings(Nonempty(artistNames));
  }

  /** The non-empty names, in order. */
  function Nonempty(names: seq<string>): seq<string>
  {
    if |names| == 0 then [] else (if names[0] != "" then [names[0]] else []) + Nonempty(names[1..])
  }

  function StrValues(names: seq<string>): (r: seq<Value>)
    ensures |r| == |names| && forall i :: 0 <= i < |names| ==> r[i] == Str(names[i])
  {
    seq(|names|, i requires 0 <= i < |names| => Str(names[i]))
  }

  lemma {:induction false} NamesOfNamed(names: seq<string>)
    ensures NamesFrom(StrNameDicts(names)) == StrValues(Nonempty(names))
    decreases |names|
  {
    if |names| > 0 {
      NamesOfNamed(names[1..]);
      NamedHead(names);
      var head: seq<string> := if names[0] != "" then [names[0]] else [];
      StrValuesAppend(head, Nonempty(names[1..]));
    }
  }

  /** The first dict gives its name exactly when the name is not empty. */
  lemma NamedHead(names: seq<string>)
    requires |names| > 0
    ensures NamesFrom(StrNameDicts(names))
         == StrValues(if names[0] != "" then [names[0]] else []) + NamesFrom(StrNameDicts(names[1..]))
  {
    assert StrNameDicts(names)[1..] == StrNameDicts(names[1..]);
  }

  lemma StrValuesAppend(a: seq<string>, b: seq<string>)
    ensures StrValues(a + b) == StrValues(a) + StrValues(b)
  {
  }

  lemma {:induction false} StrValuesAllStrings(names: seq<string>)
    ensures AllStrings(StrValues(names)) == Some(names)
    decreases |names|
  {
    if |names| > 0 {
      assert StrValues(names)[1..] == StrValues(names[1..]);
      StrValuesAllStrings(names[1..]);
      assert names == [names[0]] + names[1..];
    }
  }

  // ---------------------------------------------------------------- sort keys

  /** The sort keys of the five sort options and the fallback for every other key. */
  predicate IsSortOption(key: string)
  {
    key in {"name", "artist", "album", "duration", "added_at"}
  }

  /** `get_sort_value(item)`, or None when it raises. */
  function SortValue(item: Value, key: string): Option<StableSort.Key>
  {
    if !item.Obj? then None
    else
      var track := Get(item.fields, "track", Obj(map[]));
      if !Truthy(track) then Some(StableSort.KStr(""))
      else if key == "name" then
        if !track.Obj? then None else StableSort.LowerKey(Get(track.fields, "name", Str("")))
      else if key == "artist" then
        if !track.Obj? then None
        else
          var artists := Get(track.fields, "artists", List([]));
          if !Truthy(artists) then Some(StableSort.KStr(""))
          else if artists.List? && artists.items[0].Obj? then StableSort.LowerKey(Get(artists.items[0].fields, "name", Str("")))
          else None
      else if key == "album" then
        if !track.Obj? then None
        else
          var album := Get(track.fields, "album", Obj(map[]));
          if !Truthy(album) then Some(StableSort.KStr(""))
          else if album.Obj? then StableSort.LowerKey(Get(album.fields, "name", Str("")))
          else None
      else if key == "duration" then
        if !track.Obj? then None else Some(StableSort.KeyOf(Get(track.fields, "duration_ms", Int(0))))
      else if key == "added_at" then Some(StableSort.KeyOf(Get(item.fields, "added_at", Str(""))))
      else Some(StableSort.KStr(""))
  }

  /** `get_sort_value` as the key function handed to `sorted`. */
  function SortKey(key: string): Value -> Option<StableSort.Key>
  {
    v => SortValue(v, key)
  }

  /** `sort_tracks_by_key`: `sorted(tracks, key=get_sort_value, reverse=reverse)`; Err when it raises. */
  function SortTracksByKey(tracks: seq<Value>, key: string, reverse: bool): Result<seq<Value>, string>
  {
    StableSort.SortedBy(tracks, SortKey(key), reverse)
  }

  /**
   * `sort_tracks_by_key` raises exactly when a key raises or two keys cannot be compared;
   * otherwise it returns a permutation of the input.
   */
  lemma SortTracksPermutes(tracks: seq<Value>, key: string, reverse: bool)
    ensures SortTracksByKey(tracks, key, reverse).Err? <==>
      (exists i :: 0 <= i < |tracks| && SortValue(tracks[i], key).None?) ||
      (|tracks| >= 2 && !StableSort.SameKind(StableSort.Decorate(tracks, SortKey(key)).value))
    ensures SortTracksByKey(tracks, key, reverse).Ok? ==>
      multiset(SortTracksByKey(tracks, key, reverse).value) == multiset(tracks)
  {
    StableSort.SortedByPermutes(tracks, SortKey(key), reverse);
  }

  /** Both items' derived keys are defined, and the later one does not have to precede the earlier. */
  predicate PairInOrder(a: Value, b: Value, key: string, reverse: bool)
  {
    SortValue(a, key).Some? && SortValue(b, key).Some? &&
    !StableSort.Before(SortValue(b, key).value, SortValue(a, key).value, reverse)
  }

  /** No item of `r` has to precede an earlier one by its derived key, and every key is defined. */
  predicate OrderedByKey(r: seq<Value>, key: string, reverse: bool)
  {
    forall i, j :: 0 <= i < j < |r| ==> PairInOrder(r[i], r[j], key, reverse)
  }

  /** The result is ordered by the derived keys: no item has to precede an earlier one. */
  lemma SortTracksOrdered(tracks: seq<Value>, key: string, reverse: bool)
    requires SortTracksByKey(tracks, key, reverse).Ok?
    ensures OrderedByKey(SortTracksByKey(tracks, key, reverse).value, key, reverse)
  {
    var r := SortTracksByKey(tracks, key, reverse).value;
    forall i, j | 0 <= i < j < |r|
      ensures PairInOrder(r[i], r[j], key, reverse)
    {
      SortedPair(tracks, key, reverse, i, j);
    }
  }

  /** One pair of the sorted result, read through `SortKey`. */
  lemma SortedPair(tracks: seq<Value>, key: string, reverse: bool, i: int, j: int)
    requires SortTracksByKey(tracks, key, reverse).Ok?
    requires 0 <= i < j < |SortTracksByKey(tracks, key, reverse).value|
    ensures var r := SortTracksByKey(tracks, key, reverse).value;
      PairInOrder(r[i], r[j], key, reverse)
  {
    StableSort.SortedByOrdered(tracks, SortKey(key), reverse);
    var r := SortTracksByKey(tracks, key, reverse).value;
    assert SortKey(key)(r[i]) == SortValue(r[i], key);
    assert SortKey(key)(r[j]) == SortValue(r[j], key);
  }

  /** Stability: items with equal keys keep their input order, ascending or descending. */
  lemma SortTracksStable(tracks: seq<Value>, key: string, reverse: bool, k: StableSort.Key)
    requires SortTracksByKey(tracks, key, reverse).Ok?
    ensures StableSort.WithKey(SortTracksByKey(tracks, key, reverse).value, SortKey(key), k)
         == StableSort.WithKey(tracks, SortKey(key), k)
  {
    StableSort.SortedByStable(tracks, SortKey(key), reverse, k);
  }

  /**
   * For the key 'order' and any other key outside the five options, every item whose
   * `get_sort_value` succeeds gets "", so the input order comes back even reversed;
   * the only failure is an item that is not a dict.
   */
  lemma SortByOtherKeyKeepsOrder(tracks: seq<Value>, key: string, reverse: bool)
    requires !IsSortOption(key)
    ensures SortTracksByKey(tracks, key, reverse).Ok? <==> forall i :: 0 <= i < |tracks| ==> tracks[i].Obj?
    ensures SortTracksByKey(tracks, key, reverse).Ok? ==> SortTracksByKey(tracks, key, reverse).value == tracks
  {
    StableSort.SortedByConstant(tracks, SortKey(key), reverse, StableSort.KStr(""));
  }

  // ---------------------------------------------------------------- search

  /**
   * The album or artist name lowered, failing as `.get(...).lower()` does: the
   * container must be a dict and the name a string.
   */
  function LowerName(v: Value): Option<string>
  {
    if !v.Obj? then None
    else
      var n := Get(v.fields, "name", Str(""));
      if n.Str? then Some(Strings.Lower(n.s)) else None
  }

  /** `[artist.get('name', '').lower() for artist in track.get('artists', [])]`. */
  function LowerArtistNames(artists: Value): Option<seq<string>>
  {
    match artists
    case List(l) => LowerNames(l)
    case Str(s) => if s == "" then Some([]) else None
    case Obj(m) => if m == map[] then Some([]) else None
    case _ => None
  }

  function LowerNames(l: seq<Value>): (r: Option<seq<string>>)
    ensures r.Some? ==> |r.value| == |l| && forall i :: 0 <= i < |l| ==> LowerName(l[i]) == Some(r.value[i])
    ensures r.None? ==> exists i :: 0 <= i < |l| && LowerName(l[i]).None?
  {
    if |l| == 0 then Some([])
    else
      match LowerName(l[0])
      case None => None
      case Some(n) =>
        match LowerNames(l[1..])
        case None => None
        case Some(rest) => Some([n] + rest)
  }

  /** Some artist name contains the query. */
  predicate AnyContains(names: seq<string>, q: string)
  {
    exists i :: 0 <= i < |names| && Strings.Contains(names[i], q)
  }

  /** The search test of `create_song_list` for one song; None when evaluating it raises. */
  function MatchesSearch(q: string, song: Value): Option<bool>
  {
    if !song.Obj? then None
    else
      var track := Get(song.fields, "track", Obj(map[]));
      if !Truthy(track) then Some(false)
      else if !track.Obj? then None
      else
        var name := Get(track.fields, "name", Str(""));
        if !name.Str? then None
        else
          var albumName :- LowerName(Get(track.fields, "album", Obj(map[])));
          var artists :- LowerArtistNames(Get(track.fields, "artists", List([])));
          Some(Strings.Contains(Strings.Lower(name.s), q) || Strings.Contains(albumName, q) || AnyContains(artists, q))
  }

  /** The name-only test of `filter_songs`. */
  function MatchesName(q: string, song: Value): Option<bool>
  {
    if !song.Obj? then None
    else
      var track := Get(song.fields, "track", Obj(map[]));
      if !Truthy(track) then Some(false)
      else if !track.Obj? then None
      else
        var name := Get(track.fields, "name", Str(""));
        if name.Str? then Some(Strings.Contains(Strings.Lower(name.s), q)) else None
  }

  /**
   * A song passes the search when the lowered name, the lowered album name or some
   * lowered artist name contains the query, and a song with an empty track never passes.
   */
  lemma SearchMeaning(q: string, song: Value, track: map<string, Value>, name: string, album: string, artists: seq<string>)
    requires song.Obj? && Get(song.fields, "track", Obj(map[])) == Obj(track) && track != map[]
    requires Get(track, "name", Str("")) == Str(name)
    requires Get(track, "album", Obj(map[])) == Obj(map["name" := Str(album)])
    requires Get(track, "artists", List([])) == List(StrNameDicts(artists))
    ensures MatchesSearch(q, song) == Some(
      Strings.Contains(Strings.Lower(name), q) || Strings.Contains(Strings.Lower(album), q) ||
      exists i :: 0 <= i < |artists| && Strings.Contains(Strings.Lower(artists[i]), q))
  {
    var l := StrNameDicts(artists);
    forall i | 0 <= i < |l|
      ensures LowerName(l[i]) == Some(Strings.Lower(artists[i]))
    {
      assert Get(l[i].fields, "name", Str("")) == Str(artists[i]);
    }
    assert LowerNames(l).Some?;
    var lowered := LowerNames(l).value;
    assert LowerArtistNames(List(l)) == Some(lowered);
    assert LowerName(Obj(map["name" := Str(album)])) == Some(Strings.Lower(album)) by {
      assert Get(map["name" := Str(album)], "name", Str("")) == Str(album);
    }
    assert AnyContains(lowered, q) <==> exists i :: 0 <= i < |artists| && Strings.Contains(Strings.Lower(artists[i]), q) by {
      assert forall i :: 0 <= i < |artists| ==> lowered[i] == Strings.Lower(artists[i]);
    }
  }

  /** Artist dicts with string names. */
  function StrNameDicts(names: seq<string>): (r: seq<Value>)
    ensures |r| == |names| && forall i :: 0 <= i < |names| ==> r[i] == Obj(map["name" := Str(names[i])])
  {
    seq(|names|, i requires 0 <= i < |names| => Obj(map["name" := Str(names[i])]))
  }

  /** An empty query matches every song whose check does not raise and whose track is not empty. */
  lemma EmptyQueryMatchesAll(song: Value)
    requires MatchesSearch("", song).Some?
    requires Truthy(Get(song.fields, "track", Obj(map[])))
    ensures MatchesSearch("", song) == Some(true)
  {
    var track := Get(song.fields, "track", Obj(map[]));
    Strings.EmptyContained(Strings.Lower(Get(track.fields, "name", Str("")).s));
  }

  function SearchTest(q: string): Value -> Option<bool>
  {
    (s: Value) => MatchesSearch(q, s)
  }

  function NameTest(q: string): Value -> Option<bool>
  {
    (s: Value) => MatchesName(q, s)
  }

  /** The search loop of `create_song_list`: the songs kept, and whether it finished without raising. */
  function Search(songs: seq<Value>, q: string): (seq<Value>, bool)
  {
    Filters.Scan(songs, SearchTest(q))
  }

  // ---------------------------------------------------------------- rows and checkboxes

  /** `create_song_row` makes a row only for a song whose track is truthy. */
  predicate HasTrack(song: Value)
  {
    song.Obj? && Truthy(Get(song.fields, "track", Obj(map[])))
  }

  /** A row gets a checkbox in `song_checkboxes` only when its track has a truthy id. */
  predicate HasId(song: Value)
  {
    HasTrack(song) &&
    var track := Get(song.fields, "track", Obj(map[]));
    track.Obj? && Truthy(Get(track.fields, "id", Null))
  }

  /**
   * The artists loop of `create_song_row`: `artist.get('name', '')` on every item needs a
   * list of dicts (or an empty str or dict to iterate), and `', '.join` needs str names.
   */
  predicate ArtistsReadable(v: Value)
  {
    match v
    case List(l) => forall k :: 0 <= k < |l| ==> l[k].Obj? && Get(l[k].fields, "name", Str("")).Str?
    case Str(s) => s == ""
    case Obj(m) => m == map[]
    case _ => false
  }

  /**
   * `album['images'][-1]['url']`, read when the images are truthy: a list whose last item
   * is a dict with a url. The cache lookup swallows its own errors, but its handler uses
   * the url as a dict key, so a list or dict url raises `TypeError` there.
   */
  predicate ImagesReadable(images: Value)
  {
    Truthy(images) ==>
      images.List? && |images.items| > 0 &&
      var last := images.items[|images.items| - 1];
      last.Obj? && "url" in last.fields && !last.fields["url"].List? && !last.fields["url"].Obj?
  }

  /**
   * The reads `create_song_row` makes of a dict track after storing its checkbox: the
   * artwork when it is shown, the title, the artists, the album's name and release date,
   * and the `m:ss` duration, whose `{seconds:02d}` needs an int (a bool is one).
   */
  predicate TrackRowReadable(t: map<string, Value>, showArtwork: bool)
  {
    var album := Get(t, "album", Obj(map[]));
    var duration := Get(t, "duration_ms", Int(0));
    && album.Obj?
    && (showArtwork ==> ImagesReadable(Get(album.fields, "images", Null)))
    && LabelArgument(Get(t, "name", Str("未知歌曲")))
    && ArtistsReadable(Get(t, "artists", List([])))
    && LabelArgument(Get(album.fields, "name", Str("未知专辑")))
    && (Truthy(Get(album.fields, "release_date", Str(""))) ==> Get(album.fields, "release_date", Str("")).Str?)
    && (duration.Int? || duration.Bool?)
  }

  /**
   * Whether `create_song_row` raises on `song`: `song.get` needs a dict, a falsy track
   * returns before any other read, and `track.get('id')` needs a dict track.
   */
  predicate RowRaises(song: Value, showArtwork: bool)
  {
    || !song.Obj?
    || (var track := Get(song.fields, "track", Obj(map[]));
        Truthy(track) && !(track.Obj? && TrackRowReadable(track.fields, showArtwork)))
  }

  /** The row loop raises on `song`; the loop of `load_more_songs` first reads `item['track']` (`subscripted`). */
  predicate LoopRaises(song: Value, showArtwork: bool, subscripted: bool)
  {
    (subscripted && !(song.Obj? && "track" in song.fields)) || RowRaises(song, showArtwork)
  }

  /** The position of the first song the row loop raises on, or None when it gets through. */
  function FirstRaise(songs: seq<Value>, showArtwork: bool, subscripted: bool): (r: Option<nat>)
    ensures r.None? <==> forall k :: 0 <= k < |songs| ==> !LoopRaises(songs[k], showArtwork, subscripted)
    ensures r.Some? ==> r.value < |songs| && LoopRaises(songs[r.value], showArtwork, subscripted)
    ensures r.Some? ==> forall k :: 0 <= k < r.value ==> !LoopRaises(songs[k], showArtwork, subscripted)
  {
    if |songs| == 0 then None
    else if LoopRaises(songs[0], showArtwork, subscripted) then Some(0)
    else
      match FirstRaise(songs[1..], showArtwork, subscripted)
      case None => None
      case Some(i) => Some(i + 1)
  }

  /** The first position that raises, with none raising before it, is the one `FirstRaise` finds. */
  lemma FirstRaiseAt(songs: seq<Value>, showArtwork: bool, subscripted: bool, j: nat)
    requires j < |songs| && LoopRaises(songs[j], showArtwork, subscripted)
    requires forall k :: 0 <= k < j ==> !LoopRaises(songs[k], showArtwork, subscripted)
    ensures FirstRaise(songs, showArtwork, subscripted) == Some(j)
  {
  }

  /** A checkbox of `song_checkboxes`: the song of its row, whether its row still exists, and its state. */
  datatype CheckBox = CheckBox(song: Value, attached: bool, checked: bool)

  function RowsOf(sorted: seq<Value>): (r: seq<Value>)
    ensures |r| <= |sorted|
  {
    if |sorted| == 0 then [] else
    RowsOf(sorted[..|sorted| - 1]) + (if HasTrack(sorted[|sorted| - 1]) then [sorted[|sorted| - 1]] else [])
  }

  function NewCheckBoxes(sorted: seq<Value>): (r: seq<CheckBox>)
    ensures forall i :: 0 <= i < |r| ==> r[i].attached && !r[i].checked && HasId(r[i].song)
  {
    if |sorted| == 0 then [] else
    NewCheckBoxes(sorted[..|sorted| - 1]) +
      (if HasId(sorted[|sorted| - 1]) then [CheckBox(sorted[|sorted| - 1], true, false)] else [])
  }

  /** Rows that are rebuilt leave their checkboxes behind, no longer attached. */
  function Detached(cbs: seq<CheckBox>): (r: seq<CheckBox>)
    ensures |r| == |cbs|
    ensures forall i :: 0 <= i < |r| ==> r[i] == cbs[i].(attached := false)
  {
    seq(|cbs|, i requires 0 <= i < |cbs| => cbs[i].(attached := false))
  }

  /** `checkbox.setChecked(v)` on every checkbox whose row still exists. */
  function SetAttached(cbs: seq<CheckBox>, v: bool): (r: seq<CheckBox>)
    ensures |r| == |cbs|
    ensures forall i :: 0 <= i < |r| ==> r[i] == if cbs[i].attached then cbs[i].(checked := v) else cbs[i]
  {
    seq(|cbs|, i requires 0 <= i < |cbs| => if cbs[i].attached then cbs[i].(checked := v) else cbs[i])
  }

  /** The indices `export_selected` collects: attached, checked checkboxes, in order. */
  function SelectedIndices(cbs: seq<CheckBox>): (r: seq<nat>)
    ensures forall k :: 0 <= k < |r| ==> r[k] < |cbs| && cbs[r[k]].attached && cbs[r[k]].checked
    ensures forall i :: 0 <= i < |cbs| && cbs[i].attached && cbs[i].checked ==> i in r
  {
    if |cbs| == 0 then []
    else
      var init := cbs[..|cbs| - 1];
      var last := |cbs| - 1;
      SelectedIndices(init) + (if cbs[last].attached && cbs[last].checked then [last] else [])
  }

  /** As written: selected index `i` is looked up in `visible_songs`, not in the displayed rows. */
  function SelectedSongsAsWritten(cbs: seq<CheckBox>, visible: seq<Value>): seq<Value>
  {
    var idx := SelectedIndices(cbs);
    SongsAt(idx, visible)
  }

  function SongsAt(idx: seq<nat>, visible: seq<Value>): seq<Value>
  {
    if |idx| == 0 then []
    else (if idx[0] < |visible| then [visible[idx[0]]] else []) + SongsAt(idx[1..], visible)
  }

  /** Corrected: the songs whose own checkbox is checked, in row order. */
  function CheckedSongs(cbs: seq<CheckBox>): seq<Value>
  {
    if |cbs| == 0 then [] else
    CheckedSongs(cbs[..|cbs| - 1]) +
      (if cbs[|cbs| - 1].attached && cbs[|cbs| - 1].checked then [cbs[|cbs| - 1].song] else [])
  }

  /** A song is exported exactly when some attached checkbox of its row is checked. */
  lemma {:induction false} CheckedSongsMeaning(cbs: seq<CheckBox>, song: Value)
    ensures song in CheckedSongs(cbs) <==> exists i :: 0 <= i < |cbs| && cbs[i].attached && cbs[i].checked && cbs[i].song == song
    decreases |cbs|
  {
    if |cbs| > 0 {
      var init := cbs[..|cbs| - 1];
      CheckedSongsMeaning(init, song);
      if exists i :: 0 <= i < |init| && init[i].attached && init[i].checked && init[i].song == song {
        var i :| 0 <= i < |init| && init[i].attached && init[i].checked && init[i].song == song;
        assert cbs[i] == init[i];
      }
      if exists i :: 0 <= i < |cbs| && cbs[i].attached && cbs[i].checked && cbs[i].song == song {
        var i :| 0 <= i < |cbs| && cbs[i].attached && cbs[i].checked && cbs[i].song == song;
        if i < |init| {
          assert init[i] == cbs[i];
        }
      }
    }
  }

  /** Song `a` is named "b" and song `b` is named "a"; both have ids. */
  const SongA: Value := Obj(map["track" := Obj(map["id" := Str("1"), "name" := Str("b")])])
  const SongB: Value := Obj(map["track" := Obj(map["id" := Str("2"), "name" := Str("a")])])

  lemma ExampleKeys()
    ensures SortValue(SongA, "name") == Some(StableSort.KStr("b"))
    ensures SortValue(SongB, "name") == Some(StableSort.KStr("a"))
    ensures HasId(SongA) && HasId(SongB)
  {
    Strings.LowerOfLower("a");
    Strings.LowerOfLower("b");
    var ta := map["id" := Str("1"), "name" := Str("b")];
    var tb := map["id" := Str("2"), "name" := Str("a")];
    assert "id" in ta && "id" in tb && ta["name"] == Str("b") && tb["name"] == Str("a");
    assert Get(SongA.fields, "track", Obj(map[])) == Obj(ta) && Truthy(Obj(ta));
    assert Get(SongB.fields, "track", Obj(map[])) == Obj(tb) && Truthy(Obj(tb));
    assert StableSort.LowerKey(Str("b")) == Some(StableSort.KStr("b"));
    assert StableSort.LowerKey(Str("a")) == Some(StableSort.KStr("a"));
  }

  /** The name keys of the two songs, paired with them in input order. */
  lemma ExampleDecorated()
    ensures StableSort.Decorate([SongA, SongB], SortKey("name")) == Some([(StableSort.KStr("b"), SongA), (StableSort.KStr("a"), SongB)])
  {
    var a, b := SongA, SongB;
    ExampleKeys();
    var empty: seq<Value> := [];
    assert StableSort.Decorate(empty, SortKey("name")) == Some([]);
    StableSort.DecorateSnoc(empty, a, SortKey("name"), [], StableSort.KStr("b"));
    assert empty + [a] == [a];
    var empty2: seq<(StableSort.Key, Value)> := [];
    assert empty2 + [(StableSort.KStr("b"), a)] == [(StableSort.KStr("b"), a)];
    StableSort.DecorateSnoc([a], b, SortKey("name"), [(StableSort.KStr("b"), a)], StableSort.KStr("a"));
    assert [a] + [b] == [a, b];
    assert [(StableSort.KStr("b"), a)] + [(StableSort.KStr("a"), b)] == [(StableSort.KStr("b"), a), (StableSort.KStr("a"), b)];
  }

  /** "a" sorts before "b", so the two pairs swap. */
  lemma ExamplePairsSorted<T>(a: T, b: T)
    ensures StableSort.PySorted([(StableSort.KStr("b"), a), (StableSort.KStr("a"), b)], false)
         == Ok([(StableSort.KStr("a"), b), (StableSort.KStr("b"), a)])
  {
    var ps := [(StableSort.KStr("b"), a), (StableSort.KStr("a"), b)];
    assert StableSort.StrLess("a", "b");
    assert ps[..1] == [(StableSort.KStr("b"), a)];
    assert ps[..1][..0] == [];
    var one := StableSort.Sort(ps[..1], false);
    assert one == [(StableSort.KStr("b"), a)];
    assert one[..0] == [];
    assert StableSort.Before(StableSort.KStr("a"), StableSort.KStr("b"), false);
    assert StableSort.Insert((StableSort.KStr("a"), b), [], false) == [(StableSort.KStr("a"), b)];
    assert StableSort.Sort(ps, false) == [(StableSort.KStr("a"), b), (StableSort.KStr("b"), a)];
    assert StableSort.SameKind(ps);
  }

  /** Sorting by name shows `b` in the first row and `a` in the second. */
  lemma ExampleSorted()
    ensures SortTracksByKey([SongA, SongB], "name", false) == Ok([SongB, SongA])
  {
    ExampleDecorated();
    ExamplePairsSorted(SongA, SongB);
    var sorted := [(StableSort.KStr("a"), SongB), (StableSort.KStr("b"), SongA)];
    assert StableSort.Vals(sorted) == [SongB, SongA];
  }

  /** Both rows get a fresh, unchecked checkbox, in display order. */
  lemma ExampleBoxes()
    ensures NewCheckBoxes([SongB, SongA]) == [CheckBox(SongB, true, false), CheckBox(SongA, true, false)]
  {
    ExampleKeys();
    var e: seq<Value> := [];
    assert [SongB, SongA][..1] == [SongB];
    assert [SongB][..0] == e;
    assert NewCheckBoxes(e) == [];
    var nb := NewCheckBoxes([SongB]);
    assert nb == [] + [CheckBox(SongB, true, false)];
    assert NewCheckBoxes([SongB, SongA]) == nb + [CheckBox(SongA, true, false)];
  }

  /** Ticking the first row: as written the export gets `a`; the checked row holds `b`. */
  lemma ExampleSelection()
    ensures SelectedSongsAsWritten([CheckBox(SongB, true, true), CheckBox(SongA, true, false)], [SongA, SongB]) == [SongA]
    ensures CheckedSongs([CheckBox(SongB, true, true), CheckBox(SongA, true, false)]) == [SongB]
  {
    var ticked := [CheckBox(SongB, true, true), CheckBox(SongA, true, false)];
    assert ticked[..1] == [CheckBox(SongB, true, true)];
    assert ticked[..1][..0] == [];
    assert SelectedIndices(ticked[..1]) == [0];
    assert SelectedIndices(ticked) == [0];
    var none: seq<nat> := [];
    assert [0][1..] == none;
    assert SongsAt(none, [SongA, SongB]) == [];
    assert SongsAt([0], [SongA, SongB]) == [SongA] + [];
    var nocb: seq<CheckBox> := [];
    assert CheckedSongs(nocb) == [];
    assert CheckedSongs(ticked[..1]) == [] + [SongB];
    assert CheckedSongs(ticked) == CheckedSongs(ticked[..1]) + [];
  }

  /**
   * Two visible songs sorted by name swap places on screen. Ticking the first row's
   * checkbox selects song `b`, but the index it yields picks `a` out of `visible_songs`.
   */
  lemma ExportPicksUnsortedSong()
    ensures SortTracksByKey([SongA, SongB], "name", false) == Ok([SongB, SongA])
    ensures NewCheckBoxes([SongB, SongA]) == [CheckBox(SongB, true, false), CheckBox(SongA, true, false)]
    ensures SelectedSongsAsWritten([CheckBox(SongB, true, true), CheckBox(SongA, true, false)], [SongA, SongB]) == [SongA]
    ensures CheckedSongs([CheckBox(SongB, true, true), CheckBox(SongA, true, false)]) == [SongB]
    ensures SongA != SongB
  {
    ExampleSorted();
    ExampleBoxes();
    ExampleSelection();
    ExampleKeys();
  }

  /** The records `export_selected` keeps from the chosen songs, in order. */
  function TrackInfos(songs: seq<Value>): seq<TrackInfo>
  {
    if |songs| == 0 then []
    else
      var init := TrackInfos(songs[..|songs| - 1]);
      match TrackInfoOf(songs[|songs| - 1])
      case None => init
      case Some(t) => init + [t]
  }

  /** `playlist_name.replace('/', '_').replace('\\', '_')`. */
  function SafeName(name: string): (r: string)
    ensures |r| == |name|
    ensures '/' !in r && '\\' !in r
    ensures forall i :: 0 <= i < |name| && name[i] != '/' && name[i] != '\\' ==> r[i] == name[i]
  {
    Strings.ReplaceChars(name, {'/', '\\'}, '_')
  }

  /** `os.path.join(dir_path, f"SpotifyExport-{safe}-{time}.{ext}")`, by the POSIX rules. */
  function ExportPath(dirPath: string, playlistName: string, time: string, ext: string): string
  {
    var file := "SpotifyExport-" + SafeName(playlistName) + "-" + time + "." + ext;
    if dirPath == "" || Strings.EndsWith(dirPath, "/") then dirPath + file else dirPath + "/" + file
  }

  /** What one call of `export_selected` did. */
  datatype ExportOutcome =
    | EnteredExportMode
    | NoSelection
    | Cancelled
    | NoValidTracks
    | WroteTxt(path: string, lines: seq<string>)
    | WroteCsv(path: string, header: Option<seq<string>>, rows: seq<seq<string>>)

  /** The TXT file's lines for the kept records. */
  function TxtLines(exportFormat: string, ts: seq<TrackInfo>): seq<string>
  {
    if |ts| == 0 then []
    else
      var line := FormatTrackName(exportFormat, ts[|ts| - 1]);
      TxtLines(exportFormat, ts[..|ts| - 1]) + (if line != "" then [line + "\n"] else [])
  }

  function CsvRows(fieldnames: seq<string>, ts: seq<TrackInfo>): (r: seq<seq<string>>)
    ensures |r| == |ts|
    ensures forall i :: 0 <= i < |ts| ==> r[i] == CsvRow(fieldnames, ts[i])
  {
    seq(|ts|, i requires 0 <= i < |ts| => CsvRow(fieldnames, ts[i]))
  }

  /** Every kept record has a name, so the TXT file has one line per record. */
  lemma {:induction false} TxtLinesComplete(f: string, ts: seq<TrackInfo>)
    requires forall i :: 0 <= i < |ts| ==> Truthy(ts[i].name)
    ensures |TxtLines(f, ts)| == |ts|
    ensures forall i :: 0 <= i < |ts| ==> TxtLines(f, ts)[i] == FormatTrackName(f, ts[i]) + "\n"
    decreases |ts|
  {
    if |ts| > 0 {
      var init := ts[..|ts| - 1];
      var last := ts[|ts| - 1];
      assert forall i :: 0 <= i < |init| ==> init[i] == ts[i];
      TxtLinesComplete(f, init);
      FormatNonEmpty(f, last);
      assert TxtLines(f, ts) == TxtLines(f, init) + [FormatTrackName(f, last) + "\n"];
    }
  }

  lemma {:induction false} TrackInfosNamed(songs: seq<Value>)
    ensures forall i :: 0 <= i < |TrackInfos(songs)| ==> Truthy(TrackInfos(songs)[i].name)
    decreases |songs|
  {
    if |songs| > 0 {
      TrackInfosNamed(songs[..|songs| - 1]);
      if TrackInfoOf(songs[|songs| - 1]).Some? {
        TrackInfoHasName(songs[|songs| - 1]);
      }
    }
  }

  /** The search loop of `create_song_list`. */
  method SearchSongs(songs: seq<Value>, q: string) returns (kept: seq<Value>, finished: bool)
    ensures (kept, finished) == Search(songs, q)
  {
    var test := SearchTest(q);
    kept := [];
    var i := 0;
    while i < |songs|
      invariant 0 <= i <= |songs|
      invariant Filters.Scan(songs[..i], test) == (kept, true)
    {
      Filters.ScanStep(songs, i, test);
      var m := MatchesSearch(q, songs[i]);
      if m.None? {
        Filters.ScanStops(songs, i + 1, test);
        return kept, false;
      }
      if m.value {
        kept := kept + [songs[i]];
      }
      i := i + 1;
    }
    assert songs[..i] == songs;
    return kept, true;
  }

  /** The name-only loop of `filter_songs`. */
  method NameFilter(songs: seq<Value>, q: string) returns (kept: seq<Value>, finished: bool)
    ensures (kept, finished) == Filters.Scan(songs, NameTest(q))
  {
    var test := NameTest(q);
    kept := [];
    var i := 0;
    while i < |songs|
      invariant 0 <= i <= |songs|
      invariant Filters.Scan(songs[..i], test) == (kept, true)
    {
      Filters.ScanStep(songs, i, test);
      var m := MatchesName(q, songs[i]);
      if m.None? {
        Filters.ScanStops(songs, i + 1, test);
        return kept, false;
      }
      if m.value {
        kept := kept + [songs[i]];
      }
      i := i + 1;
    }
    assert songs[..i] == songs;
    return kept, true;
  }

  /**
   * What a row loop builds from `songs`: the rows, the checkboxes stored, and whether it
   * got through. A song whose row raises ends the loop with no row of its own; its
   * checkbox was already stored when the raise comes after `track.get('id')`.
   */
  function BuiltRows(songs: seq<Value>, showArtwork: bool, subscripted: bool): (seq<Value>, seq<CheckBox>, bool)
  {
    match FirstRaise(songs, showArtwork, subscripted)
    case None => (RowsOf(songs), NewCheckBoxes(songs), true)
    case Some(i) => (RowsOf(songs[..i]), NewCheckBoxes(songs[..i + 1]), false)
  }

  /**
   * The loop gets through exactly when no song raises, and then every song with a track
   * has its row; otherwise the rows stop before the first song that raises.
   */
  lemma BuiltRowsMeaning(songs: seq<Value>, showArtwork: bool, subscripted: bool)
    ensures var b := BuiltRows(songs, showArtwork, subscripted);
      && (b.2 <==> forall k :: 0 <= k < |songs| ==> !LoopRaises(songs[k], showArtwork, subscripted))
      && (b.2 ==> b.0 == RowsOf(songs) && b.1 == NewCheckBoxes(songs))
      && (!b.2 ==> exists i :: 0 <= i < |songs| && LoopRaises(songs[i], showArtwork, subscripted)
                     && (forall k :: 0 <= k < i ==> !LoopRaises(songs[k], showArtwork, subscripted))
                     && b.0 == RowsOf(songs[..i]) && b.1 == NewCheckBoxes(songs[..i + 1]))
  {
    match FirstRaise(songs, showArtwork, subscripted)
    case None =>
    case Some(i) =>
      assert LoopRaises(songs[i], showArtwork, subscripted);
  }

  /** A str track raises at `track.get('id')`. */
  lemma StringTrackRaises(showArtwork: bool)
    ensures RowRaises(Obj(map["track" := Str("x")]), showArtwork)
  {
    assert Get(map["track" := Str("x")], "track", Obj(map[])) == Str("x");
  }

  /** A null `duration_ms` raises at `duration_ms // 60000`. */
  lemma NullDurationRaises(showArtwork: bool)
    ensures RowRaises(Obj(map["track" := Obj(map["duration_ms" := Null])]), showArtwork)
  {
    var t := map["duration_ms" := Null];
    assert Get(map["track" := Obj(t)], "track", Obj(map[])) == Obj(t);
    assert Get(t, "duration_ms", Int(0)) == Null;
  }

  /** An album that is not a dict raises at `album.get`: at the artwork when it is shown, at the album name in any case. */
  lemma StringAlbumRaises(showArtwork: bool)
    ensures RowRaises(Obj(map["track" := Obj(map["album" := Str("a")])]), showArtwork)
  {
    var t := map["album" := Str("a")];
    assert Get(map["track" := Obj(t)], "track", Obj(map[])) == Obj(t);
    assert Get(t, "album", Obj(map[])) == Str("a");
  }

  /** An artist that is not a dict raises at `artist.get('name', '')`. */
  lemma StringArtistRaises(showArtwork: bool)
    ensures RowRaises(Obj(map["track" := Obj(map["artists" := List([Str("a")])])]), showArtwork)
  {
    var t := map["artists" := List([Str("a")])];
    assert Get(map["track" := Obj(t)], "track", Obj(map[])) == Obj(t);
    assert Get(t, "artists", List([])) == List([Str("a")]);
    assert List([Str("a")]).items[0] == Str("a");
  }

  /** With artwork shown, a list-valued image url raises in the cache lookup's handler. */
  lemma ListUrlRaises()
    ensures RowRaises(Obj(map["track" := Obj(map["album" := Obj(map["images" := List([Obj(map["url" := List([])])])])])]), true)
  {
    var image := Obj(map["url" := List([])]);
    var album := map["images" := List([image])];
    var t := map["album" := Obj(album)];
    assert Get(map["track" := Obj(t)], "track", Obj(map[])) == Obj(t);
    assert Get(t, "album", Obj(map[])) == Obj(album);
    assert Get(album, "images", Null) == List([image]);
    assert List([image]).items[0] == image;
  }

  /** A track holding only an id gets its row: every lookup falls back to a default that reads. */
  lemma IdOnlyTrackReads(showArtwork: bool)
    ensures !RowRaises(Obj(map["track" := Obj(map["id" := Str("1")])]), showArtwork)
  {
    var t := map["id" := Str("1")];
    assert Get(map["track" := Obj(t)], "track", Obj(map[])) == Obj(t);
    assert "album" !in t && "name" !in t && "artists" !in t && "duration_ms" !in t;
    assert Get(Obj(map[]).fields, "images", Null) == Null;
  }

  /** Songs that do not raise keep not raising as the front of a longer list. */
  lemma PrefixReads(before: seq<Value>, tail: seq<Value>, showArtwork: bool)
    requires forall k :: 0 <= k < |before| ==> !RowRaises(before[k], showArtwork)
    ensures forall k :: 0 <= k < |before| ==> !LoopRaises((before + tail)[k], showArtwork, false)
  {
    forall k | 0 <= k < |before|
      ensures !LoopRaises((before + tail)[k], showArtwork, false)
    {
      assert (before + tail)[k] == before[k];
    }
  }

  /**
   * A song whose track is a string ends the rebuild at its own position, whatever follows:
   * the rows and checkboxes are those of the songs before it.
   */
  lemma StringTrackStopsRows(before: seq<Value>, rest: seq<Value>, showArtwork: bool)
    requires forall k :: 0 <= k < |before| ==> !RowRaises(before[k], showArtwork)
    ensures var bad := Obj(map["track" := Str("x")]);
      BuiltRows(before + [bad] + rest, showArtwork, false) == (RowsOf(before), NewCheckBoxes(before), false)
  {
    var bad := Obj(map["track" := Str("x")]);
    var tail := [bad] + rest;
    var s := before + tail;
    assert s == before + [bad] + rest;
    var j := |before|;
    assert s[j] == bad;
    StringTrackRaises(showArtwork);
    PrefixReads(before, tail, showArtwork);
    BuiltAtRaise(s, showArtwork, false, j);
    RowsStep(s, j);
    assert !HasId(bad);
    assert s[..j] == before;
    var built := BuiltRows(s, showArtwork, false);
    assert built == (RowsOf(s[..j]), NewCheckBoxes(s[..j + 1]), false);
    assert NewCheckBoxes(s[..j + 1]) == NewCheckBoxes(before);
    assert built == (RowsOf(before), NewCheckBoxes(before), false);
  }

  lemma BuiltAtRaise(s: seq<Value>, showArtwork: bool, subscripted: bool, j: nat)
    requires j < |s| && LoopRaises(s[j], showArtwork, subscripted)
    requires forall k :: 0 <= k < j ==> !LoopRaises(s[k], showArtwork, subscripted)
    ensures BuiltRows(s, showArtwork, subscripted) == (RowsOf(s[..j]), NewCheckBoxes(s[..j + 1]), false)
  {
    FirstRaiseAt(s, showArtwork, subscripted, j);
  }

  lemma BuiltThrough(s: seq<Value>, showArtwork: bool, subscripted: bool)
    requires forall k :: 0 <= k < |s| ==> !LoopRaises(s[k], showArtwork, subscripted)
    ensures BuiltRows(s, showArtwork, subscripted) == (RowsOf(s), NewCheckBoxes(s), true)
  {
  }

  lemma BuiltOk(s: seq<Value>, showArtwork: bool, subscripted: bool)
    ensures BuiltRows(s, showArtwork, subscripted).2 ==>
      BuiltRows(s, showArtwork, subscripted).0 == RowsOf(s) && BuiltRows(s, showArtwork, subscripted).1 == NewCheckBoxes(s)
  {
  }

  /** One more song extends the rows and the checkboxes by that song's own. */
  lemma RowsStep(s: seq<Value>, j: nat)
    requires j < |s|
    ensures RowsOf(s[..j + 1]) == RowsOf(s[..j]) + (if HasTrack(s[j]) then [s[j]] else [])
    ensures NewCheckBoxes(s[..j + 1]) == NewCheckBoxes(s[..j]) + (if HasId(s[j]) then [CheckBox(s[j], true, false)] else [])
  {
    assert s[..j + 1][..j] == s[..j];
  }

  /** The row loop of `create_song_list`: a row per song with a track, a checkbox per row with an id. */
  method BuildRows(sorted: seq<Value>, showArtwork: bool) returns (rows: seq<Value>, boxes: seq<CheckBox>, ok: bool)
    ensures (rows, boxes, ok) == BuiltRows(sorted, showArtwork, false)
  {
    rows := [];
    boxes := [];
    var j := 0;
    while j < |sorted|
      invariant 0 <= j <= |sorted|
      invariant rows == RowsOf(sorted[..j]) && boxes == NewCheckBoxes(sorted[..j])
      invariant forall k :: 0 <= k < j ==> !LoopRaises(sorted[k], showArtwork, false)
    {
      RowsStep(sorted, j);
      var song := sorted[j];
      var id := HasId(song);
      if RowRaises(song, showArtwork) {
        if id {
          boxes := boxes + [CheckBox(song, true, false)];
        }
        assert boxes == NewCheckBoxes(sorted[..j + 1]);
        assert rows == RowsOf(sorted[..j]);
        BuiltAtRaise(sorted, showArtwork, false, j);
        assert BuiltRows(sorted, showArtwork, false) == (rows, boxes, false);
        return rows, boxes, false;
      }
      if HasTrack(song) {
        rows := rows + [song];
        if id {
          boxes := boxes + [CheckBox(song, true, false)];
        }
      }
      j := j + 1;
    }
    assert sorted[..j] == sorted;
    BuiltThrough(sorted, showArtwork, false);
    ok := true;
  }

  /** `validate_custom_format`: non-empty and naming at least one export field as `{field}`. */
  method ValidateCustomFormat(format: string) returns (valid: bool)
    ensures valid <==> (format != "" &&
                        exists i :: 0 <= i < |ExportFieldKeys| && Strings.Contains(format, "{" + ExportFieldKeys[i] + "}"))
  {
    if format == "" {
      return false;
    }
    var i := 0;
    while i < |ExportFieldKeys|
      invariant 0 <= i <= |ExportFieldKeys|
      invariant forall j :: 0 <= j < i ==> !Strings.Contains(format, "{" + ExportFieldKeys[j] + "}")
    {
      if Strings.Contains(format, "{" + ExportFieldKeys[i] + "}") {
        return true;
      }
      i := i + 1;
    }
    return false;
  }

  /** What `SongLoader.run` emits: `songs_loaded(tracks, from_cache)` or `load_error`. */
  datatype LoaderResult = Loaded(tracks: seq<Value>, fromCache: bool) | LoadFailed

  /**
   * `SongLoader.run`. `cached` is what `get_cached_tracks` returns; `first` and `more` are the
   * items of the pages the API returns, the first page and those reached through `next`.
   * `written` is what `cache_tracks` receives, if it is called.
   */
  method RunSongLoader(forceRefresh: bool, cached: Option<seq<Value>>, first: seq<Value>, more: seq<seq<Value>>)
    returns (r: LoaderResult, written: Option<seq<Value>>)
    ensures !forceRefresh && cached.Some? && |cached.value| > 0 ==> r == Loaded(cached.value, true) && written == None
    ensures (forceRefresh || cached.None? || |cached.value| == 0) ==>
      && (r.Loaded? <==> forall k :: 0 <= k < |Pages.Flatten([first] + more)| ==> Pages.Flatten([first] + more)[k].Obj?)
      && (r.Loaded? ==> !r.fromCache && written == Some(r.tracks) && Pages.IndexedFrom(r.tracks, Pages.Flatten([first] + more), 1))
      && (r.LoadFailed? ==> written == None)
  {
    if !forceRefresh && cached.Some? && |cached.value| > 0 {
      return Loaded(cached.value, true), None;
    }
    var pages := [first] + more;
    var tracks: seq<Value> := [];
    var p := 0;
    while p < |pages|
      invariant 0 <= p <= |pages|
      invariant Pages.IndexedFrom(tracks, Pages.Flatten(pages[..p]), 1)
    {
      var done := Pages.Flatten(pages[..p]);
      var page := pages[p];
      var j := 0;
      while j < |page|
        invariant 0 <= j <= |page|
        invariant Pages.IndexedFrom(tracks, done + page[..j], 1)
      {
        var item := page[j];
        if !item.Obj? {
          Pages.NotAllDicts(pages, p, j);
          return LoadFailed, None;
        }
        var indexed := Obj(item.fields["original_index" := Int(|tracks| + 1)]);
        Pages.IndexedAppend(tracks, done + page[..j], [indexed], [item], 1);
        assert (done + page[..j]) + [item] == done + page[..j + 1];
        tracks := tracks + [indexed];
        j := j + 1;
      }
      assert pages[..p + 1] == pages[..p] + [page];
      Pages.FlattenSnoc(pages[..p], page);
      assert page[..j] == page;
      p := p + 1;
    }
    assert pages[..p] == pages;
    Pages.IndexedAllDicts(tracks, Pages.Flatten(pages));
    return Loaded(tracks, false), Some(tracks);
  }

  /**
   * The loop of `load_more_songs` over one batch: `item['track']` raises on an item that
   * is not a dict with that key; an item with a truthy track gets its row (and its
   * checkbox) from `create_song_row`, which may raise as in `create_song_list`.
   */
  method BatchRows(batch: seq<Value>, showArtwork: bool) returns (added: seq<Value>, boxes: seq<CheckBox>, ok: bool)
    ensures (added, boxes, ok) == BuiltRows(batch, showArtwork, true)
  {
    added := [];
    boxes := [];
    var i := 0;
    while i < |batch|
      invariant 0 <= i <= |batch|
      invariant added == RowsOf(batch[..i]) && boxes == NewCheckBoxes(batch[..i])
      invariant forall k :: 0 <= k < i ==> !LoopRaises(batch[k], showArtwork, true)
    {
      RowsStep(batch, i);
      var item := batch[i];
      var id := HasId(item);
      if LoopRaises(item, showArtwork, true) {
        if id {
          boxes := boxes + [CheckBox(item, true, false)];
        }
        assert boxes == NewCheckBoxes(batch[..i + 1]);
        BuiltAtRaise(batch, showArtwork, true, i);
        assert BuiltRows(batch, showArtwork, true) == (added, boxes, false);
        return added, boxes, false;
      }
      if Truthy(item.fields["track"]) {
        added := added + [item];
        if id {
          boxes := boxes + [CheckBox(item, true, false)];
        }
      }
      i := i + 1;
    }
    assert batch[..i] == batch;
    BuiltThrough(batch, showArtwork, true);
    ok := true;
  }

  /** The loop of `export_selected` that keeps the chosen songs with a usable track, in order. */
  method CollectTrackInfos(chosen: seq<Value>) returns (ts: seq<TrackInfo>)
    ensures ts == TrackInfos(chosen)
  {
    ts := [];
    var i := 0;
    while i < |chosen|
      invariant 0 <= i <= |chosen|
      invariant ts == TrackInfos(chosen[..i])
    {
      assert chosen[..i + 1][..i] == chosen[..i];
      var info := TrackInfoOf(chosen[i]);
      if info.Some? {
        ts := ts + [info.value];
      }
      i := i + 1;
    }
    assert chosen[..i] == chosen;
  }

  /** The TXT branch's loop: one formatted line per track whose name renders non-empty. */
  method BuildTxtLines(format: string, ts: seq<TrackInfo>) returns (lines: seq<string>)
    ensures lines == TxtLines(format, ts)
  {
    lines := [];
    var k := 0;
    while k < |ts|
      invariant 0 <= k <= |ts|
      invariant lines == TxtLines(format, ts[..k])
    {
      assert ts[..k + 1][..k] == ts[..k];
      var line := FormatTrackName(format, ts[k]);
      if line != "" {
        lines := lines + [line + "\n"];
      }
      k := k + 1;
    }
    assert ts[..k] == ts;
  }

  /** The CSV branch's loop: one row per track, in the field order. */
  method BuildCsvRows(fieldnames: seq<string>, ts: seq<TrackInfo>) returns (rows: seq<seq<string>>)
    ensures |rows| == |ts|
    ensures forall r :: 0 <= r < |ts| ==> rows[r] == CsvRow(fieldnames, ts[r])
  {
    rows := [];
    var k := 0;
    while k < |ts|
      invariant 0 <= k <= |ts|
      invariant |rows| == k && forall r :: 0 <= r < k ==> rows[r] == CsvRow(fieldnames, ts[r])
    {
      rows := rows + [CsvRow(fieldnames, ts[k])];
      k := k + 1;
    }
  }

  /** The song list view of `views/playlist_view.py`. */
  class PlaylistView {
    var songs: seq<Value>
    var visibleSongs: seq<Value>
    var displayed: seq<Value>
    var checkboxes: seq<CheckBox>
    var selectAll: bool
    var searchText: string
    var inSearchMode: bool
    var sortKey: string
    var sortReverse: bool
    var remaining: seq<Value>
    var extraRows: seq<Value>
    var isLoading: bool
    var isLoadingMore: bool
    var loaded: bool
    var exportMode: bool
    /** The settings store's `export_format` entry. */
    var storedFormat: Option<string>
    var exportFormat: string
    var playlistName: string
    /** The `playlist_show_artwork` setting, which no part of the program writes. */
    const showArtwork: bool

    /**
     * `__init__`: settings are read, a stored 'custom' export format is replaced and written
     * back, and `load_songs()` starts the first load.
     */
    constructor(name: string, format: Option<string>, storedSortKey: Option<string>, storedReverse: Option<string>,
                showArtwork: bool)
      ensures exportFormat == StoredFormat(format)
      ensures storedFormat == if format == Some("custom") then Some("name-artists") else format
      ensures sortKey == storedSortKey.GetOr("order")
      ensures sortReverse == (storedReverse.GetOr("false") == "true")
      ensures songs == [] && visibleSongs == [] && displayed == [] && checkboxes == [] && remaining == []
      ensures !loaded && isLoading && !isLoadingMore && !exportMode && searchText == ""
      ensures playlistName == name && this.showArtwork == showArtwork
    {
      songs := [];
      visibleSongs := [];
      displayed := [];
      checkboxes := [];
      selectAll := false;
      searchText := "";
      inSearchMode := false;
      sortKey := storedSortKey.GetOr("order");
      sortReverse := storedReverse.GetOr("false") == "true";
      remaining := [];
      extraRows := [];
      isLoading := false;
      isLoadingMore := false;
      loaded := false;
      exportMode := false;
      storedFormat := if format == Some("custom") then Some("name-artists") else format;
      exportFormat := StoredFormat(format);
      playlistName := name;
      this.showArtwork := showArtwork;
      new;
      var started := LoadSongs();
    }

    /** `refresh_export_format`: re-read the store, writing back a retired 'custom'. */
    method RefreshExportFormat()
      modifies this`exportFormat, this`storedFormat
      ensures exportFormat == StoredFormat(old(storedFormat)) && exportFormat != "custom"
      ensures storedFormat == if old(storedFormat) == Some("custom") then Some("name-artists") else old(storedFormat)
    {
      exportFormat := StoredFormat(storedFormat);
      if storedFormat == Some("custom") {
        storedFormat := Some("name-artists");
      }
    }

    /** `load_songs`: ignored while a load runs; otherwise the lists are emptied and a loader starts. */
    method LoadSongs() returns (started: bool)
      modifies this`isLoading, this`loaded, this`songs, this`visibleSongs
      ensures started <==> !old(isLoading)
      ensures old(isLoading) ==> isLoading && loaded == old(loaded) && songs == old(songs) && visibleSongs == old(visibleSongs)
      ensures !old(isLoading) ==> isLoading && !loaded && songs == [] && visibleSongs == []
    {
      if isLoading {
        return false;
      }
      isLoading := true;
      loaded := false;
      songs := [];
      visibleSongs := [];
      return true;
    }

    /** `on_load_error`. */
    method OnLoadError()
      modifies this`isLoading
      ensures !isLoading
    {
      isLoading := false;
    }

    /** `create_song_list` after a reset of the rows: filter by the search text, sort, rebuild the rows. */
    method CreateSongList() returns (ok: bool)
      modifies this`visibleSongs, this`displayed, this`checkboxes
      ensures searchText == "" ==> visibleSongs == songs
      ensures searchText != "" ==> visibleSongs == Search(songs, Strings.Lower(searchText)).0
      ensures var sorted := SortTracksByKey(visibleSongs, sortKey, sortReverse);
        var reached := (searchText == "" || Search(songs, Strings.Lower(searchText)).1) && sorted.Ok?;
        && (ok <==> reached && BuiltRows(sorted.value, showArtwork, false).2)
        && (reached ==> displayed == BuiltRows(sorted.value, showArtwork, false).0 &&
                        checkboxes == Detached(old(checkboxes)) + BuiltRows(sorted.value, showArtwork, false).1)
        && (!reached ==> displayed == [] && checkboxes == Detached(old(checkboxes)))
    {
      displayed := [];
      checkboxes := Detached(checkboxes);
      if searchText != "" {
        var kept, finished := SearchSongs(songs, Strings.Lower(searchText));
        visibleSongs := kept;
        if !finished {
          return false;
        }
      } else {
        visibleSongs := songs;
      }
      var sorted := SortTracksByKey(visibleSongs, sortKey, sortReverse);
      if sorted.Err? {
        return false;
      }
      var rows, boxes, built := BuildRows(sorted.value, showArtwork);
      ghost var b := BuiltRows(sorted.value, showArtwork, false);
      displayed := rows;
      checkboxes := checkboxes + boxes;
      assert displayed == b.0 && checkboxes == Detached(old(checkboxes)) + b.1 && built == b.2;
      return built;
    }

    /** `load_songs_completed`: the loader's tracks become the songs and the list is rebuilt. */
    method LoadSongsCompleted(tracks: seq<Value>) returns (ok: bool)
      modifies this
      ensures !isLoading && loaded && songs == tracks
      ensures searchText == old(searchText) && sortKey == old(sortKey) && sortReverse == old(sortReverse)
      ensures ok && searchText == "" ==>
        SortTracksByKey(tracks, sortKey, sortReverse).Ok? &&
        displayed == RowsOf(SortTracksByKey(tracks, sortKey, sortReverse).value)
      ensures searchText == "" ==>
        var sorted := SortTracksByKey(tracks, sortKey, sortReverse);
        && (ok <==> sorted.Ok? && BuiltRows(sorted.value, showArtwork, false).2)
        && (sorted.Ok? ==> displayed == BuiltRows(sorted.value, showArtwork, false).0)
    {
      isLoading := false;
      loaded := true;
      songs := tracks;
      ok := CreateSongList();
      if searchText == "" {
        assert visibleSongs == tracks;
        var sorted := SortTracksByKey(tracks, sortKey, sortReverse);
        if sorted.Ok? {
          var built := BuiltRows(sorted.value, showArtwork, false);
          BuiltOk(sorted.value, showArtwork, false);
          assert ok == built.2 && displayed == built.0;
        } else {
          assert !ok;
        }
      }
    }

    /**
     * `filter_songs`: the name-only filter. Its result is replaced straight away, because
     * it ends by calling `create_song_list`, which filters `songs` again by name, album
     * and artists.
     */
    method FilterSongs() returns (ok: bool)
      modifies this`visibleSongs, this`displayed, this`checkboxes, this`inSearchMode
      ensures inSearchMode == (searchText != "")
      ensures searchText == "" ==> visibleSongs == songs
      ensures ok && searchText != "" ==> visibleSongs == Search(songs, Strings.Lower(searchText)).0
      ensures ok ==> SortTracksByKey(visibleSongs, sortKey, sortReverse).Ok? &&
                     displayed == RowsOf(SortTracksByKey(visibleSongs, sortKey, sortReverse).value)
      ensures searchText == "" ==>
        var sorted := SortTracksByKey(songs, sortKey, sortReverse);
        && (ok <==> sorted.Ok? && BuiltRows(sorted.value, showArtwork, false).2)
        && (sorted.Ok? ==> displayed == BuiltRows(sorted.value, showArtwork, false).0)
    {
      if searchText == "" {
        visibleSongs := songs;
        inSearchMode := false;
      } else {
        inSearchMode := true;
        var kept, finished := NameFilter(songs, searchText);
        visibleSongs := kept;
        if !finished {
          return false;
        }
      }
      ok := CreateSongList();
      var sorted := SortTracksByKey(visibleSongs, sortKey, sortReverse);
      if sorted.Ok? {
        var built := BuiltRows(sorted.value, showArtwork, false);
        BuiltOk(sorted.value, showArtwork, false);
        assert ok ==> displayed == built.0;
      }
    }

    /** The branch of `on_search_changed` for a cleared query while searching: search mode ends and all songs show. */
    method LeaveSearch() returns (ok: bool)
      requires searchText == ""
      modifies this`visibleSongs, this`displayed, this`checkboxes, this`inSearchMode
      ensures visibleSongs == songs && !inSearchMode
      ensures var sorted := SortTracksByKey(songs, sortKey, sortReverse);
        && (ok <==> sorted.Ok? && BuiltRows(sorted.value, showArtwork, false).2)
        && (sorted.Ok? ==> displayed == BuiltRows(sorted.value, showArtwork, false).0)
        && (ok ==> sorted.Ok? && displayed == RowsOf(sorted.value))
    {
      inSearchMode := false;
      visibleSongs := songs;
      ok := CreateSongList();
      assert visibleSongs == songs;
      var sorted := SortTracksByKey(songs, sortKey, sortReverse);
      if sorted.Ok? {
        var built := BuiltRows(sorted.value, showArtwork, false);
        BuiltOk(sorted.value, showArtwork, false);
        assert ok == built.2 && displayed == built.0;
      } else {
        assert !ok;
      }
    }

    /** `on_search_changed`: the stripped, lowered text becomes the query. */
    method OnSearchChanged(text: string) returns (ok: bool)
      modifies this`searchText, this`visibleSongs, this`displayed, this`checkboxes, this`inSearchMode
      ensures searchText == Strings.Lower(Strip(text))
      ensures searchText == "" ==> visibleSongs == songs && !inSearchMode
      ensures searchText != "" && ok ==> inSearchMode && visibleSongs == Search(songs, searchText).0
      ensures ok ==> SortTracksByKey(visibleSongs, sortKey, sortReverse).Ok? &&
                     displayed == RowsOf(SortTracksByKey(visibleSongs, sortKey, sortReverse).value)
      ensures searchText == "" ==>
        var sorted := SortTracksByKey(songs, sortKey, sortReverse);
        && (ok <==> sorted.Ok? && BuiltRows(sorted.value, showArtwork, false).2)
        && (sorted.Ok? ==> displayed == BuiltRows(sorted.value, showArtwork, false).0)
    {
      var q := Strings.Lower(Strip(text));
      Strings.LowerIdempotent(Strip(text));
      searchText := q;
      if q == "" && inSearchMode {
        ok := LeaveSearch();
      } else {
        ok := FilterSongs();
      }
    }

    /**
     * `load_more_songs`: without pending tracks, or while a batch is loading, nothing
     * happens; otherwise the first 30 pending tracks become rows, with their checkboxes.
     * A raise in the batch loop leaves `is_loading_more` set. Nothing in the view fills
     * `remaining_tracks`, so the program never gets past the first guard.
     */
    method LoadMoreSongs(hasContainer: bool) returns (ok: bool)
      modifies this`remaining, this`isLoadingMore, this`extraRows, this`checkboxes
      ensures old(remaining) == [] || old(isLoadingMore) ==>
        ok && remaining == old(remaining) && isLoadingMore == old(isLoadingMore) && extraRows == old(extraRows)
        && checkboxes == old(checkboxes)
      ensures old(remaining) != [] && !old(isLoadingMore) && !hasContainer ==>
        ok && remaining == old(remaining) && !isLoadingMore && extraRows == old(extraRows) && checkboxes == old(checkboxes)
      ensures old(remaining) != [] && !old(isLoadingMore) && hasContainer ==>
        var n := if |old(remaining)| < 30 then |old(remaining)| else 30;
        var batch := old(remaining)[..n];
        && batch + remaining == old(remaining)
        && |remaining| == |old(remaining)| - n
        && (ok <==> BuiltRows(batch, showArtwork, true).2)
        && extraRows == old(extraRows) + BuiltRows(batch, showArtwork, true).0
        && checkboxes == old(checkboxes) + BuiltRows(batch, showArtwork, true).1
        && (ok ==> !isLoadingMore && extraRows == old(extraRows) + RowsOf(batch))
        && (!ok ==> isLoadingMore)
    {
      if remaining == [] || isLoadingMore {
        return true;
      }
      isLoadingMore := true;
      if !hasContainer {
        isLoadingMore := false;
        return true;
      }
      var n := if |remaining| < 30 then |remaining| else 30;
      var batch := remaining[..n];
      remaining := remaining[n..];
      var added, boxes, allOk := BatchRows(batch, showArtwork);
      BuiltOk(batch, showArtwork, true);
      extraRows := extraRows + added;
      checkboxes := checkboxes + boxes;
      if !allOk {
        return false;
      }
      isLoadingMore := false;
      return true;
    }

    /** `check_for_load_more`: near the bottom (past 90 % of the range) the next batch is loaded. */
    method CheckForLoadMore(maximum: int, value: int, hasContainer: bool) returns (requested: bool)
      modifies this`remaining, this`isLoadingMore, this`extraRows, this`checkboxes
      ensures requested <==> old(remaining) != [] && !old(isLoadingMore) && maximum > 0 && 10 * value > 9 * maximum
      ensures !requested ==> remaining == old(remaining) && isLoadingMore == old(isLoadingMore) && extraRows == old(extraRows)
                             && checkboxes == old(checkboxes)
    {
      if remaining == [] || isLoadingMore {
        return false;
      }
      if maximum > 0 && 10 * value > 9 * maximum {
        var _ := LoadMoreSongs(hasContainer);
        return true;
      }
      return false;
    }

    /** The select-all box: a change of its state checks or unchecks every attached checkbox. */
    method SetSelectAll(v: bool)
      modifies this`selectAll, this`checkboxes
      ensures selectAll == v
      ensures checkboxes == if old(selectAll) != v then SetAttached(old(checkboxes), v) else old(checkboxes)
    {
      if selectAll != v {
        selectAll := v;
        checkboxes := SetAttached(checkboxes, v);
      }
    }

    /** `select_all_songs`: only ticks the select-all box; already ticked, it changes nothing. */
    method SelectAllSongs()
      modifies this`selectAll, this`checkboxes
      ensures selectAll
      ensures checkboxes == if !old(selectAll) then SetAttached(old(checkboxes), true) else old(checkboxes)
    {
      SetSelectAll(true);
    }

    /** `clear_song_selection`: the select-all box and every attached checkbox end unticked. */
    method ClearSongSelection()
      modifies this`selectAll, this`checkboxes
      ensures !selectAll
      ensures checkboxes == SetAttached(old(checkboxes), false)
    {
      SetSelectAll(false);
      checkboxes := SetAttached(checkboxes, false);
    }

    /** `toggle_export_mode`: entering re-reads the format; leaving unticks everything. */
    method ToggleExportMode()
      modifies this`exportMode, this`exportFormat, this`storedFormat, this`selectAll, this`checkboxes
      ensures exportMode == !old(exportMode)
      ensures exportMode ==> exportFormat == StoredFormat(old(storedFormat)) && checkboxes == old(checkboxes)
      ensures exportMode ==> selectAll == old(selectAll)
      ensures !exportMode ==> !selectAll && checkboxes == SetAttached(old(checkboxes), false)
      ensures !exportMode ==> exportFormat == old(exportFormat) && storedFormat == old(storedFormat)
    {
      exportMode := !exportMode;
      if exportMode {
        RefreshExportFormat();
      } else {
        checkboxes := SetAttached(checkboxes, false);
        SetSelectAll(false);
      }
    }

    /**
     * `export_selected` with the checked rows' own songs (see the finding on
     * `SelectedSongsAsWritten`). Outside export mode it only enters it; without a
     * selection or a directory it stops; otherwise it writes the TXT lines or the CSV
     * rows and leaves export mode.
     */
    method ExportSelected(dirPath: string, time: string, useTxt: Option<string>, showHeader: Option<string>,
                          labels: map<string, string>) returns (outcome: ExportOutcome)
      modifies this`exportMode, this`exportFormat, this`storedFormat, this`selectAll, this`checkboxes
      ensures !old(exportMode) ==> outcome == EnteredExportMode && exportMode
      ensures old(exportMode) && SelectedIndices(old(checkboxes)) == [] ==> outcome == NoSelection && exportMode
      ensures old(exportMode) && SelectedIndices(old(checkboxes)) != [] && dirPath == "" ==> outcome == Cancelled && exportMode
      ensures old(exportMode) && SelectedIndices(old(checkboxes)) != [] && dirPath != "" ==>
        var ts := TrackInfos(CheckedSongs(old(checkboxes)));
        && !exportMode
        && (ts == [] ==> outcome == NoValidTracks)
        && (ts != [] && useTxt.GetOr("true") == "true" ==>
             outcome == WroteTxt(ExportPath(dirPath, playlistName, time, "txt"), TxtLines(StoredFormat(old(storedFormat)), ts)))
        && (ts != [] && useTxt.GetOr("true") != "true" ==>
             outcome == WroteCsv(ExportPath(dirPath, playlistName, time, "csv"),
                                 if showHeader.GetOr("false") == "true" then Some(HeaderRow(CsvFieldnames(old(exportFormat)), labels)) else None,
                                 CsvRows(CsvFieldnames(old(exportFormat)), ts)))
    {
      if !exportMode {
        ToggleExportMode();
        return EnteredExportMode;
      }
      if SelectedIndices(checkboxes) == [] {
        return NoSelection;
      }
      if dirPath == "" {
        return Cancelled;
      }
      var ts := CollectTrackInfos(CheckedSongs(checkboxes));
      if ts == [] {
        outcome := NoValidTracks;
      } else if useTxt.GetOr("true") == "true" {
        var lines := BuildTxtLines(StoredFormat(storedFormat), ts);
        outcome := WroteTxt(ExportPath(dirPath, playlistName, time, "txt"), lines);
      } else {
        var fieldnames := CsvFieldnames(exportFormat);
        var header := if showHeader.GetOr("false") == "true" then Some(HeaderRow(fieldnames, labels)) else None;
        var rows := BuildCsvRows(fieldnames, ts);
        assert rows == CsvRows(fieldnames, ts);
        outcome := WroteCsv(ExportPath(dirPath, playlistName, time, "csv"), header, rows);
      }
      ToggleExportMode();
    }
  }
}
