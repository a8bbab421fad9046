/**
 * The file exporter: normalisation of heterogeneous song dictionaries into one
 * record shape, and the TXT / CSV / JSON renderings selected by the
 * export-format key ("name-artists", "artists-name", "name-artists-album",
 * anything else).
 */
module FileExporter {
  import opened Wrappers
  import opened Json
  import Strings

  const UnknownSong := "未知歌曲"
  const UnknownArtist := "未知艺术家"
  const UnknownAlbum := "未知专辑"

  /** One normalised song: the dictionary `validate_songs` builds. */
  datatype Song = Song(id: Value, name: Value, artist: string, album: Value, durationMs: int, url: Value)

  type SongDict = map<string, Value>

  const NameFields: seq<string> := ["name", "title", "track_name", "song_name"]
  const ArtistFields: seq<string> := ["artist", "artists", "artist_name"]
  const AlbumFields: seq<string> := ["album", "album_name"]
  const DurationFields: seq<string> := ["duration_ms", "duration", "length"]
  const UrlFields: seq<string> := ["url", "external_url", "external_urls", "href"]

  // ---------------------------------------------------------------- field selection

  /** The field loop's test: the key is present and, for the truthy loops, its value is truthy. */
  predicate Hit(song: SongDict, field: string, needTruthy: bool)
  {
    field in song && (needTruthy ==> Truthy(song[field]))
  }

  /** Index of the field a `for ... if ...: ...; break` loop stops at, `|fields|` when none hits. */
  function FirstHit(song: SongDict, fields: seq<string>, needTruthy: bool): (k: nat)
    ensures k <= |fields|
    ensures k < |fields| ==> Hit(song, fields[k], needTruthy)
    ensures forall j :: 0 <= j < k ==> !Hit(song, fields[j], needTruthy)
  {
    if |fields| == 0 then 0
    else if Hit(song, fields[0], needTruthy) then 0
    else 1 + FirstHit(song, fields[1..], needTruthy)
  }

  lemma {:induction false} FirstHitIs(song: SongDict, fields: seq<string>, needTruthy: bool, k: nat)
    requires k < |fields| && Hit(song, fields[k], needTruthy)
    requires forall j :: 0 <= j < k ==> !Hit(song, fields[j], needTruthy)
    ensures FirstHit(song, fields, needTruthy) == k
  {
    if k > 0 {
      assert !Hit(song, fields[0], needTruthy);
      FirstHitIs(song, fields[1..], needTruthy, k - 1);
    }
  }

  lemma {:induction false} FirstHitNone(song: SongDict, fields: seq<string>, needTruthy: bool)
    requires forall f :: f in fields ==> !Hit(song, f, needTruthy)
    ensures FirstHit(song, fields, needTruthy) == |fields|
  {
    if |fields| > 0 {
      assert fields[0] in fields;
      assert forall f :: f in fields[1..] ==> f in fields;
      FirstHitNone(song, fields[1..], needTruthy);
    }
  }

  /** The values of a list when every one is a string (`', '.join` raises TypeError otherwise). */
  /**
   * `[a['name'] for a in artists if 'name' in a]`: dicts contribute their name,
   * dicts without one are skipped; `'name' in a` on a string or list tests
   * membership, and a hit then fails on `a['name']`; numbers, booleans and
   * None are not containers. None stands for the TypeError.
   */
  function ArtistNames(artists: seq<Value>): Option<seq<Value>>
  {
    if |artists| == 0 then Some([])
    else
      var here: Option<seq<Value>> :=
        match artists[0]
        case Obj(m) => if "name" in m then Some([m["name"]]) else Some([])
        case Str(s) => if Strings.Contains(s, "name") then None else Some([])
        case List(xs) => if Str("name") in xs then None else Some([])
        case _ => None;
      match (here, ArtistNames(artists[1..]))
      case (Some(h), Some(t)) => Some(h + t)
      case _ => None
  }

  /** The artist text a present artist field gives; None keeps the default. */
  function ArtistText(v: Value): Option<string>
  {
    match v
    case List(l) =>
      if |l| > 0 && l[0].Str? then
        match AllStrings(l)
        case None => None
        case Some(parts) => Some(Strings.Join(", ", parts))
      else if |l| > 0 && l[0].Obj? && "name" in l[0].fields then
        match ArtistNames(l)
        case None => None
        case Some(names) =>
          match AllStrings(names)
          case None => None
          case Some(parts) => Some(Strings.Join(", ", parts))
      else None
    case _ => Some(PyStr(v))
  }

  function NameOf(song: SongDict): Value
  {
    var k := FirstHit(song, NameFields, true);
    if k < |NameFields| then song[NameFields[k]] else Str(UnknownSong)
  }

  function ArtistOf(song: SongDict): string
  {
    var k := FirstHit(song, ArtistFields, false);
    if k < |ArtistFields| then ArtistText(song[ArtistFields[k]]).GetOr(UnknownArtist)
    else UnknownArtist
  }

  function AlbumOf(song: SongDict): Value
  {
    var k := FirstHit(song, AlbumFields, false);
    if k == |AlbumFields| then Str(UnknownAlbum)
    else
      var v := song[AlbumFields[k]];
      if v.Obj? && "name" in v.fields then v.fields["name"] else Str(PyStr(v))
  }

  /** A duration already parsed from field `field`: values under 10000 outside `duration_ms` are seconds. */
  function ScaleDuration(field: string, d: int): int
  {
    if field != "duration_ms" && d < 10000 then d * 1000 else d
  }

  function DurationOf(song: SongDict): int
  {
    var k := FirstHit(song, DurationFields, true);
    if k == |DurationFields| then 0
    else
      match ToInt(song[DurationFields[k]])
      case None => 0
      case Some(d) => ScaleDuration(DurationFields[k], d)
  }

  function UrlOf(song: SongDict): Value
  {
    var k := FirstHit(song, UrlFields, false);
    if k == |UrlFields| then Str("")
    else
      var v := song[UrlFields[k]];
      if v.Obj? && "spotify" in v.fields then v.fields["spotify"]
      else if v.Str? then v
      else Str("")
  }

  /** The standardised record built for one input song. */
  function Normalise(song: SongDict): Song
  {
    Song(if "id" in song then song["id"] else Str(""),
         NameOf(song), ArtistOf(song), AlbumOf(song), DurationOf(song), UrlOf(song))
  }

  /** `validate_songs`: one record per input song, in input order; nothing is skipped. */
  method ValidateSongs(songs: seq<SongDict>) returns (valid: seq<Song>)
    ensures |valid| == |songs|
    ensures forall i :: 0 <= i < |songs| ==> valid[i] == Normalise(songs[i])
  {
    valid := [];
    var i := 0;
    while i < |songs|
      invariant 0 <= i <= |songs|
      invariant |valid| == i
      invariant forall j :: 0 <= j < i ==> valid[j] == Normalise(songs[j])
    {
      valid := valid + [Normalise(songs[i])];
      i := i + 1;
    }
  }

  // ---------------------------------------------------------------- field rules

  /** The name is the first truthy one of name, title, track_name, song_name, else the default. */
  lemma NameRule(song: SongDict, k: nat)
    requires k < |NameFields| && NameFields[k] in song && Truthy(song[NameFields[k]])
    requires forall j :: 0 <= j < k ==> !(NameFields[j] in song && Truthy(song[NameFields[j]]))
    ensures Normalise(song).name == song[NameFields[k]]
  {
    FirstHitIs(song, NameFields, true, k);
  }

  lemma NameDefault(song: SongDict)
    requires forall f :: f in NameFields ==> !(f in song && Truthy(song[f]))
    ensures Normalise(song).name == Str(UnknownSong)
  {
    FirstHitNone(song, NameFields, true);
  }

  /** The first present key among artist, artists and artist_name decides the artist text; no text keeps the default. */
  lemma ArtistAt(song: SongDict, k: nat)
    requires k < |ArtistFields| && ArtistFields[k] in song
    requires forall j :: 0 <= j < k ==> ArtistFields[j] !in song
    ensures Normalise(song).artist == ArtistText(song[ArtistFields[k]]).GetOr(UnknownArtist)
  {
    FirstHitIs(song, ArtistFields, false, k);
  }

  /** A first present artist field that holds anything but a list is shown with `str()`. */
  lemma ArtistScalar(song: SongDict, k: nat)
    requires k < |ArtistFields| && ArtistFields[k] in song
    requires forall j :: 0 <= j < k ==> ArtistFields[j] !in song
    requires !song[ArtistFields[k]].List?
    ensures Normalise(song).artist == PyStr(song[ArtistFields[k]])
  {
    ArtistAt(song, k);
  }

  /** With none of the artist keys present the artist is the default. */
  lemma ArtistDefault(song: SongDict)
    requires forall f :: f in ArtistFields ==> f !in song
    ensures Normalise(song).artist == UnknownArtist
  {
    FirstHitNone(song, ArtistFields, false);
  }

  lemma JoinedStrings(parts: seq<string>)
    requires |parts| > 0
    ensures ArtistText(List(StrList(parts))) == Some(Strings.Join(", ", parts))
  {
    var l := StrList(parts);
    assert l[0].Str?;
    assert AllStrings(l).value == parts;
  }

  /** The first present artist key decides; a list of strings is joined with ", ". */
  lemma ArtistStringList(song: SongDict, k: nat, parts: seq<string>)
    requires k < |ArtistFields| && ArtistFields[k] in song
    requires forall j :: 0 <= j < k ==> ArtistFields[j] !in song
    requires |parts| > 0 && song[ArtistFields[k]] == List(StrList(parts))
    ensures Normalise(song).artist == Strings.Join(", ", parts)
  {
    ArtistAt(song, k);
    JoinedStrings(parts);
  }

  function StrList(parts: seq<string>): (l: seq<Value>)
    ensures |l| == |parts| && forall i :: 0 <= i < |parts| ==> l[i] == Str(parts[i])
  {
    seq(|parts|, i requires 0 <= i < |parts| => Str(parts[i]))
  }

  /** An empty artist list keeps the default artist. */
  lemma ArtistEmptyList(song: SongDict, k: nat)
    requires k < |ArtistFields| && ArtistFields[k] in song && song[ArtistFields[k]] == List([])
    requires forall j :: 0 <= j < k ==> ArtistFields[j] !in song
    ensures Normalise(song).artist == UnknownArtist
  {
    FirstHitIs(song, ArtistFields, false, k);
  }

  /** A list of strings with a later element that is no string makes the join raise, which keeps the default. */
  lemma ArtistMixedList(song: SongDict, k: nat, l: seq<Value>, i: nat)
    requires k < |ArtistFields| && ArtistFields[k] in song
    requires forall j :: 0 <= j < k ==> ArtistFields[j] !in song
    requires song[ArtistFields[k]] == List(l) && |l| > 0 && l[0].Str?
    requires i < |l| && !l[i].Str?
    ensures Normalise(song).artist == UnknownArtist
  {
    ArtistAt(song, k);
    assert AllStrings(l).None?;
  }

  /** The names of the artist dicts that carry one, in order, for dicts whose names are strings. */
  function DictNameStrings(l: seq<Value>): (r: seq<string>)
  {
    if |l| == 0 then []
    else
      var here := if l[0].Obj? && "name" in l[0].fields && l[0].fields["name"].Str? then [l[0].fields["name"].s] else [];
      here + DictNameStrings(l[1..])
  }

  /**
   * A list of artist dicts, the first of them named, whose names are strings gives the
   * names of the dicts that carry one, joined with ", "; dicts without a name are skipped.
   */
  lemma ArtistDictList(song: SongDict, k: nat, l: seq<Value>)
    requires k < |ArtistFields| && ArtistFields[k] in song
    requires forall j :: 0 <= j < k ==> ArtistFields[j] !in song
    requires song[ArtistFields[k]] == List(l)
    requires |l| > 0 && forall i :: 0 <= i < |l| ==> l[i].Obj?
    requires "name" in l[0].fields
    requires forall i :: 0 <= i < |l| ==> "name" in l[i].fields ==> l[i].fields["name"].Str?
    ensures Normalise(song).artist == Strings.Join(", ", DictNameStrings(l))
  {
    ArtistAt(song, k);
    DictListText(l);
  }

  lemma DictListText(l: seq<Value>)
    requires |l| > 0 && forall i :: 0 <= i < |l| ==> l[i].Obj?
    requires "name" in l[0].fields
    requires forall i :: 0 <= i < |l| ==> "name" in l[i].fields ==> l[i].fields["name"].Str?
    ensures ArtistText(List(l)) == Some(Strings.Join(", ", DictNameStrings(l)))
  {
    DictNamesAreStrings(l);
    var names := ArtistNames(l).value;
    assert AllStrings(names) == Some(DictNameStrings(l));
    assert !l[0].Str? && l[0].Obj? && "name" in l[0].fields;
  }

  /** On dicts with string names, the names the comprehension collects are exactly those strings. */
  lemma {:induction false} DictNamesAreStrings(l: seq<Value>)
    requires forall i :: 0 <= i < |l| ==> l[i].Obj?
    requires forall i :: 0 <= i < |l| ==> "name" in l[i].fields ==> l[i].fields["name"].Str?
    ensures ArtistNames(l).Some?
    ensures AllStrings(ArtistNames(l).value) == Some(DictNameStrings(l))
  {
    if |l| > 0 {
      DictNamesAreStrings(l[1..]);
      var here := if "name" in l[0].fields then [l[0].fields["name"]] else [];
      assert ArtistNames(l) == Some(here + ArtistNames(l[1..]).value);
      AllStringsAppend(here, ArtistNames(l[1..]).value);
    }
  }

  lemma {:induction false} AllStringsAppend(a: seq<Value>, b: seq<Value>)
    requires AllStrings(a).Some? && AllStrings(b).Some?
    ensures AllStrings(a + b) == Some(AllStrings(a).value + AllStrings(b).value)
  {
    var ra, rb := AllStrings(a).value, AllStrings(b).value;
    var r := ra + rb;
    forall k | 0 <= k < |a + b|
      ensures (a + b)[k].Str? && r[k] == (a + b)[k].s
    {
      if k < |a| {
        assert (a + b)[k] == a[k] && r[k] == ra[k];
      } else {
        assert (a + b)[k] == b[k - |a|] && r[k] == rb[k - |a|];
      }
    }
    var t := AllStrings(a + b);
    assert t.Some?;
    assert t.value == r;
  }

  /**
   * The first present and truthy key among duration_ms, duration and length decides, even
   * when `int()` fails on it: a value `int()` reads is scaled by that key, anything else
   * (a list, a dict, a text that is no integer) leaves 0; `True` counts as 1.
   */
  lemma DurationRule(song: SongDict, k: nat)
    requires k < |DurationFields| && DurationFields[k] in song && Truthy(song[DurationFields[k]])
    requires forall j :: 0 <= j < k ==> !(DurationFields[j] in song && Truthy(song[DurationFields[j]]))
    ensures ToInt(song[DurationFields[k]]).Some? ==>
      Normalise(song).durationMs == ScaleDuration(DurationFields[k], ToInt(song[DurationFields[k]]).value)
    ensures ToInt(song[DurationFields[k]]).None? ==> Normalise(song).durationMs == 0
    ensures song[DurationFields[k]].List? || song[DurationFields[k]].Obj? ==> Normalise(song).durationMs == 0
    ensures song[DurationFields[k]] == Bool(true) ==> Normalise(song).durationMs == if k == 0 then 1 else 1000
  {
    FirstHitIs(song, DurationFields, true, k);
  }

  /**
   * An integer in the deciding duration key: duration_ms is taken as milliseconds; in
   * duration or length a value below 10000 is seconds and is multiplied by 1000.
   */
  lemma DurationUnits(song: SongDict, k: nat, d: int)
    requires k < |DurationFields| && DurationFields[k] in song && song[DurationFields[k]] == Int(d) && d != 0
    requires forall j :: 0 <= j < k ==> !(DurationFields[j] in song && Truthy(song[DurationFields[j]]))
    ensures Normalise(song).durationMs == if k > 0 && d < 10000 then 1000 * d else d
  {
    DurationRule(song, k);
  }

  /** With no truthy duration key the duration is 0. */
  lemma DurationDefault(song: SongDict)
    requires forall f :: f in DurationFields ==> !(f in song && Truthy(song[f]))
    ensures Normalise(song).durationMs == 0
  {
    FirstHitNone(song, DurationFields, true);
  }

  /**
   * The first present key among url, external_url, external_urls and href decides: a dict
   * gives its "spotify" entry, a string gives itself, anything else (a dict without
   * "spotify" too) leaves "".
   */
  lemma UrlRule(song: SongDict, k: nat)
    requires k < |UrlFields| && UrlFields[k] in song
    requires forall j :: 0 <= j < k ==> UrlFields[j] !in song
    ensures var v := song[UrlFields[k]];
      && (v.Obj? && "spotify" in v.fields ==> Normalise(song).url == v.fields["spotify"])
      && (v.Str? ==> Normalise(song).url == v)
      && (!v.Str? && !(v.Obj? && "spotify" in v.fields) ==> Normalise(song).url == Str(""))
  {
    FirstHitIs(song, UrlFields, false, k);
  }

  /** With none of the URL keys present the URL is "". */
  lemma UrlDefault(song: SongDict)
    requires forall f :: f in UrlFields ==> f !in song
    ensures Normalise(song).url == Str("")
  {
    FirstHitNone(song, UrlFields, false);
  }

  // ---------------------------------------------------------------- renderings

  /** The columns an export-format key selects, after the sequence number. */
  datatype Column = NameColumn | ArtistColumn | AlbumColumn

  function Columns(exportFormat: Value): (cs: seq<Column>)
    ensures 1 <= |cs| <= 3 && NameColumn in cs
  {
    if exportFormat == Str("name-artists") then [NameColumn, ArtistColumn]
    else if exportFormat == Str("artists-name") then [ArtistColumn, NameColumn]
    else if exportFormat == Str("name-artists-album") then [NameColumn, ArtistColumn, AlbumColumn]
    else [NameColumn]
  }

  function CellValue(c: Column, song: Song): Value
  {
    match c
    case NameColumn => song.name
    case ArtistColumn => Str(song.artist)
    case AlbumColumn => song.album
  }

  function CsvTitle(c: Column): string
  {
    match c
    case NameColumn => "歌曲名称"
    case ArtistColumn => "艺术家"
    case AlbumColumn => "专辑"
  }

  function JsonKey(c: Column): string
  {
    match c
    case NameColumn => "name"
    case ArtistColumn => "artist"
    case AlbumColumn => "album"
  }

  const SeqTitle := "序号"

  function Seq1(i: nat): string { Strings.NatToString(i + 1) }

  /** The TXT line written for song `i`. */
  function TxtLine(i: nat, exportFormat: Value, song: Song): string
  {
    var name := PyStr(song.name);
    var album := PyStr(song.album);
    if exportFormat == Str("name-artists") then Seq1(i) + ". " + name + " - " + song.artist + "\n"
    else if exportFormat == Str("artists-name") then Seq1(i) + ". " + song.artist + " - " + name + "\n"
    else if exportFormat == Str("name-artists-album") then Seq1(i) + ". " + name + " - " + song.artist + " - " + album + "\n"
    else Seq1(i) + ". " + name + "\n"
  }

  /** The CSV header row. */
  function CsvHeader(exportFormat: Value): seq<string>
  {
    if exportFormat == Str("name-artists") then [SeqTitle, "歌曲名称", "艺术家"]
    else if exportFormat == Str("artists-name") then [SeqTitle, "艺术家", "歌曲名称"]
    else if exportFormat == Str("name-artists-album") then [SeqTitle, "歌曲名称", "艺术家", "专辑"]
    else [SeqTitle, "歌曲名称"]
  }

  /** The CSV row written for song `i`. */
  function CsvRow(i: nat, exportFormat: Value, song: Song): seq<Value>
  {
    var n := Int(i + 1);
    if exportFormat == Str("name-artists") then [n, song.name, Str(song.artist)]
    else if exportFormat == Str("artists-name") then [n, Str(song.artist), song.name]
    else if exportFormat == Str("name-artists-album") then [n, song.name, Str(song.artist), song.album]
    else [n, song.name]
  }

  /** The JSON entry for song `i`, keys in the order `json.dump` writes them. */
  function JsonEntry(i: nat, exportFormat: Value, song: Song): seq<(string, Value)>
  {
    var n := (SeqTitle, Int(i + 1));
    if exportFormat == Str("name-artists") then [n, ("name", song.name), ("artist", Str(song.artist))]
    else if exportFormat == Str("artists-name") then [n, ("artist", Str(song.artist)), ("name", song.name)]
    else if exportFormat == Str("name-artists-album") then
      [n, ("name", song.name), ("artist", Str(song.artist)), ("album", song.album)]
    else [n, ("name", song.name)]
  }

  function CellTexts(cs: seq<Column>, song: Song): (r: seq<string>)
    ensures |r| == |cs|
  {
    seq(|cs|, k requires 0 <= k < |cs| => PyStr(CellValue(cs[k], song)))
  }

  /** The TXT line is the 1-based number, ". ", and the selected columns joined by " - ". */
  lemma TxtLineFollowsColumns(i: nat, exportFormat: Value, song: Song)
    ensures TxtLine(i, exportFormat, song)
         == Seq1(i) + ". " + Strings.Join(" - ", CellTexts(Columns(exportFormat), song)) + "\n"
  {
    var ts := CellTexts(Columns(exportFormat), song);
    var name, artist, album := PyStr(song.name), song.artist, PyStr(song.album);
    var p := Seq1(i) + ". ";
    if exportFormat == Str("name-artists") {
      assert ts == [name, artist];
      JoinedLine2(p, name, artist, " - ");
    } else if exportFormat == Str("artists-name") {
      assert ts == [artist, name];
      JoinedLine2(p, artist, name, " - ");
    } else if exportFormat == Str("name-artists-album") {
      assert ts == [name, artist, album];
      JoinedLine3(p, name, artist, album, " - ");
    } else {
      assert ts == [name];
    }
  }

  /** A line of two parts joined by a separator, as the TXT format writes it. */
  lemma JoinedLine2(p: string, a: string, b: string, sep: string)
    ensures p + a + sep + b + "\n" == p + Strings.Join(sep, [a, b]) + "\n"
  {
    assert [a, b][1..] == [b];
    assert Strings.Join(sep, [b]) == b;
    assert Strings.Join(sep, [a, b]) == a + sep + b;
  }

  /** A line of three parts joined by a separator, as the TXT format writes it. */
  lemma JoinedLine3(p: string, a: string, b: string, c: string, sep: string)
    ensures p + a + sep + b + sep + c + "\n" == p + Strings.Join(sep, [a, b, c]) + "\n"
  {
    assert [a, b, c][1..] == [b, c];
    JoinedLine2([], b, c, sep);
    assert Strings.Join(sep, [b, c]) == b + sep + c;
    assert Strings.Join(sep, [a, b, c]) == a + sep + (b + sep + c);
  }

  /** CSV header and rows: the sequence-number column, then the selected columns in order. */
  lemma CsvFollowsColumns(i: nat, exportFormat: Value, song: Song)
    ensures CsvHeader(exportFormat)
         == [SeqTitle] + seq(|Columns(exportFormat)|, k requires 0 <= k < |Columns(exportFormat)| => CsvTitle(Columns(exportFormat)[k]))
    ensures CsvRow(i, exportFormat, song)
         == [Int(i + 1)] + seq(|Columns(exportFormat)|, k requires 0 <= k < |Columns(exportFormat)| => CellValue(Columns(exportFormat)[k], song))
  {
  }

  /** The JSON entry carries "序号" = i+1 and then the same columns, under their JSON keys. */
  lemma JsonFollowsColumns(i: nat, exportFormat: Value, song: Song)
    ensures JsonEntry(i, exportFormat, song)
         == [(SeqTitle, Int(i + 1))]
          + seq(|Columns(exportFormat)|, k requires 0 <= k < |Columns(exportFormat)| =>
                (JsonKey(Columns(exportFormat)[k]), CellValue(Columns(exportFormat)[k], song)))
  {
  }

  /** The TXT line renders exactly the cells of the CSV row. */
  lemma {:induction false} TxtLineRendersCsvRow(i: nat, exportFormat: Value, song: Song)
    ensures var row := CsvRow(i, exportFormat, song);
      TxtLine(i, exportFormat, song)
        == PyStr(row[0]) + ". "
         + Strings.Join(" - ", seq(|row| - 1, k requires 0 <= k < |row| - 1 => PyStr(row[k + 1]))) + "\n"
  {
    CsvFollowsColumns(i, exportFormat, song);
    TxtLineFollowsColumns(i, exportFormat, song);
    var row := CsvRow(i, exportFormat, song);
    assert PyStr(row[0]) == Seq1(i);
    assert seq(|row| - 1, k requires 0 <= k < |row| - 1 => PyStr(row[k + 1])) == CellTexts(Columns(exportFormat), song);
  }

  // ---------------------------------------------------------------- documents

  /** `os.path.basename(file_path).split(".")[0]`. */
  function PlaylistName(filePath: string): (r: string)
    ensures '.' !in r && '/' !in r
    ensures Strings.StartsWith(Strings.Basename(filePath), r)
    ensures |r| < |Strings.Basename(filePath)| ==> Strings.Basename(filePath)[|r|] == '.'
  {
    var b := Strings.Basename(filePath);
    var k := Strings.IndexOf(b, '.');
    assert Strings.Split(b, '.')[0] == b[..k];
    Strings.Split(b, '.')[0]
  }

  /** `_export_txt`: two header lines (the second ends in a blank line), then one line per song. */
  method ExportTxt(songs: seq<Song>, exportFormat: Value, filePath: string, exportTime: string)
    returns (lines: seq<string>)
    ensures |lines| == |songs| + 2
    ensures lines[0] == "# " + PlaylistName(filePath) + "\n"
    ensures lines[1] == "# 导出时间: " + exportTime + "\n\n"
    ensures forall i :: 0 <= i < |songs| ==> lines[i + 2] == TxtLine(i, exportFormat, songs[i])
  {
    lines := ["# " + PlaylistName(filePath) + "\n", "# 导出时间: " + exportTime + "\n\n"];
    var i := 0;
    while i < |songs|
      invariant 0 <= i <= |songs|
      invariant |lines| == i + 2
      invariant lines[0] == "# " + PlaylistName(filePath) + "\n"
      invariant lines[1] == "# 导出时间: " + exportTime + "\n\n"
      invariant forall j :: 0 <= j < i ==> lines[j + 2] == TxtLine(j, exportFormat, songs[j])
    {
      lines := lines + [TxtLine(i, exportFormat, songs[i])];
      i := i + 1;
    }
  }

  /** `_export_csv`: the header row, then one row per song. */
  method ExportCsv(songs: seq<Song>, exportFormat: Value) returns (rows: seq<seq<Value>>, header: seq<string>)
    ensures header == CsvHeader(exportFormat)
    ensures |rows| == |songs|
    ensures forall i :: 0 <= i < |songs| ==> rows[i] == CsvRow(i, exportFormat, songs[i])
    ensures forall i :: 0 <= i < |songs| ==> |rows[i]| == |header|
  {
    header := CsvHeader(exportFormat);
    rows := [];
    var i := 0;
    while i < |songs|
      invariant 0 <= i <= |songs|
      invariant |rows| == i
      invariant forall j :: 0 <= j < i ==> rows[j] == CsvRow(j, exportFormat, songs[j])
    {
      rows := rows + [CsvRow(i, exportFormat, songs[i])];
      i := i + 1;
    }
  }

  datatype JsonDocument = JsonDocument(playlistName: string, exportTime: string, exportFormat: Value,
                                       songs: seq<seq<(string, Value)>>)

  /** `_export_json`: the document header fields and one entry per song. */
  method ExportJson(songs: seq<Song>, exportFormat: Value, filePath: string, exportTime: string)
    returns (doc: JsonDocument)
    ensures doc.playlistName == PlaylistName(filePath) && doc.exportTime == exportTime
    ensures doc.exportFormat == exportFormat
    ensures |doc.songs| == |songs|
    ensures forall i :: 0 <= i < |songs| ==> doc.songs[i] == JsonEntry(i, exportFormat, songs[i])
  {
    var entries: seq<seq<(string, Value)>> := [];
    var i := 0;
    while i < |songs|
      invariant 0 <= i <= |songs|
      invariant |entries| == i
      invariant forall j :: 0 <= j < i ==> entries[j] == JsonEntry(j, exportFormat, songs[j])
    {
      entries := entries + [JsonEntry(i, exportFormat, songs[i])];
      i := i + 1;
    }
    doc := JsonDocument(PlaylistName(filePath), exportTime, exportFormat, entries);
  }

  // ---------------------------------------------------------------- settings

  datatype ExportSettings = ExportSettings(exportFormat: Value, fileFormat: string, useTxt: bool)

  /** What `_init_export_settings` decides, and the keys it writes back to the JSON settings. */
  datatype SettingsInit = SettingsInit(settings: ExportSettings, synced: seq<(string, Value)>)

  const ValidFileFormats: set<string> := {"txt", "csv", "json"}

  /** The file format found before validation, and whether it must be written back. */
  function RawFileFormat(jsonFileFormat: Value, jsonUseTxt: Value,
                         qtFileFormat: Option<string>, qtUseTxt: Option<string>): Value
  {
    if jsonFileFormat != Null then jsonFileFormat
    else if jsonUseTxt != Null then Str(if Truthy(jsonUseTxt) then "txt" else "csv")
    else if qtFileFormat.Some? && qtFileFormat.value != "" then Str(qtFileFormat.value)
    else Str(if qtUseTxt.GetOr("true") == "true" then "txt" else "csv")
  }

  /**
   * `_init_export_settings`. JSON settings are read with `get_setting`, so an absent key
   * and a stored null are both `Null`; QSettings values are strings or absent.
   */
  function InitExportSettings(jsonExportFormat: Value, jsonFileFormat: Value, jsonUseTxt: Value,
                              qtExportFormat: Option<string>, qtFileFormat: Option<string>,
                              qtUseTxt: Option<string>): (r: SettingsInit)
    ensures r.settings.fileFormat in ValidFileFormats
    ensures r.settings.useTxt <==> r.settings.fileFormat == "txt"
    ensures jsonExportFormat != Null ==> r.settings.exportFormat == jsonExportFormat
    ensures jsonExportFormat == Null ==>
      r.settings.exportFormat == Str(qtExportFormat.GetOr("name-artists"))
    ensures jsonFileFormat.Str? && jsonFileFormat.s in ValidFileFormats ==> r.settings.fileFormat == jsonFileFormat.s
    ensures (("export_format", r.settings.exportFormat) in r.synced) <==> jsonExportFormat == Null
    ensures (exists v :: ("export_file_format", v) in r.synced) <==> jsonFileFormat == Null
  {
    var exportFormat := if jsonExportFormat != Null then jsonExportFormat
                        else Str(qtExportFormat.GetOr("name-artists"));
    var raw := RawFileFormat(jsonFileFormat, jsonUseTxt, qtFileFormat, qtUseTxt);
    var syncFormat := if jsonExportFormat == Null then [("export_format", exportFormat)] else [];
    var syncFile := if jsonFileFormat == Null then [("export_file_format", raw)] else [];
    var fileFormat := if raw.Str? && raw.s in ValidFileFormats then raw.s else "txt";
    SettingsInit(ExportSettings(exportFormat, fileFormat, fileFormat == "txt"), syncFormat + syncFile)
  }

  /** The legacy boolean decides between txt and csv when no file format is stored. */
  lemma LegacyUseTxt(jsonUseTxt: Value, qtE: Option<string>, qtF: Option<string>, qtU: Option<string>)
    requires jsonUseTxt != Null
    ensures InitExportSettings(Str("name-artists"), Null, jsonUseTxt, qtE, qtF, qtU).settings.fileFormat
         == (if Truthy(jsonUseTxt) then "txt" else "csv")
  {
  }

  /** A QSettings file format outside txt/csv/json is written back as is but used as "txt". */
  lemma InvalidQtFormatFallsBack(qtF: string)
    requires qtF != "" && qtF !in ValidFileFormats
    ensures var r := InitExportSettings(Str("name-artists"), Null, Null, None, Some(qtF), None);
      r.settings.fileFormat == "txt" && r.settings.useTxt && r.synced == [("export_file_format", Str(qtF))]
  {
  }

  // ---------------------------------------------------------------- export entry point

  datatype ExportOutput =
    | TxtFile(lines: seq<string>)
    | CsvFile(header: seq<string>, rows: seq<seq<Value>>)
    | JsonFile(doc: JsonDocument)

  /** `kwargs.get("format_type") or kwargs.get("format")`, then the configured format when None. */
  function ChosenFormat(formatType: Option<string>, format: Option<string>, fileFormat: string): (f: string)
    ensures formatType.Some? && formatType.value != "" ==> f == formatType.value
    ensures !(formatType.Some? && formatType.value != "") && format.Some? ==> f == format.value
    ensures !(formatType.Some? && formatType.value != "") && format.None? ==> f == fileFormat
  {
    var picked := if formatType.Some? && formatType.value != "" then formatType else format;
    picked.GetOr(fileFormat)
  }

  /** Why `export` fails for these arguments, in the order it checks; None when it writes a file. */
  function ExportFailure(songCount: nat, filePath: Option<string>, format: string): (e: Option<string>)
    ensures e.None? <==> filePath.Some? && filePath.value != "" && songCount > 0
                         && Strings.Lower(format) in ValidFileFormats
    ensures (filePath.None? || filePath.value == "") ==> e == Some("未指定文件保存路径")
  {
    if filePath.None? || filePath.value == "" then Some("未指定文件保存路径")
    else if songCount == 0 then Some("没有有效的歌曲数据")
    else if Strings.Lower(format) !in ValidFileFormats then Some("不支持的导出格式: " + format)
    else None
  }

  /** The normalised records of the songs, in order. */
  function Normalised(songs: seq<SongDict>): (r: seq<Song>)
    ensures |r| == |songs|
    ensures forall i :: 0 <= i < |songs| ==> r[i] == Normalise(songs[i])
  {
    seq(|songs|, i requires 0 <= i < |songs| => Normalise(songs[i]))
  }

  /** The TXT document: the name line, the time line, and the songs' lines. */
  function TxtDocument(songs: seq<Song>, exportFormat: Value, filePath: string, exportTime: string): (lines: seq<string>)
    ensures |lines| == |songs| + 2
  {
    ["# " + PlaylistName(filePath) + "\n", "# 导出时间: " + exportTime + "\n\n"]
      + seq(|songs|, i requires 0 <= i < |songs| => TxtLine(i, exportFormat, songs[i]))
  }

  /** The file the writer of `kind` produces for the songs. */
  function Written(songs: seq<Song>, exportFormat: Value, kind: string, filePath: string, exportTime: string): ExportOutput
  {
    if kind == "json" then
      JsonFile(JsonDocument(PlaylistName(filePath), exportTime, exportFormat,
                            seq(|songs|, i requires 0 <= i < |songs| => JsonEntry(i, exportFormat, songs[i]))))
    else if kind == "csv" then
      CsvFile(CsvHeader(exportFormat), seq(|songs|, i requires 0 <= i < |songs| => CsvRow(i, exportFormat, songs[i])))
    else TxtFile(TxtDocument(songs, exportFormat, filePath, exportTime))
  }

  /** TXT line i+2 of an export is the line of the i-th record; the first two are the name and time lines. */
  lemma WrittenTxtLine(songs: seq<Song>, exportFormat: Value, filePath: string, exportTime: string, i: nat)
    requires i < |songs|
    ensures var lines := Written(songs, exportFormat, "txt", filePath, exportTime).lines;
      && lines[0] == "# " + PlaylistName(filePath) + "\n"
      && lines[1] == "# 导出时间: " + exportTime + "\n\n"
      && lines[i + 2] == TxtLine(i, exportFormat, songs[i])
  {
    var t := TxtDocument(songs, exportFormat, filePath, exportTime);
    assert t[i + 2] == TxtLine(i, exportFormat, songs[i]);
  }

  /** CSV row i of an export is the row of the i-th record, as long as the header. */
  lemma WrittenCsvRow(songs: seq<Song>, exportFormat: Value, filePath: string, exportTime: string, i: nat)
    requires i < |songs|
    ensures var w := Written(songs, exportFormat, "csv", filePath, exportTime);
      && w.header == CsvHeader(exportFormat)
      && w.rows[i] == CsvRow(i, exportFormat, songs[i])
      && |w.rows[i]| == |w.header|
  {
    assert |CsvRow(i, exportFormat, songs[i])| == |CsvHeader(exportFormat)|;
  }

  /** JSON entry i of an export is the entry of the i-th record. */
  lemma WrittenJsonEntry(songs: seq<Song>, exportFormat: Value, filePath: string, exportTime: string, i: nat)
    requires i < |songs|
    ensures var d := Written(songs, exportFormat, "json", filePath, exportTime).doc;
      && d.playlistName == PlaylistName(filePath) && d.exportTime == exportTime && d.exportFormat == exportFormat
      && d.songs[i] == JsonEntry(i, exportFormat, songs[i])
  {
  }

  lemma NormalisedIs(songs: seq<SongDict>, valid: seq<Song>)
    requires |valid| == |songs| && forall i :: 0 <= i < |songs| ==> valid[i] == Normalise(songs[i])
    ensures valid == Normalised(songs)
  {
  }

  lemma TxtWritten(songs: seq<Song>, exportFormat: Value, filePath: string, exportTime: string, lines: seq<string>)
    requires |lines| == |songs| + 2
    requires lines[0] == "# " + PlaylistName(filePath) + "\n"
    requires lines[1] == "# 导出时间: " + exportTime + "\n\n"
    requires forall i :: 0 <= i < |songs| ==> lines[i + 2] == TxtLine(i, exportFormat, songs[i])
    ensures TxtFile(lines) == Written(songs, exportFormat, "txt", filePath, exportTime)
  {
    var t := TxtDocument(songs, exportFormat, filePath, exportTime);
    var body := seq(|songs|, i requires 0 <= i < |songs| => TxtLine(i, exportFormat, songs[i]));
    assert t == lines[..2] + body;
    assert lines[2..] == body by {
      forall j | 0 <= j < |songs| ensures lines[2..][j] == body[j] {
        assert lines[j + 2] == TxtLine(j, exportFormat, songs[j]);
      }
    }
    assert lines == lines[..2] + lines[2..];
  }

  lemma CsvWritten(songs: seq<Song>, exportFormat: Value, filePath: string, exportTime: string, rows: seq<seq<Value>>, header: seq<string>)
    requires header == CsvHeader(exportFormat)
    requires |rows| == |songs| && forall i :: 0 <= i < |songs| ==> rows[i] == CsvRow(i, exportFormat, songs[i])
    ensures CsvFile(header, rows) == Written(songs, exportFormat, "csv", filePath, exportTime)
  {
  }

  lemma JsonWritten(songs: seq<Song>, exportFormat: Value, filePath: string, exportTime: string, doc: JsonDocument)
    requires doc.playlistName == PlaylistName(filePath) && doc.exportTime == exportTime
    requires doc.exportFormat == exportFormat
    requires |doc.songs| == |songs| && forall i :: 0 <= i < |songs| ==> doc.songs[i] == JsonEntry(i, exportFormat, songs[i])
    ensures JsonFile(doc) == Written(songs, exportFormat, "json", filePath, exportTime)
  {
  }

  class Exporter {
    var exportFormat: Value
    var fileFormat: string
    var useTxt: bool
    /** `self.last_error`; "" also stands for None, as `last_error or ""` reads it. */
    var lastError: string

    /**
     * `__init__`: the settings `_init_export_settings` decides from the JSON settings and the
     * QSettings; the keys it writes back are the `synced` part of `InitExportSettings`.
     */
    constructor (jsonExportFormat: Value, jsonFileFormat: Value, jsonUseTxt: Value,
                 qtExportFormat: Option<string>, qtFileFormat: Option<string>, qtUseTxt: Option<string>)
      ensures var init := InitExportSettings(jsonExportFormat, jsonFileFormat, jsonUseTxt, qtExportFormat, qtFileFormat, qtUseTxt);
        && exportFormat == init.settings.exportFormat && fileFormat == init.settings.fileFormat
        && useTxt == init.settings.useTxt && lastError == ""
      ensures fileFormat in ValidFileFormats && (useTxt <==> fileFormat == "txt")
    {
      var init := InitExportSettings(jsonExportFormat, jsonFileFormat, jsonUseTxt, qtExportFormat, qtFileFormat, qtUseTxt);
      exportFormat := init.settings.exportFormat;
      fileFormat := init.settings.fileFormat;
      useTxt := init.settings.useTxt;
      lastError := "";
    }

    /** The body of `export`: argument checks, normalisation, and the writer the format selects. */
    method Export(songs: seq<SongDict>, filePath: Option<string>, formatType: Option<string>,
                  format: Option<string>, exportTime: string)
      returns (ok: bool, written: Option<ExportOutput>)
      modifies this`lastError
      ensures var f := ChosenFormat(formatType, format, fileFormat);
        var e := ExportFailure(|songs|, filePath, f);
        && (ok <==> e.None?)
        && (ok <==> written.Some?)
        && (ok ==> lastError == old(lastError))
        && (!ok ==> lastError == e.value)
        && (ok ==> written.value == Written(Normalised(songs), exportFormat, Strings.Lower(f), filePath.value, exportTime))
    {
      var f := ChosenFormat(formatType, format, fileFormat);
      var e := ExportFailure(|songs|, filePath, f);
      if filePath.None? || filePath.value == "" {
        lastError := e.value;
        return false, None;
      }
      var valid := ValidateSongs(songs);
      if |valid| == 0 {
        lastError := e.value;
        return false, None;
      }
      var kind := Strings.Lower(f);
      NormalisedIs(songs, valid);
      if kind == "json" {
        var doc := ExportJson(valid, exportFormat, filePath.value, exportTime);
        JsonWritten(valid, exportFormat, filePath.value, exportTime, doc);
        written := Some(JsonFile(doc));
      } else if kind == "csv" {
        var rows, header := ExportCsv(valid, exportFormat);
        CsvWritten(valid, exportFormat, filePath.value, exportTime, rows, header);
        written := Some(CsvFile(header, rows));
      } else if kind == "txt" {
        var lines := ExportTxt(valid, exportFormat, filePath.value, exportTime);
        TxtWritten(valid, exportFormat, filePath.value, exportTime, lines);
        written := Some(TxtFile(lines));
      } else {
        lastError := e.value;
        return false, None;
      }
      ok := true;
    }

    /**
     * The `threaded_export` wrapper: the call itself returns True at once; the worker's
     * result and `last_error or ""` are what `finished_signal` carries.
     */
    method ThreadedExport(songs: seq<SongDict>, filePath: Option<string>, formatType: Option<string>,
                          format: Option<string>, exportTime: string)
      returns (accepted: bool, signalled: (bool, string))
      modifies this`lastError
      ensures accepted
      ensures var e := ExportFailure(|songs|, filePath, ChosenFormat(formatType, format, fileFormat));
        signalled == (e.None?, if e.None? then old(lastError) else e.value)
    {
      var ok, _ := Export(songs, filePath, formatType, format, exportTime);
      signalled := (ok, lastError);
      accepted := true;
    }
  }
}
