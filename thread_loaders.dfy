/**
 * The background loaders of the newer playlist view
 * (`src/ui/playlist_module/thread_loaders.py`). `SongLoader.run` reads the track cache or
 * the API pages and numbers the items; `load_tracks` builds records numbered across pages;
 * `ImageLoader.run` looks in the image cache and otherwise downloads the picture.
 *
 * A loader's run is one sequential step. The UI thread's `stop` is the parameter
 * `stopBefore`: with `Some(c)`, `stop` takes effect just before the run's check number `c`
 * of `_is_running` (the checks are numbered from 0 in the order the run reaches them). What
 * the run emits and writes to the cache is the list of its events, in order.
 */
module ThreadLoaders {
  import opened Wrappers
  import opened Json
  import Strings
  import Pages
  import SongListManager

  /** The signals `songs_loaded(tracks, from_cache)` and `load_error`, and the cache writes. */
  datatype LoaderEvent = SongsLoaded(tracks: seq<Value>, fromCache: bool) | LoadError | CacheTracks(tracks: seq<Value>)

  /** `if not self.force_refresh: ... if cached_tracks:` */
  predicate CacheHit(forceRefresh: bool, cached: Option<seq<Value>>)
  {
    !forceRefresh && cached.Some? && |cached.value| > 0
  }

  /** `stop` takes effect at one of the checks numbered 0 to `last`. */
  predicate StopsBy(stopBefore: Option<nat>, last: nat)
  {
    stopBefore.Some? && stopBefore.value <= last
  }

  /**
   * The inner loop of `run` over one page: each dict item gets the next `original_index`
   * and is appended; the position of the first item that is not a dict, where it raises.
   */
  method AppendIndexed(tracks: seq<Value>, done: seq<Value>, page: seq<Value>) returns (out: seq<Value>, bad: Option<nat>)
    requires Pages.IndexedFrom(tracks, done, 1)
    ensures bad.None? ==> AllDicts(page) && Pages.IndexedFrom(out, done + page, 1)
    ensures bad.Some? ==> bad.value < |page| && !page[bad.value].Obj?
    ensures bad.Some? ==> AllDicts(page[..bad.value]) && Pages.IndexedFrom(out, done + page[..bad.value], 1)
  {
    out := tracks;
    var j := 0;
    while j < |page|
      invariant 0 <= j <= |page|
      invariant AllDicts(page[..j])
      invariant Pages.IndexedFrom(out, done + page[..j], 1)
    {
      var item := page[j];
      if !item.Obj? {
        return out, Some(j);
      }
      var indexed := Obj(item.fields["original_index" := Int(|out| + 1)]);
      Pages.IndexedAppend(out, done + page[..j], [indexed], [item], 1);
      assert (done + page[..j]) + [item] == done + page[..j + 1];
      out := out + [indexed];
      assert page[..j + 1] == page[..j] + [item];
      j := j + 1;
    }
    assert page[..j] == page;
    return out, None;
  }

  predicate AllDicts(items: seq<Value>)
  {
    forall k :: 0 <= k < |items| ==> items[k].Obj?
  }

  // ---------------------------------------------------------------- _process_track_data and load_tracks

  /** Python's `v == 0`, which also holds for `False`. */
  predicate IsZero(v: Value)
  {
    v == Int(0) || v == Bool(false)
  }

  /**
   * `SongLoader._process_track_data(track_item, total_tracks)`: the record of the view's
   * `_process_track_data`, always with an `original_index`. A zero index is replaced by
   * `total_tracks` when that is positive; the error record has index 0.
   */
  function LoaderRecord(item: Value, total: int, hash: Value -> int): (r: map<string, Value>)
    ensures {"id", "name", "album", "artist", "image_url", "original_index"} <= r.Keys
  {
    match SongListManager.Extract(item, hash)
    case None => SongListManager.ErrorRecord(item, hash)["original_index" := Int(0)]
    case Some(e) =>
      var c := Get(item.fields, "original_index", Int(0));
      SongListManager.Record(e)["original_index" := if IsZero(c) && total > 0 then Int(total) else c]
  }

  /**
   * Both copies of `_process_track_data` agree on every field but `original_index`; the
   * loader's copy replaces a zero or missing index by a positive total and keeps any other.
   */
  lemma LoaderRecordMeaning(item: Value, total: int, hash: Value -> int)
    ensures var r := LoaderRecord(item, total, hash);
      var p := SongListManager.ProcessTrackData(item, hash);
      && (forall key :: key != "original_index" ==> (key in r <==> key in p))
      && (forall key :: key in r && key != "original_index" ==> r[key] == p[key])
      && (SongListManager.Extract(item, hash).None? ==> r["original_index"] == Int(0))
      && (SongListManager.Extract(item, hash).Some? ==>
            var c := Get(item.fields, "original_index", Int(0));
            && (IsZero(c) && total > 0 ==> r["original_index"] == Int(total))
            && (!IsZero(c) || total <= 0 ==> r["original_index"] == c))
  {
    var p := SongListManager.ProcessTrackData(item, hash);
    match SongListManager.Extract(item, hash)
    case None =>
      assert p == SongListManager.ErrorRecord(item, hash);
    case Some(e) =>
      var rec := SongListManager.Record(e);
      assert p == if "original_index" in item.fields then rec["original_index" := item.fields["original_index"]] else rec;
  }

  /** Each item's record under `record`, numbered from 1 in item order. */
  function Numbered(items: seq<Value>, record: Value -> map<string, Value>): (r: seq<Value>)
    ensures |r| == |items|
  {
    seq(|items|, k requires 0 <= k < |items| => Obj(record(items[k])["original_index" := Int(k + 1)]))
  }

  lemma NumberedSnoc(items: seq<Value>, x: Value, record: Value -> map<string, Value>)
    ensures Numbered(items + [x], record) == Numbered(items, record) + [Obj(record(x)["original_index" := Int(|items| + 1)])]
  {
    var r := Numbered(items + [x], record);
    assert r[..|items|] == Numbered(items, record);
  }

  /** `self._process_track_data(item, total_tracks)` as the function `load_tracks` applies. */
  function LoaderProcessor(total: int, hash: Value -> int): Value -> map<string, Value>
  {
    item => LoaderRecord(item, total, hash)
  }

  /** The list `load_tracks` builds from the pages' items. */
  function IndexedRecords(items: seq<Value>, total: int, hash: Value -> int): (r: seq<Value>)
    ensures |r| == |items|
  {
    Numbered(items, LoaderProcessor(total, hash))
  }

  /** Once the index is overwritten, the record no longer depends on the total. */
  lemma LoaderRecordReindexed(item: Value, total: int, other: int, hash: Value -> int, i: int)
    ensures LoaderRecord(item, total, hash)["original_index" := Int(i)] == LoaderRecord(item, other, hash)["original_index" := Int(i)]
  {
    match SongListManager.Extract(item, hash)
    case None =>
    case Some(e) =>
      var rec := SongListManager.Record(e);
      var c := Get(item.fields, "original_index", Int(0));
      var x := if IsZero(c) && total > 0 then Int(total) else c;
      var y := if IsZero(c) && other > 0 then Int(other) else c;
      assert rec["original_index" := x]["original_index" := Int(i)] == rec["original_index" := Int(i)];
      assert rec["original_index" := y]["original_index" := Int(i)] == rec["original_index" := Int(i)];
  }

  /**
   * The k-th record (from 0) carries `original_index` k + 1, and the total has no effect,
   * because the loop overwrites the index `_process_track_data` chose.
   */
  lemma IndexedRecordsMeaning(items: seq<Value>, total: int, other: int, hash: Value -> int)
    ensures var r := IndexedRecords(items, total, hash);
      && (forall k :: 0 <= k < |r| ==> r[k].Obj? && r[k].fields["original_index"] == Int(k + 1))
      && r == IndexedRecords(items, other, hash)
  {
    var r := IndexedRecords(items, total, hash);
    var s := IndexedRecords(items, other, hash);
    forall k | 0 <= k < |items|
      ensures r[k] == s[k]
    {
      LoaderRecordReindexed(items[k], total, other, hash, k + 1);
    }
  }

  /**
   * `load_tracks` as written with the program's `CacheManager`, which has neither
   * `get_playlist_tracks` nor `cache_playlist_tracks`: without `force_refresh` the cache
   * read raises, with it the cache write raises after the pages are read. Either way
   * `load_error` is emitted and the result is empty, so the outcome depends neither on
   * `force_refresh` nor on the pages: it is a constant.
   */
  function LoadTracksAsWritten(): (seq<Value>, seq<LoaderEvent>)
  {
    ([], [LoadError])
  }

  /** A playlist with a track loads nothing as written, while the intended list has it. */
  lemma LoadTracksLosesTracks(item: Value, total: int, hash: Value -> int)
    ensures LoadTracksAsWritten().0 == []
    ensures |IndexedRecords(Pages.Flatten([[item]]), total, hash)| == 1
  {
    assert Pages.Flatten([[item]]) == Pages.Flatten([[item]][..0]) + [item];
  }

  // ---------------------------------------------------------------- SongLoader

  class SongLoader {
    const forceRefresh: bool
    /** `self._is_running`. */
    var isRunning: bool

    constructor(forceRefresh: bool)
      ensures this.forceRefresh == forceRefresh && isRunning
    {
      this.forceRefresh := forceRefresh;
      isRunning := true;
    }

    /** `stop`. */
    method Stop()
      modifies this`isRunning
      ensures !isRunning
    {
      isRunning := false;
    }

    /** `quit`: `stop`, then the thread's own `quit`, which is not modelled. */
    method Quit()
      modifies this`isRunning
      ensures !isRunning
    {
      Stop();
    }

    /** `terminate`: `stop`, then the thread's own `terminate`, which is not modelled. */
    method Terminate()
      modifies this`isRunning
      ensures !isRunning
    {
      Stop();
    }

    /** Check number `k` of `_is_running`, after `stop` if it is called just before it. */
    method Checkpoint(k: nat, stopBefore: Option<nat>) returns (running: bool)
      modifies this`isRunning
      ensures isRunning == (old(isRunning) && stopBefore != Some(k))
      ensures running == isRunning
    {
      if stopBefore == Some(k) {
        Stop();
      }
      running := isRunning;
    }

    /**
     * `run`. `cached` is what `get_cached_tracks` returns; `first` and `more` are the items
     * of the first API page and of the pages reached through `next`; `fetched` counts the
     * pages requested. The checks come at the start (0), after the cache (1), after the
     * first page (2) and after each further page (3 onwards).
     */
    method Run(cached: Option<seq<Value>>, first: seq<Value>, more: seq<seq<Value>>, stopBefore: Option<nat>)
      returns (events: seq<LoaderEvent>, fetched: nat)
      modifies this`isRunning
      ensures isRunning ==> old(isRunning)
      ensures !old(isRunning) || stopBefore == Some(0) ==> events == [] && fetched == 0 && !isRunning
      ensures old(isRunning) && stopBefore != Some(0) && CacheHit(forceRefresh, cached) ==>
        events == [SongsLoaded(cached.value, true)] && fetched == 0 && isRunning
      ensures old(isRunning) && !CacheHit(forceRefresh, cached) && !StopsBy(stopBefore, |more| + 2) ==> (
        var items := Pages.Flatten([first] + more);
        && isRunning
        && (!AllDicts(items) ==> events == [LoadError])
        && (AllDicts(items) ==>
              && fetched == 1 + |more| && |events| == 2
              && events[1].SongsLoaded? && !events[1].fromCache && events[0] == CacheTracks(events[1].tracks)
              && Pages.IndexedFrom(events[1].tracks, items, 1)))
      ensures old(isRunning) && stopBefore != Some(0) && !CacheHit(forceRefresh, cached) && StopsBy(stopBefore, |more| + 2) ==> (
        && (events == [] || events == [LoadError])
        && (AllDicts(Pages.Flatten([first] + more)) ==> events == [] && !isRunning && fetched == stopBefore.value - 1))
    {
      var running := Checkpoint(0, stopBefore);
      if !running {
        return [], 0;
      }
      if CacheHit(forceRefresh, cached) {
        return [SongsLoaded(cached.value, true)], 0;
      }
      running := Checkpoint(1, stopBefore);
      if !running {
        return [], 0;
      }
      var pages := [first] + more;
      var tracks: seq<Value> := [];
      fetched := 0;
      var p := 0;
      while p < |pages|
        invariant 0 <= p <= |pages| && fetched == p
        invariant isRunning && (stopBefore.None? || stopBefore.value >= p + 2)
        invariant Pages.IndexedFrom(tracks, Pages.Flatten(pages[..p]), 1)
      {
        fetched := fetched + 1;
        var done := Pages.Flatten(pages[..p]);
        var page := pages[p];
        var indexed, bad := AppendIndexed(tracks, done, page);
        if bad.Some? {
          Pages.NotAllDicts(pages, p, bad.value);
          return [LoadError], fetched;
        }
        tracks := indexed;
        Pages.FlattenPrefix(pages, p);
        running := Checkpoint(p + 2, stopBefore);
        if !running {
          assert pages[..p + 1] == pages[..p] + [page];
          return [], fetched;
        }
        p := p + 1;
      }
      assert pages[..p] == pages;
      Pages.IndexedAllDicts(tracks, Pages.Flatten(pages));
      events := [CacheTracks(tracks), SongsLoaded(tracks, false)];
    }

    /**
     * `load_tracks` reading and writing the track cache through methods that exist:
     * `cached` is the cached list; otherwise the pages' records are numbered from 1 and
     * written to the cache. Requests that raise are not modelled.
     */
    method LoadTracks(forceRefresh: bool, cached: Option<seq<Value>>, total: int, first: seq<Value>, more: seq<seq<Value>>,
                      hash: Value -> int)
      returns (tracks: seq<Value>, events: seq<LoaderEvent>)
      ensures CacheHit(forceRefresh, cached) ==> tracks == cached.value && events == []
      ensures !CacheHit(forceRefresh, cached) ==>
        tracks == IndexedRecords(Pages.Flatten([first] + more), total, hash) && events == [CacheTracks(tracks)]
    {
      if CacheHit(forceRefresh, cached) {
        return cached.value, [];
      }
      tracks := NumberPages([first] + more, LoaderProcessor(total, hash));
      events := [CacheTracks(tracks)];
    }
  }

  /** The paging loops of `load_tracks`: every item's record, numbered across the pages. */
  method NumberPages(pages: seq<seq<Value>>, record: Value -> map<string, Value>) returns (tracks: seq<Value>)
    ensures tracks == Numbered(Pages.Flatten(pages), record)
  {
    tracks := [];
    var p := 0;
    while p < |pages|
      invariant 0 <= p <= |pages|
      invariant tracks == Numbered(Pages.Flatten(pages[..p]), record)
    {
      var done := Pages.Flatten(pages[..p]);
      var page := pages[p];
      var j := 0;
      while j < |page|
        invariant 0 <= j <= |page|
        invariant tracks == Numbered(done + page[..j], record)
      {
        var processed := record(page[j]);
        NumberedSnoc(done + page[..j], page[j], record);
        assert (done + page[..j]) + [page[j]] == done + page[..j + 1];
        tracks := tracks + [Obj(processed["original_index" := Int(|tracks| + 1)])];
        j := j + 1;
      }
      assert pages[..p + 1] == pages[..p] + [page];
      Pages.FlattenSnoc(pages[..p], page);
      assert page[..j] == page;
      p := p + 1;
    }
    assert pages[..p] == pages;
  }

  // ---------------------------------------------------------------- ImageLoader

  /** A `QImage`: a null image, the transparent 100x100 placeholder, or a loaded picture. */
  datatype Image = NullImage | Blank | Picture(id: nat)

  /** The signal `image_loaded(image, track_id)` and the cache write. */
  datatype ImageEvent = CacheImage(url: Value, image: Image, imageType: string) | ImageLoaded(image: Image, trackId: Value)

  /** `"playlist" if self.track_id == "playlist_cover" else "track"`. */
  function ImageType(trackId: Value): (t: string)
    ensures t == "playlist" <==> trackId == Str("playlist_cover")
    ensures t == "track" <==> trackId != Str("playlist_cover")
  {
    if trackId == Str("playlist_cover") then "playlist" else "track"
  }

  /**
   * The URL passes `if not self.url or not self.url.startswith("http")`. A truthy URL that is
   * not a string makes `startswith` raise, which also ends in the placeholder.
   */
  predicate FetchableUrl(url: Value)
  {
    url.Str? && url.s != "" && Strings.StartsWith(url.s, "http")
  }

  /** A cached image is used when there is one and it is not null. */
  predicate UsableCached(c: Option<Image>)
  {
    c.Some? && !c.value.NullImage?
  }

  class ImageLoader {
    const url: Value
    const trackId: Value
    /** `self._is_running`. */
    var isRunning: bool

    constructor(url: Value, trackId: Value)
      ensures this.url == url && this.trackId == trackId && isRunning
    {
      this.url := url;
      this.trackId := trackId;
      isRunning := true;
    }

    /** `stop`. */
    method Stop()
      modifies this`isRunning
      ensures !isRunning
    {
      isRunning := false;
    }

    /** `quit`: `stop`, then the thread's own `quit`, which is not modelled. */
    method Quit()
      modifies this`isRunning
      ensures !isRunning
    {
      Stop();
    }

    /** `terminate`: `stop`, then the thread's own `terminate`, which is not modelled. */
    method Terminate()
      modifies this`isRunning
      ensures !isRunning
    {
      Stop();
    }

    /** Check number `k` of `_is_running`, after `stop` if it is called just before it. */
    method Checkpoint(k: nat, stopBefore: Option<nat>) returns (running: bool)
      modifies this`isRunning
      ensures isRunning == (old(isRunning) && stopBefore != Some(k))
      ensures running == isRunning
    {
      if stopBefore == Some(k) {
        Stop();
      }
      running := isRunning;
    }

    /**
     * `run`. `cache` answers `get_cached_image(url, image_type)`; `download` is the image the
     * request gives, None when the request raises, `NullImage` when the data does not load;
     * `requested` tells whether the request was made. The checks come at the start (0),
     * after the cache (1), after the URL check (2) and after the download (3).
     */
    method Run(cache: (Value, string) -> Option<Image>, download: Option<Image>, stopBefore: Option<nat>)
      returns (events: seq<ImageEvent>, requested: bool)
      modifies this`isRunning
      ensures isRunning ==> old(isRunning)
      ensures |events| <= 2 && (forall i :: 0 <= i < |events| ==> (events[i].ImageLoaded? <==> i == |events| - 1))
      ensures forall i :: 0 <= i < |events| && events[i].ImageLoaded? ==> events[i].trackId == trackId
      ensures !old(isRunning) || stopBefore == Some(0) ==> events == [] && !requested
      ensures old(isRunning) && stopBefore != Some(0) && UsableCached(cache(url, ImageType(trackId))) ==>
        events == [ImageLoaded(cache(url, ImageType(trackId)).value, trackId)] && !requested
      ensures old(isRunning) && !StopsBy(stopBefore, 1) && !UsableCached(cache(url, ImageType(trackId))) && !FetchableUrl(url) ==>
        events == [ImageLoaded(Blank, trackId)] && !requested
      ensures old(isRunning) && !StopsBy(stopBefore, 2) && !UsableCached(cache(url, ImageType(trackId))) && FetchableUrl(url) ==> (
        && requested
        && (!UsableCached(download) ==> events == [ImageLoaded(Blank, trackId)])
        && (UsableCached(download) && stopBefore != Some(3) ==>
              events == [CacheImage(url, download.value, ImageType(trackId)), ImageLoaded(download.value, trackId)])
        && (UsableCached(download) && stopBefore == Some(3) ==> events == []))
      ensures old(isRunning) && StopsBy(stopBefore, 2) && stopBefore != Some(0) && !UsableCached(cache(url, ImageType(trackId))) ==>
        !requested && (FetchableUrl(url) || stopBefore == Some(1) ==> events == [])
    {
      var running := Checkpoint(0, stopBefore);
      if !running {
        return [], false;
      }
      var imageType := ImageType(trackId);
      var cached := cache(url, imageType);
      if UsableCached(cached) {
        return [ImageLoaded(cached.value, trackId)], false;
      }
      running := Checkpoint(1, stopBefore);
      if !running {
        return [], false;
      }
      if !FetchableUrl(url) {
        return [ImageLoaded(Blank, trackId)], false;
      }
      running := Checkpoint(2, stopBefore);
      if !running {
        return [], false;
      }
      requested := true;
      if !UsableCached(download) {
        return [ImageLoaded(Blank, trackId)], true;
      }
      var image := download.value;
      running := Checkpoint(3, stopBefore);
      if !running {
        return [], true;
      }
      events := [CacheImage(url, image, imageType), ImageLoaded(image, trackId)];
    }
  }
}
