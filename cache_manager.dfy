/**
 * The file cache of `src/utils/cache_manager.py`. The playlists file, the per-playlist
 * track files and the image files are maps; a file's JSON content is a `Value`, and a
 * file whose content is not what the reader expects (not a dict, no `timestamp`) stands
 * for one whose reading raises. Times are whole seconds and the clock is a parameter
 * `now`; a stored ISO timestamp is the second it denotes. Image files are keyed by URL:
 * `md5` is taken to be injective, so a URL and its file name determine each other.
 */
module CacheManager {
  import opened Wrappers
  import opened Json

  const Hour := 3600
  const PlaylistsExpiry := 24 * Hour
  const TracksExpiry := 12 * Hour
  const ImagesExpiry := 7 * 24 * Hour
  const RefreshInterval := 3600

  /** The image cache directories. */
  datatype ImageDir = Avatars | PlaylistCovers | TrackCovers | ImagesRoot

  /** `_get_image_cache_dir`: the three known types get their own directory, anything else the images root. */
  function ImageCacheDir(imageType: string): (d: ImageDir)
    ensures d == Avatars <==> imageType == "avatar"
    ensures d == PlaylistCovers <==> imageType == "playlist"
    ensures d == TrackCovers <==> imageType == "track"
    ensures d == ImagesRoot <==> imageType !in {"avatar", "playlist", "track"}
  {
    if imageType == "avatar" then Avatars
    else if imageType == "playlist" then PlaylistCovers
    else if imageType == "track" then TrackCovers
    else ImagesRoot
  }

  /** An image file: its modification time and the picture, None when it does not load. */
  datatype ImageFile = ImageFile(mtime: int, image: Option<nat>)

  /** A `cache_status` entry: `last_update`, and whether `error` holds a message. */
  datatype Status = Status(lastUpdate: Option<int>, failed: bool)

  const NoStatus := Status(None, false)

  /** The `images` part of the initial `cache_status`. */
  const InitialImageStatus: map<string, map<string, Status>> := map["avatars" := map[], "playlists" := map[], "tracks" := map[]]

  // ---------------------------------------------------------------- reading the files

  /** The `timestamp` a cache file's content carries, None when reading it raises. */
  function Timestamp(data: Value): Option<int>
  {
    if data.Obj? && "timestamp" in data.fields && data.fields["timestamp"].Int? then Some(data.fields["timestamp"].i)
    else None
  }

  /** The playlists file as `cache_playlists` writes it. */
  function PlaylistsFile(userId: Value, playlists: Value, now: int): Value
  {
    Obj(map["user_id" := userId, "timestamp" := Int(now), "playlists" := playlists])
  }

  /** A track file as `cache_tracks` writes it. */
  function TracksFile(tracks: Value, now: int): Value
  {
    Obj(map["timestamp" := Int(now), "tracks" := tracks])
  }

  /** `cache_data.get('user_id') != user_id` on a dict. */
  predicate OtherUser(data: Value, userId: Value)
    requires data.Obj?
  {
    Get(data.fields, "user_id", Null) != userId
  }

  /** What `get_cached_playlists` returns for the file's content. */
  function PlaylistsLookup(file: Option<Value>, userId: Value, now: int): Option<Value>
  {
    if file.None? || !file.value.Obj? || OtherUser(file.value, userId) then None
    else match Timestamp(file.value)
      case None => None
      case Some(t) =>
        if now - t > PlaylistsExpiry || "playlists" !in file.value.fields then None
        else Some(file.value.fields["playlists"])
  }

  /** What `should_refresh_playlists` returns. */
  predicate PlaylistsRefreshDue(file: Option<Value>, userId: Value, now: int)
  {
    file.None? || !file.value.Obj? || OtherUser(file.value, userId) || Timestamp(file.value).None?
    || now - Timestamp(file.value).value > RefreshInterval
  }

  /** What `get_cached_tracks` returns for a track file's content. */
  function TracksLookup(file: Option<Value>, now: int): Option<Value>
  {
    if file.None? then None
    else match Timestamp(file.value)
      case None => None
      case Some(t) =>
        if now - t > TracksExpiry || "tracks" !in file.value.fields then None
        else Some(file.value.fields["tracks"])
  }

  /** What `should_refresh_tracks` returns. */
  predicate TracksRefreshDue(file: Option<Value>, now: int)
  {
    file.None? || Timestamp(file.value).None? || now - Timestamp(file.value).value > RefreshInterval
  }

  /**
   * Written playlists are read back by the same user for 24 hours, an age of exactly 24
   * hours included, and not after; another user never reads them. A refresh is due after
   * an hour.
   */
  lemma PlaylistsRoundTrip(userId: Value, playlists: Value, written: int, now: int, other: Value)
    requires now >= written && other != userId
    ensures var f := Some(PlaylistsFile(userId, playlists, written));
      && (now - written <= PlaylistsExpiry <==> PlaylistsLookup(f, userId, now) == Some(playlists))
      && PlaylistsLookup(f, other, now).None?
      && (PlaylistsRefreshDue(f, userId, now) <==> now - written > RefreshInterval)
  {
  }

  /** When no refresh is due the cached playlists are there to read, unless the file lacks them. */
  lemma NoRefreshMeansHit(file: Option<Value>, userId: Value, now: int)
    requires !PlaylistsRefreshDue(file, userId, now) && "playlists" in file.value.fields
    ensures PlaylistsLookup(file, userId, now) == Some(file.value.fields["playlists"])
  {
  }

  /** Written tracks are read back for 12 hours, the boundary included; a refresh is due after an hour. */
  lemma TracksRoundTrip(tracks: Value, written: int, now: int)
    requires now >= written
    ensures var f := Some(TracksFile(tracks, written));
      && (now - written <= TracksExpiry <==> TracksLookup(f, now) == Some(tracks))
      && (TracksRefreshDue(f, now) <==> now - written > RefreshInterval)
      && (!TracksRefreshDue(f, now) ==> TracksLookup(f, now) == Some(tracks))
  {
  }

  /** What `get_cached_image` gives: the picture, no picture, or a raise that escapes it. */
  datatype ImageLookup = Hit(image: nat) | Miss | Raised

  function ImageLookupOf(files: map<(ImageDir, string), ImageFile>, url: string, imageType: string, now: int): ImageLookup
  {
    var key := (ImageCacheDir(imageType), url);
    if key !in files || now - files[key].mtime > ImagesExpiry || files[key].image.None? then Miss
    else if imageType + "s" !in InitialImageStatus then Raised
    else Hit(files[key].image.value)
  }

  /** `image_type + 's'` is a key of the image status exactly for the three known types. */
  lemma CategoryKnown(imageType: string)
    ensures imageType + "s" in InitialImageStatus <==> imageType in {"avatar", "playlist", "track"}
  {
    var c := imageType + "s";
    assert c[..|imageType|] == imageType;
    if c == "avatars" {
      assert imageType == "avatars"[..6];
      assert "avatars"[..6] == "avatar";
    } else if c == "playlists" {
      assert imageType == "playlists"[..8];
      assert "playlists"[..8] == "playlist";
    } else if c == "tracks" {
      assert imageType == "tracks"[..5];
      assert "tracks"[..5] == "track";
    }
  }

  /** Only avatar, playlist and track images can be read from the cache: another type raises once its file loads. */
  lemma ImageLookupTypes(files: map<(ImageDir, string), ImageFile>, url: string, imageType: string, now: int)
    ensures ImageLookupOf(files, url, imageType, now).Raised? ==> imageType !in {"avatar", "playlist", "track"}
    ensures imageType in {"avatar", "playlist", "track"} ==> !ImageLookupOf(files, url, imageType, now).Raised?
  {
    CategoryKnown(imageType);
  }

  // ---------------------------------------------------------------- clear_expired_cache

  /** An image file `clear_expired_cache` removes: one in a type directory and older than seven days. */
  predicate ImageExpired(dir: ImageDir, f: ImageFile, now: int)
  {
    dir != ImagesRoot && f.mtime + ImagesExpiry < now
  }

  /** A track file it removes: malformed, or older than twelve hours. */
  predicate TrackFileStale(data: Value, now: int)
  {
    Timestamp(data).None? || now - Timestamp(data).value > TracksExpiry
  }

  /** Reading the playlists file raises in `clear_expired_cache`, which then skips the track files. */
  predicate PlaylistsFileBroken(file: Option<Value>)
  {
    file.Some? && Timestamp(file.value).None?
  }

  function ImagesAfterClear(files: map<(ImageDir, string), ImageFile>, now: int): map<(ImageDir, string), ImageFile>
  {
    map k | k in files && !ImageExpired(k.0, files[k], now) :: files[k]
  }

  function TracksAfterClear(files: map<string, Value>, now: int): map<string, Value>
  {
    map k | k in files && !TrackFileStale(files[k], now) :: files[k]
  }

  /** The loop of `clear_expired_cache` over the image files: each expired one is removed. */
  method RemoveExpiredImages(files: map<(ImageDir, string), ImageFile>, now: int) returns (images: map<(ImageDir, string), ImageFile>)
    ensures images == ImagesAfterClear(files, now)
  {
    images := files;
    var keys := files.Keys;
    while keys != {}
      invariant keys <= files.Keys
      invariant forall k :: k in images <==> k in files && (k in keys || !ImageExpired(k.0, files[k], now))
      invariant forall k :: k in images ==> images[k] == files[k]
      decreases keys
    {
      var k :| k in keys;
      if ImageExpired(k.0, images[k], now) {
        images := images - {k};
      }
      keys := keys - {k};
    }
  }

  /** The loop of `clear_expired_cache` over the track files: each malformed or expired one is removed. */
  method RemoveStaleTracks(files: map<string, Value>, now: int) returns (tracks: map<string, Value>)
    ensures tracks == TracksAfterClear(files, now)
  {
    tracks := files;
    var ids := files.Keys;
    while ids != {}
      invariant ids <= files.Keys
      invariant forall k :: k in tracks <==> k in files && (k in ids || !TrackFileStale(files[k], now))
      invariant forall k :: k in tracks ==> tracks[k] == files[k]
      decreases ids
    {
      var k :| k in ids;
      if TrackFileStale(tracks[k], now) {
        tracks := tracks - {k};
      }
      ids := ids - {k};
    }
  }

  /** Clearing expired entries changes no lookup made at the same time. */
  lemma ClearExpiredKeepsLookups(images: map<(ImageDir, string), ImageFile>, tracks: map<string, Value>, now: int,
                                 url: string, imageType: string, pid: string)
    ensures ImageLookupOf(ImagesAfterClear(images, now), url, imageType, now) == ImageLookupOf(images, url, imageType, now)
    ensures var after := TracksAfterClear(tracks, now);
      TracksLookup(if pid in after then Some(after[pid]) else None, now) == TracksLookup(if pid in tracks then Some(tracks[pid]) else None, now)
  {
    var key := (ImageCacheDir(imageType), url);
    if key in images && ImageExpired(key.0, images[key], now) {
      assert now - images[key].mtime > ImagesExpiry;
    }
  }

  // ---------------------------------------------------------------- the manager

  class CacheManager {
    var playlistsFile: Option<Value>
    /** The files of the tracks directory, by playlist id. */
    var trackFiles: map<string, Value>
    var imageFiles: map<(ImageDir, string), ImageFile>
    /** `cache_status`. */
    var playlistsStatus: Status
    var tracksStatus: map<string, Status>
    var imagesStatus: map<string, map<string, Status>>

    /** The cache as found on disk, with the initial `cache_status`. */
    constructor(playlistsFile: Option<Value>, trackFiles: map<string, Value>, imageFiles: map<(ImageDir, string), ImageFile>)
      ensures this.playlistsFile == playlistsFile && this.trackFiles == trackFiles && this.imageFiles == imageFiles
      ensures playlistsStatus == NoStatus && tracksStatus == map[] && imagesStatus == InitialImageStatus
    {
      this.playlistsFile := playlistsFile;
      this.trackFiles := trackFiles;
      this.imageFiles := imageFiles;
      playlistsStatus := NoStatus;
      tracksStatus := map[];
      imagesStatus := InitialImageStatus;
    }

    /**
     * `get_cached_playlists`. A read that raises records an error; a hit records the file's
     * time. A file without `playlists` raises after the time is recorded.
     */
    method GetCachedPlaylists(userId: Value, now: int) returns (r: Option<Value>)
      modifies this`playlistsStatus
      ensures r == PlaylistsLookup(playlistsFile, userId, now)
      ensures playlistsStatus ==
        if playlistsFile.None? then old(playlistsStatus)
        else if !playlistsFile.value.Obj? then old(playlistsStatus).(failed := true)
        else if OtherUser(playlistsFile.value, userId) then old(playlistsStatus)
        else if Timestamp(playlistsFile.value).None? then old(playlistsStatus).(failed := true)
        else if now - Timestamp(playlistsFile.value).value > PlaylistsExpiry then old(playlistsStatus)
        else Status(Timestamp(playlistsFile.value), "playlists" !in playlistsFile.value.fields)
    {
      if playlistsFile.None? {
        return None;
      }
      var data := playlistsFile.value;
      if !data.Obj? {
        playlistsStatus := playlistsStatus.(failed := true);
        return None;
      }
      if Get(data.fields, "user_id", Null) != userId {
        return None;
      }
      var t := Timestamp(data);
      if t.None? {
        playlistsStatus := playlistsStatus.(failed := true);
        return None;
      }
      if now - t.value > PlaylistsExpiry {
        return None;
      }
      playlistsStatus := Status(t, false);
      if "playlists" !in data.fields {
        playlistsStatus := playlistsStatus.(failed := true);
        return None;
      }
      return Some(data.fields["playlists"]);
    }

    /** `should_refresh_playlists`. */
    method ShouldRefreshPlaylists(userId: Value, now: int) returns (r: bool)
      ensures r == PlaylistsRefreshDue(playlistsFile, userId, now)
    {
      if playlistsFile.None? || !playlistsFile.value.Obj? || Get(playlistsFile.value.fields, "user_id", Null) != userId {
        return true;
      }
      var t := Timestamp(playlistsFile.value);
      return t.None? || now - t.value > RefreshInterval;
    }

    /** `cache_playlists`. */
    method CachePlaylists(userId: Value, playlists: Value, now: int)
      modifies this`playlistsFile, this`playlistsStatus
      ensures playlistsFile == Some(PlaylistsFile(userId, playlists, now))
      ensures playlistsStatus == Status(Some(now), false)
    {
      playlistsFile := Some(PlaylistsFile(userId, playlists, now));
      playlistsStatus := Status(Some(now), false);
    }

    /** The status entry of `url` under `category`, created empty when missing. */
    function ImageEntry(category: string, url: string): Status
      reads this
      requires category in imagesStatus
    {
      if url in imagesStatus[category] then imagesStatus[category][url] else NoStatus
    }

    /**
     * `get_cached_image`. A hit records the file's time under the type's status; for a type
     * other than avatar, playlist and track that status update raises, and so does the
     * error handling after it.
     */
    method GetCachedImage(url: string, imageType: string, now: int) returns (r: ImageLookup)
      requires forall c :: c in InitialImageStatus ==> c in imagesStatus
      modifies this`imagesStatus
      ensures r == ImageLookupOf(imageFiles, url, imageType, now)
      ensures forall c :: c in InitialImageStatus ==> c in imagesStatus
      ensures r.Hit? ==> imagesStatus == old(imagesStatus)[imageType + "s" :=
        old(imagesStatus)[imageType + "s"][url := Status(Some(imageFiles[(ImageCacheDir(imageType), url)].mtime), false)]]
      ensures !r.Hit? ==> imagesStatus == old(imagesStatus)
    {
      var key := (ImageCacheDir(imageType), url);
      if key !in imageFiles || now - imageFiles[key].mtime > ImagesExpiry || imageFiles[key].image.None? {
        return Miss;
      }
      var category := imageType + "s";
      if category !in InitialImageStatus {
        return Raised;
      }
      imagesStatus := imagesStatus[category := imagesStatus[category][url := Status(Some(imageFiles[key].mtime), false)]];
      return Hit(imageFiles[key].image.value);
    }

    /**
     * `cache_image`. The file is saved under the type's directory; updating the status
     * then raises for an unknown type, which the error handling does again (`raised`).
     */
    method CacheImage(url: string, image: nat, imageType: string, now: int) returns (raised: bool)
      requires forall c :: c in InitialImageStatus ==> c in imagesStatus
      modifies this`imageFiles, this`imagesStatus
      ensures imageFiles == old(imageFiles)[(ImageCacheDir(imageType), url) := ImageFile(now, Some(image))]
      ensures raised <==> imageType !in {"avatar", "playlist", "track"}
      ensures forall c :: c in InitialImageStatus ==> c in imagesStatus
      ensures raised ==> imagesStatus == old(imagesStatus)
      ensures !raised ==> (imageType + "s" in old(imagesStatus)
        && imagesStatus == old(imagesStatus)[imageType + "s" := old(imagesStatus)[imageType + "s"][url := Status(Some(now), false)]])
    {
      imageFiles := imageFiles[(ImageCacheDir(imageType), url) := ImageFile(now, Some(image))];
      var category := imageType + "s";
      CategoryKnown(imageType);
      if category !in InitialImageStatus {
        return true;
      }
      imagesStatus := imagesStatus[category := imagesStatus[category][url := Status(Some(now), false)]];
      return false;
    }

    /** `get_cached_tracks`, with the same status bookkeeping per playlist id. */
    method GetCachedTracks(pid: string, now: int) returns (r: Option<Value>)
      modifies this`tracksStatus
      ensures r == TracksLookup(if pid in trackFiles then Some(trackFiles[pid]) else None, now)
      ensures var prior := if pid in old(tracksStatus) then old(tracksStatus)[pid] else NoStatus;
        tracksStatus ==
          if pid !in trackFiles then old(tracksStatus)
          else if Timestamp(trackFiles[pid]).None? then old(tracksStatus)[pid := prior.(failed := true)]
          else if now - Timestamp(trackFiles[pid]).value > TracksExpiry then old(tracksStatus)
          else old(tracksStatus)[pid := Status(Timestamp(trackFiles[pid]), "tracks" !in trackFiles[pid].fields)]
    {
      if pid !in trackFiles {
        return None;
      }
      var data := trackFiles[pid];
      var entry := if pid in tracksStatus then tracksStatus[pid] else NoStatus;
      var t := Timestamp(data);
      if t.None? {
        tracksStatus := tracksStatus[pid := entry.(failed := true)];
        return None;
      }
      if now - t.value > TracksExpiry {
        return None;
      }
      if "tracks" !in data.fields {
        tracksStatus := tracksStatus[pid := Status(t, true)];
        return None;
      }
      tracksStatus := tracksStatus[pid := Status(t, false)];
      return Some(data.fields["tracks"]);
    }

    /** `should_refresh_tracks`. */
    method ShouldRefreshTracks(pid: string, now: int) returns (r: bool)
      ensures r == TracksRefreshDue(if pid in trackFiles then Some(trackFiles[pid]) else None, now)
    {
      if pid !in trackFiles {
        return true;
      }
      var t := Timestamp(trackFiles[pid]);
      return t.None? || now - t.value > RefreshInterval;
    }

    /** `cache_tracks`. */
    method CacheTracks(pid: string, tracks: Value, now: int)
      modifies this`trackFiles, this`tracksStatus
      ensures trackFiles == old(trackFiles)[pid := TracksFile(tracks, now)]
      ensures tracksStatus == old(tracksStatus)[pid := Status(Some(now), false)]
    {
      trackFiles := trackFiles[pid := TracksFile(tracks, now)];
      tracksStatus := tracksStatus[pid := Status(Some(now), false)];
    }

    /**
     * `clear_expired_cache`: images older than seven days in the three type directories,
     * an expired playlists file, and malformed or expired track files are removed. A
     * playlists file whose reading raises ends the method before the track files.
     */
    method ClearExpiredCache(now: int)
      modifies this`imageFiles, this`playlistsFile, this`trackFiles
      ensures imageFiles == ImagesAfterClear(old(imageFiles), now)
      ensures playlistsFile ==
        if old(playlistsFile).Some? && !PlaylistsFileBroken(old(playlistsFile))
           && now - Timestamp(old(playlistsFile).value).value > PlaylistsExpiry then None
        else old(playlistsFile)
      ensures trackFiles == if PlaylistsFileBroken(old(playlistsFile)) then old(trackFiles) else TracksAfterClear(old(trackFiles), now)
    {
      var images := RemoveExpiredImages(imageFiles, now);
      imageFiles := images;
      if playlistsFile.Some? {
        var t := Timestamp(playlistsFile.value);
        if t.None? {
          return;
        }
        if now - t.value > PlaylistsExpiry {
          playlistsFile := None;
        }
      }
      var tracks := RemoveStaleTracks(trackFiles, now);
      trackFiles := tracks;
    }

    /**
     * `clear_all_cache`: every file of the three image type directories and of the tracks
     * directory and the playlists file are removed, and `cache_status` is reset. Files
     * directly in the images root stay.
     */
    method ClearAllCache()
      modifies this
      ensures imageFiles == map k | k in old(imageFiles) && k.0 == ImagesRoot :: old(imageFiles)[k]
      ensures trackFiles == map[] && playlistsFile.None?
      ensures playlistsStatus == NoStatus && tracksStatus == map[] && imagesStatus == InitialImageStatus
    {
      imageFiles := map k | k in imageFiles && k.0 == ImagesRoot :: imageFiles[k];
      trackFiles := map[];
      playlistsFile := None;
      playlistsStatus := NoStatus;
      tracksStatus := map[];
      imagesStatus := InitialImageStatus;
    }
  }
}
