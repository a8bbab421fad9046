# SpotifyExportTool, modelled in Dafny

This project models the sequential logic of SpotifyExportTool, a PyQt desktop front-end that signs in to Spotify, lists the user's playlists and exports a playlist's songs to TXT, CSV or JSON. Each core source file becomes one Dafny module, or two where the repository has an older and a newer copy of a view. What the source computes becomes functions. An object whose fields a handler updates becomes a class with `modifies` clauses. Loops stay loops, with their invariants.

- **Export** (`FileExporter`, `LegacyPlaylistView`, `ExportManager`):
  - how song dicts of any shape are normalised into one record;
  - the TXT line, CSV row and JSON entry for each export-format key;
  - the stored-format fallbacks and the older view's `format_track_name`;
  - the `m:ss` duration, the safe file name and the forced file extension.
- **Track lists** (`SongListManager`, `PlaylistModuleView`, `ThreadLoaders`, `LegacyPlaylistView`, `StableSort`, `Filters`, `Pages`):
  - flattening Spotify items into records, and case-insensitive search;
  - Python's `sorted` modelled as a stable insertion sort, where `reverse=True` keeps ties in input order and incomparable keys raise;
  - batch paging, and 1-based `original_index` numbering across API pages;
  - the song and image loaders. Each `run` is one sequential step. `stopBefore` is the checkpoint a `stop()` lands before, and what a run emits is a list of events.
- **Stores**:
  - `CacheManager`: the TTL cache. Cache files are maps. The clock is the parameter `now` in whole seconds. The md5 of a URL is taken as injective, so images are keyed by URL. File content that is not a dict, or that lacks a timestamp, stands for a read that raises.
  - `Settings` and `MainSettings`: the JSON settings stores that merge in defaults.
  - `LanguageManager`: dot-path translation lookup and language selection. The locale files and the system locale are parameters.
  - `ThreadManager`: the per-category thread registry. Threads are opaque ids, and whether a thread is alive is a parameter.
  - `Logger`: the log level and its handlers.
- **Rules and state machines**:
  - `Login`: token expiry, with the clock in microseconds; the callback handler; and the login-window flags. The module globals are fields of `AuthState`. The OAuth code exchange is a parameter map, and a code not in the map is an exchange that raises.
  - `Sidebar`: the selection invariant, the loading, content and empty pages, and the collapse toggle.
  - `Home`: the resize hysteresis. A sidebar toggle scheduled on the 100 ms timer is recorded as pending.
  - `Topbar` and `LegacyTopbar`: avatar-menu clamping, with integer rectangles and Qt's `right()` and `bottom()`; plus the logout guard and the user-name text.
  - `Splash`: progress ticks, with clock readings in milliseconds.
  - `LoadingIndicator`: the spinner's angle and dots.
  - `TimeUtils`: relative-time buckets.
  - `WelcomeView`: the greeting by hour.
  - `SettingsView` and `LegacySettingsView`: the settings handlers.
- **Shared modules**:
  - `Wrappers`: `Option` and `Result`.
  - `Strings`: ASCII lower-casing, substring, join, split, integer rendering and `splitext`.
  - `Json`: Python values. `str()` of a dict is a fixed marker.

Some code appears twice in the repository, and each such piece is modelled once:
- `showAvatarMenu`'s position code is the same in src/ui/topbar_view.py:398-414 and views/topbar_view.py:365-381, and is `Topbar.MenuPosition`;
- `format_size` is the same in src/ui/settings_view.py:680-686 and views/settings_view.py:929-935, and is `SettingsView.FormatSize`;
- `_process_track_data` is the same in src/ui/playlist_module/song_list_manager.py and src/ui/playlist_module/playlist_view.py, and is `SongListManager.ProcessTrackData`.

The splash screen does not stop its 30 ms progress timer when the bar reaches 100. A safety timeout in the 100 ms before the scheduled `complete_animation` therefore emits `finished` a second time. On-time ticks fill the bar long before the 3 s timeout, so this needs the event loop to stall. `Splash.FinishedTwice` builds such a run on the 30 ms grid: 39 ticks, a stall, and ticks resuming at 2790 ms. It is recorded here rather than as a finding, since showing the main window twice may be harmless.

## Model

| member | source | states |
|---|---|---|
| FileExporter.ValidateSongs | src/exporters/file_exporter.py:239-338 | exactly one normalised record per input song, in input order; nothing is skipped |
| FileExporter.NameRule | src/exporters/file_exporter.py:258-276 | the record's name is the first truthy value among name, title, track_name and song_name |
| FileExporter.NameDefault | src/exporters/file_exporter.py:258-276 | with none of those truthy the name is '未知歌曲' |
| FileExporter.ArtistAt | src/exporters/file_exporter.py:279-295 | only the first present key among artist, artists and artist_name decides the artist text; when its value gives no text the default artist is used |
| FileExporter.ArtistScalar | src/exporters/file_exporter.py:279-295 | a first artist value that is not a list becomes its str() text |
| FileExporter.ArtistDefault | src/exporters/file_exporter.py:279-295 | with none of the artist keys the artist is '未知艺术家' |
| FileExporter.ArtistStringList | src/exporters/file_exporter.py:279-295 | a non-empty list of strings is joined with ", " |
| FileExporter.ArtistEmptyList | src/exporters/file_exporter.py:279-295 | an empty list keeps '未知艺术家' |
| FileExporter.ArtistMixedList | src/exporters/file_exporter.py:279-295 | a list that starts with a string but holds a non-string keeps '未知艺术家' |
| FileExporter.ArtistDictList | src/exporters/file_exporter.py:279-295 | a list of dicts whose first dict has a name, and whose names are strings, gives those names joined with ", ", skipping dicts without a name |
| FileExporter.DurationRule | src/exporters/file_exporter.py:308-322 | the first truthy field among duration_ms, duration and length decides: an int-convertible value is converted and scaled, True counts as 1, a non-convertible value, a list or a dict gives 0 |
| FileExporter.DurationUnits | src/exporters/file_exporter.py:316-319 | a non-zero integer from duration or length below 10000 is seconds and is multiplied by 1000; duration_ms and larger values are kept |
| FileExporter.DurationDefault | src/exporters/file_exporter.py:308-322 | with no truthy duration field the duration is 0 |
| FileExporter.UrlRule | src/exporters/file_exporter.py:325-332 | the first present key among url, external_url, external_urls and href, in that order, decides: a dict with a spotify entry gives that entry, a string gives itself, anything else gives '' |
| FileExporter.UrlDefault | src/exporters/file_exporter.py:325-332 | with none of the URL keys the URL is '' |
| FileExporter.TxtLineFollowsColumns | src/exporters/file_exporter.py:561-587 | TXT line i is "{i+1}. " and the format's columns joined by " - " |
| FileExporter.CsvFollowsColumns | src/exporters/file_exporter.py:438-525 | the CSV header is '序号' and the column titles, each row i+1 and the column values, in the same order |
| FileExporter.JsonFollowsColumns | src/exporters/file_exporter.py:376-404 | each JSON entry carries '序号' = i+1 and the same columns under their JSON keys |
| FileExporter.TxtLineRendersCsvRow | src/exporters/file_exporter.py:438-587 | the TXT line is the str() texts of the CSV row's cells for the same song and format: the number, ". ", and the rest joined by " - " |
| FileExporter.PlaylistName | src/exporters/file_exporter.py:365 | the playlist name is the file's base name up to its first '.' (all of it when there is none), so it holds no '.' or '/' |
| FileExporter.ExportTxt | src/exporters/file_exporter.py:532-611 | two header lines (the time line ends in a blank line) and then one line per song, each its TXT line |
| FileExporter.ExportCsv | src/exporters/file_exporter.py:423-530 | the header and one row per song, every row as long as the header |
| FileExporter.ExportJson | src/exporters/file_exporter.py:349-421 | the document's name, time and format fields, and one entry per song in order |
| FileExporter.InitExportSettings | src/exporters/file_exporter.py:43-108 | the file format is always txt, csv or json and use_txt holds exactly for txt; stored JSON values win over QSettings; exactly the keys missing from the JSON settings are synced back |
| FileExporter.LegacyUseTxt | src/exporters/file_exporter.py:66-70 | with no stored file format the legacy export_use_txt flag picks txt or csv |
| FileExporter.InvalidQtFormatFallsBack | src/exporters/file_exporter.py:75-96 | an unknown QSettings file format is synced back as it is but used as txt |
| FileExporter.ChosenFormat | src/exporters/file_exporter.py:194-198 | a non-empty format_type is used; otherwise a given format, even an empty one; otherwise the configured file format |
| FileExporter.ExportFailure | src/exporters/file_exporter.py:200-237 | export fails exactly when the path is missing, there are no songs or the format is unsupported, with the path message first |
| FileExporter.Exporter.constructor | src/exporters/file_exporter.py:28-108 | the exporter holds exactly the initialised export settings for the given JSON and QSettings values, a valid file format with use_txt for txt only, and no last error |
| FileExporter.Exporter.Export | src/exporters/file_exporter.py:178-237 | returns True exactly when the checks pass; the file written is then the JSON document, CSV file or TXT lines of the normalised songs for the chosen kind; otherwise the error is recorded |
| FileExporter.WrittenTxtLine | src/exporters/file_exporter.py:532-611 | a written TXT file starts with the name and time lines, and line i+2 is the TXT line of song i |
| FileExporter.WrittenCsvRow | src/exporters/file_exporter.py:423-530 | a written CSV file has the format's header, and row i is the row of song i, as long as the header |
| FileExporter.WrittenJsonEntry | src/exporters/file_exporter.py:349-421 | a written JSON document carries the playlist name, time and format, and entry i is the entry of song i |
| FileExporter.Exporter.ThreadedExport | src/exporters/file_exporter.py:152-175 | the decorated call always returns True; the finished signal carries the export's result and error text |
| LegacyPlaylistView.StoredFormat | views/playlist_view.py:170-174 | the export format read from the store is never 'custom': absent or 'custom' gives 'name-artists', anything else is kept |
| LegacyPlaylistView.FormatEmptyName | views/playlist_view.py:1282-1286 | a track without a name gives the empty line |
| LegacyPlaylistView.FormatNameArtists | views/playlist_view.py:1288-1295 | 'name-artists' gives "name - artists" and 'artists-name' "artists - name"; with no artists both give the name |
| LegacyPlaylistView.FormatFull | views/playlist_view.py:1300-1305 | 'full' with artists and album gives "name - artists (album)" |
| LegacyPlaylistView.FormatUnknownIsNameArtists | views/playlist_view.py:1306-1307 | an unknown format formats like 'name-artists' |
| LegacyPlaylistView.FormatNonEmpty | views/playlist_view.py:1267-1317 | a track with a name always gives a non-empty line |
| LegacyPlaylistView.CsvFieldnames | views/playlist_view.py:1143-1155 | the CSV columns for each export format, all of them export fields |
| LegacyPlaylistView.CsvRow | views/playlist_view.py:1158-1180 | one cell per column, each the track's value for that column |
| LegacyPlaylistView.HeaderRow | views/playlist_view.py:1162-1169 | the header shows each column's localized label, or the column key when there is none |
| LegacyPlaylistView.FormatMatchesCsvRow | views/playlist_view.py:1143-1180 | with every field filled in, a format's TXT line is its CSV row joined by " - " |
| LegacyPlaylistView.DurationRoundTrip | views/playlist_view.py:1101-1104 | the "m:ss" text reads back as ms div 60000 and (ms mod 60000) div 1000, the seconds below 60 |
| LegacyPlaylistView.TrackInfoHasName | views/playlist_view.py:1110 | every kept track record has a name, so its TXT line is never empty |
| LegacyPlaylistView.TrackInfoOfWellFormed | views/playlist_view.py:1076-1118 | a well-formed selected track gives its name, the non-empty artist names joined by ", ", album, date, duration text and URL |
| LegacyPlaylistView.SortTracksPermutes | views/playlist_view.py:1428-1450 | the sort raises exactly when a key raises or two keys cannot be compared; otherwise it returns a permutation |
| LegacyPlaylistView.SortTracksOrdered | views/playlist_view.py:1428-1450 | the result is ordered by the derived key |
| LegacyPlaylistView.SortTracksStable | views/playlist_view.py:1428-1450 | tracks with equal keys keep their input order, also when reversed |
| LegacyPlaylistView.SortByOtherKeyKeepsOrder | views/playlist_view.py:1447-1450 | for 'order' or an unknown key the input order comes back even reversed, failing only on a non-dict item |
| LegacyPlaylistView.SearchMeaning | views/playlist_view.py:1808-1833 | a song passes the search iff the lowered name, album or some artist contains the query |
| LegacyPlaylistView.EmptyQueryMatchesAll | views/playlist_view.py:1808-1833 | an empty query keeps every song with a non-empty track |
| LegacyPlaylistView.Detached | views/playlist_view.py:1791-1800 | rebuilding the rows leaves the old checkboxes detached |
| LegacyPlaylistView.SetAttached | views/playlist_view.py:992-996 | setting the select-all state checks or unchecks exactly the attached checkboxes |
| LegacyPlaylistView.SelectedIndices | views/playlist_view.py:1022-1024 | the collected indices are exactly those of attached, checked checkboxes |
| LegacyPlaylistView.CheckedSongsMeaning | views/playlist_view.py:1022-1024 | a song is exported exactly when an attached checked box of its row exists |
| LegacyPlaylistView.ExportPicksUnsortedSong | views/playlist_view.py:1022-1080 | two songs sorted by name: ticking the first row selects song b, but the index picks a |
| LegacyPlaylistView.SafeName | views/playlist_view.py:1127 | the safe name has no '/' or '\\' and keeps every other character |
| LegacyPlaylistView.CsvRows | views/playlist_view.py:1170-1180 | one CSV row per selected track, in order |
| LegacyPlaylistView.TxtLinesComplete | views/playlist_view.py:1133-1137 | the TXT file has one formatted line per selected track |
| LegacyPlaylistView.SearchSongs | views/playlist_view.py:1808-1833 | the search loop keeps what the search definition keeps, in order |
| LegacyPlaylistView.NameFilter | views/playlist_view.py:2299-2322 | the filter loop keeps the songs whose name matches, in order |
| LegacyPlaylistView.BuildRows | views/playlist_view.py:1836-1870 | a row per song with a track and a fresh unchecked checkbox per row with an id, up to the first song whose `create_song_row` raises; there the loop stops, keeping that row's checkbox if its id was read, and reports the raise |
| LegacyPlaylistView.FirstRaise | views/playlist_view.py:1842-1845 | the position of the first song whose row raises: none exactly when no song raises, and every song before it reads |
| LegacyPlaylistView.BuiltRowsMeaning | views/playlist_view.py:1842-1870 | the rebuild gets through exactly when no song raises, and then shows all rows; otherwise it shows the rows before the first raising song |
| LegacyPlaylistView.StringTrackRaises | views/playlist_view.py:1589 | a song whose track is a string raises at `track.get('id')` |
| LegacyPlaylistView.NullDurationRaises | views/playlist_view.py:1733-1735 | a null `duration_ms` raises at the integer division |
| LegacyPlaylistView.StringAlbumRaises | views/playlist_view.py:1628-1694 | an album that is not a dict raises at `album.get`, whether or not artwork is shown |
| LegacyPlaylistView.ListUrlRaises | src/utils/cache_manager.py:172-203 | with artwork shown, a list-valued image url makes the cache lookup's handler raise |
| LegacyPlaylistView.StringArtistRaises | views/playlist_view.py:1671-1673 | an artist that is not a dict raises at `artist.get` |
| LegacyPlaylistView.IdOnlyTrackReads | views/playlist_view.py:1528-1735 | a track holding only an id gets its row, every lookup falling back to a default that reads |
| LegacyPlaylistView.StringTrackStopsRows | views/playlist_view.py:1842-1845 | a string track ends the rebuild at its position whatever follows: only the songs before it have rows and checkboxes |
| LegacyPlaylistView.ValidateCustomFormat | views/playlist_view.py:1489-1505 | valid iff non-empty and containing "{field}" for some export field |
| LegacyPlaylistView.RunSongLoader | views/playlist_view.py:34-80 | a non-empty cache without force_refresh is returned from the cache; otherwise all pages are concatenated and the k-th track gets original_index k, cached before the signal |
| LegacyPlaylistView.PlaylistView.constructor | views/playlist_view.py:145-234 | settings are read (the artwork flag kept as given), a stored 'custom' format is replaced by 'name-artists' and written back, the lists start empty, and the closing `load_songs()` leaves the view loading and not loaded |
| LegacyPlaylistView.PlaylistView.RefreshExportFormat | views/playlist_view.py:1375-1382 | the re-read format is never 'custom', and a stored 'custom' is written back as 'name-artists' |
| LegacyPlaylistView.PlaylistView.LoadSongs | views/playlist_view.py:1933-1999 | ignored while loading; otherwise the lists are emptied and a loader starts |
| LegacyPlaylistView.PlaylistView.OnLoadError | views/playlist_view.py:2000-2004 | an error clears is_loading |
| LegacyPlaylistView.PlaylistView.CreateSongList | views/playlist_view.py:1791-1894 | the visible songs are the search result (all songs for an empty query), sorted, and rebuilt as `BuildRows` does: the old checkboxes are detached, and the call reports success exactly when the search and sort get through and no row raises |
| LegacyPlaylistView.PlaylistView.LoadSongsCompleted | views/playlist_view.py:2041-2067 | loading ends, the tracks become the songs and the list is rebuilt; with no search text it succeeds exactly when the sort gets through and no row raises, and then shows every sorted song with a track |
| LegacyPlaylistView.PlaylistView.FilterSongs | views/playlist_view.py:2299-2334 | search mode follows the text; the full search result replaces the name-only filter; a success shows a row for every sorted visible song with a track, and with no text it succeeds exactly when no row raises |
| LegacyPlaylistView.PlaylistView.LeaveSearch | views/playlist_view.py:2285-2294 | a cleared query while searching ends search mode and shows all songs; it succeeds exactly when the sort gets through and no row raises, and then shows every sorted song with a track |
| LegacyPlaylistView.PlaylistView.OnSearchChanged | views/playlist_view.py:2280-2298 | the stripped lowered text is the query; an empty one shows all songs; a success shows a row for every sorted visible song with a track, and a row that raises is reported as failure |
| LegacyPlaylistView.PlaylistView.LoadMoreSongs | views/playlist_view.py:885-935 | a no-op with nothing pending or while loading; otherwise the first min(30, n) pending tracks are taken, batch ++ rest == old pending, and their rows and checkboxes are appended as `BatchRows` builds them; loading stays on exactly when an item raises; nothing in the view fills the pending tracks, so only the first guard is ever reached |
| LegacyPlaylistView.PlaylistView.CheckForLoadMore | views/playlist_view.py:1452-1488 | the next batch is requested iff tracks are pending, none is loading and the scroll is past 90 % |
| LegacyPlaylistView.PlaylistView.SetSelectAll | views/playlist_view.py:992-996 | a change of the select-all box checks or unchecks every attached checkbox |
| LegacyPlaylistView.PlaylistView.SelectAllSongs | views/playlist_view.py:2457-2460 | ticks the select-all box, which checks every attached checkbox when it was unticked |
| LegacyPlaylistView.PlaylistView.ClearSongSelection | views/playlist_view.py:2462-2468 | the select-all box and every attached checkbox end unticked |
| LegacyPlaylistView.PlaylistView.ToggleExportMode | views/playlist_view.py:1318-1373 | flips export mode; entering re-reads the format, leaving unticks everything |
| LegacyPlaylistView.PlaylistView.ExportSelected | views/playlist_view.py:1011-1266 | outside export mode it only enters it; no selection or no directory stops; otherwise the tracks of the checked rows, as the corrected lookup of Findings row 1 finds them, are written as TXT lines or CSV rows and export mode ends |
| LegacyPlaylistView.BatchRows | views/playlist_view.py:913-917 | the loop builds exactly the rows, checkboxes and flag of the built-rows definition for a subscripted batch: the rows of the items before the first that raises, where an item raises when it is not a dict holding "track" or when `create_song_row` raises on it, and a flag saying whether none raised |
| LegacyPlaylistView.CollectTrackInfos | views/playlist_view.py:1076-1123 | the chosen songs that are dicts with a usable track give their track records, in order; every other song is skipped |
| LegacyPlaylistView.BuildTxtLines | views/playlist_view.py:1134-1137 | one line per track whose formatted name is not empty, in track order, each ending in a newline |
| LegacyPlaylistView.BuildCsvRows | views/playlist_view.py:1170-1171 | one row per track, in track order, each holding that track's values in the field order |
| SongListManager.ArtistGets | src/ui/playlist_module/song_list_manager.py:266-269 | one name per artist, '未知艺术家' for an artist without one; raises exactly when some artist is not a dict |
| SongListManager.ProcessTrackData | src/ui/playlist_module/song_list_manager.py:240-300 | never raises: every outcome has id, name, album, a string artist and an image url; a raising body gives the error record; original_index is copied exactly when the item has one and the body succeeds |
| SongListManager.ArtistFieldOfDicts | src/ui/playlist_module/song_list_manager.py:264-270 | the artist field is the artist names joined by ", ", or '未知艺术家' for no artists; it raises exactly when a name is not a string |
| SongListManager.ProcessWellFormed | src/ui/playlist_module/song_list_manager.py:251-286 | a well-formed item gives the track's id and name, the album's name, the joined artist names, an empty image url, the track as raw_data and the item's original_index |
| SongListManager.ProcessFallsBackToItem | src/ui/playlist_module/song_list_manager.py:252-255 | an item whose track is falsy is itself read as the track |
| SongListManager.ProcessNonDict | src/ui/playlist_module/song_list_manager.py:290-300 | an item that is not a dict gives the error record named '处理错误' |
| SongListManager.FilterMatchMeaning | src/ui/playlist_module/song_list_manager.py:179-185 | a song with string fields matches iff its lowered name, artist or album contains the lowered text |
| SongListManager.FilterSongsMeaning | src/ui/playlist_module/song_list_manager.py:174-187 | when the loop finishes, a song is kept iff it matches, and filtering a concatenation filters its parts in order |
| SongListManager.SortWithoutKeyKeepsOrder | src/ui/playlist_module/song_list_manager.py:385-411 | when no song has the key, the order is kept in either direction |
| SongListManager.SortSongsMeaning | src/ui/playlist_module/song_list_manager.py:385-411 | a successful sort is a permutation ordered by key and stable for equal keys |
| SongListManager.BatchEnd | src/ui/playlist_module/song_list_manager.py:311 | the batch end advances past the start while songs remain, by at most 30, and never past the end |
| SongListManager.BatchesCover | src/ui/playlist_module/song_list_manager.py:303-346 | after k batches the cursor is min(30k, n) and the processed songs are exactly the first that many, in order |
| SongListManager.BatchesFinish | src/ui/playlist_module/song_list_manager.py:342-346 | enough batches process every pending song |
| SongListManager.Put | src/ui/playlist_module/song_list_manager.py:338 | the dict maps the key to the new item; a new key goes to the end of the key order, an old one keeps its place |
| SongListManager.AddAllLastWins | src/ui/playlist_module/song_list_manager.py:317-338 | a later record with the same id replaces the earlier row |
| SongListManager.AddAllKeepsOthers | src/ui/playlist_module/song_list_manager.py:317-338 | rows for other ids are unchanged and the key order only grows at the end |
| SongListManager.SelectedIds | src/ui/playlist_module/song_list_manager.py:442-454 | an id is returned iff its row exists and is checked |
| SongListManager.SetAllChecked | src/ui/playlist_module/song_list_manager.py:422-439 | every row, and only the existing rows, gets the given checked state |
| SongListManager.SetAllShown | src/ui/playlist_module/export_manager.py:88-188 | every row, and only the existing rows, shows or hides its checkbox |
| SongListManager.SelectionText | src/ui/playlist_module/song_list_manager.py:470-483 | "已选择 n 首歌曲" when some are selected, else "total 首歌曲" |
| SongListManager.SelectAllThenCount | src/ui/playlist_module/song_list_manager.py:422-454 | after select-all every id is selected in dict order; after clear none is |
| ExportManager.EffectiveFormat | src/ui/playlist_module/export_manager.py:294-297 | a format outside txt, csv and json becomes txt; a valid one is kept |
| ExportManager.ReplaceChainIsOnePass | src/ui/playlist_module/export_manager.py:305-316 | the chain of replace calls replaces every listed character by '_' in one pass |
| ExportManager.DefaultNameIsSafe | src/ui/playlist_module/export_manager.py:301-316 | the default "name_timestamp.fmt" keeps its length, has none of / \\ : * ? " < > \| and keeps every other character |
| ExportManager.ForceExtensionMeaning | src/ui/playlist_module/export_manager.py:351-359 | the path ends in ".fmt" case-insensitively, one that already did is unchanged, and forcing twice equals forcing once |
| ExportManager.SaveFilePath | src/ui/playlist_module/export_manager.py:336-347 | a raising or cancelled dialog gives the empty path |
| ExportManager.SaveFilePathExtension | src/ui/playlist_module/export_manager.py:345-361 | a chosen path comes back with the effective format's extension, unchanged when it had it |
| PlaylistModuleView.ViewText | src/ui/playlist_module/playlist_view.py:502-523 | the locale manager's answer, or the default when there is no manager, its lookup raises, or it answers with a dict; never a dict |
| PlaylistModuleView.RecordFilterMeaning | src/ui/playlist_module/song_list_manager.py:174-187 | with each item read through its record, an item is kept iff its record matches, and filtering distributes over concatenation |
| PlaylistModuleView.RecordFilterOfStrings | src/ui/playlist_module/song_list_manager.py:179-185 | an item whose record has a string name and album passes iff the text is in the lowered name, artist or album |
| PlaylistModuleView.FilterOnItemsRaises | src/ui/playlist_module/song_list_manager.py:179-183 | the filter as written raises on a raw playlist item, which has no "name" key |
| PlaylistModuleView.NameMatches | src/ui/playlist_module/song_list_manager.py:179-185 | an item whose record's name contains the text passes the filter |
| PlaylistModuleView.FilterOnRecordsKeeps | src/ui/playlist_module/song_list_manager.py:174-187 | reading the item's record, the same item and text keep the item |
| PlaylistModuleView.ProcessedRecordsHaveIds | src/ui/playlist_module/song_list_manager.py:320-325 | every processed record has an id, so no item of a batch is skipped |
| PlaylistModuleView.LoadedImageIsReused | src/ui/playlist_module/playlist_view.py:379-415 | after an image is stored for an id, requests for it reuse the pixmap; other ids are unaffected; an unknown id starts a loader |
| PlaylistModuleView.SongsOf | src/ui/playlist_module/export_manager.py:213 | the records of the given rows, in order |
| PlaylistModuleView.ExportSelectedMeaning | src/ui/playlist_module/export_manager.py:191-237 | no selection iff no row is checked; an export gets exactly the checked rows' records and a path with the effective extension; a cancelled dialog exports nothing |
| PlaylistModuleView.ExportOfOneSongCrashes | src/ui/playlist_module/export_manager.py:213 | with one checked row, the export as written crashes on .song_data; reading .track_data exports that record |
| PlaylistModuleView.SetEachRow | src/ui/playlist_module/song_list_manager.py:422-439 | the loop over the rows sets every row's checkbox flag and nothing else |
| PlaylistModuleView.GetSelectedSongIds | src/ui/playlist_module/song_list_manager.py:442-454 | the loop returns the checked ids in row order |
| PlaylistModuleView.CountSelected | src/ui/playlist_module/song_list_manager.py:457-468 | the loop counts the checked rows |
| PlaylistModuleView.AddBatch | src/ui/playlist_module/song_list_manager.py:317-338 | the loop gives exactly the batch definition's rows and flag: a row per record, keyed by its id, up to the first record `create_song_item` or the dict store raises on |
| PlaylistModuleView.FilterRecords | src/ui/playlist_module/song_list_manager.py:174-187 | the loop keeps what the filter definition keeps, and stops where it raises |
| PlaylistModuleView.PlaylistView.constructor | src/ui/playlist_module/playlist_view.py:96-155 | the name defaults to '未知播放列表', and the lists, cache, flags and timers start empty; a truthy playlist id runs `load_playlist()`, so the view is loading, shows the loading text and has started one loader without a forced refresh |
| PlaylistModuleView.PlaylistView.ClearSongList | src/ui/playlist_module/song_list_manager.py:354-363 | no rows remain |
| PlaylistModuleView.PlaylistView.AddNextSongsBatch | src/ui/playlist_module/song_list_manager.py:303-352 | nothing when nothing is pending; otherwise the batch's rows up to the first raising record, and the cursor moves to the batch end exactly when none raised |
| PlaylistModuleView.PlaylistView.AddSongsBatch | src/ui/playlist_module/song_list_manager.py:224-237 | the songs become pending and the first batch of at most 30 is added up to a raising record; the cursor is at the batch end, or at 0 after a raise |
| PlaylistModuleView.PlaylistView.CreateSongList | src/ui/playlist_module/song_list_manager.py:145-221 | skipped while a list is being created; otherwise the busy flag is cleared on every exit, the rows are rebuilt from the songs kept by the corrected record filter (Findings row 3) up to the first raising row, and the status says empty, no results or the count, unless a row raised |
| PlaylistModuleView.PlaylistView.FilterSongs | src/ui/playlist_module/song_list_manager.py:366-382 | ignored within 100 ms of the last filter; otherwise the time is recorded and the list rebuilt through the corrected record filter (Findings row 3), up to the first raising row |
| PlaylistModuleView.PlaylistView.SortSongs | src/ui/playlist_module/song_list_manager.py:385-419 | nothing without songs or for an unknown key; a raising sort changes nothing; otherwise the sort is recorded and the list rebuilt from the sorted songs through the corrected record filter (Findings row 3), up to the first raising row |
| PlaylistModuleView.PlaylistView.UpdateSongSelection | src/ui/playlist_module/song_list_manager.py:457-483 | the status shows the number of checked rows, or the total when none is checked |
| PlaylistModuleView.PlaylistView.SetSelection | src/ui/playlist_module/song_list_manager.py:486-500 | every row takes the checkbox state, so all or no ids are selected, and the status follows |
| PlaylistModuleView.PlaylistView.ToggleExportMode | src/ui/playlist_module/export_manager.py:88-188 | export mode flips; entering shows every checkbox, leaving hides them and clears the selection |
| PlaylistModuleView.PlaylistView.ExportSelected | src/ui/playlist_module/export_manager.py:191-237 | outside export mode it only enters it; inside, nothing of the view changes and the outcome is the corrected export definition's, which reads the selected items' track data (Findings row 2) |
| PlaylistModuleView.PlaylistView.LoadPlaylist | src/ui/playlist_module/playlist_view.py:183-242 | a loaded list is only rebuilt unless forced, and a raising row ends the call; a running load makes it a no-op; otherwise the rows are cleared, loading starts and a loader with force_refresh is appended to the started ones |
| PlaylistModuleView.PlaylistView.OnSongsLoaded | src/ui/playlist_module/playlist_view.py:244-280 | the songs are kept and listed; the status says loaded or loaded from cache and loading ends, unless a row raised, which leaves both as they were |
| PlaylistModuleView.PlaylistView.OnLoadError | src/ui/playlist_module/playlist_view.py:282-301 | loading ends with the load-error status |
| PlaylistModuleView.PlaylistView.RefreshSongs | src/ui/playlist_module/playlist_view.py:417-425 | a no-op while loading; otherwise a forced load, which clears the rows and starts a loader with force_refresh |
| PlaylistModuleView.PlaylistView.OnScroll | src/ui/playlist_module/playlist_view.py:427-453 | handled iff 100 ms or more have passed since the last handled scroll, whose time is then updated |
| PlaylistModuleView.PlaylistView.RequestSongImage | src/ui/playlist_module/playlist_view.py:379-399 | a cached pixmap is reused, otherwise a loader is started |
| PlaylistModuleView.PlaylistView.OnSongImageLoaded | src/ui/playlist_module/playlist_view.py:401-415 | the pixmap is cached under the track id |
| PlaylistModuleView.FilterStep | src/ui/playlist_module/song_list_manager.py:175-187 | no filter text keeps every song; otherwise the songs whose record's name, artist or album holds the lowered text, in order, or the raise of a record without those strings |
| PlaylistModuleView.FlipEach | src/ui/playlist_module/song_list_manager.py:422-439 | every listed row gets the flag, every other row is unchanged, and no row is added or removed |
| PlaylistModuleView.PlaylistView.ShowKept | src/ui/playlist_module/song_list_manager.py:189-216 | with nothing kept the rows are cleared when replacing and the status says no results; otherwise the first batch of kept songs gets rows up to a raising record, and the status shows the count unless one raised |
| PlaylistModuleView.NumberNameEndsFirstBatch | src/ui/playlist_module/song_list_manager.py:86 | a playlist whose one track has a number for a name gets no row, and the first batch reports the raise |
| SongListManager.BatchAdded | src/ui/playlist_module/song_list_manager.py:317-338 | the loop gets through exactly when no record raises, then with the rows of every record; otherwise with the rows of the records before a raising one |
| SongListManager.ProcessedCreateRaises | src/ui/playlist_module/song_list_manager.py:11-142 | a processed record raises in `create_song_item` or the dict store exactly when its name or album is neither a str nor None, or its id is a list or dict |
| SongListManager.NumberNameRaises | src/ui/playlist_module/song_list_manager.py:86 | a track named by a number adds no row and stops the batch |
| SongListManager.ListIdRaises | src/ui/playlist_module/song_list_manager.py:338 | a track whose id is a list adds no row, since storing it under that id raises |
| ThreadLoaders.LoaderRecord | src/ui/playlist_module/thread_loaders.py:125-191 | every record has id, name, album, artist, image url and an original_index |
| ThreadLoaders.LoaderRecordMeaning | src/ui/playlist_module/thread_loaders.py:160-191 | the loader's record agrees with the view's on every other field; a zero or missing index becomes a positive total, the error record has index 0 |
| ThreadLoaders.IndexedRecordsMeaning | src/ui/playlist_module/thread_loaders.py:217-231 | the k-th record carries original_index k + 1 whatever the total, because the loop overwrites the index |
| ThreadLoaders.LoaderRecordReindexed | src/ui/playlist_module/thread_loaders.py:220-222 | once the index is overwritten, the record no longer depends on the total |
| ThreadLoaders.LoadTracksLosesTracks | src/ui/playlist_module/thread_loaders.py:205-242 | as written every call loads nothing, whatever `force_refresh` and the pages, while the intended list of a one-track playlist has the track |
| ThreadLoaders.SongLoader.constructor | src/ui/playlist_module/thread_loaders.py:20-34 | the loader keeps force_refresh and starts running |
| ThreadLoaders.SongLoader.Stop | src/ui/playlist_module/thread_loaders.py:36-38 | the loader is no longer running |
| ThreadLoaders.SongLoader.Quit | src/ui/playlist_module/thread_loaders.py:40-43 | the loader is no longer running |
| ThreadLoaders.SongLoader.Terminate | src/ui/playlist_module/thread_loaders.py:45-48 | the loader is no longer running |
| ThreadLoaders.SongLoader.Checkpoint | src/ui/playlist_module/thread_loaders.py:58-60 | a check answers the running flag, cleared when stop came just before it |
| ThreadLoaders.SongLoader.Run | src/ui/playlist_module/thread_loaders.py:50-123 | a stop before a check ends the run silently; a cache hit without force emits the cached list; otherwise all pages are flattened, the k-th item gets original_index k, the list is cached and then emitted; a non-dict item gives the load error |
| ThreadLoaders.SongLoader.LoadTracks | src/ui/playlist_module/thread_loaders.py:193-242 | a cache hit without force returns the cached list; otherwise the pages' records are numbered from 1 and written to the cache |
| ThreadLoaders.NumberPages | src/ui/playlist_module/thread_loaders.py:217-231 | the paging loops number every item's record from 1 across the pages |
| ThreadLoaders.ImageType | src/ui/playlist_module/thread_loaders.py:293 | "playlist" exactly for the playlist_cover id, "track" otherwise |
| ThreadLoaders.ImageLoader.constructor | src/ui/playlist_module/thread_loaders.py:250-263 | the loader keeps url and track id and starts running |
| ThreadLoaders.ImageLoader.Stop | src/ui/playlist_module/thread_loaders.py:265-267 | the loader is no longer running |
| ThreadLoaders.ImageLoader.Quit | src/ui/playlist_module/thread_loaders.py:269-272 | the loader is no longer running |
| ThreadLoaders.ImageLoader.Terminate | src/ui/playlist_module/thread_loaders.py:274-277 | the loader is no longer running |
| ThreadLoaders.ImageLoader.Checkpoint | src/ui/playlist_module/thread_loaders.py:288-290 | a check answers the running flag, cleared when stop came just before it |
| ThreadLoaders.ImageLoader.Run | src/ui/playlist_module/thread_loaders.py:279-378 | at most one image signal, always last and for this track; a usable cached image is sent without a request; a bad URL or failed download sends the blank image; a download is cached before it is sent; a stop before a check sends nothing |
| ThreadLoaders.AppendIndexed | src/ui/playlist_module/thread_loaders.py:82-93 | when every item of the page is a dict, each gets the next original_index after the items before it, in order; otherwise the run raises at the first non-dict item, after indexing the items before it |
| UiComponents.BreakpointMeaning | src/ui/playlist_module/ui_components.py:443-560 | below 800 px factor 0.8 with a 150 px cover, below 1000 px 0.9 with 180 px, otherwise 1.0 with 192 px; a wider window never gets a smaller factor, cover or title font |
| UiComponents.EffectiveWidth | src/ui/playlist_module/ui_components.py:628 | max(viewport - 60, 500): at least both and equal to one |
| UiComponents.SongItemWidths | src/ui/playlist_module/ui_components.py:630-681 | index and checkbox 30 px, artwork 40 px below 800 and 50 px above, and the text columns at least 60, 50 and 60 px |
| UiComponents.WidthsAreShares | src/ui/playlist_module/ui_components.py:632-681 | at least 310 px remain, so each text column is its ratio's share rounded down and the three fit, so the reduction branch is never taken |
| UiComponents.ColumnSize | src/ui/playlist_module/ui_components.py:696-727 | the title, album and artist widgets get their width as minimum and 20 px more as maximum; other widgets are untouched |
| UiComponents.UpdateSongItemWidths | src/ui/playlist_module/ui_components.py:622-733 | every row but the stretch gets, widget by widget, the column sizes for the viewport; a row's count is of its layout items holding a widget |
| UiComponents.ResponsiveLayout.constructor | src/ui/playlist_module/ui_components.py:20-30 | not redrawing, factor 1.0, nothing deferred and no row sizes |
| UiComponents.ResponsiveLayout.AdjustResponsiveUi | src/ui/playlist_module/ui_components.py:429-619 | during a redraw the call is deferred and nothing else changes; otherwise the width's breakpoint is applied, the rows get the viewport's widths, and the redraw flag ends clear |
| CacheManager.ImageCacheDir | src/utils/cache_manager.py:236-249 | avatar, playlist and track get their own directory, anything else the images root |
| CacheManager.PlaylistsRoundTrip | src/utils/cache_manager.py:81-163 | written playlists read back for the same user up to 24 hours inclusive and not after, never for another user; a refresh is due after an hour |
| CacheManager.NoRefreshMeansHit | src/utils/cache_manager.py:81-139 | when no refresh is due the cached playlists are returned |
| CacheManager.TracksRoundTrip | src/utils/cache_manager.py:251-335 | written tracks read back up to 12 hours inclusive and not after; a refresh is due after an hour, and without one the tracks are there |
| CacheManager.CategoryKnown | src/utils/cache_manager.py:31-44 | the image status has a category exactly for the three known types |
| CacheManager.ImageLookupTypes | src/utils/cache_manager.py:165-204 | only a type outside avatar, playlist and track can make the image lookup raise |
| CacheManager.ClearExpiredKeepsLookups | src/utils/cache_manager.py:385-420 | clearing expired entries changes no image or track lookup made at the same time |
| CacheManager.CacheManager.constructor | src/utils/cache_manager.py:17-55 | the files as found on disk and the initial cache status |
| CacheManager.CacheManager.GetCachedPlaylists | src/utils/cache_manager.py:81-112 | the result is the lookup definition; a failing read records an error and a hit records the file's time |
| CacheManager.CacheManager.ShouldRefreshPlaylists | src/utils/cache_manager.py:114-139 | the result is the refresh definition |
| CacheManager.CacheManager.CachePlaylists | src/utils/cache_manager.py:141-163 | the file holds user, playlists and time, and the status records that time |
| CacheManager.CacheManager.GetCachedImage | src/utils/cache_manager.py:165-204 | the result is the lookup definition; a hit records the file's time under the type's status |
| CacheManager.CacheManager.CacheImage | src/utils/cache_manager.py:206-234 | the image is saved under the type's directory; the status update raises exactly for an unknown type |
| CacheManager.CacheManager.GetCachedTracks | src/utils/cache_manager.py:251-283 | the result is the lookup definition, with the same status bookkeeping per playlist |
| CacheManager.CacheManager.ShouldRefreshTracks | src/utils/cache_manager.py:285-307 | the result is the refresh definition |
| CacheManager.CacheManager.CacheTracks | src/utils/cache_manager.py:309-335 | the playlist's file holds the tracks and the time, and the status records it |
| CacheManager.CacheManager.ClearExpiredCache | src/utils/cache_manager.py:385-420 | week-old images, an expired playlists file and malformed or expired track files are removed; a broken playlists file stops before the track files |
| CacheManager.CacheManager.ClearAllCache | src/utils/cache_manager.py:422-450 | every file of the type directories, the tracks and the playlists file go, files in the images root stay, and the status is reset |
| CacheManager.RemoveExpiredImages | src/utils/cache_manager.py:390-394 | exactly the images in the three type directories older than seven days are removed; every other file is kept unchanged |
| CacheManager.RemoveStaleTracks | src/utils/cache_manager.py:405-417 | exactly the malformed track files and those older than twelve hours are removed; every other file is kept unchanged |
| LanguageManager.SplitJoin | src/utils/language_manager.py:164 | a dotted key splits back into its segments when no segment holds a '.' |
| LanguageManager.GetTextMeaning | src/utils/language_manager.py:153-177 | a dotted key finds the text under its segments in the current table; a missing segment, an empty text, an unknown language or no language gives the default |
| LanguageManager.GetTextOfSection | src/utils/language_manager.py:164-177 | a key ending at a non-empty dict returns that dict, not a text |
| LanguageManager.DetectLanguage | src/utils/language_manager.py:106-123 | zh_CN exactly for a locale starting with "zh_" or "zh-", en_US otherwise |
| LanguageManager.InitialLanguage | src/utils/language_manager.py:90-104 | 'auto' detects, a supported setting is kept, anything else is en_US |
| LanguageManager.EffectiveLanguage | src/utils/language_manager.py:125-144 | 'auto' detects, an unsupported code becomes en_US, and the result is always supported |
| LanguageManager.LanguageManager.constructor | src/utils/language_manager.py:27-104 | each supported language gets its file's table or an empty one, and the start-up language follows the setting |
| LanguageManager.LanguageManager.GetText | src/utils/language_manager.py:153-177 | the segment-by-segment walk gives the text definition's answer |
| LanguageManager.LanguageManager.SetLanguage | src/utils/language_manager.py:125-151 | the effective language is set; 'auto' is saved as is, another code only when it changes the language; the signal goes out exactly on a change |
| LanguageManager.WalkPrefixNone | src/utils/language_manager.py:166-175 | a walk cut short at a prefix stays cut short |
| Settings.MergeMeaning | src/config/settings.py:40-45 | every stored key with its value, every default key and nothing else; a default only where the file has none; merging is idempotent |
| Settings.FillDefaults | src/config/settings.py:40-45 | the loop over the defaults in any order gives the merge |
| Settings.LookupMeaning | src/config/settings.py:65-73 | the file's value, else the default setting, else the caller's default; with no usable file the defaults |
| Settings.SetThenGet | src/config/settings.py:75-83 | after a set the key reads back the value and every other key reads as before |
| Settings.SaveLoadRoundTrip | src/config/settings.py:30-63 | loading what was saved gives it merged with the defaults, and re-saving what was loaded changes nothing |
| Settings.SettingsStore.LoadSettings | src/config/settings.py:30-49 | the merged settings, or the defaults with no usable file |
| Settings.SettingsStore.SaveSettings | src/config/settings.py:51-63 | the file holds the given settings |
| Settings.SettingsStore.GetSetting | src/config/settings.py:65-73 | the lookup definition |
| Settings.SettingsStore.SetSetting | src/config/settings.py:75-83 | the file holds the loaded settings with the one key updated |
| MainSettings.LoadSettings | main.py:29-56 | no file or a failed read gives the five window defaults; a file is merged with them, keeping every stored value |
| MainSettings.SaveLoadRoundTrip | main.py:29-70 | loading what was saved gives it merged with the window defaults |
| ThreadManager.RemoveFirst | src/utils/thread_manager.py:57-60 | list.remove on a present thread drops exactly one occurrence |
| ThreadManager.RegisterThenUnregister | src/utils/thread_manager.py:29-60 | unregistering a thread registered once restores its category |
| ThreadManager.ThreadManager.constructor | src/utils/thread_manager.py:24-27 | no categories and no threads |
| ThreadManager.ThreadManager.RegisterThread | src/utils/thread_manager.py:29-47 | an absent category is created and the thread goes at its end, duplicates allowed |
| ThreadManager.ThreadManager.UnregisterThread | src/utils/thread_manager.py:49-60 | the first occurrence goes when the thread is registered there; otherwise nothing changes |
| ThreadManager.ThreadManager.StopThreads | src/utils/thread_manager.py:62-100 | every alive thread of the target categories is asked to stop, in order, and each target list is emptied while the keys stay |
| ThreadManager.ThreadManager.StopCategories | src/utils/thread_manager.py:70-100 | the loop over distinct categories empties each and asks its alive threads to stop |
| ThreadManager.ThreadManager.ClearCategory | src/utils/thread_manager.py:76-97 | one category's alive threads are asked to stop and its list is emptied |
| ThreadManager.ThreadManager.RequestStops | src/utils/thread_manager.py:78-95 | one stop request per alive thread of the list, in order |
| ThreadManager.ThreadManager.GetActiveThreads | src/utils/thread_manager.py:102-121 | a named category's list (empty when unknown), or every list in category order |
| ThreadManager.ThreadManager.SafeThreadRun | src/utils/thread_manager.py:123-157 | the new thread is registered before it is started |
| ThreadManager.ThreadManager.FinishThread | src/utils/thread_manager.py:140-149 | whether the target returns or raises, the thread unregisters itself |
| ThreadManager.Singleton.Get | src/utils/thread_manager.py:15-22 | the first call creates an empty manager, every later call returns the same one |
| Logger.LogLevelsExact | src/utils/logger.py:33-39 | the five lower-case level names, each mapped to its upper-case form |
| Logger.ConsoleLevelFor | src/utils/logger.py:59-65 | the stored name's level, INFO for an unknown name |
| Logger.InitialConsole | src/utils/logger.py:50-88 | at import the console has one handler at the stored level when adding it succeeded, none otherwise |
| Logger.RemoveIdKeeps | src/utils/logger.py:121-133 | removing a handler id keeps only handlers of the list with another id |
| Logger.SetLevelMeaning | src/utils/logger.py:117-187 | a known name in any case becomes the current and saved level in lower case; an unknown one changes nothing |
| Logger.ConsoleLevelsOfReplace | src/utils/logger.py:121-133 | removing the console handler and adding one leaves just its level |
| Logger.FixedKeepsOneConsole | src/utils/logger.py:121-187 | with the new ids kept, after a successful set the console has exactly one handler, at the new level |
| Logger.SetLevelAccumulatesHandlers | src/utils/logger.py:121-133 | as written, two calls leave two console handlers, DEBUG and ERROR |
| Logger.LoggerModule.constructor | src/utils/logger.py:50-115 | the import-time state for the stored level |
| Logger.LoggerModule.SetLevel | src/utils/logger.py:117-187 | the as-written set_level on the module state |
| Logger.LoggerModule.GetCurrentLevel | src/utils/logger.py:189-191 | the current level name |
| TimeUtils.RelativeTimeBuckets | utils/time_utils.py:6-65 | under 10 s (or in the future) "now", then seconds 10..59, minutes 1..59, hours 1..23, yesterday, days 2..6, and the date from a week on; an unparsable string is returned as is |
| TimeUtils.FormatCacheTime | utils/time_utils.py:67-83 | no timestamp gives the expired text, otherwise the cache text around the relative time |
| TimeUtils.FormatIso8601 | utils/time_utils.py:85-97 | the empty string stays empty, an unparsable one is returned unchanged, otherwise its rendering |
| ThreadManager.ThreadManager.StopOne | src/utils/thread_manager.py:72-99 | one category of the loop: its alive threads are asked to stop, in order, and its list is emptied; an unregistered category changes nothing |
| Login.LoadTokenMeaning | src/ui/login.py:189-220 | no files gives no token; a token without expires_at counts as expiring at 0; a legacy token is re-saved, deleted and returned; reading the token path changes no file; a token only comes from a file that holds it |
| Login.SaveLoadRoundTrip | src/ui/login.py:173-220 | a saved token loads back unchanged exactly while the time has not passed its expires_at |
| Login.LegacyMovedOnce | src/ui/login.py:197-205 | after a legacy token has moved, the next load reads it from the token path and the legacy file stays gone |
| Login.TokenStore.SaveToken | src/ui/login.py:173-187 | the token file holds the token |
| Login.TokenStore.LoadToken | src/ui/login.py:189-220 | the result and the new files are those of the load definition |
| Login.QueryOf | src/ui/login.py:63 | the query part is no longer than the path |
| Login.CodeValues | src/ui/login.py:64 | parse_qs keeps only non-blank code values |
| Login.FirstCode | src/ui/login.py:65-67 | params['code'][0], never blank, None when there is no code |
| Login.Handle | src/ui/login.py:59-125 | 200 exactly when a callback path's first code exchanges for a dict holding access_token, which is returned; 404 otherwise |
| Login.OtherPathsRefused | src/ui/login.py:62 | a path outside the callback prefix gets 404 whatever its query |
| Login.CallbackWithCode | src/ui/login.py:59-125 | the callback with ?code=c and further fields gives 200 with c's token when it holds access_token, and 404 when the exchange raises |
| Login.BlankCodeRefused | src/ui/login.py:64-65 | a blank code is dropped by parse_qs and refused |
| Login.AuthState.constructor | src/ui/login.py:40-56 | no token, not authorized, no server, no thread and no browser opened |
| Login.AuthState.DoGet | src/ui/login.py:59-125 | a successful exchange sets access_token, saves the token and sets authorized; nothing changes otherwise |
| Login.AuthState.StartLocalServer | src/ui/login.py:137-147 | nothing while a server is active; a failed bind leaves it inactive; otherwise it is open and active |
| Login.AuthState.FinishLocalServer | src/ui/login.py:147-155 | one request is handled while open, and the server always ends inactive and closed |
| Login.AuthState.LoginSpotify | src/ui/login.py:157-171 | clears authorized, starts a server thread unless one is active, and opens the browser |
| Login.LoginWindow.constructor | src/ui/login.py:226-266 | no login in progress, button enabled, retry hidden, timer stopped, welcome text |
| Login.LoginWindow.UpdateUiTexts | src/ui/login.py:426-436 | the status goes back to the welcome text |
| Login.LoginWindow.OnLoginClicked | src/ui/login.py:438-450 | ignored during a login; otherwise login in progress, button disabled, retry shown, waiting text, timer on, and login_spotify run |
| Login.LoginWindow.OnRetryClicked | src/ui/login.py:452-470 | clears authorized, closes an open server, signs in again with the retrying text and the timer on |
| Login.LoginWindow.CheckAuthStatus | src/ui/login.py:472-483 | once authorized the signal is emitted, the main window scheduled, the timer stopped and retry hidden; a server that ended unauthorized during a login shows the incomplete text and re-enables the button |
| Login.LoginWindow.OnAuthStatusChanged | src/ui/login.py:485-489 | a true status shows the success text and schedules the main window |
| Login.LoginWindow.OpenMainWindow | src/ui/login.py:491-550 | a truthy loaded token with access_token opens the main window with it; a missing or expired token shows the invalid-token text, a token without access_token the error text, and login is re-enabled |
| Sidebar.LoadPlaylistsThread | src/ui/sidebar_view.py:562-580 | the first page's playlists followed by every further page's, in order, or the error signal when an API call raised |
| Sidebar.LoadedKeepsPages | src/ui/sidebar_view.py:567-573 | each further page is appended after the pages before it, nothing dropped |
| Sidebar.FirstMatch | src/ui/sidebar_view.py:640-646 | the first item equal to the clicked playlist, or none |
| Sidebar.ClickRaisesMeaning | src/ui/sidebar_view.py:631-651 | a playlist with an id can be clicked when nothing is selected, and when it is itself selected exactly if it has a name |
| Sidebar.SidebarView.constructor | src/ui/sidebar_view.py:224-254 | not loaded, expanded, on the loading page with no items and nothing selected |
| Sidebar.SidebarView.LoadPlaylists | src/ui/sidebar_view.py:548-560 | nothing once loaded; otherwise the loading page and a new loading thread |
| Sidebar.SidebarView.ShowErrorState | src/ui/sidebar_view.py:582-585 | the failure text on the empty page |
| Sidebar.SidebarView.ClearPlaylists | src/ui/sidebar_view.py:612-622 | no items and no selection |
| Sidebar.SidebarView.HandlePlaylistsLoaded | src/ui/sidebar_view.py:587-629 | one unselected item per playlist on the content page, or the empty page for none, and loaded either way; a playlist whose item raises ends the call with the items before it, leaving the page and the loaded flag |
| Sidebar.Added | src/ui/sidebar_view.py:595-597 | the items added are every playlist, or exactly those before the first whose `PlaylistItem` raises |
| Sidebar.AddedStopsAt | src/ui/sidebar_view.py:595-597 | a raising playlist after readable ones ends the items there, whatever follows |
| Sidebar.ItemRaisesCases | src/ui/sidebar_view.py:67-133 | `PlaylistItem` raises on a non-dict, on a number for a name and on images that are a string or a list of non-dicts; a named playlist, or one whose first image is a dict, does not |
| Sidebar.SidebarView.OnPlaylistItemClicked | src/ui/sidebar_view.py:631-651 | the old selection is unmarked, the first equal item becomes the one marked selection, and the playlist is sent on; a click that raises changes nothing |
| Sidebar.SidebarView.AtMostOneSelected | src/ui/sidebar_view.py:631-651 | at most one item is marked, and a marked item is the selection |
| Sidebar.SidebarView.ReloadPlaylists | src/ui/sidebar_view.py:653-664 | the loading page, the loaded flag reset and another loading thread |
| Sidebar.SidebarView.ToggleSidebar | src/ui/sidebar_view.py:666-722 | the collapsed state flips, the width aims at 50 or 200 and the new state is emitted |
| Topbar.MenuPosition | src/ui/topbar_view.py:395-414 | right-aligned with the avatar button and kept inside the window's left and right edges; below the button unless it would pass the bottom, then above |
| Topbar.NameText | src/ui/topbar_view.py:488-492 | a string name is shown as it is and a null name as the empty text; any other value has no text |
| Topbar.UserInfoResult | src/ui/topbar_view.py:480-511 | the display name when it is a string or null, else the unknown-user text; an avatar URL only with a name and truthy images, taken from the first image |
| Topbar.UserInfoMeaning | src/ui/topbar_view.py:480-511 | a name without images keeps the name; a first image with a URL loads that avatar; a null name shows empty; bad images or no user leave the unknown user |
| Topbar.TopbarView.constructor | src/ui/topbar_view.py:23-44 | not logging out, connected, the loading text, no avatar yet |
| Topbar.TopbarView.UpdateUiTexts | src/ui/topbar_view.py:46-76 | without a connection the unknown-user text; a name still showing the placeholder gets the translated loading text; any other name stays |
| Topbar.TopbarView.LoadUserInfo | src/ui/topbar_view.py:480-511 | the shown name, including the empty name of a null display name, and the avatar load are the user-info definition's |
| Topbar.TopbarView.OnAvatarLoadFailed | src/ui/topbar_view.py:513-530 | the failure is recorded and the default avatar shown when its file exists |
| Topbar.TopbarView.OnAvatarLoaded | src/ui/topbar_view.py:532-595 | a non-null image or pixmap becomes the rounded avatar; anything else takes the failure path with the track id or 'unknown' |
| Topbar.TopbarView.Logout | src/ui/topbar_view.py:612-672 | ignored while a logout runs; otherwise the token file is deleted and the login window shown; a failure clears the guard so the user can retry |
| LegacyTopbar.FetchResult | views/topbar_view.py:447-485 | connected exactly when the user loads with a string or null display name, an images entry, and a first image URL when the images are truthy; otherwise the unknown user |
| LegacyTopbar.LegacyTopbarView.constructor | views/topbar_view.py:56-76 | not logging out, connected, the loading text, and whether the token file exists |
| LegacyTopbar.LegacyTopbarView.LoadUserInfo | views/topbar_view.py:447-485 | the connection flag, the shown name (empty for a null display name) and the avatar load are the fetch definition's |
| LegacyTopbar.LegacyTopbarView.UpdateUiTexts | views/topbar_view.py:78-103 | without a connection the unknown-user text; the placeholder becomes the loading text; any other name stays |
| LegacyTopbar.LegacyTopbarView.Logout | views/topbar_view.py:529-582 | guarded by the logging-out flag, which a failure clears again; the token file is gone unless removing it failed |
| LegacyTopbar.FetchMeaning | views/topbar_view.py:447-485 | a failed fetch shows the unknown user and disconnects; a user with a name and empty images connects with that name; a null name with empty images connects with the empty name; one without images does not connect |
| Home.ShouldToggle | src/ui/home.py:367-380 | a toggle is scheduled exactly below 900 px while expanded or above 1100 px while collapsed |
| Home.Hysteresis | src/ui/home.py:367-380 | between 900 and 1100 px no toggle; after a toggle the same width asks for none; narrow ends collapsed, wide expanded |
| Home.SignificantChangeMeaning | src/ui/home.py:352-354 | a change of more than 5 % of a positive last width, either way, is significant; no change, or a last width of 0, never is |
| Home.HomePage.constructor | src/ui/home.py:27-62 | the window size is stored, no playlist page, nothing pending and no child marked |
| Home.HomePage.AdjustResponsiveLayout | src/ui/home.py:367-380 | one toggle is scheduled exactly when the toggle rule says so |
| Home.HomePage.ResizeEvent | src/ui/home.py:343-365 | the layout is adjusted only on a significant change, the current page's geometry updated on a change above 5 px when the stack has a current page, and the new size stored |
| Home.HomePage.ClearContent | src/ui/home.py:387-394 | no playlist page remains |
| Home.HomePage.ShowPlaylist | src/ui/home.py:271-296 | the playlist already shown is refreshed and no page created; any other replaces the page with a new one; a missing id, or a missing name for the shown one, raises and changes nothing |
| Home.HomePage.AdjustLayout | src/ui/home.py:396-432 | the adjusting flag is set and every child with a background colour is marked for update, others unchanged |
| Home.HomePage.FinishLayoutAdjustment | src/ui/home.py:434-450 | every child ends unmarked and the adjusting flag is clear |
| SettingsView.FormatSize | src/ui/settings_view.py:680-686 | B below 1 KiB, KB below 1 MiB, MB below 1 GiB, GB below 1 TiB, TB from there, with the matching power of 1024 as divisor |
| SettingsView.FileFormatOf | src/ui/settings_view.py:819-830 | csv and json for their radios, txt for the TXT radio or any other button |
| SettingsView.SettingsView.constructor | src/ui/settings_view.py:19-146 | the page keeps its settings stores and language manager |
| SettingsView.SettingsView.OnFileFormatChanged | src/ui/settings_view.py:819-848 | TXT also stores export_use_txt "true" and CSV "false", JSON leaves it; the format goes to both stores |
| SettingsView.SettingsView.ChangeLanguage | src/ui/settings_view.py:648-666 | the current language changes nothing; another is saved to both stores, switched to and the texts redone |
| SettingsView.SettingsView.OnExportFormatChanged | src/ui/settings_view.py:803-817 | a non-empty key is stored in both stores; no key changes nothing |
| SettingsView.FileFormatReadsBack | src/ui/settings_view.py:819-848 | after a change the JSON settings read the new format back, other keys as before |
| LegacySettingsView.ShownFormat | views/settings_view.py:341-344 | a missing or 'custom' format shows as 'name-artists', any other as stored |
| LegacySettingsView.LegacySettingsView.constructor | views/settings_view.py:17-51 | the page keeps its settings and language manager |
| LegacySettingsView.LegacySettingsView.RefreshExportFormat | views/settings_view.py:840-844 | a stored 'custom' is replaced by 'name-artists' and written back; nothing else changes |
| LegacySettingsView.LegacySettingsView.OnFileFormatChanged | views/settings_view.py:973-976 | export_use_txt is "true" exactly when the TXT radio was clicked |
| LegacySettingsView.LegacySettingsView.OnExportFormatChanged | views/settings_view.py:966-971 | a non-empty key is stored as export_format |
| LegacySettingsView.LegacySettingsView.ChangeLanguage | views/settings_view.py:911-914 | the manager switches only to a language other than the current one |
| Splash.Tick | src/ui/splash.py:106-129 | below 100 the bar rises by 5 after the minimum time while under 90, by 2 otherwise, capped at 100; at 100 it stays |
| Splash.TickBounds | src/ui/splash.py:114-124 | a tick never lowers the bar or passes 100, and reaches 100 exactly from 98 on |
| Splash.AfterProgress | src/ui/splash.py:106-129 | after n ticks the bar stands at least at min(100, p + 2n), never lower than it started or above 100 |
| Splash.FullStaysFull | src/ui/splash.py:114 | at 100 further ticks change nothing |
| Splash.FiftyTicksFinish | src/ui/splash.py:106-129 | fifty ticks fill the bar however slowly the clock runs |
| Splash.SplashWindow.constructor | src/ui/splash.py:12-74 | the bar at 0, no timer running and nothing emitted |
| Splash.SplashWindow.Start | src/ui/splash.py:76-96 | the start time is the clock, the window centred by floor division, and both timers run |
| Splash.SplashWindow.UpdateProgress | src/ui/splash.py:106-129 | the bar takes the tick's value, and the tick that reaches 100 schedules the completion |
| Splash.SplashWindow.ForceFinish | src/ui/splash.py:98-104 | only while the progress timer runs: it stops, the bar is full and finished is emitted |
| Splash.SplashWindow.SafetyTimeout | src/ui/splash.py:96-104 | the safety timer ends and force_finish runs |
| Splash.SplashWindow.CompleteAnimation | src/ui/splash.py:131-135 | both timers stop and finished is emitted, whatever ran before |
| Splash.FinishedTwice | src/ui/splash.py:98-135 | with ticks on the 30 ms grid and an event-loop stall, a safety timeout inside the 100 ms before the scheduled completion emits finished twice |
| LoadingIndicator.Rotated | utils/loading_indicator.py:29-32 | the new angle is in [0, 360) and 10 degrees on, mod 360 |
| LoadingIndicator.RotationsAdd | utils/loading_indicator.py:29-32 | n rotations add 10n degrees mod 360 |
| LoadingIndicator.FullTurn | utils/loading_indicator.py:29-32 | the angle returns to its start exactly after a multiple of 36 rotations |
| LoadingIndicator.AlphaFades | utils/loading_indicator.py:73-78 | each dot is strictly more transparent than the one before, from 255 down to 55 |
| LoadingIndicator.DotsEvenlySpread | utils/loading_indicator.py:73-78 | the twelve dots stand at distinct angles, each 30 degrees past the one before |
| LoadingIndicator.LoadingIndicator.constructor | utils/loading_indicator.py:9-27 | angle 0, timer stopped, colour #1DB954 |
| LoadingIndicator.LoadingIndicator.Rotate | utils/loading_indicator.py:29-32 | the angle advances one rotation and a repaint is asked for |
| LoadingIndicator.LoadingIndicator.Start | utils/loading_indicator.py:34-36 | the timer runs |
| LoadingIndicator.LoadingIndicator.Stop | utils/loading_indicator.py:38-40 | the timer stops |
| LoadingIndicator.LoadingIndicator.IsRunning | utils/loading_indicator.py:42-44 | whether the timer runs |
| LoadingIndicator.LoadingIndicator.SetColor | utils/loading_indicator.py:46-54 | the colour is set and a repaint asked for |
| LoadingIndicator.LoadingIndicator.Dots | utils/loading_indicator.py:56-80 | twelve dots, the i-th at the angle plus 30i mod 360 with alpha 255 - 255i/14 |
| WelcomeView.GreetingKey | src/ui/welcome_view.py:199-205 | morning exactly for hours 5 to 11, afternoon for 12 to 17, evening otherwise |
| WelcomeView.GreetingsPartitionDay | src/ui/welcome_view.py:199-205 | every hour gets one of the three greetings, and seven hours are morning |
| WelcomeView.WelcomeLine | src/ui/welcome_view.py:207-213 | with a loaded name a text always results, else the greeting alone |
| WelcomeView.ErrorOnly | src/ui/welcome_view.py:194-196 | with an error label only the error text changes |
| WelcomeView.GreetingThenName | src/ui/welcome_view.py:210-211 | with a name the line is the greeting, a full-width comma and the name |
| WelcomeView.MessagesInOrder | src/ui/welcome_view.py:216-228 | the labels show the four keys' texts in order as far as there are labels, the rest stay, and the logo gets its text |
| WelcomeView.WelcomeView.constructor | src/ui/welcome_view.py:13-42 | four blank instruction labels, then `load_user_info()`: a user dict with a display name stores it and no error label exists, otherwise one error label; the labels are the retranslation of the blank page |
| WelcomeView.WelcomeView.UpdateUiTexts | src/ui/welcome_view.py:191-230 | the labels become the retranslation definition's |
| WelcomeView.WelcomeView.ShowMessages | src/ui/welcome_view.py:223-225 | the loop shows the texts up to the first that raises, and says whether all were shown |
| WelcomeView.WelcomeView.ShowMessage | src/ui/welcome_view.py:224-225 | label i shows key i's text when it is a string |
| WelcomeView.WelcomeView.LoadUserInfo | src/ui/welcome_view.py:169-189 | a user dict with a display name stores it; otherwise an error label is added; the texts are redone either way |
| StableSort.PySortedMeaning | src/ui/playlist_module/song_list_manager.py:405-407 | Python's sorted fails exactly when two keys cannot be compared; otherwise the result is a permutation that is ordered and stable for every key |

## Left out

- Qt widgets, style sheets, layouts, paint events, animations and pixmap scaling are not modelled. The views are reduced to the fields their handlers read and write.
- Text elision with `QFontMetrics` is not modelled, because it depends on font measurement.
- Network calls are not modelled: Spotify and spotipy requests, retry adapters, the TCP callback server and browser launches. API pages, cached reads and the OAuth code exchange are inputs. `Login` counts browser opens instead of performing them.
- File I/O, json and csv serialisation, and csv quoting are not modelled. The CSV model keeps cells as values; `FileExporter.TxtLineRendersCsvRow` relates their str() texts, while the csv module would write a None cell as an empty field rather than "None". Cache and settings files are maps and values. The exporters' output is a sequence of lines, rows or entries. A failed write, `os.walk` cache sizing and cache-file removal errors are left out.
- Threads, locks, signal delivery and timers are not modelled concurrently. Each `run`, callback or timer shot is one sequential step. Interleavings are left out, for example the login server thread against the UI timer. `ThreadManager`'s lock is left out.
- Loaders' `quit` and `terminate` calls into `QThread` are not modelled; only their effect on the running flag is.
- Python `hash(str(...))`, used for an image cache key, is the parameter `hash`.
- Floating point:
  - Column widths use exact hundredths for their ratios, and whole pixels.
  - The 5 % resize threshold is an exact integer comparison.
  - `format_size` gives only its unit and divisor, not the ".1f" rendering.
  - Sidebar animation progress, export progress percentages and the spinner's cosine and sine are left out.
  - The spinner dots' alpha uses the integer quotient. This is exact, since 14 does not divide 255·i for 0 < i < 12.
- Token time is an integer number of microseconds, where the source compares floats.
- The clock, the hour of day, screen geometry and the system locale are parameters.
- `TimeUtils.FormatIso8601`: ISO-8601 parsing and `strftime` are not modelled. A parsed timestamp carries its own `%Y-%m-%d` rendering.
- Strings are lower-cased for ASCII letters only. There is no Unicode case folding.
- `StableSort.KeyOf`: a list value is a key `<` rejects. Python compares lists element by element, so a sort over list-valued keys that Python completes is an error in the model.
- `Strings.SplitExt`, `Strings.Basename`: paths follow POSIX rules, with '/' as the only separator. Path joining inserts a '/' unless the directory is empty or already ends with one. The Windows rules of `ntpath`, where '\\' and drive letters also separate, are not modelled.
- `LegacyPlaylistView.Detached`, `LegacyPlaylistView.SetAttached`: Qt's `deleteLater` on the old rows is modelled as detaching their checkboxes, and a detached checkbox is never touched again. A `RuntimeError` from a checkbox whose C++ object Qt has already deleted is not modelled.
- `LegacyPlaylistView.BuildRows`: in `create_song_row`, the artwork cache lookup is only modelled as far as whether it raises (`get_cached_image` catches its own errors except an unhashable url). Starting the image-loader thread is assumed not to raise. Styling, sizes and the width-factor adjustments of each row are left out.
- `Json`: repr escapes are not modelled, and `str()` of a dict is one fixed marker string.
- `Json.ParseInt`: Python's `int()` also accepts `_` between digits, non-ASCII decimal digits and Unicode white space beyond the six ASCII characters of `IsSpace`. The model rejects such strings.
- `Login.Handle`: `parse_qs` percent-decoding and '+' decoding are not modelled.
- `Login.TokenStore.SaveToken`: the swallowed exception of a failed save is not modelled.
- The frozen-executable path logic in `login.py` is not modelled.
- The module-level `start_authorization` function of src/ui/login.py:568-666 is not modelled, because nothing in the program calls it.
- `Settings.SettingsStore.LoadSettings`: valid JSON that is not an object gets the defaults, as in the source, where `settings[key] = value` or the `in` test raises and the handler returns the defaults. The model does not capture one case: a list holding every default key, or a string holding each as a substring, makes no assignment, and the source returns that list or string unchanged.
- `Topbar.TopbarView.OnAvatarLoaded`: rounding and painting the avatar are not modelled; only which path is taken is. The caching in the older view's `on_avatar_loaded` is left out.
- `Sidebar.SidebarView.ToggleSidebar`: only the flag and the target width are modelled. The item adjustments for the collapsed state and the animation are left out.
- `Home.HomePage.ShowPlaylist`: src/ui/playlist_view.py is not part of this model. The page shown is known by its playlist's `id`, and a refresh is counted.
- `WelcomeView.WelcomeView.UpdateUiTexts`: logging and styling are left out, and a label's `setText` on a non-string raises.
- `PlaylistModuleView.AddBatch`: only `song_items` is modelled, not the layout. A record whose id is unhashable has its row widget inserted into the layout before the dict store raises; the model gives it no row.
- PlaylistModuleView.PlaylistView.CreateSongList: the rows are built through the corrected record filter of Findings row 3 (`PlaylistModuleView.FilterOnRecordsKeeps`); the filter as written, which raises on raw items, is `PlaylistModuleView.FilterOnItemsRaises` and is not what the class runs.
- PlaylistModuleView.PlaylistView.FilterSongs: rebuilds the list through the same corrected filter, so the raise of `PlaylistModuleView.FilterOnItemsRaises` on a non-empty filter is not captured in the view.
- PlaylistModuleView.PlaylistView.SortSongs: rebuilds the list through the same corrected filter, so the raise of `PlaylistModuleView.FilterOnItemsRaises` after a sort with filter text is not captured in the view.
- PlaylistModuleView.PlaylistView.ExportSelected: follows the corrected export of Findings row 2 (`PlaylistModuleView.ExportSelectedMeaning`), with both corrections: the selected items' `track_data` is read, and `self.file_exporter = get_file_exporter()` is set, its `file_format` being the parameter `format`. The crash on `.song_data` is `PlaylistModuleView.ExportOfOneSongCrashes` and is not what the class runs. The `AttributeError` on `self.file_exporter` that would follow it is not modelled separately.
- LegacyPlaylistView.PlaylistView.ExportSelected: exports the songs of the checked rows as Findings row 1 intends (`LegacyPlaylistView.CheckedSongsMeaning`); the as-written lookup in unsorted order is `LegacyPlaylistView.ExportPicksUnsortedSong` and is not what the class runs.
- `ThreadLoaders.SongLoader.LoadTracks`: requests that raise inside the paging loop are not modelled; the pages are given.
- Files left out entirely:
  - create_dmg_background.py, convert_icon_windows.py and src/tools/convert_icon_windows.py generate images with PIL.
  - src/utils/image_loader.py is HTTP plus `QPixmap`.
  - utils/logger.py is a wrapper around loguru.
  - src/config/version.py holds constant getters.
  - src/exporters/__init__.py is a lazy singleton.
  - src/ui/playlist_module/__init__.py only re-exports.
  - src/ui/loading_view.py, views/error_view.py and src/ui/home_view.py are UI text and label wiring.

## Findings

| source | as written | input that shows it | evidently intended | confidence | as-written member | corrected member |
|---|---|---|---|---|---|---|
| views/playlist_view.py:1022-1080 | the index of a checked row is looked up in `visible_songs`, which is in unsorted order, while the rows are shown sorted | two songs that sorting swaps: ticking the first row exports the other song | export the songs whose own rows are checked | not executed | LegacyPlaylistView.ExportPicksUnsortedSong | LegacyPlaylistView.CheckedSongsMeaning |
| src/ui/playlist_module/export_manager.py:213-216 | the exported songs are read from `.song_data`, but song items carry `.track_data` (src/ui/playlist_module/song_list_manager.py:140); and `self.file_exporter`, read at :216 and :264-272, is assigned nowhere, while `get_file_exporter`, imported at :21, is never called | export mode on, one song selected: the export raises and nothing is written | both corrections: export the selected items' `track_data`, and set `self.file_exporter = get_file_exporter()` before the export reads it | not executed | PlaylistModuleView.ExportOfOneSongCrashes | PlaylistModuleView.ExportSelectedMeaning |
| src/ui/playlist_module/song_list_manager.py:173-187 | the filter reads `song["name"]` and `song["artist"]` on raw Spotify items, which have no such keys, and raises | the filter text "b" over one item `{"track": {"id": "1", "name": "b"}, ...}` raises instead of keeping it | match the filter on processed records | not executed | PlaylistModuleView.FilterOnItemsRaises | PlaylistModuleView.FilterOnRecordsKeeps |
| src/ui/playlist_module/thread_loaders.py:205-242 | `load_tracks` calls `get_playlist_tracks` and `cache_playlist_tracks`, which `CacheManager` does not define | any call, with or without `force_refresh`: `load_error` is emitted and the tracks are lost | use `get_cached_tracks` and `cache_tracks` | not executed | ThreadLoaders.LoadTracksLosesTracks | ThreadLoaders.SongLoader.LoadTracks |
| src/utils/logger.py:117-187 | `set_level` removes handlers by their import-time ids and never stores the ids of the handlers it adds | `set_level("debug")` then `set_level("error")` from an INFO console: consoles at DEBUG and ERROR both remain | keep the new ids so that exactly one console handler remains | not executed | Logger.SetLevelAccumulatesHandlers | Logger.FixedKeepsOneConsole |
