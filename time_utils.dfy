/**
 * `TimeUtils` of `utils/time_utils.py`. Times are whole microseconds (the resolution of
 * `datetime`), the current time is a parameter, and a localised text is its translation
 * key with the number formatted into it. Parsing an ISO 8601 string and rendering a date
 * with `strftime` are not modelled: a parsed timestamp carries its `%Y-%m-%d` rendering.
 */
module TimeUtils {
  import opened Wrappers

  const Second := 1000000
  const Minute := 60 * Second
  const Hour := 60 * Minute
  const Day := 24 * Hour

  /** What `format_relative_time` is given. */
  datatype Stamp =
    | At(micros: int, date: string)   // a datetime (or a string that parses to one), in local time
    | Unparsable(text: string)        // a string `fromisoformat` rejects
    | NotATime(text: string)          // anything else, by its `str()`

  /** A localised text with its `{time}` argument, or a plain string. */
  datatype Text = Localised(key: string, time: Option<int>) | Plain(s: string)

  /** `format_relative_time`. */
  function FormatRelativeTime(ts: Stamp, now: int): Text
  {
    match ts
    case Unparsable(s) => Plain(s)
    case NotATime(s) => Plain(s)
    case At(t, date) =>
      var diff := now - t;
      if diff < 10 * Second then Localised("date.now", None)
      else if diff < Minute then Localised("date.seconds_ago", Some(diff / Second))
      else if diff < Hour then Localised("date.minutes_ago", Some(diff / Minute))
      else if diff < Day then Localised("date.hours_ago", Some(diff / Hour))
      else if diff < 2 * Day then Localised("date.yesterday", None)
      else if diff < 7 * Day then Localised("date.days_ago", Some(diff / Day))
      else Plain(date)
  }

  /**
   * The buckets: under ten seconds, a future time included, is "now"; then whole seconds
   * in 10..59, minutes in 1..59, hours in 1..23, "yesterday" under two days, days in
   * 2..6, and from seven days the date. A string that does not parse comes back unchanged.
   */
  lemma RelativeTimeBuckets(t: int, date: string, now: int, s: string)
    ensures var r := FormatRelativeTime(At(t, date), now); var diff := now - t;
      && (diff < 10 * Second <==> r == Localised("date.now", None))
      && (10 * Second <= diff < Minute <==> r.Localised? && r.key == "date.seconds_ago")
      && (r.Localised? && r.key == "date.seconds_ago" ==> r.time.Some? && 10 <= r.time.value <= 59 && r.time.value == diff / Second)
      && (Minute <= diff < Hour <==> r.Localised? && r.key == "date.minutes_ago")
      && (r.Localised? && r.key == "date.minutes_ago" ==> r.time.Some? && 1 <= r.time.value <= 59)
      && (Hour <= diff < Day <==> r.Localised? && r.key == "date.hours_ago")
      && (r.Localised? && r.key == "date.hours_ago" ==> r.time.Some? && 1 <= r.time.value <= 23)
      && (Day <= diff < 2 * Day <==> r == Localised("date.yesterday", None))
      && (2 * Day <= diff < 7 * Day <==> r.Localised? && r.key == "date.days_ago")
      && (r.Localised? && r.key == "date.days_ago" ==> r.time.Some? && 2 <= r.time.value <= 6)
      && (diff >= 7 * Day <==> r.Plain?)
      && (diff >= 7 * Day ==> r == Plain(date))
    ensures FormatRelativeTime(Unparsable(s), now) == Plain(s)
  {
  }

  /** What `format_cache_time` gives: the expiry text, or the cache text around the relative time. */
  datatype CacheText = Expired | CacheInfo(relative: Text)

  function FormatCacheTime(ts: Option<Stamp>, now: int): (r: CacheText)
    ensures ts.None? <==> r == Expired
    ensures ts.Some? ==> r == CacheInfo(FormatRelativeTime(ts.value, now))
  {
    if ts.None? then Expired else CacheInfo(FormatRelativeTime(ts.value, now))
  }

  /**
   * `format_iso8601`: the empty string stays empty, a string that does not parse is
   * returned as it is, and otherwise its rendering (`rendered`) is returned.
   */
  function FormatIso8601(iso: string, rendered: Option<string>): (r: string)
    ensures iso == "" ==> r == ""
    ensures iso != "" && rendered.None? ==> r == iso
    ensures iso != "" && rendered.Some? ==> r == rendered.value
  {
    if iso == "" then "" else if rendered.None? then iso else rendered.value
  }
}
