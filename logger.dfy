/**
 * The log level of `src/utils/logger.py`. The loguru logger is a list of handlers, each
 * with an id, a sink (console or `last.log`) and a minimum level; ids are handed out in
 * increasing order. The module keeps the ids of the handlers it added at import time and
 * the current level name; the `log_level` setting it writes is recorded in `saved`.
 */
module Logger {
  import opened Wrappers
  import Strings

  /** `LOG_LEVELS`. */
  const LogLevels: map<string, string> := map[
    "debug" := "DEBUG", "info" := "INFO", "warning" := "WARNING", "error" := "ERROR", "critical" := "CRITICAL"]

  /** LOG_LEVELS maps exactly the five lower-case names to their upper-case forms. */
  lemma LogLevelsExact()
    ensures LogLevels.Keys == {"debug", "info", "warning", "error", "critical"}
    ensures forall k :: k in LogLevels ==> Strings.Lower(LogLevels[k]) == k
  {
    assert Strings.Lower("DEBUG") == "debug";
    assert Strings.Lower("INFO") == "info";
    assert Strings.Lower("WARNING") == "warning";
    assert Strings.Lower("ERROR") == "error";
    assert Strings.Lower("CRITICAL") == "critical";
  }

  /** The console handler's level at import: the stored name's level, INFO for an unknown name. */
  function ConsoleLevelFor(stored: string): (r: string)
    ensures stored in LogLevels ==> r == LogLevels[stored]
    ensures stored !in LogLevels ==> r == "INFO"
  {
    if stored in LogLevels then LogLevels[stored] else "INFO"
  }

  datatype Sink = Console | LogFile
  datatype Handler = Handler(id: nat, sink: Sink, level: string)

  datatype LogState = LogState(
    handlers: seq<Handler>,
    nextId: nat,
    consoleId: Option<nat>,
    fileId: Option<nat>,
    current: string,
    saved: Option<string>)

  /** The state after import: the stored level, a console handler and a DEBUG file handler, each when adding it succeeded. */
  function Initial(stored: string, consoleOk: bool, fileOk: bool): LogState
  {
    var console := if consoleOk then [Handler(1, Console, ConsoleLevelFor(stored))] else [];
    var file := if fileOk then [Handler(if consoleOk then 2 else 1, LogFile, "DEBUG")] else [];
    LogState(console + file, 1 + |console| + |file|,
             if consoleOk then Some(1) else None, if fileOk then Some(if consoleOk then 2 else 1) else None,
             stored, None)
  }

  /** `logger.remove(id)`, a missing id (whose error is swallowed) removing nothing. */
  function RemoveId(hs: seq<Handler>, id: nat): seq<Handler>
  {
    if |hs| == 0 then []
    else RemoveId(hs[..|hs| - 1], id) + (if hs[|hs| - 1].id == id then [] else [hs[|hs| - 1]])
  }

  /** The levels of the console handlers, in order. */
  function ConsoleLevels(hs: seq<Handler>): seq<string>
  {
    if |hs| == 0 then []
    else ConsoleLevels(hs[..|hs| - 1]) + (if hs[|hs| - 1].sink == Console then [hs[|hs| - 1].level] else [])
  }

  /** At import the console has one handler, at the stored name's level, when adding it succeeded; the current level is the stored one. */
  lemma InitialConsole(stored: string, consoleOk: bool, fileOk: bool)
    ensures Initial(stored, consoleOk, fileOk).current == stored
    ensures ConsoleLevels(Initial(stored, consoleOk, fileOk).handlers) == if consoleOk then [ConsoleLevelFor(stored)] else []
  {
    var hs := Initial(stored, consoleOk, fileOk).handlers;
    if |hs| == 2 {
      assert hs[..1][..0] == [];
      assert ConsoleLevels(hs[..1]) == [hs[0].level];
      assert hs[1].sink == LogFile;
      assert ConsoleLevels(hs) == ConsoleLevels(hs[..1]);
    } else if |hs| == 1 {
      assert hs[..0] == [];
    }
  }

  /** What `logger.remove(id)` keeps comes from the list and has another id. */
  lemma {:induction false} RemoveIdKeeps(hs: seq<Handler>, id: nat)
    ensures forall x :: x in RemoveId(hs, id) ==> x in hs && x.id != id
    decreases |hs|
  {
    if |hs| > 0 {
      RemoveIdKeeps(hs[..|hs| - 1], id);
      assert forall x :: x in hs[..|hs| - 1] ==> x in hs;
    }
  }

  /** Remove the handler `id` names, when there is one, and add a new one for `sink` at `level`. */
  function Replace(s: LogState, id: Option<nat>, sink: Sink, level: string): (r: LogState)
  {
    if id.None? then s
    else s.(handlers := RemoveId(s.handlers, id.value) + [Handler(s.nextId, sink, level)], nextId := s.nextId + 1)
  }

  /**
   * `set_level` as written: a known name (in any case) becomes the current level, is saved,
   * and each import-time handler is removed and re-added at the new level. The ids of the
   * re-added handlers are not kept, so every later call removes nothing and adds one more.
   */
  function SetLevelAsWritten(s: LogState, level: string): (r: (LogState, bool))
  {
    var name := Strings.Lower(level);
    if name !in LogLevels then (s, false)
    else
      var s1 := s.(current := name, saved := Some(name));
      var s2 := Replace(s1, s.consoleId, Console, LogLevels[name]);
      (Replace(s2, s.fileId, LogFile, LogLevels[name]), true)
  }

  /** The evidently intended `set_level`: the ids of the re-added handlers are kept for the next call. */
  function SetLevelFixed(s: LogState, level: string): (r: (LogState, bool))
  {
    var name := Strings.Lower(level);
    if name !in LogLevels then (s, false)
    else (ReaddKept(s.(current := name, saved := Some(name)), LogLevels[name]), true)
  }

  /** Both import-time handlers re-added at `lvl`, with the new ids kept. */
  function ReaddKept(s: LogState, lvl: string): LogState
  {
    var s2 := Replace(s, s.consoleId, Console, lvl);
    var s3 := if s.consoleId.Some? then s2.(consoleId := Some(s.nextId)) else s2;
    var s4 := Replace(s3, s.fileId, LogFile, lvl);
    if s.fileId.Some? then s4.(fileId := Some(s3.nextId)) else s4
  }

  /** A known name, in any case, becomes the current level in lower case; an unknown one changes nothing. */
  lemma SetLevelMeaning(s: LogState, level: string)
    ensures var (r, ok) := SetLevelAsWritten(s, level);
      && (ok <==> Strings.Lower(level) in LogLevels)
      && (ok ==> r.current == Strings.Lower(level) && r.saved == Some(Strings.Lower(level)))
      && (!ok ==> r == s)
    ensures var (r, ok) := SetLevelFixed(s, level);
      && (ok <==> Strings.Lower(level) in LogLevels)
      && (ok ==> r.current == Strings.Lower(level) && r.saved == Some(Strings.Lower(level)))
      && (!ok ==> r == s)
  {
  }

  /**
   * The ids the module keeps name live handlers: the console id names every console
   * handler, the file id is another one, and all ids are below `nextId`.
   */
  predicate Tracked(s: LogState)
  {
    && s.consoleId.Some? && s.consoleId.value < s.nextId
    && (s.fileId.Some? ==> s.fileId.value < s.nextId && s.fileId.value != s.consoleId.value)
    && (forall h :: h in s.handlers ==> h.id < s.nextId)
    && (forall h :: h in s.handlers && h.sink == Console ==> h.id == s.consoleId.value)
  }

  /** Removing every console handler and adding one leaves just its level. */
  lemma ConsoleLevelsOfReplace(hs: seq<Handler>, id: nat, h: Handler)
    requires forall x :: x in hs && x.sink == Console ==> x.id == id
    requires h.sink == Console
    ensures ConsoleLevels(RemoveId(hs, id) + [h]) == [h.level]
  {
    NoConsoleLeft(hs, id);
    var r := RemoveId(hs, id);
    assert (r + [h])[..|r + [h]| - 1] == r;
  }

  lemma {:induction false} NoConsoleLeft(hs: seq<Handler>, id: nat)
    requires forall x :: x in hs && x.sink == Console ==> x.id == id
    ensures ConsoleLevels(RemoveId(hs, id)) == []
    decreases |hs|
  {
    if |hs| > 0 {
      var init := hs[..|hs| - 1];
      var last := hs[|hs| - 1];
      assert forall x :: x in init ==> x in hs;
      assert last in hs;
      NoConsoleLeft(init, id);
      var r := RemoveId(init, id);
      if last.id != id {
        assert last.sink != Console;
        assert RemoveId(hs, id) == r + [last];
        assert (r + [last])[..|r + [last]| - 1] == r;
      } else {
        assert RemoveId(hs, id) == r + [];
        assert r + [] == r;
      }
    }
  }

  /** Adding a non-console handler adds no console level. */
  lemma NonConsoleAppend(hs: seq<Handler>, h: Handler)
    requires h.sink != Console
    ensures ConsoleLevels(hs + [h]) == ConsoleLevels(hs)
  {
    assert (hs + [h])[..|hs + [h]| - 1] == hs;
  }

  /** Removing a non-console handler keeps the console levels. */
  lemma {:induction false} RemoveNonConsole(hs: seq<Handler>, id: nat)
    requires forall x :: x in hs && x.sink == Console ==> x.id != id
    ensures ConsoleLevels(RemoveId(hs, id)) == ConsoleLevels(hs)
    decreases |hs|
  {
    if |hs| > 0 {
      var init := hs[..|hs| - 1];
      var last := hs[|hs| - 1];
      assert forall x :: x in init ==> x in hs;
      assert last in hs;
      RemoveNonConsole(init, id);
      var r := RemoveId(init, id);
      if last.id != id {
        assert RemoveId(hs, id) == r + [last];
        assert (r + [last])[..|r + [last]| - 1] == r;
      } else {
        assert last.sink != Console;
        assert RemoveId(hs, id) == r + [];
        assert r + [] == r;
      }
    }
  }

  /**
   * With the ids kept, the kept ids stay accurate after every call, and once a level is
   * set the console has exactly one handler, at that level.
   */
  lemma FixedKeepsOneConsole(s: LogState, level: string)
    requires Tracked(s)
    ensures Tracked(SetLevelFixed(s, level).0)
    ensures SetLevelFixed(s, level).1 ==> ConsoleLevels(SetLevelFixed(s, level).0.handlers) == [LogLevels[Strings.Lower(level)]]
  {
    var name := Strings.Lower(level);
    if name in LogLevels {
      ReaddKeptTracked(s.(current := name, saved := Some(name)), LogLevels[name]);
    }
  }

  lemma ReaddKeptTracked(s: LogState, lvl: string)
    requires Tracked(s)
    ensures Tracked(ReaddKept(s, lvl))
    ensures ConsoleLevels(ReaddKept(s, lvl).handlers) == [lvl]
  {
    var n := s.nextId;
    var s3 := Replace(s, s.consoleId, Console, lvl).(consoleId := Some(n));
    ConsoleStepTracked(s, lvl);
    if s.fileId.Some? {
      FileStepTracked(s3, s.fileId.value, lvl);
    }
  }

  /** Re-adding the console handler and keeping its id keeps the ids accurate and leaves one console level. */
  lemma ConsoleStepTracked(s: LogState, lvl: string)
    requires Tracked(s)
    ensures var s3 := Replace(s, s.consoleId, Console, lvl).(consoleId := Some(s.nextId));
      && Tracked(s3) && s3.nextId == s.nextId + 1 && s3.fileId == s.fileId
      && ConsoleLevels(s3.handlers) == [lvl]
  {
    var n := s.nextId;
    var cid := s.consoleId.value;
    var h := Handler(n, Console, lvl);
    var hs2 := RemoveId(s.handlers, cid) + [h];
    ConsoleLevelsOfReplace(s.handlers, cid, h);
    RemoveIdKeeps(s.handlers, cid);
    assert forall x :: x in hs2 ==> x in RemoveId(s.handlers, cid) || x == h;
    assert forall x :: x in hs2 && x.sink == Console ==> x.id == n;
    assert forall x :: x in hs2 ==> x.id < n + 1;
  }

  /** Re-adding the file handler and keeping its id keeps the ids accurate and the console levels. */
  lemma FileStepTracked(s3: LogState, fid: nat, lvl: string)
    requires Tracked(s3) && fid < s3.nextId && fid != s3.consoleId.value
    ensures var s4 := Replace(s3, Some(fid), LogFile, lvl).(fileId := Some(s3.nextId));
      && Tracked(s4) && ConsoleLevels(s4.handlers) == ConsoleLevels(s3.handlers)
  {
    var f := Handler(s3.nextId, LogFile, lvl);
    var r := RemoveId(s3.handlers, fid);
    RemoveNonConsole(s3.handlers, fid);
    RemoveIdKeeps(s3.handlers, fid);
    NonConsoleAppend(r, f);
    assert forall x :: x in r + [f] ==> x in r || x == f;
  }

  /** With two calls the console ends up with two handlers, debug and error, so debug messages still print. */
  lemma SetLevelAccumulatesHandlers()
    ensures var s0 := Initial("info", true, false);
      var s1 := SetLevelAsWritten(s0, "debug").0;
      var s2 := SetLevelAsWritten(s1, "error").0;
      ConsoleLevels(s2.handlers) == ["DEBUG", "ERROR"]
  {
    var s1 := SetLevelAsWritten(Initial("info", true, false), "debug").0;
    FirstCallReplacesConsole();
    SecondCallAddsConsole(s1);
    var h2 := Handler(2, Console, "DEBUG");
    var h3 := Handler(3, Console, "ERROR");
    assert [h2, h3][..1] == [h2];
    assert [h2][..0] == [];
    assert ConsoleLevels([h2]) == ["DEBUG"];
  }

  /** The first call finds the import-time console handler 1 and replaces it by handler 2. */
  lemma FirstCallReplacesConsole()
    ensures SetLevelAsWritten(Initial("info", true, false), "debug").0
      == LogState([Handler(2, Console, "DEBUG")], 3, Some(1), None, "debug", Some("debug"))
  {
    var h1 := Handler(1, Console, "INFO");
    assert Strings.Lower("debug") == "debug";
    assert Initial("info", true, false).handlers == [h1];
    assert RemoveId([h1], 1) == RemoveId([], 1) + [];
  }

  /** The second call looks for handler 1 again, removes nothing and adds handler 3. */
  lemma SecondCallAddsConsole(s1: LogState)
    requires s1 == LogState([Handler(2, Console, "DEBUG")], 3, Some(1), None, "debug", Some("debug"))
    ensures SetLevelAsWritten(s1, "error").0.handlers == [Handler(2, Console, "DEBUG"), Handler(3, Console, "ERROR")]
  {
    var h2 := Handler(2, Console, "DEBUG");
    assert Strings.Lower("error") == "error";
    assert RemoveId([h2], 1) == RemoveId([], 1) + [h2];
  }

  /** The logger module's globals. */
  class LoggerModule {
    var state: LogState

    /** Import: the stored `log_level` setting and whether adding each handler succeeded. */
    constructor(stored: string, consoleOk: bool, fileOk: bool)
      ensures state == Initial(stored, consoleOk, fileOk)
    {
      state := Initial(stored, consoleOk, fileOk);
    }

    /** `set_level`. */
    method SetLevel(level: string) returns (ok: bool)
      modifies this
      ensures (state, ok) == SetLevelAsWritten(old(state), level)
    {
      var name := Strings.Lower(level);
      if name !in LogLevels {
        return false;
      }
      state := state.(current := name, saved := Some(name));
      var consoleId := state.consoleId;
      var fileId := state.fileId;
      state := Replace(state, consoleId, Console, LogLevels[name]);
      state := Replace(state, fileId, LogFile, LogLevels[name]);
      return true;
    }

    /** `get_current_level`. */
    method GetCurrentLevel() returns (r: string)
      ensures r == state.current
    {
      return state.current;
    }
  }
}
