/**
 * The file-name logic of the newer playlist view's export
 * (`src/ui/playlist_module/export_manager.py`, `_show_save_file_dialog`): the format
 * check, the default file name with the characters file systems reject replaced, and the
 * extension the returned path is forced to carry. Export mode and `export_selected`
 * act on the view state and are in `PlaylistModuleView`.
 */
module ExportManager {
  import opened Wrappers
  import Strings

  const ValidFormats: seq<string> := ["txt", "csv", "json"]

  /** An export format outside txt, csv and json is replaced by txt. */
  function EffectiveFormat(f: string): (r: string)
    ensures r in ValidFormats
    ensures f in ValidFormats ==> r == f
    ensures f !in ValidFormats ==> r == "txt"
  {
    if f in ValidFormats then f else "txt"
  }

  /** The characters replaced in the default name, in the order of the `replace` chain. */
  const BadChars: seq<char> := ['/', '\\', ':', '*', '?', '"', '<', '>', '|']

  /** `s.replace(c, r)` for single characters. */
  function ReplaceChar(s: string, c: char, r: char): (t: string)
    ensures |t| == |s|
    ensures forall i :: 0 <= i < |s| ==> t[i] == if s[i] == c then r else s[i]
  {
    seq(|s|, i requires 0 <= i < |s| => if s[i] == c then r else s[i])
  }

  /** The chain `.replace(cs[0], '_').replace(cs[1], '_')...`. */
  function ReplaceChain(s: string, cs: seq<char>): string
    decreases |cs|
  {
    if |cs| == 0 then s else ReplaceChain(ReplaceChar(s, cs[0], '_'), cs[1..])
  }

  /** Because '_' is never replaced, the chain is one pass over the characters. */
  lemma {:induction false} ReplaceChainIsOnePass(s: string, cs: seq<char>)
    requires '_' !in cs
    ensures ReplaceChain(s, cs) == Strings.ReplaceChars(s, set c | c in cs, '_')
    decreases |cs|
  {
    if |cs| > 0 {
      var s1 := ReplaceChar(s, cs[0], '_');
      ReplaceChainIsOnePass(s1, cs[1..]);
      var tail := set c | c in cs[1..];
      assert (set c | c in cs) == {cs[0]} + tail;
      assert Strings.ReplaceChars(s1, tail, '_') == Strings.ReplaceChars(s, set c | c in cs, '_');
    }
  }

  /** `f"{playlist_name}_{timestamp}.{export_format}"` with the bad characters replaced by '_'. */
  function DefaultName(playlistName: string, timestamp: string, format: string): string
  {
    ReplaceChain(playlistName + "_" + timestamp + "." + EffectiveFormat(format), BadChars)
  }

  /** The default name has none of the rejected characters and otherwise keeps the raw name. */
  lemma DefaultNameIsSafe(playlistName: string, timestamp: string, format: string)
    ensures var raw := playlistName + "_" + timestamp + "." + EffectiveFormat(format);
      var r := DefaultName(playlistName, timestamp, format);
      && |r| == |raw|
      && (forall i :: 0 <= i < |r| ==> r[i] !in BadChars)
      && (forall i :: 0 <= i < |r| && raw[i] !in BadChars ==> r[i] == raw[i])
  {
    var raw := playlistName + "_" + timestamp + "." + EffectiveFormat(format);
    BadCharsSet();
    ReplaceChainIsOnePass(raw, BadChars);
    var r := Strings.ReplaceChars(raw, set c | c in BadChars, '_');
    assert forall i :: 0 <= i < |r| ==> r[i] == if raw[i] in BadChars then '_' else raw[i];
  }

  /** '_' is not a rejected character, and the set of rejected characters is that of the chain. */
  lemma BadCharsSet()
    ensures '_' !in BadChars
    ensures forall c :: c in (set c | c in BadChars) <==> c in BadChars
  {
  }

  /** The returned path ends in ".fmt", case-insensitively; otherwise the `splitext` base gets it. */
  function ForceExtension(path: string, format: string): string
  {
    if Strings.EndsWith(Strings.Lower(path), "." + format) then path
    else Strings.SplitExt(path).0 + "." + format
  }

  lemma LowerEndsWith(base: string, format: string)
    requires Strings.IsLower(format)
    ensures Strings.EndsWith(Strings.Lower(base + "." + format), "." + format)
  {
    Strings.LowerConcat(base, "." + format);
    Strings.LowerOfLower("." + format);
  }

  /**
   * After `ForceExtension` the path ends in ".fmt" for a lower-case format, a path that
   * already did is unchanged, and forcing twice is forcing once.
   */
  lemma ForceExtensionMeaning(path: string, format: string)
    requires Strings.IsLower(format)
    ensures Strings.EndsWith(Strings.Lower(ForceExtension(path, format)), "." + format)
    ensures Strings.EndsWith(Strings.Lower(path), "." + format) ==> ForceExtension(path, format) == path
    ensures ForceExtension(ForceExtension(path, format), format) == ForceExtension(path, format)
  {
    if !Strings.EndsWith(Strings.Lower(path), "." + format) {
      LowerEndsWith(Strings.SplitExt(path).0, format);
    }
  }

  /**
   * What `_show_save_file_dialog` returns. `chosen` is the dialog's path, None when the
   * dialog raised; a cancelled dialog gives the empty path.
   */
  function SaveFilePath(format: string, chosen: Option<string>): (r: string)
    ensures chosen.None? || chosen == Some("") ==> r == ""
  {
    if chosen.None? || chosen.value == "" then ""
    else ForceExtension(chosen.value, EffectiveFormat(format))
  }

  /** A path the user picked always comes back with the effective format's extension. */
  lemma SaveFilePathExtension(format: string, chosen: string)
    requires chosen != ""
    ensures Strings.EndsWith(Strings.Lower(SaveFilePath(format, Some(chosen))), "." + EffectiveFormat(format))
    ensures Strings.EndsWith(Strings.Lower(chosen), "." + EffectiveFormat(format)) ==> SaveFilePath(format, Some(chosen)) == chosen
  {
    ForceExtensionMeaning(chosen, EffectiveFormat(format));
  }
}
