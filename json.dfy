/**
 * Python values as they appear in the program's dictionaries: song records,
 * Spotify API items, JSON settings files and translation tables.
 */
module Json {
  import opened Wrappers
  import Strings

  datatype Value =
    | Null
    | Bool(b: bool)
    | Int(i: int)
    | Str(s: string)
    | List(items: seq<Value>)
    | Obj(fields: map<string, Value>)

  /** Python truthiness (`if v:`). */
  predicate Truthy(v: Value)
  {
    match v
    case Null => false
    case Bool(b) => b
    case Int(i) => i != 0
    case Str(s) => s != ""
    case List(l) => l != []
    case Obj(m) => m != map[]
  }

  /** `d.get(key, default)`. */
  function Get(d: map<string, Value>, key: string, default: Value): Value
  {
    if key in d then d[key] else default
  }

  /** `QLabel(v)`: a str is the text and None the null parent; any other value raises `TypeError`. */
  predicate LabelArgument(v: Value)
  {
    v.Str? || v.Null?
  }

  /** Whether `v` can be a dict key: a list or a dict raises `TypeError: unhashable type`. */
  predicate Hashable(v: Value)
  {
    !v.List? && !v.Obj?
  }

  /** `v.get(key, default)` where `v` may not be a dict: None means `AttributeError`. */
  function GetAttr(v: Value, key: string, default: Value): Option<Value>
  {
    if v.Obj? then Some(Get(v.fields, key, default)) else None
  }

  /** `str(v)`. The rendering of a dict is not modelled and is a fixed marker. */
  function PyStr(v: Value): string
    decreases v, 1
  {
    match v
    case Null => "None"
    case Bool(b) => if b then "True" else "False"
    case Int(i) => Strings.IntToString(i)
    case Str(s) => s
    case List(l) => "[" + ReprList(l) + "]"
    case Obj(_) => "{...}"
  }

  /** `repr(v)`; string escapes are not modelled. */
  function Repr(v: Value): string
    decreases v, 2
  {
    if v.Str? then "'" + v.s + "'" else PyStr(v)
  }

  function ReprList(l: seq<Value>): string
    decreases l
  {
    if |l| == 0 then ""
    else if |l| == 1 then Repr(l[0])
    else Repr(l[0]) + ", " + ReprList(l[1..])
  }

  /** The list as Python strings, or None if some element is not a `str` (`', '.join` raises). */
  function AllStrings(vs: seq<Value>): (r: Option<seq<string>>)
    ensures r.Some? <==> forall k :: 0 <= k < |vs| ==> vs[k].Str?
    ensures r.Some? ==> |r.value| == |vs| && forall k :: 0 <= k < |vs| ==> r.value[k] == vs[k].s
  {
    if |vs| == 0 then Some([])
    else if !vs[0].Str? then None
    else
      match AllStrings(vs[1..])
      case None => None
      case Some(rest) => Some([vs[0].s] + rest)
  }

  // ---------------------------------------------------------------- int()

  predicate IsSpace(c: char)
  {
    c == ' ' || c == '\t' || c == '\n' || c == '\r' || c == '\U{B}' || c == '\U{C}'
  }

  function StripLeft(s: string): (r: string)
    ensures |r| <= |s| && (|r| > 0 ==> !IsSpace(r[0]))
    ensures r == s[|s| - |r|..]
  {
    if |s| > 0 && IsSpace(s[0]) then StripLeft(s[1..]) else s
  }

  function StripRight(s: string): (r: string)
    ensures |r| <= |s| && (|r| > 0 ==> !IsSpace(r[|r| - 1]))
    ensures r == s[..|r|]
  {
    if |s| > 0 && IsSpace(s[|s| - 1]) then StripRight(s[..|s| - 1]) else s
  }

  /** `s.strip()` for ASCII white space. */
  function Strip(s: string): string
  {
    StripRight(StripLeft(s))
  }

  /** A non-empty run of decimal digits and its value. */
  function ParseDigits(d: string): Option<nat>
  {
    if |d| > 0 && Strings.AllDigits(d) then Some(Strings.DigitsValue(d)) else None
  }

  /** An optionally signed run of decimal digits. */
  function ParseSigned(t: string): Option<int>
  {
    if |t| > 0 && t[0] == '-' then
      match ParseDigits(t[1..])
      case None => None
      case Some(n) => var m: int := n; Some(-m)
    else if |t| > 0 && t[0] == '+' then
      match ParseDigits(t[1..])
      case None => None
      case Some(n) => Some(n)
    else
      match ParseDigits(t)
      case None => None
      case Some(n) => Some(n)
  }

  /** `int(s)` for a string: optional sign and decimal digits, surrounding white space allowed. */
  function ParseInt(s: string): Option<int>
  {
    ParseSigned(Strip(s))
  }

  /** `int(v)`: None stands for the ValueError/TypeError it raises. */
  function ToInt(v: Value): Option<int>
  {
    match v
    case Int(i) => Some(i)
    case Bool(b) => Some(if b then 1 else 0)
    case Str(s) => ParseInt(s)
    case _ => None
  }

  lemma StripUnpadded(r: string)
    requires |r| > 0 && !IsSpace(r[0]) && !IsSpace(r[|r| - 1])
    ensures Strip(r) == r
  {
    assert StripLeft(r) == r;
  }

  lemma ParseUnsignedText(d: string)
    requires |d| > 0 && Strings.AllDigits(d)
    ensures ParseInt(d) == Some(Strings.DigitsValue(d) as int)
  {
    assert Strings.IsDigit(d[0]) && Strings.IsDigit(d[|d| - 1]);
    StripUnpadded(d);
  }

  lemma ParseNegativeText(d: string)
    requires |d| > 0 && Strings.AllDigits(d)
    ensures ParseInt("-" + d) == Some(-(Strings.DigitsValue(d) as int))
  {
    var r := "-" + d;
    assert r[1..] == d;
    assert Strings.IsDigit(d[|d| - 1]) && r[|r| - 1] == d[|d| - 1];
    StripUnpadded(r);
    assert ParseDigits(d) == Some(Strings.DigitsValue(d));
    assert ParseSigned(r) == Some(-(Strings.DigitsValue(d) as int));
  }

  /** `int(str(i)) == i`. */
  lemma ToIntOfStr(i: int)
    ensures ToInt(Str(Strings.IntToString(i))) == Some(i)
  {
    var n: nat := if i < 0 then -i else i;
    var d := Strings.NatToString(n);
    Strings.DigitsOfNat(n);
    if i < 0 {
      ParseNegativeText(d);
    } else {
      ParseUnsignedText(d);
    }
  }
}
