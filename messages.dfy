/**
 * The error-message catalogue (model/Message.js): lookup of a message by key,
 * interpolation of `{{name}}` placeholders, and the printed `[key] message` form.
 */
module Messages {
  import opened Wrappers
  import opened Strs
  import Json

  /** One catalogue entry: its error code and its message text per locale. */
  datatype Entry = Entry(code: int, text: map<string, string>)

  type Catalog = map<string, Entry>

  /**
   * What `_getMsgObj` gives back: the key string itself for an unknown key,
   * the message object for a known one, or the TypeError raised when a
   * message missing in the locale is interpolated.
   */
  datatype MsgObj =
    | KeyOnly(key: string)
    | Found(code: int, key: string, errMessage: Option<string>)
    | TypeError

  /** What `lookup` gives back: the same object without its `key` property. */
  datatype Looked =
    | LookedKey(key: string)
    | LookedMsg(code: int, errMessage: Option<string>)
    | LookupTypeError

  /** The placeholder for interpolation key `k`: `{{k}}`. */
  function Placeholder(k: string): (r: string)
    ensures |r| == |k| + 4 && StartsWith(r, "{{")
  {
    "{{" + k + "}}"
  }

  /** The message after each interpolation pair, in order, replaced the first occurrence of its placeholder. */
  function Interpolated(msg: string, interp: seq<(string, string)>): (r: string)
    ensures interp == [] ==> r == msg
    decreases |interp|
  {
    if |interp| == 0 then msg
    else Interpolated(ReplaceFirst(msg, Placeholder(interp[0].0), interp[0].1), interp[1..])
  }

  /** The replacement loop of `_getMsgObj`, which reassigns `msg` once per interpolation key. */
  method Interpolate(msg: string, interp: seq<(string, string)>) returns (r: string)
    ensures r == Interpolated(msg, interp)
  {
    r := msg;
    var i := 0;
    while i < |interp|
      invariant 0 <= i <= |interp|
      invariant Interpolated(r, interp[i..]) == Interpolated(msg, interp)
    {
      assert interp[i..][1..] == interp[i + 1..];
      r := ReplaceFirst(r, Placeholder(interp[i].0), interp[i].1);
      i := i + 1;
    }
    assert interp[i..] == [];
  }

  /** `_getMsgObj(key, interpolation, locale)`. */
  function GetMsgObj(catalog: Catalog, key: string, interp: seq<(string, string)>, locale: string): (r: MsgObj)
    ensures key !in catalog <==> r == KeyOnly(key)
    ensures r.Found? ==> r.key == key && r.code == catalog[key].code
    ensures r.TypeError? <==> key in catalog && locale !in catalog[key].text && |interp| > 0
  {
    if key in catalog then
      var entry := catalog[key];
      if locale in entry.text then
        Found(entry.code, key, Some(Interpolated(entry.text[locale], interp)))
      else if |interp| == 0 then
        Found(entry.code, key, None)
      else
        TypeError
    else
      KeyOnly(key)
  }

  /**
   * `print(key, interpolation)`: the bare key when it is unknown, `[key] message`
   * otherwise. The locale is the process-wide one, whatever locale the caller
   * passes; `None` stands for the TypeError. A missing text prints `undefined`.
   */
  function Print(catalog: Catalog, key: string, interp: seq<(string, string)>, globalLocale: string): (r: Option<string>)
    ensures key !in catalog ==> r == Some(key)
    ensures key in catalog && globalLocale in catalog[key].text ==>
      r == Some("[" + key + "] " + Interpolated(catalog[key].text[globalLocale], interp))
  {
    match GetMsgObj(catalog, key, interp, globalLocale)
    case KeyOnly(k) => Some(k)
    case Found(_, _, m) => Some("[" + key + "] " + m.GetOr("undefined"))
    case TypeError => None
  }

  /** `print(key)` without interpolation, which cannot fail. */
  function PrintPlain(catalog: Catalog, key: string, globalLocale: string): (r: string)
    ensures Print(catalog, key, [], globalLocale) == Some(r)
  {
    if key in catalog then
      "[" + key + "] " + (if globalLocale in catalog[key].text then catalog[key].text[globalLocale] else "undefined")
    else key
  }

  /**
   * `print(error)` for a key of any type: the catalogue is searched under the
   * key's text; an unknown string comes back as it is, an unknown object as
   * `[key] ` followed by its own `err_message`. `None` stands for the
   * TypeError of reading `err_message` of an unknown `undefined` or `null`.
   */
  function PrintValue(catalog: Catalog, key: Json.Value, globalLocale: string): (r: Option<string>)
    ensures key.Str? ==> r == Some(PrintPlain(catalog, key.s, globalLocale))
    ensures r.None? <==> (key.Undefined? || key.Null?) && Json.ToText(key) !in catalog
  {
    var k := Json.ToText(key);
    if k in catalog then
      Some("[" + k + "] " + (if globalLocale in catalog[k].text then catalog[k].text[globalLocale] else "undefined"))
    else match key
      case Str(s) => Some(s)
      case Undefined => None
      case Null => None
      case Obj(f) => Some("[" + k + "] " + Json.ToText(Json.Get(f, "err_message")))
      case _ => Some("[" + k + "] undefined")
  }

  /** `lookup(key, interpolation, locale)`: the message object with `key` (and `msg`) deleted. */
  function Lookup(catalog: Catalog, key: string, interp: seq<(string, string)>, locale: string): (r: Looked)
    ensures key !in catalog ==> r == LookedKey(key)
    ensures key in catalog && locale in catalog[key].text ==>
      r == LookedMsg(catalog[key].code, Some(Interpolated(catalog[key].text[locale], interp)))
  {
    match GetMsgObj(catalog, key, interp, locale)
    case KeyOnly(k) => LookedKey(k)
    case Found(code, _, m) => LookedMsg(code, m)
    case TypeError => LookupTypeError
  }

  /**
   * A placeholder is replaced at its first occurrence only, by the value
   * with its `$` patterns expanded; the text around it is kept.
   */
  lemma FirstOccurrenceOnly(s: string, before: string, k: string, v: string, after: string)
    requires s == before + Placeholder(k) + after
    requires !Contains(before + Placeholder(k)[..|Placeholder(k)| - 1], Placeholder(k))
    ensures Interpolated(s, [(k, v)]) == before + Substitution(v, Placeholder(k), before, after) + after
    ensures '$' !in v ==> Interpolated(s, [(k, v)]) == before + v + after
  {
    var p := Placeholder(k);
    PlaceholderFoundAfter(before, p, after);
    assert s[..|before|] == before;
    assert s[|before| + |p|..] == after;
    assert [(k, v)][1..] == [];
  }

  /** The first occurrence of `p` in `before + p + after` is right after `before` when no earlier one can start in `before`. */
  lemma PlaceholderFoundAfter(before: string, p: string, after: string)
    requires |p| > 0
    requires !Contains(before + p[..|p| - 1], p)
    ensures IndexOf(before + p + after, p) == Some(|before|)
  {
    var s := before + p + after;
    var t := before + p[..|p| - 1];
    assert OccursAt(s, p, |before|) by {
      assert s[|before|..|before| + |p|] == p;
    }
    assert IndexOf(t, p).None?;
    assert t <= s by {
      assert s[..|t|] == t;
    }
    forall j | 0 <= j < |before| ensures !OccursAt(s, p, j) {
      assert !OccursAt(t, p, j);
      PrefixSlice(t, s, j, j + |p|);
    }
  }

  /** A slice that lies within a prefix is the same slice of the whole text. */
  lemma PrefixSlice(t: string, s: string, i: nat, j: nat)
    requires t <= s && i <= j <= |t|
    ensures s[i..j] == t[i..j]
  {
    assert forall m :: i <= m < j ==> s[m] == t[m];
  }

  /** The value `$&` puts the matched placeholder back, and `$$` gives a single `$`. */
  lemma DollarPatternsExpand(k: string)
    ensures Interpolated(Placeholder(k), [(k, "$&")]) == Placeholder(k)
    ensures Interpolated(Placeholder(k), [(k, "$$")]) == "$"
  {
    var p := Placeholder(k);
    assert "" + p + "" == p;
    ShorterAbsent("" + p[..|p| - 1], p);
    FirstOccurrenceOnly(p, "", k, "$&", "");
    FirstOccurrenceOnly(p, "", k, "$$", "");
    assert "$&"[2..] == "" && "$$"[2..] == "";
    assert Substitution("$&", p, "", "") == p + Substitution("", p, "", "");
    assert Substitution("$$", p, "", "") == "$" + Substitution("", p, "", "");
  }

  /** A message holding none of the placeholders, with values holding none either, is left as it is. */
  lemma {:induction false} NoPlaceholdersUnchanged(msg: string, interp: seq<(string, string)>)
    requires forall i :: 0 <= i < |interp| ==> !Contains(msg, Placeholder(interp[i].0))
    ensures Interpolated(msg, interp) == msg
    decreases |interp|
  {
    if |interp| > 0 {
      assert ReplaceFirst(msg, Placeholder(interp[0].0), interp[0].1) == msg;
      forall i | 0 <= i < |interp[1..]| ensures !Contains(msg, Placeholder(interp[1..][i].0)) {
        assert interp[1..][i] == interp[i + 1];
      }
      NoPlaceholdersUnchanged(msg, interp[1..]);
    }
  }

  /** A second occurrence of the same placeholder survives interpolation: only the first is replaced. */
  lemma SecondOccurrenceKept(k: string, v: string, mid: string)
    ensures Interpolated(Placeholder(k) + (mid + Placeholder(k)), [(k, v)]) ==
      Substitution(v, Placeholder(k), "", mid + Placeholder(k)) + (mid + Placeholder(k))
  {
    LeadingPlaceholder(k, v, mid + Placeholder(k));
  }

  /** A text that starts with the placeholder has it replaced right there. */
  lemma LeadingPlaceholder(k: string, v: string, rest: string)
    ensures Interpolated(Placeholder(k) + rest, [(k, v)]) == Substitution(v, Placeholder(k), "", rest) + rest
  {
    var p := Placeholder(k);
    var s := p + rest;
    assert Strs.StartsWith(s, p) by {
      assert s[..|p|] == p;
    }
    assert s[..0] == "" && s[0 + |p|..] == rest;
    assert [(k, v)][1..] == [];
  }

  /** A text shorter than a placeholder does not contain it. */
  lemma ShorterAbsent(t: string, p: string)
    requires |t| < |p|
    ensures !Contains(t, p)
  {
  }



}
