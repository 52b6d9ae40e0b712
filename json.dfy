/**
 * JavaScript values as the client keeps them in memory and writes them to its
 * record files. Objects are ORDERED lists of key/value pairs, as JavaScript
 * objects with string keys are, so that the object spread `{...a, ...b}` and
 * `JSON.stringify` can be stated exactly.
 */
module Json {
  import opened Wrappers
  import Strs

  datatype Value =
    | Undefined
    | Null
    | Bool(b: bool)
    | Num(n: int)
    | Str(s: string)
    | Arr(items: seq<Value>)
    | Obj(fields: seq<(string, Value)>)

  type Fields = seq<(string, Value)>

  /** JavaScript truthiness (`NaN` and non-integral numbers are not modelled). */
  predicate Truthy(v: Value) {
    match v
    case Undefined => false
    case Null => false
    case Bool(b) => b
    case Num(n) => n != 0
    case Str(s) => s != ""
    case _ => true
  }

  predicate HasKey(o: Fields, k: string) {
    exists i :: 0 <= i < |o| && o[i].0 == k
  }

  predicate UniqueKeys(o: Fields) {
    forall i, j :: 0 <= i < j < |o| ==> o[i].0 != o[j].0
  }

  /** `o[k]`, `None` for a missing key. */
  function Lookup(o: Fields, k: string): (r: Option<Value>)
    ensures r.Some? <==> HasKey(o, k)
    ensures r.Some? ==> exists i :: 0 <= i < |o| && o[i] == (k, r.value)
    decreases |o|
  {
    if |o| == 0 then None
    else if o[0].0 == k then Some(o[0].1)
    else
      assert HasKey(o, k) <==> HasKey(o[1..], k) by {
        if HasKey(o, k) {
          var i :| 0 <= i < |o| && o[i].0 == k;
          assert o[1..][i - 1].0 == k;
        }
        if HasKey(o[1..], k) {
          var i :| 0 <= i < |o[1..]| && o[1..][i].0 == k;
          assert o[i + 1].0 == k;
        }
      }
      var r := Lookup(o[1..], k);
      assert r.Some? ==> exists i :: 0 <= i < |o| && o[i] == (k, r.value) by {
        if r.Some? {
          var i :| 0 <= i < |o[1..]| && o[1..][i] == (k, r.value);
          assert o[i + 1] == (k, r.value);
        }
      }
      r
  }

  /** `o[k]` read as a JavaScript property access: `undefined` for a missing key. */
  function Get(o: Fields, k: string): Value {
    Lookup(o, k).GetOr(Undefined)
  }

  /** The assignment `o[k] = v`: an existing key keeps its position, a new key goes last. */
  function Set(o: Fields, k: string, v: Value): (r: Fields)
    ensures HasKey(o, k) ==> |r| == |o|
    ensures !HasKey(o, k) ==> r == o + [(k, v)]
    ensures forall i :: 0 <= i < |o| ==> r[i].0 == o[i].0
    decreases |o|
  {
    if |o| == 0 then [(k, v)]
    else if o[0].0 == k then [(k, v)] + o[1..]
    else
      var rest := Set(o[1..], k, v);
      assert HasKey(o, k) <==> HasKey(o[1..], k) by {
        if HasKey(o, k) {
          var i :| 0 <= i < |o| && o[i].0 == k;
          assert o[1..][i - 1].0 == k;
        }
      }
      [o[0]] + rest
  }

  lemma {:induction false} LookupSetSame(o: Fields, k: string, v: Value)
    ensures Lookup(Set(o, k, v), k) == Some(v)
    decreases |o|
  {
    if |o| > 0 && o[0].0 != k {
      LookupSetSame(o[1..], k, v);
      assert Set(o, k, v)[1..] == Set(o[1..], k, v);
    }
  }

  lemma {:induction false} LookupSetOther(o: Fields, k: string, v: Value, k': string)
    requires k' != k
    ensures Lookup(Set(o, k, v), k') == Lookup(o, k')
    decreases |o|
  {
    if |o| > 0 {
      if o[0].0 == k {
        assert Set(o, k, v)[1..] == o[1..];
      } else if o[0].0 != k' {
        LookupSetOther(o[1..], k, v, k');
        assert Set(o, k, v)[1..] == Set(o[1..], k, v);
      }
    }
  }

  lemma {:induction false} SetKeepsUnique(o: Fields, k: string, v: Value)
    requires UniqueKeys(o)
    ensures UniqueKeys(Set(o, k, v))
    ensures forall k' :: HasKey(Set(o, k, v), k') <==> HasKey(o, k') || k' == k
  {
    var r := Set(o, k, v);
    if HasKey(o, k) {
      forall k' | HasKey(r, k') ensures HasKey(o, k') || k' == k {
        var i :| 0 <= i < |r| && r[i].0 == k';
        assert o[i].0 == k';
      }
      forall k' | HasKey(o, k') ensures HasKey(r, k') {
        var i :| 0 <= i < |o| && o[i].0 == k';
        assert r[i].0 == k';
      }
    } else {
      assert r == o + [(k, v)];
      forall k' | HasKey(r, k') ensures HasKey(o, k') || k' == k {
        var i :| 0 <= i < |r| && r[i].0 == k';
        if i < |o| { assert o[i].0 == k'; }
      }
      forall k' | HasKey(o, k') ensures HasKey(r, k') {
        var i :| 0 <= i < |o| && o[i].0 == k';
        assert r[i].0 == k';
      }
      assert r[|o|].0 == k;
    }
  }

  /** The object spread `{...a, ...b}`: every property of `b`, in order, assigned onto a copy of `a`. */
  function Spread(a: Fields, b: Fields): Fields
    decreases |b|
  {
    if |b| == 0 then a else Spread(Set(a, b[0].0, b[0].1), b[1..])
  }

  /** In a record whose earlier keys differ in length from key `i`, looking that key up finds field `i`. */
  lemma {:induction false} LookupAt(o: Fields, i: nat)
    requires i < |o| && forall j :: 0 <= j < i ==> |o[j].0| != |o[i].0|
    ensures Lookup(o, o[i].0) == Some(o[i].1)
    decreases i
  {
    if i > 0 {
      assert o[1..][i - 1] == o[i];
      LookupAt(o[1..], i - 1);
    }
  }

  /** Looking up a key in a record with one more field in front. */
  lemma LookupCons(k: string, v: Value, o: Fields, key: string)
    ensures Lookup([(k, v)] + o, key) == if k == key then Some(v) else Lookup(o, key)
  {
    assert ([(k, v)] + o)[0] == (k, v) && ([(k, v)] + o)[1..] == o;
  }

  /**
   * Looking up the keys of a five-field record, written as one field in front
   * of another, whose keys differ in length.
   */
  lemma Five(a: string, va: Value, b: string, vb: Value, c: string, vc: Value, d: string, vd: Value, e: string, ve: Value)
    requires |a| != |b| && |a| != |c| && |a| != |d| && |a| != |e|
    requires |b| != |c| && |b| != |d| && |b| != |e| && |c| != |d| && |c| != |e| && |d| != |e|
    ensures var o := [(a, va)] + ([(b, vb)] + ([(c, vc)] + ([(d, vd)] + [(e, ve)])));
      Lookup(o, a) == Some(va) && Lookup(o, b) == Some(vb) && Lookup(o, c) == Some(vc)
      && Lookup(o, d) == Some(vd) && Lookup(o, e) == Some(ve)
  {
    var o5: Fields := [(e, ve)];
    var o4 := [(d, vd)] + o5;
    var o3 := [(c, vc)] + o4;
    var o2 := [(b, vb)] + o3;
    assert o5 == [(e, ve)] + [];
    LookupCons(e, ve, [], e);
    LookupCons(d, vd, o5, d); LookupCons(d, vd, o5, e);
    LookupCons(c, vc, o4, c); LookupCons(c, vc, o4, d); LookupCons(c, vc, o4, e);
    LookupCons(b, vb, o3, b); LookupCons(b, vb, o3, c); LookupCons(b, vb, o3, d); LookupCons(b, vb, o3, e);
    LookupCons(a, va, o2, a); LookupCons(a, va, o2, b); LookupCons(a, va, o2, c); LookupCons(a, va, o2, d);
    LookupCons(a, va, o2, e);
  }

  /** A key whose length no key of the record has is not in it. */
  lemma NoKeyOfLength(o: Fields, k: string)
    requires forall j :: 0 <= j < |o| ==> |o[j].0| != |k|
    ensures !HasKey(o, k)
  {
  }

  /** The keys and values of a three-property object literal with distinct keys. */
  lemma Three(a: string, va: Value, b: string, vb: Value, c: string, vc: Value, k: string)
    requires a != b && a != c && b != c
    ensures var o := [(a, va), (b, vb), (c, vc)];
      UniqueKeys(o) && (HasKey(o, k) <==> k == a || k == b || k == c)
      && Lookup(o, a) == Some(va) && Lookup(o, b) == Some(vb) && Lookup(o, c) == Some(vc)
  {
    var o := [(a, va), (b, vb), (c, vc)];
    assert o[1..] == [(b, vb), (c, vc)] && o[1..][1..] == [(c, vc)];
    if HasKey(o, k) {
      var i :| 0 <= i < 3 && o[i].0 == k;
    }
    assert o[0].0 == a && o[1].0 == b && o[2].0 == c;
  }

  /** How the keys of a non-empty object split between its first pair and the rest. */
  lemma HasKeyCons(b: Fields, k: string)
    requires |b| > 0
    ensures HasKey(b, k) <==> b[0].0 == k || HasKey(b[1..], k)
  {
    if HasKey(b, k) && b[0].0 != k {
      var i :| 0 <= i < |b| && b[i].0 == k;
      assert b[1..][i - 1].0 == k;
    }
    if HasKey(b[1..], k) {
      var i :| 0 <= i < |b[1..]| && b[1..][i].0 == k;
      assert b[i + 1].0 == k;
    }
  }

  lemma UniqueTail(b: Fields)
    requires |b| > 0 && UniqueKeys(b)
    ensures UniqueKeys(b[1..]) && !HasKey(b[1..], b[0].0)
  {
    forall i | 0 <= i < |b[1..]| ensures b[1..][i].0 != b[0].0 {
      assert b[1..][i] == b[i + 1];
    }
  }

  /**
   * What `{...a, ...b}` holds: the keys of `b` take `b`'s values, every other
   * key keeps `a`'s value.
   */
  lemma {:induction false} SpreadLookup(a: Fields, b: Fields, k: string)
    requires UniqueKeys(b)
    ensures Lookup(Spread(a, b), k) == if HasKey(b, k) then Lookup(b, k) else Lookup(a, k)
    decreases |b|
  {
    if |b| > 0 {
      var a' := Set(a, b[0].0, b[0].1);
      UniqueTail(b);
      HasKeyCons(b, k);
      SpreadLookup(a', b[1..], k);
      if b[0].0 == k {
        LookupSetSame(a, k, b[0].1);
      } else {
        LookupSetOther(a, b[0].0, b[0].1, k);
      }
    }
  }

  /** Spreading keeps keys unique and holds exactly the keys of both objects. */
  lemma {:induction false} SpreadKeys(a: Fields, b: Fields)
    requires UniqueKeys(a)
    ensures UniqueKeys(Spread(a, b))
    ensures forall k :: HasKey(Spread(a, b), k) <==> HasKey(a, k) || HasKey(b, k)
    decreases |b|
  {
    if |b| > 0 {
      var a' := Set(a, b[0].0, b[0].1);
      SetKeepsUnique(a, b[0].0, b[0].1);
      SpreadKeys(a', b[1..]);
      forall k ensures HasKey(b, k) <==> HasKey(b[1..], k) || k == b[0].0 {
        HasKeyCons(b, k);
      }
    }
  }

  /** Spreading an empty object changes nothing. */
  lemma SpreadEmpty(a: Fields)
    ensures Spread(a, []) == a
  {
  }

  /** `a || b`. */
  function Or(a: Value, b: Value): Value {
    if Truthy(a) then a else b
  }

  /** `String(v)`, as a template literal renders a value. */
  function ToText(v: Value): string
    decreases v, 1
  {
    match v
    case Undefined => "undefined"
    case Null => "null"
    case Bool(b) => if b then "true" else "false"
    case Num(n) => Strs.IntToString(n)
    case Str(s) => s
    case Arr(items) => ItemsText(v, items)
    case Obj(_) => "[object Object]"
  }

  /** The elements' texts joined by commas; `undefined` and `null` elements print nothing. */
  function ItemsText(parent: Value, items: seq<Value>): string
    requires forall x :: x in items ==> x < parent
    decreases parent, 0, |items|
  {
    if |items| == 0 then ""
    else
      assert items[0] in items;
      assert forall x :: x in items[1..] ==> x in items;
      (if items[0].Undefined? || items[0].Null? then "" else ToText(items[0]))
      + (if |items| == 1 then "" else "," + ItemsText(parent, items[1..]))
  }

  /** The JSON text of a string: quotes around its escaped characters, which read back as the string. */
  function Quote(s: string): (r: string)
    ensures OneLine(r)
    ensures |r| >= 2 && r[0] == '"' && r[|r| - 1] == '"'
    ensures Unescape(r[1..|r| - 1]) == Some(s)
  {
    var r := "\"" + Escape(s) + "\"";
    assert r[1..|r| - 1] == Escape(s);
    UnescapeEscape(s);
    r
  }

  /** Text without control characters, so without line breaks: what `JSON.stringify` writes with no indentation. */
  predicate OneLine(r: string) {
    forall i :: 0 <= i < |r| ==> r[i] >= ' '
  }

  /** A character JSON text may hold inside a string as it is: not a control character, a quote or a backslash. */
  predicate Plain(c: char) {
    c >= ' ' && c != '"' && c != '\\'
  }

  /** `JSON.stringify`'s escape of a string's characters, one by one. */
  function Escape(s: string): (r: string)
    ensures OneLine(r)
    ensures (forall i :: 0 <= i < |s| ==> Plain(s[i])) ==> r == s
    decreases |s|
  {
    if |s| == 0 then ""
    else EscapeChar(s[0]) + Escape(s[1..])
  }

  /**
   * One character as `JSON.stringify` writes it in a string: `"` and `\`
   * behind a backslash, backspace, tab, newline, form feed and carriage
   * return as `\b`, `\t`, `\n`, `\f`, `\r`, every other character below
   * U+0020 as `\u00` and two lower-case hexadecimal digits, and the rest as
   * it is.
   */
  function EscapeChar(c: char): (r: string)
    ensures OneLine(r)
    ensures Plain(c) <==> r == [c]
  {
    if c == '"' then "\\\""
    else if c == '\\' then "\\\\"
    else if c == 8 as char then "\\b"
    else if c == '\t' then "\\t"
    else if c == '\n' then "\\n"
    else if c == 12 as char then "\\f"
    else if c == '\r' then "\\r"
    else if c < ' ' then "\\u00" + [HexDigit(c as int / 16), HexDigit(c as int % 16)]
    else [c]
  }

  /** The lower-case hexadecimal digit of `d`. */
  function HexDigit(d: nat): (c: char)
    requires d < 16
    ensures HexValue(c) == Some(d) && c >= ' '
  {
    if d < 10 then ('0' as int + d) as char else ('a' as int + d - 10) as char
  }

  /** The value of a hexadecimal digit of either case. */
  function HexValue(c: char): Option<nat> {
    if '0' <= c <= '9' then Some(c as int - '0' as int)
    else if 'a' <= c <= 'f' then Some(c as int - 'a' as int + 10)
    else if 'A' <= c <= 'F' then Some(c as int - 'A' as int + 10)
    else None
  }

  /** The character a one-letter escape `\x` stands for in JSON text. */
  function ShortEscape(x: char): Option<char> {
    if x == '"' || x == '\\' || x == '/' then Some(x)
    else if x == 'b' then Some(8 as char)
    else if x == 't' then Some('\t')
    else if x == 'n' then Some('\n')
    else if x == 'f' then Some(12 as char)
    else if x == 'r' then Some('\r')
    else None
  }

  function Prepend(c: char, rest: Option<string>): Option<string> {
    if rest.Some? then Some([c] + rest.value) else None
  }

  /**
   * What the text between a JSON string's quotes stands for, as `JSON.parse`
   * reads it, or `None` when it is malformed: a raw quote or control
   * character, a lone backslash, an unknown escape. A `\u` escape of a
   * surrogate code unit is refused, since a character here is a Unicode
   * scalar value.
   */
  function Unescape(t: string): Option<string>
    decreases |t|
  {
    if |t| == 0 then Some("")
    else if t[0] == '"' || t[0] < ' ' then None
    else if t[0] != '\\' then Prepend(t[0], Unescape(t[1..]))
    else if |t| < 2 then None
    else if t[1] != 'u' then
      if ShortEscape(t[1]).Some? then Prepend(ShortEscape(t[1]).value, Unescape(t[2..])) else None
    else if |t| < 6 || HexValue(t[2]).None? || HexValue(t[3]).None? || HexValue(t[4]).None? || HexValue(t[5]).None? then None
    else
      var v := ((HexValue(t[2]).value * 16 + HexValue(t[3]).value) * 16 + HexValue(t[4]).value) * 16 + HexValue(t[5]).value;
      if 0xD800 <= v < 0xE000 then None else Prepend(v as char, Unescape(t[6..]))
  }

  /** Reading back an escaped character gives the character, then whatever follows. */
  lemma UnescapeChar(c: char, rest: string)
    ensures Unescape(EscapeChar(c) + rest) == Prepend(c, Unescape(rest))
  {
    var t := EscapeChar(c) + rest;
    if Plain(c) {
      assert t[1..] == rest;
    } else if c < ' ' && c != 8 as char && c != '\t' && c != '\n' && c != 12 as char && c != '\r' {
      var hi, lo := c as int / 16, c as int % 16;
      assert t[..6] == "\\u00" + [HexDigit(hi), HexDigit(lo)];
      assert t[0] == '\\' && t[1] == 'u' && t[2] == '0' && t[3] == '0';
      assert t[4] == HexDigit(hi) && t[5] == HexDigit(lo);
      assert t[6..] == rest;
      assert ((0 * 16 + 0) * 16 + hi) * 16 + lo == c as int;
    } else {
      assert t[2..] == rest;
    }
  }

  /** JSON text written by `Escape` reads back as the string it came from. */
  lemma {:induction false} UnescapeEscape(s: string)
    ensures Unescape(Escape(s)) == Some(s)
    decreases |s|
  {
    if |s| > 0 {
      UnescapeEscape(s[1..]);
      UnescapeChar(s[0], Escape(s[1..]));
      assert [s[0]] + s[1..] == s;
    }
  }

  /**
   * `JSON.stringify` for values that are not `undefined`: properties whose
   * value is `undefined` are skipped, array slots holding it print `null`.
   */
  function Stringify(v: Value): (r: string)
    ensures OneLine(r)
    decreases v, 2
  {
    match v
    case Undefined => "null"
    case Null => "null"
    case Bool(b) => if b then "true" else "false"
    case Num(n) => Strs.IntToString(n)
    case Str(s) => Quote(s)
    case Arr(items) => "[" + StringifyItems(v, items) + "]"
    case Obj(fields) => "{" + StringifyFields(v, fields, true) + "}"
  }

  function StringifyItems(parent: Value, items: seq<Value>): (r: string)
    requires forall x :: x in items ==> x < parent
    ensures OneLine(r)
    decreases parent, 1, |items|
  {
    if |items| == 0 then ""
    else
      assert items[0] in items;
      assert forall x :: x in items[1..] ==> x in items;
      Stringify(items[0]) + (if |items| == 1 then "" else "," + StringifyItems(parent, items[1..]))
  }

  function StringifyFields(parent: Value, fields: Fields, first: bool): (r: string)
    requires forall i :: 0 <= i < |fields| ==> fields[i].1 < parent
    ensures OneLine(r)
    decreases parent, 1, |fields|
  {
    if |fields| == 0 then ""
    else if fields[0].1 == Undefined then StringifyFields(parent, fields[1..], first)
    else
      var key := (if first then "" else ",") + Quote(fields[0].0) + ":";
      var value := Stringify(fields[0].1);
      var rest := StringifyFields(parent, fields[1..], false);
      OneLineConcat(key, value);
      OneLineConcat(key + value, rest);
      key + value + rest
  }

  lemma OneLineConcat(a: string, b: string)
    requires OneLine(a) && OneLine(b)
    ensures OneLine(a + b)
  {
    assert forall i :: |a| <= i < |a + b| ==> (a + b)[i] == b[i - |a|];
  }
}
