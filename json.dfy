/** JSON values as the bridge sees them after decoding a line: Python values
    built by the JSON decoder. An object is an ordered list of key/value pairs,
    as a Python dict keeps insertion order; the decoder yields distinct keys.
    Python's None and JSON null are the same value, JNull. */
module JsonValues {

  datatype Option<+T> = None | Some(value: T)

  datatype Json =
    | JNull
    | JBool(b: bool)
    | JInt(i: int)
    | JString(s: string)
    | JArray(items: seq<Json>)
    | JObject(fields: seq<(string, Json)>)

  /** The keys of an object, in order. */
  function Keys(fields: seq<(string, Json)>): seq<string>
  {
    seq(|fields|, i requires 0 <= i < |fields| => fields[i].0)
  }

  /** The value stored under `key`, if any (the first entry, for a list with
      repeated keys). */
  function Lookup(fields: seq<(string, Json)>, key: string): Option<Json>
  {
    LookupFrom(fields, key, 0)
  }

  function LookupFrom(fields: seq<(string, Json)>, key: string, i: nat): Option<Json>
    decreases |fields| - i
  {
    if i >= |fields| then None
    else if fields[i].0 == key then Some(fields[i].1)
    else LookupFrom(fields, key, i + 1)
  }

  /** Python's `d.get(key, default)`. */
  function GetOr(fields: seq<(string, Json)>, key: string, default: Json): Json
  {
    match Lookup(fields, key)
    case Some(v) => v
    case None => default
  }

  /** Python's `d.get(key)`: an absent key reads as None, like an explicit null. */
  function Get(fields: seq<(string, Json)>, key: string): Json
  {
    GetOr(fields, key, JNull)
  }

  /** Follows a path of keys through nested objects. */
  function At(j: Json, path: seq<string>): Option<Json>
  {
    AtFrom(j, path, 0)
  }

  function AtFrom(j: Json, path: seq<string>, i: nat): Option<Json>
    decreases |path| - i
  {
    if i >= |path| then Some(j)
    else if j.JObject? then
      match Lookup(j.fields, path[i])
      case Some(v) => AtFrom(v, path, i + 1)
      case None => None
    else None
  }

  lemma {:induction false} LookupFromShift(e: (string, Json), rest: seq<(string, Json)>, key: string, i: nat)
    ensures LookupFrom([e] + rest, key, i + 1) == LookupFrom(rest, key, i)
    decreases |rest| - i
  {
    if i < |rest| {
      assert ([e] + rest)[i + 1] == rest[i];
      LookupFromShift(e, rest, key, i + 1);
    }
  }

  /** Looking up in a list that starts with `e`. */
  lemma LookupCons(e: (string, Json), rest: seq<(string, Json)>, key: string)
    ensures Lookup([e] + rest, key) == if e.0 == key then Some(e.1) else Lookup(rest, key)
  {
    LookupFromShift(e, rest, key, 0);
  }

  /** The first entry under `key` is at index `i`. */
  lemma {:induction false} LookupFound(fields: seq<(string, Json)>, key: string, i: nat)
    requires i < |fields| && fields[i].0 == key
    requires forall j :: 0 <= j < i ==> fields[j].0 != key
    ensures Lookup(fields, key) == Some(fields[i].1)
  {
    var j := i;
    while j > 0
      invariant 0 <= j <= i
      invariant LookupFrom(fields, key, j) == Some(fields[i].1)
    {
      j := j - 1;
    }
  }

  lemma {:induction false} LookupFromAbsent(fields: seq<(string, Json)>, key: string, i: nat)
    requires key !in Keys(fields)
    ensures LookupFrom(fields, key, i) == None
    decreases |fields| - i
  {
    if i < |fields| {
      assert Keys(fields)[i] == fields[i].0;
      LookupFromAbsent(fields, key, i + 1);
    }
  }

  /** Entries before the first one under `key` do not affect looking it up. */
  lemma {:induction false} LookupPast(a: seq<(string, Json)>, c: seq<(string, Json)>, key: string)
    requires key !in Keys(a)
    ensures Lookup(a + c, key) == Lookup(c, key)
    decreases |a|
  {
    if a != [] {
      assert Keys(a)[0] == a[0].0;
      assert Keys(a[1..]) == Keys(a)[1..];
      assert a + c == [a[0]] + (a[1..] + c);
      LookupCons(a[0], a[1..] + c, key);
      LookupPast(a[1..], c, key);
    } else {
      assert a + c == c;
    }
  }

  /** An entry under another key can be taken out, wherever it sits, without
      changing a lookup. */
  lemma {:induction false} LookupSkip(a: seq<(string, Json)>, e: (string, Json), b: seq<(string, Json)>, key: string)
    requires e.0 != key
    ensures Lookup(a + [e] + b, key) == Lookup(a + b, key)
    decreases |a|
  {
    if a != [] {
      assert a + [e] + b == [a[0]] + (a[1..] + [e] + b);
      assert a + b == [a[0]] + (a[1..] + b);
      LookupCons(a[0], a[1..] + [e] + b, key);
      LookupCons(a[0], a[1..] + b, key);
      LookupSkip(a[1..], e, b, key);
    } else {
      assert a + [e] + b == [e] + b;
      assert a + b == b;
      LookupCons(e, b, key);
    }
  }

  /** One step of a path walk through an object. */
  lemma AtFromStep(j: Json, path: seq<string>, i: nat, v: Json)
    requires i < |path| && j.JObject? && Lookup(j.fields, path[i]) == Some(v)
    ensures AtFrom(j, path, i) == AtFrom(v, path, i + 1)
  {
  }

  /** Python truthiness: None, False, 0, "" and empty containers are false. */
  predicate Truthy(j: Json)
  {
    match j
    case JNull => false
    case JBool(b) => b
    case JInt(i) => i != 0
    case JString(s) => s != ""
    case JArray(items) => items != []
    case JObject(fields) => fields != []
  }

  predicate IsDigit(c: char)
  {
    '0' <= c <= '9'
  }

  predicate AllDigits(s: string)
  {
    forall i :: 0 <= i < |s| ==> IsDigit(s[i])
  }

  /** The number a string of decimal digits spells, most significant first. */
  function DigitsValue(s: string): nat
    requires AllDigits(s)
    decreases |s|
  {
    if s == [] then 0
    else 10 * DigitsValue(s[..|s| - 1]) + ((s[|s| - 1] as int) - ('0' as int))
  }

  /** Reads back the numerals `str` writes for an integer: ASCII decimal
      digits with an optional leading minus sign; None for anything else
      (Python's `int` accepts more: a plus sign, surrounding whitespace,
      underscores, other decimal digits). */
  function ParseInt(s: string): Option<int>
  {
    if |s| > 1 && s[0] == '-' && AllDigits(s[1..]) then Some(-(DigitsValue(s[1..]) as int))
    else if s != [] && AllDigits(s) then Some(DigitsValue(s))
    else None
  }

  /** Decimal digits of a natural number, most significant first, with no
      leading zero. */
  function NatToString(n: nat): (s: string)
    ensures s != [] && AllDigits(s)
    ensures DigitsValue(s) == n
    ensures |s| > 1 ==> s[0] != '0'
  {
    if n < 10 then ["0123456789"[n]]
    else
      var s := NatToString(n / 10) + ["0123456789"[n % 10]];
      assert s[..|s| - 1] == NatToString(n / 10);
      s
  }

  /** Python's `str(i)` for an integer: decimal, with a leading minus sign when
      negative and no leading zero; `int` reads it back as `i`. */
  function IntToString(i: int): (s: string)
    ensures s != []
    ensures (s[0] == '-') <==> (i < 0)
    ensures forall k :: 0 < k < |s| ==> IsDigit(s[k])
    ensures var digits := if i < 0 then s[1..] else s;
            digits != [] && (|digits| > 1 ==> digits[0] != '0')
    ensures ParseInt(s) == Some(i)
  {
    if i < 0 then
      var s := "-" + NatToString(-i);
      assert s[1..] == NatToString(-i);
      s
    else NatToString(i)
  }

  /** Python's `str(v)` as an f-string renders it: a string is itself, an
      integer its decimal numeral, every other value its repr. */
  function PyStr(j: Json): (s: string)
    ensures j.JString? ==> s == j.s
    ensures j.JInt? ==> ParseInt(s) == Some(j.i)
    ensures j.JNull? ==> s == "None"
    ensures j.JBool? ==> s == if j.b then "True" else "False"
    ensures j.JArray? ==> IsPrefix("[", s) && IsSuffix("]", s)
    ensures j.JObject? ==> IsPrefix("{", s) && IsSuffix("}", s)
  {
    if j.JString? then j.s else Repr(j)
  }

  /** Python's `repr(v)`. Strings are quoted with single quotes. */
  function Repr(j: Json): string
    decreases j, 1
  {
    match j
    case JNull => "None"
    case JBool(b) => if b then "True" else "False"
    case JInt(i) => IntToString(i)
    case JString(s) => "'" + s + "'"
    case JArray(items) => "[" + ReprItems(items) + "]"
    case JObject(fields) => "{" + ReprFields(fields, j) + "}"
  }

  function ReprItems(items: seq<Json>): string
    decreases items, 0
  {
    if items == [] then ""
    else if |items| == 1 then Repr(items[0])
    else Repr(items[0]) + ", " + ReprItems(items[1..])
  }

  /** The entries of `fields`, which all belong to the object `parent`. */
  function ReprFields(fields: seq<(string, Json)>, ghost parent: Json): string
    requires parent.JObject? && forall e | e in fields :: e in parent.fields
    decreases parent, 0, |fields|
  {
    if fields == [] then ""
    else
      assert fields[0] in parent.fields;
      var entry := "'" + fields[0].0 + "': " + Repr(fields[0].1);
      if |fields| == 1 then entry else entry + ", " + ReprFields(fields[1..], parent)
  }

  /** `sub` occurs in `s` as a contiguous piece. */
  predicate IsInfix(sub: string, s: string)
  {
    exists i :: 0 <= i <= |s| && IsPrefix(sub, s[i..])
  }

  predicate IsPrefix(pre: string, s: string)
  {
    |pre| <= |s| && s[..|pre|] == pre
  }

  predicate IsSuffix(suf: string, s: string)
  {
    |suf| <= |s| && s[|s| - |suf|..] == suf
  }

  lemma InfixOfConcat(a: string, b: string, c: string)
    ensures IsInfix(b, a + b + c)
  {
    assert (a + b + c)[|a|..][..|b|] == b;
  }
}
