/**
  The few JavaScript semantics the form pipeline relies on: dynamically typed
  values as they arrive in a caught error or a parsed JSON body, truthiness,
  optional property reads, `String(v)`, `Array.prototype.join`, the UTF-16
  `length` of a string, `String.prototype.replace` with a one-character
  pattern and `startsWith`.
*/
module Js {

  import opened Wrappers

  /** A JavaScript value. Numbers are restricted to integers. */
  datatype Value =
    | Undefined
    | Null
    | Bool(b: bool)
    | Num(n: int)
    | Str(s: string)
    | Arr(items: seq<Value>)
    | Obj(fields: map<string, Value>)

  /** `!!v` */
  predicate Truthy(v: Value) {
    match v
    case Undefined => false
    case Null => false
    case Bool(b) => b
    case Num(n) => n != 0
    case Str(s) => s != ""
    case Arr(_) => true
    case Obj(_) => true
  }

  /** `typeof v === 'object'` (true of `null` and of arrays). */
  predicate IsObjectType(v: Value) {
    v.Null? || v.Arr? || v.Obj?
  }

  /** `v?.key`: only plain objects carry the keys the pipeline reads. */
  function Get(v: Value, key: string): Value {
    if v.Obj? && key in v.fields then v.fields[key] else Undefined
  }

  /** The decimal digit `d` as a character. */
  function DigitChar(d: nat): (c: char)
    requires d < 10
    ensures '0' <= c <= '9'
  {
    (48 + d) as char
  }

  /** Decimal rendering of a natural number, as `String(n)` gives it. */
  function NatToString(n: nat): (s: string)
    ensures |s| >= 1
    ensures n >= 10 ==> |s| >= 2
    ensures forall i :: 0 <= i < |s| ==> '0' <= s[i] <= '9'
    decreases n
  {
    if n < 10 then [DigitChar(n)] else NatToString(n / 10) + [DigitChar(n % 10)]
  }

  /** Different numbers are rendered differently; this is what makes the keys of an array distinct. */
  lemma {:induction false} NatToStringInjective(m: nat, n: nat)
    requires NatToString(m) == NatToString(n)
    ensures m == n
    decreases m
  {
    var s := NatToString(m);
    if m < 10 && n < 10 {
      assert DigitChar(m) == s[0] == DigitChar(n);
    } else if m >= 10 && n >= 10 {
      assert NatToString(m / 10) == s[..|s| - 1] == NatToString(n / 10);
      NatToStringInjective(m / 10, n / 10);
      assert DigitChar(m % 10) == s[|s| - 1] == DigitChar(n % 10);
    }
  }

  /** `String(n)` for an integer. */
  function IntToString(n: int): string {
    if n < 0 then "-" + NatToString(-n) else NatToString(n)
  }

  /** `String(v)`. */
  function ToString(v: Value): string
    decreases v, 1
  {
    match v
    case Undefined => "undefined"
    case Null => "null"
    case Bool(b) => if b then "true" else "false"
    case Num(n) => IntToString(n)
    case Str(s) => s
    case Arr(items) => Join(items, ",")
    case Obj(_) => "[object Object]"
  }

  /** `items.join(sep)`: `null` and `undefined` elements contribute the empty string. */
  function Join(items: seq<Value>, sep: string): string
    decreases items, 0
  {
    if items == [] then ""
    else
      var first := if items[0].Undefined? || items[0].Null? then "" else ToString(items[0]);
      if |items| == 1 then first else first + sep + Join(items[1..], sep)
  }

  /** `parts.join(sep)` on an array of strings. */
  function JoinStrings(parts: seq<string>, sep: string): string {
    if parts == [] then ""
    else if |parts| == 1 then parts[0]
    else parts[0] + sep + JoinStrings(parts[1..], sep)
  }

  /** Appending a part to a non-empty list appends the separator and the part to the joined string. */
  lemma {:induction false} JoinStringsSnoc(parts: seq<string>, last: string, sep: string)
    requires parts != []
    ensures JoinStrings(parts + [last], sep) == JoinStrings(parts, sep) + sep + last
  {
    if |parts| > 1 {
      assert (parts + [last])[1..] == parts[1..] + [last];
      JoinStringsSnoc(parts[1..], last, sep);
    } else {
      assert (parts + [last])[1..] == [last];
    }
  }

  /** Joining an array of plain strings as values is joining the strings themselves. */
  lemma {:induction false} JoinOfStrings(parts: seq<string>, sep: string)
    ensures Join(seq(|parts|, i requires 0 <= i < |parts| => Str(parts[i])), sep) == JoinStrings(parts, sep)
  {
    var items := seq(|parts|, i requires 0 <= i < |parts| => Str(parts[i]));
    if |parts| > 1 {
      assert items[1..] == seq(|parts[1..]|, i requires 0 <= i < |parts[1..]| => Str(parts[1..][i]));
      JoinOfStrings(parts[1..], sep);
    }
  }

  /** `s.length`: the number of UTF-16 code units, two for a character outside the Basic Multilingual Plane. */
  function Utf16Length(s: string): (n: nat)
    ensures |s| <= n <= 2 * |s|
  {
    if s == [] then 0 else (if s[0] as int > 0xFFFF then 2 else 1) + Utf16Length(s[1..])
  }

  /** A string whose characters are all in the Basic Multilingual Plane has `length` equal to its character count. */
  lemma {:induction false} Utf16LengthOfBmp(s: string)
    requires forall i :: 0 <= i < |s| ==> s[i] as int <= 0xFFFF
    ensures Utf16Length(s) == |s|
  {
    if s != [] {
      Utf16LengthOfBmp(s[1..]);
    }
  }

  /** The index of the first occurrence of `c` in `s`, if any. */
  function IndexOf(s: string, c: char): (r: Option<nat>)
    ensures r.None? <==> c !in s
    ensures r.Some? ==> r.value < |s| && s[r.value] == c && c !in s[..r.value]
  {
    if s == [] then None
    else if s[0] == c then Some(0)
    else
      var rest := IndexOf(s[1..], c);
      if rest.None? then None
      else
        assert s[..rest.value + 1] == [s[0]] + s[1..][..rest.value];
        Some(rest.value + 1)
  }

  /** `s.replace(c, '')` for a one-character string pattern: only the first occurrence goes. */
  function RemoveFirst(s: string, c: char): string {
    if s == [] then []
    else if s[0] == c then s[1..]
    else [s[0]] + RemoveFirst(s[1..], c)
  }

  /** Removing the first `c` leaves everything before it and everything after it, and nothing else. */
  lemma {:induction false} RemoveFirstSpec(s: string, c: char)
    ensures IndexOf(s, c).None? ==> RemoveFirst(s, c) == s
    ensures IndexOf(s, c).Some? ==>
      var i := IndexOf(s, c).value;
      RemoveFirst(s, c) == s[..i] + s[i + 1..]
  {
    if s != [] && s[0] != c {
      RemoveFirstSpec(s[1..], c);
      var rest := IndexOf(s[1..], c);
      if rest.Some? {
        var i := rest.value;
        assert s[..i + 1] == [s[0]] + s[1..][..i];
        assert s[i + 2..] == s[1..][i + 1..];
      }
    }
  }

  /** `s.startsWith(prefix)`. */
  predicate StartsWith(s: string, prefix: string) {
    |prefix| <= |s| && s[..|prefix|] == prefix
  }
}
