/** JavaScript values and the built-in string operations that the server code relies on. */
module Js {

  datatype Option<T> = None | Some(value: T)

  datatype Result<T, E> = Ok(value: T) | Err(error: E)

  /** A primitive value as it appears in a request body, a stored record or a token payload.
      `Undefined` is a missing property. Numbers are integers in this model. */
  datatype Json = Undefined | Null | Bool(b: bool) | Num(n: int) | Str(s: string)

  /** A plain object. Object spread `{...a, ...b}` is the map union `a + b`: the right operand wins. */
  type Record = map<string, Json>

  /** Property access `r.key`: `undefined` when the key is absent. */
  function Get(r: Record, key: string): Json {
    if key in r then r[key] else Undefined
  }

  /** JavaScript truthiness: `!v` is `!Truthy(v)`. */
  predicate Truthy(v: Json) {
    match v
    case Undefined => false
    case Null => false
    case Bool(b) => b
    case Num(n) => n != 0
    case Str(s) => s != ""
  }

  /** The characters matched by `\s` and removed by `String.prototype.trim`:
      ECMAScript WhiteSpace (including every Zs space separator) and LineTerminator. */
  predicate IsWhitespace(c: char) {
    c == '\t' || c == '\n' || c == '\U{B}' || c == '\U{C}' || c == '\r' || c == ' '
    || c == '\U{A0}' || c == '\U{1680}' || ('\U{2000}' <= c <= '\U{200A}')
    || c == '\U{2028}' || c == '\U{2029}' || c == '\U{202F}' || c == '\U{205F}'
    || c == '\U{3000}' || c == '\U{FEFF}'
  }

  /** `s.length`: UTF-16 code units, so a character outside the Basic Multilingual Plane counts twice. */
  function Utf16Length(s: string): (n: nat)
    ensures |s| <= n <= 2 * |s|
  {
    if s == [] then 0 else (if s[0] as int >= 0x1_0000 then 2 else 1) + Utf16Length(s[1..])
  }

  /** `s.trimStart()`: drops the longest all-whitespace prefix. */
  function TrimStart(s: string): (r: string)
    ensures |r| <= |s| && r == s[|s| - |r|..]
    ensures forall k :: 0 <= k < |s| - |r| ==> IsWhitespace(s[k])
    ensures r == [] || !IsWhitespace(r[0])
  {
    if s != [] && IsWhitespace(s[0]) then
      var r := TrimStart(s[1..]);
      assert s[1..][|s| - 1 - |r|..] == s[|s| - |r|..];
      assert forall k :: 1 <= k < |s| - |r| ==> s[k] == s[1..][k - 1];
      r
    else s
  }

  /** `s.trimEnd()`: drops the longest all-whitespace suffix. */
  function TrimEnd(s: string): (r: string)
    ensures |r| <= |s| && r == s[..|r|]
    ensures forall k :: |r| <= k < |s| ==> IsWhitespace(s[k])
    ensures r == [] || !IsWhitespace(r[|r| - 1])
  {
    if s != [] && IsWhitespace(s[|s| - 1]) then TrimEnd(s[..|s| - 1]) else s
  }

  /** `s.trim()`: the middle part of `s` between a whitespace prefix and a whitespace suffix,
      beginning and ending with a non-whitespace character, empty exactly when `s` is all whitespace. */
  function Trim(s: string): (r: string)
    ensures exists i :: TrimmedAt(s, r, i)
    ensures r == [] || (!IsWhitespace(r[0]) && !IsWhitespace(r[|r| - 1]))
    ensures r == [] <==> forall k :: 0 <= k < |s| ==> IsWhitespace(s[k])
  {
    TrimOccurs(s);
    TrimEmpty(s);
    TrimEnd(TrimStart(s))
  }

  /** `r` occurs in `s` at `i`, and everything before and after that occurrence is whitespace. */
  predicate TrimmedAt(s: string, r: string, i: int) {
    OccursAt(s, r, i) &&
    (forall k :: 0 <= k < i ==> IsWhitespace(s[k])) &&
    (forall k :: i + |r| <= k < |s| ==> IsWhitespace(s[k]))
  }

  /** The trimmed text sits in `s` right after the whitespace prefix and is followed by whitespace only. */
  lemma TrimOccurs(s: string)
    ensures TrimmedAt(s, TrimEnd(TrimStart(s)), |s| - |TrimStart(s)|)
  {
    var t := TrimStart(s);
    var r := TrimEnd(t);
    assert |t| <= |s| && t == s[|s| - |t|..];
    assert |r| <= |t| && r == t[..|r|];
    TrimmedBetween(s, t, r);
  }

  /** A whitespace-led suffix `t` of `s`, cut back to a prefix `r` before a whitespace tail, sits in `s`
      between whitespace only. */
  lemma TrimmedBetween(s: string, t: string, r: string)
    requires |t| <= |s| && t == s[|s| - |t|..]
    requires forall k :: 0 <= k < |s| - |t| ==> IsWhitespace(s[k])
    requires |r| <= |t| && r == t[..|r|]
    requires forall k :: |r| <= k < |t| ==> IsWhitespace(t[k])
    ensures TrimmedAt(s, r, |s| - |t|)
  {
    var i := |s| - |t|;
    assert OccursAt(s, r, i) by {
      assert s[i..][..|r|] == s[i..i + |r|];
    }
    WhitespaceTail(s, t, |r|);
  }

  /** Whitespace at the end of a suffix `t` of `s` is whitespace at the end of `s`. */
  lemma WhitespaceTail(s: string, t: string, n: nat)
    requires |t| <= |s| && t == s[|s| - |t|..] && n <= |t|
    requires forall k :: n <= k < |t| ==> IsWhitespace(t[k])
    ensures forall k :: |s| - |t| + n <= k < |s| ==> IsWhitespace(s[k])
  {
    forall k | |s| - |t| + n <= k < |s|
      ensures IsWhitespace(s[k])
    {
      assert s[k] == t[k - (|s| - |t|)];
    }
  }

  /** Trimming leaves nothing exactly when every character is whitespace. */
  lemma TrimEmpty(s: string)
    ensures TrimEnd(TrimStart(s)) == [] <==> forall k :: 0 <= k < |s| ==> IsWhitespace(s[k])
  {
    var t := TrimStart(s);
    var i := |s| - |t|;
    assert t == s[i..];
    assert t != [] ==> t[0] == s[i];
    assert TrimEnd(t) == [] ==> t == [];
  }

  /** Trimming a trimmed string changes nothing. */
  lemma {:induction false} TrimIdempotent(s: string)
    ensures Trim(Trim(s)) == Trim(s)
  {
    var r := Trim(s);
    assert TrimStart(r) == r;
    assert TrimEnd(r) == r;
  }

  /** ASCII part of `toLowerCase`. */
  function LowerChar(c: char): char {
    if 'A' <= c <= 'Z' then (c as int + 32) as char else c
  }

  /** `s.toLowerCase()` on the ASCII letters; every other character is kept. */
  function ToLowerCase(s: string): (r: string)
    ensures |r| == |s|
    ensures forall k :: 0 <= k < |s| ==> r[k] == LowerChar(s[k])
  {
    seq(|s|, k requires 0 <= k < |s| => LowerChar(s[k]))
  }

  /** Lowering twice is lowering once, so a stored (lowered) address is its own lookup key. */
  lemma ToLowerCaseIdempotent(s: string)
    ensures ToLowerCase(ToLowerCase(s)) == ToLowerCase(s)
  {
  }

  /** `part` occurs in `s` starting at index `i`. */
  predicate OccursAt(s: string, part: string, i: int) {
    0 <= i <= |s| - |part| && s[i..i + |part|] == part
  }

  /** `s.includes(part)` */
  predicate Includes(s: string, part: string): (ok: bool)
    ensures ok ==> |part| <= |s|
    ensures part == [] ==> ok
  {
    assert part == [] ==> OccursAt(s, part, 0);
    exists i | 0 <= i <= |s| - |part| :: OccursAt(s, part, i)
  }

  /** `${b}` for a boolean. */
  function BoolText(b: bool): string {
    if b then "true" else "false"
  }

  function DigitChar(d: nat): (c: char)
    requires d < 10
  {
    ('0' as int + d) as char
  }

  /** `${n}` for a non-negative integer: its decimal digits, most significant first. */
  function NatToString(n: nat): (s: string)
    ensures s != []
    ensures forall k :: 0 <= k < |s| ==> '0' <= s[k] <= '9'
  {
    if n < 10 then [DigitChar(n)] else NatToString(n / 10) + [DigitChar(n % 10)]
  }

  /** The number a run of decimal digits spells, most significant first. */
  function DigitsValue(s: string): nat
    requires forall k :: 0 <= k < |s| ==> '0' <= s[k] <= '9'
  {
    if s == [] then 0 else DigitsValue(s[..|s| - 1]) * 10 + (s[|s| - 1] as int - '0' as int)
  }

  /** The rendered digits spell `n`, with no leading zero. */
  lemma {:induction false} NatToStringValue(n: nat)
    ensures DigitsValue(NatToString(n)) == n
    ensures |NatToString(n)| == 1 || NatToString(n)[0] != '0'
  {
    var s := NatToString(n);
    if n >= 10 {
      NatToStringValue(n / 10);
      var t := NatToString(n / 10);
      assert s[..|s| - 1] == t;
      assert s[0] == t[0];
    }
  }
}
