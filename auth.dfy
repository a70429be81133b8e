/** lib/auth.js: input validators, token extraction and the session cookie. Password hashing and
    token signing are foreign libraries and appear only as the uninterpreted functions of `Crypto`. */
module Auth {
  import opened Js

  /** The foreign calls: `bcrypt.hash` (cost 12), `bcrypt.compare`, `jwt.sign` with the 7-day expiry
      and `jwt.verify`, which gives `None` whenever it would throw. */
  datatype Crypto = Crypto(
    hash: string -> string,
    compare: (string, string) -> bool,
    sign: Record -> string,
    verify: string -> Option<Record>)

  const InvalidTokenMessage := "Invalid token"

  /** verifyToken: the decoded payload, or the single error "Invalid token" for every kind of failure. */
  function VerifyToken(verify: string -> Option<Record>, token: string): (r: Result<Record, string>)
    ensures r.Ok? <==> verify(token).Some?
    ensures r.Ok? ==> Some(r.value) == verify(token)
    ensures r.Err? ==> r.error == InvalidTokenMessage
  {
    match verify(token)
    case Some(payload) => Ok(payload)
    case None => Err(InvalidTokenMessage)
  }

  /** `[^\s@]` */
  predicate Plain(c: char) {
    !IsWhitespace(c) && c != '@'
  }

  /** Every character of `s[lo..hi]` is `[^\s@]`. */
  predicate PlainRange(s: string, lo: int, hi: int)
    requires 0 <= lo <= hi <= |s|
  {
    forall k :: lo <= k < hi ==> Plain(s[k])
  }

  /** `/^[^\s@]+@[^\s@]+\.[^\s@]+$/.test(s)`: `s` splits as L "@" M "." T with L, M and T
      non-empty runs of `[^\s@]` (the `@` at index i, the dot at index j). */
  predicate IsValidEmail(s: string): (ok: bool)
    ensures ok ==> 5 <= |s| && '@' in s
  {
    exists i, j | 0 < i && i + 1 < j < |s| - 1 ::
      s[i] == '@' && s[j] == '.' && PlainRange(s, 0, i) && PlainRange(s, i + 1, j) && PlainRange(s, j + 1, |s|)
  }

  /** The accepted addresses, described without the split: no whitespace, exactly one `@`, not first,
      and after it a dot that is neither the first nor the last character of the domain part. */
  lemma ValidEmailShape(s: string)
    ensures IsValidEmail(s) <==>
      (forall k :: 0 <= k < |s| ==> !IsWhitespace(s[k])) &&
      (exists i :: 0 < i < |s| && s[i] == '@' && (forall k :: 0 <= k < |s| && k != i ==> s[k] != '@') &&
                   (exists j :: i + 1 < j < |s| - 1 && s[j] == '.'))
  {
    if IsValidEmail(s) {
      var i, j :| 0 < i && i + 1 < j < |s| - 1 && s[i] == '@' && s[j] == '.' &&
                 PlainRange(s, 0, i) && PlainRange(s, i + 1, j) && PlainRange(s, j + 1, |s|);
      assert forall k :: 0 <= k < |s| && k != i && k != j ==> Plain(s[k]);
    }
    if (forall k :: 0 <= k < |s| ==> !IsWhitespace(s[k])) &&
       (exists i :: 0 < i < |s| && s[i] == '@' && (forall k :: 0 <= k < |s| && k != i ==> s[k] != '@') &&
                    (exists j :: i + 1 < j < |s| - 1 && s[j] == '.')) {
      var i :| 0 < i < |s| && s[i] == '@' && (forall k :: 0 <= k < |s| && k != i ==> s[k] != '@') &&
               (exists j :: i + 1 < j < |s| - 1 && s[j] == '.');
      var j :| i + 1 < j < |s| - 1 && s[j] == '.';
      assert PlainRange(s, 0, i) && PlainRange(s, i + 1, j) && PlainRange(s, j + 1, |s|);
    }
  }

  /** Sample addresses the expression accepts and rejects. */
  lemma EmailExamples()
    ensures IsValidEmail("a@x.com")
    ensures !IsValidEmail("a@b@c.d") && !IsValidEmail("a b@c.d") && !IsValidEmail("a@.com") && !IsValidEmail("a@com.")
  {
    var s := "a@x.com";
    assert s[1] == '@' && s[3] == '.' && PlainRange(s, 0, 1) && PlainRange(s, 2, 3) && PlainRange(s, 4, 7);
    ValidEmailShape("a@b@c.d");
    assert "a@b@c.d"[1] == '@' && "a@b@c.d"[3] == '@';
    ValidEmailShape("a b@c.d");
    assert IsWhitespace("a b@c.d"[1]);
    ValidEmailShape("a@.com");
    ValidEmailShape("a@com.");
  }

  /** Lowering letters changes no whitespace, `@` or `.`, so it never changes whether an address is
      accepted. */
  lemma ValidEmailIgnoresCase(s: string)
    ensures IsValidEmail(ToLowerCase(s)) <==> IsValidEmail(s)
  {
    var t := ToLowerCase(s);
    assert SameShape(s, t) && SameShape(t, s);
    ShapeKeepsValidity(s, t);
    ShapeKeepsValidity(t, s);
  }

  /** `s` and `t` agree, position by position, on what the expression looks at. */
  predicate SameShape(s: string, t: string) {
    |s| == |t| &&
    forall k :: 0 <= k < |s| ==> (Plain(s[k]) <==> Plain(t[k])) && (s[k] == '@' <==> t[k] == '@') && (s[k] == '.' <==> t[k] == '.')
  }

  lemma ShapeKeepsValidity(s: string, t: string)
    requires SameShape(s, t)
    ensures IsValidEmail(s) ==> IsValidEmail(t)
  {
    if IsValidEmail(s) {
      var i, j :| 0 < i && i + 1 < j < |s| - 1 && s[i] == '@' && s[j] == '.' &&
                 PlainRange(s, 0, i) && PlainRange(s, i + 1, j) && PlainRange(s, j + 1, |s|);
      assert PlainRange(t, 0, i) && PlainRange(t, i + 1, j) && PlainRange(t, j + 1, |t|);
    }
  }

  /** `isValidEmail(v)` on a body field: the expression tests `String(v)`, and no number, boolean,
      `null` or `undefined` renders with an `@`, so only strings can pass. */
  predicate ValidEmailValue(v: Json) {
    v.Str? && IsValidEmail(v.s)
  }

  const MinPasswordLength := 6

  /** isValidPassword: `password && password.length >= 6`; a non-string has no length and fails. */
  function IsValidPassword(password: Json): (ok: bool)
    ensures ok <==> password.Str? && Utf16Length(password.s) >= MinPasswordLength
  {
    Truthy(password) && password.Str? && Utf16Length(password.s) >= MinPasswordLength
  }

  /** getTokenFromCookies: `req.cookies?.token || null`. */
  function GetTokenFromCookies(cookies: Option<map<string, string>>): (token: Option<string>)
    ensures token.Some? <==> cookies.Some? && "token" in cookies.value && cookies.value["token"] != ""
    ensures token.Some? ==> token.value == cookies.value["token"]
  {
    match cookies
    case None => None
    case Some(jar) => if "token" in jar && jar["token"] != "" then Some(jar["token"]) else None
  }

  datatype CookieOptions = CookieOptions(httpOnly: bool, secure: bool, sameSite: string, maxAge: nat, path: string)

  /** Seven days in milliseconds. */
  const SevenDaysMs: nat := 7 * 24 * 60 * 60 * 1000

  /** getCookieOptions; `production` is `process.env.NODE_ENV === 'production'`. */
  function GetCookieOptions(production: bool): (o: CookieOptions)
    ensures o.httpOnly && o.sameSite == "strict" && o.maxAge == 604800000 && o.path == "/"
    ensures o.secure <==> production
  {
    CookieOptions(true, production, "strict", SevenDaysMs, "/")
  }

  /** `Object.entries(options)` in insertion order, each value rendered by template interpolation. */
  function Entries(o: CookieOptions): seq<(string, string)> {
    [("httpOnly", BoolText(o.httpOnly)), ("secure", BoolText(o.secure)), ("sameSite", o.sameSite),
     ("maxAge", NatToString(o.maxAge)), ("path", o.path)]
  }

  /** `.map(([key, value]) => `${key}=${value}`).join('; ')` */
  function JoinEntries(entries: seq<(string, string)>): string {
    if entries == [] then ""
    else if |entries| == 1 then entries[0].0 + "=" + entries[0].1
    else entries[0].0 + "=" + entries[0].1 + "; " + JoinEntries(entries[1..])
  }

  /** The Set-Cookie value written by register and login. */
  function SetCookieHeader(token: string, o: CookieOptions): (h: string)
    ensures |h| > |token| + 8 && h[..|token| + 8] == "token=" + token + "; "
  {
    var head := "token=" + token + "; ";
    JoinNonEmpty(Entries(o));
    assert (head + JoinEntries(Entries(o)))[..|head|] == head;
    head + JoinEntries(Entries(o))
  }

  /** Joining at least one pair gives a non-empty text. */
  lemma JoinNonEmpty(entries: seq<(string, string)>)
    requires entries != []
    ensures JoinEntries(entries) != []
  {
  }

  /** The cookie issued for a session token and the given environment. */
  function SessionCookie(sign: Record -> string, userId: Json, production: bool): string {
    SetCookieHeader(sign(map["userId" := userId]), GetCookieOptions(production))
  }

  /** The header is the token pair followed by every option as `name=value`, in declaration order,
      separated by `; `. */
  lemma HeaderText(token: string, o: CookieOptions)
    ensures SetCookieHeader(token, o) ==
      "token=" + token + "; " + ("httpOnly" + "=" + BoolText(o.httpOnly) + "; " + ("secure" + "=" + BoolText(o.secure) + "; " +
      ("sameSite" + "=" + o.sameSite + "; " + ("maxAge" + "=" + NatToString(o.maxAge) + "; " + ("path" + "=" + o.path)))))
  {
    var p4 := [("path", o.path)];
    var p3 := [("maxAge", NatToString(o.maxAge))] + p4;
    var p2 := [("sameSite", o.sameSite)] + p3;
    var p1 := [("secure", BoolText(o.secure))] + p2;
    var p0 := [("httpOnly", BoolText(o.httpOnly))] + p1;
    assert Entries(o) == p0;
    JoinCons("maxAge", NatToString(o.maxAge), p4);
    JoinCons("sameSite", o.sameSite, p3);
    JoinCons("secure", BoolText(o.secure), p2);
    JoinCons("httpOnly", BoolText(o.httpOnly), p1);
  }

  /** Joining one more pair in front of a non-empty list adds that pair and a separator. */
  lemma JoinCons(k: string, v: string, rest: seq<(string, string)>)
    requires rest != []
    ensures JoinEntries([(k, v)] + rest) == k + "=" + v + "; " + JoinEntries(rest)
  {
    assert ([(k, v)] + rest)[1..] == rest;
  }

  /** In production the header marks the cookie `secure=true`, elsewhere `secure=false`; the age is
      written in milliseconds. */
  lemma SessionCookieText(token: string, production: bool)
    ensures SetCookieHeader(token, GetCookieOptions(production)) ==
      "token=" + token + "; " + ("httpOnly" + "=" + "true" + "; " + ("secure" + "=" + BoolText(production) + "; " +
      ("sameSite" + "=" + "strict" + "; " + ("maxAge" + "=" + "604800000" + "; " + ("path" + "=" + "/")))))
  {
    MaxAgeText();
    HeaderText(token, GetCookieOptions(production));
  }

  /** Seven days in milliseconds, as template interpolation writes it. */
  lemma MaxAgeText()
    ensures NatToString(SevenDaysMs) == "604800000"
  {
    assert DigitChar(6) == '6' && DigitChar(0) == '0' && DigitChar(4) == '4' && DigitChar(8) == '8';
    assert NatToString(6) == "6";
    NextDigit(6, 0);
    NextDigit(60, 4);
    NextDigit(604, 8);
    NextDigit(6048, 0);
    NextDigit(60480, 0);
    NextDigit(604800, 0);
    NextDigit(6048000, 0);
    NextDigit(60480000, 0);
  }

  lemma NextDigit(n: nat, d: nat)
    requires 0 < n && d < 10
    ensures NatToString(n * 10 + d) == NatToString(n) + [DigitChar(d)]
  {
  }

  /** The text before the first `c` of `s` (all of `s` when there is none). */
  function Before(s: string, c: char): (r: string)
    ensures |r| <= |s| && r == s[..|r|] && c !in r
    ensures |r| < |s| ==> s[|r|] == c
  {
    if s == [] || s[0] == c then [] else [s[0]] + Before(s[1..], c)
  }

  lemma {:induction false} BeforeMark(a: string, b: string, c: char)
    requires c !in a && b != [] && b[0] == c
    ensures Before(a + b, c) == a
  {
    if a != [] {
      assert (a + b)[1..] == a[1..] + b;
      BeforeMark(a[1..], b, c);
    }
  }

  /** The cookie a browser keeps from a Set-Cookie value: name and value of the first `name=value` pair. */
  function StoredCookie(header: string): (string, string) {
    var pair := Before(header, ';');
    var name := Before(pair, '=');
    (name, if |name| < |pair| then pair[|name| + 1..] else "")
  }

  /** The header hands the browser back exactly the token, under the name `token`, as long as the
      token has no `;` (signed tokens are base64url text and dots). */
  lemma StoredCookieIsToken(token: string, o: CookieOptions)
    requires ';' !in token
    ensures StoredCookie(SetCookieHeader(token, o)) == ("token", token)
  {
    var rest := JoinEntries(Entries(o));
    var pair := "token=" + token;
    assert SetCookieHeader(token, o) == pair + ("; " + rest);
    BeforeMark(pair, "; " + rest, ';');
    assert pair == "token" + ("=" + token);
    BeforeMark("token", "=" + token, '=');
    assert pair[6..] == token;
  }
}
