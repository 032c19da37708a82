/**
 * The TypeScript backend's session cookie and origin rule: reading the `auth`
 * cookie from a `Cookie` request header (section 4.2 of RFC 6265), writing and
 * clearing it with a `Set-Cookie` value (section 4.1 of RFC 6265), resolving
 * the caller, and the `Access-Control-Allow-Origin` decision.
 */
module AuthCookie {
  import opened Wrappers
  import opened Text

  const AuthPrefix: string := "auth="

  /** The header's `;`-separated parts, each trimmed. */
  function CookieParts(header: string): (r: seq<string>)
    ensures |r| == |Split(header, ';')|
    ensures forall k :: 0 <= k < |r| ==> r[k] == Trim(Split(header, ';')[k])
  {
    var parts := Split(header, ';');
    seq(|parts|, k requires 0 <= k < |parts| => Trim(parts[k]))
  }

  /** The index of the first part starting with `prefix`, or -1. */
  function FirstPrefixed(parts: seq<string>, prefix: string): (r: int)
    ensures -1 <= r < |parts|
    ensures r == -1 <==> forall k :: 0 <= k < |parts| ==> !StartsWith(parts[k], prefix)
    ensures r >= 0 ==> StartsWith(parts[r], prefix) && forall k :: 0 <= k < r ==> !StartsWith(parts[k], prefix)
  {
    if |parts| == 0 then -1
    else if StartsWith(parts[0], prefix) then 0
    else
      var k := FirstPrefixed(parts[1..], prefix);
      if k == -1 then -1 else k + 1
  }

  /** A part starting with `auth=` splits on `=` into at least two pieces, the first being `auth`. */
  lemma AuthPartPieces(part: string)
    requires StartsWith(part, AuthPrefix)
    ensures |Split(part, '=')| >= 2 && Split(part, '=')[0] == "auth"
    ensures Split(part, '=')[1..] == Split(part[5..], '=')
  {
    assert part[..5] == AuthPrefix;
    assert part[..4] == "auth" && part[4] == '=';
    SplitFirst(part, '=', 4);
  }

  /** `getAuthCookie`: the value of the first `auth=` part (between its first and second `=`), or null. */
  function GetAuthCookie(header: Option<string>): (r: Option<string>)
    ensures header.None? || header == Some("") ==> r.None?
  {
    if header.None? || header.value == "" then None
    else
      var parts := CookieParts(header.value);
      var k := FirstPrefixed(parts, AuthPrefix);
      if k < 0 then None
      else
        AuthPartPieces(parts[k]);
        Some(Split(parts[k], '=')[1])
  }

  /** A value is found exactly when some trimmed part starts with `auth=`; it is the text after the first part's `auth=` up to the next `=` (or the end). */
  lemma GetAuthCookieValue(header: string)
    requires header != ""
    ensures var parts := CookieParts(header);
      var k := FirstPrefixed(parts, AuthPrefix);
      && (GetAuthCookie(Some(header)).Some? <==> k >= 0)
      && (k >= 0 ==>
            var v := GetAuthCookie(Some(header)).value;
            && '=' !in v
            && 5 + |v| <= |parts[k]|
            && parts[k][..5 + |v|] == AuthPrefix + v
            && (5 + |v| == |parts[k]| || parts[k][5 + |v|] == '='))
  {
    var parts := CookieParts(header);
    var k := FirstPrefixed(parts, AuthPrefix);
    if k >= 0 {
      AuthValueShape(parts[k]);
    }
  }

  /** The value read from a part starting with `auth=` runs from after the prefix to the next `=` or the end. */
  lemma AuthValueShape(p: string)
    requires StartsWith(p, AuthPrefix)
    ensures |Split(p, '=')| >= 2
    ensures var v := Split(p, '=')[1];
      && '=' !in v
      && 5 + |v| <= |p|
      && p[..5 + |v|] == AuthPrefix + v
      && (5 + |v| == |p| || p[5 + |v|] == '=')
  {
    AuthPartPieces(p);
    var v := Split(p, '=')[1];
    var rest := p[5..];
    var j := FirstSep(rest, '=');
    SplitFirst(rest, '=', j);
    assert v == rest[..j];
    assert p[..5] == AuthPrefix;
    assert p[..5 + |v|] == p[..5] + rest[..j];
  }

  /** The index of the first `sep` in `s`, or `|s|`. */
  function FirstSep(s: string, sep: char): (i: nat)
    ensures i <= |s| && sep !in s[..i] && (i == |s| || s[i] == sep)
  {
    if |s| == 0 then 0
    else if s[0] == sep then 0
    else
      var i := FirstSep(s[1..], sep);
      assert s[..i + 1] == [s[0]] + s[1..][..i];
      i + 1
  }

  /** `setAuthCookie`: a seven-day (604800-second), HttpOnly, Lax cookie for the whole site. */
  function SetAuthCookie(token: string): (r: string)
    ensures |r| > |AuthPrefix| + |token| + 7
    ensures r[..|AuthPrefix| + |token|] == AuthPrefix + token && r[|AuthPrefix| + |token|] == ';'
    ensures r[|r| - 7..] == "=604800"
  {
    AuthPrefix + token + ";" + " HttpOnly; Path=/; SameSite=Lax; Max-Age=604800"
  }

  /** `clearAuthCookie`: the same cookie with an empty value and Max-Age 0. */
  function ClearAuthCookie(): (r: string)
    ensures |r| > |AuthPrefix|
    ensures r[..|AuthPrefix|] == AuthPrefix && r[|AuthPrefix|] == ';'
    ensures r[|r| - 2..] == "=0"
  {
    AuthPrefix + ";" + " HttpOnly; Path=/; SameSite=Lax; Max-Age=0"
  }

  /** The name-value pair a user agent keeps from a `Set-Cookie` value: the text before the first `;` (section 5.2 of RFC 6265). */
  function CookiePair(setCookie: string): string
  {
    Split(setCookie, ';')[0]
  }

  /** Whether a token survives the cookie round trip: no `;` or `=`, no trailing white space. */
  predicate PlainToken(token: string)
  {
    ';' !in token && '=' !in token && (token == "" || !IsSpace(token[|token| - 1]))
  }

  lemma ReadBackPair(token: string)
    requires PlainToken(token)
    ensures GetAuthCookie(Some(AuthPrefix + token)) == Some(token)
  {
    var pair := AuthPrefix + token;
    PairParts(pair, token);
    ValueOfPair(token);
    ReadFromPart(pair, 0, token);
  }

  lemma PairParts(pair: string, token: string)
    requires PlainToken(token) && pair == AuthPrefix + token
    ensures CookieParts(pair) == [pair]
  {
    PlainPair(token);
    assert Split(pair, ';') == [pair] by {
      assert pair[..|pair|] == pair;
      SplitFirst(pair, ';', |pair|);
    }
  }

  /** The first piece of `a + [sep] + b` is `a` when `a` has no separator. */
  lemma SplitAtFirst(a: string, sep: char, b: string)
    requires sep !in a
    ensures Split(a + [sep] + b, sep)[0] == a
    ensures Split(a + [sep] + b, sep)[1..] == Split(b, sep)
  {
    var s := a + [sep] + b;
    assert s[..|a|] == a;
    assert s[|a| + 1..] == b;
    SplitFirst(s, sep, |a|);
  }

  /** A cookie set by `setAuthCookie` and sent back alone reads as its token. */
  lemma SetThenGet(token: string)
    requires PlainToken(token)
    ensures CookiePair(SetAuthCookie(token)) == AuthPrefix + token
    ensures GetAuthCookie(Some(CookiePair(SetAuthCookie(token)))) == Some(token)
  {
    var pair := AuthPrefix + token;
    var attributes := " HttpOnly; Path=/; SameSite=Lax; Max-Age=604800";
    assert CookiePair(SetAuthCookie(token)) == pair by {
      assert SetAuthCookie(token) == pair + [';'] + attributes;
      PlainPair(token);
      SplitAtFirst(pair, ';', attributes);
    }
    ReadBackPair(token);
  }

  /** The token is still found after another cookie that is not `auth`, in the `name=value; name=value` form of section 4.2 of RFC 6265. */
  lemma GetAfterOtherCookie(other: string, token: string)
    requires PlainToken(token)
    requires ';' !in other && !StartsWith(Trim(other), AuthPrefix)
    ensures GetAuthCookie(Some(other + "; " + AuthPrefix + token)) == Some(token)
  {
    var pair := AuthPrefix + token;
    var h := other + "; " + AuthPrefix + token;
    assert CookieParts(h) == [Trim(other), pair] by {
      TwoParts(other, token);
    }
    assert FirstPrefixed(CookieParts(h), AuthPrefix) == 1 by {
      ValueOfPair(token);
      assert CookieParts(h)[1..] == [pair];
    }
    assert CookieParts(h)[1] == pair;
    ReadFromPart(h, 1, token);
  }

  lemma ReadFromPart(h: string, k: nat, token: string)
    requires PlainToken(token) && h != ""
    requires k < |CookieParts(h)| && FirstPrefixed(CookieParts(h), AuthPrefix) == k
    requires CookieParts(h)[k] == AuthPrefix + token
    ensures GetAuthCookie(Some(h)) == Some(token)
  {
    ValueOfPair(token);
  }

  /** The value read from the part `auth=<token>`. */
  lemma ValueOfPair(token: string)
    requires PlainToken(token)
    ensures StartsWith(AuthPrefix + token, AuthPrefix)
    ensures Split(AuthPrefix + token, '=')[1] == token
  {
    var pair := AuthPrefix + token;
    assert pair[..5] == AuthPrefix;
    AuthPartPieces(pair);
    assert pair[5..] == token;
    SplitFirst(token, '=', |token|);
  }

  lemma TwoParts(other: string, token: string)
    requires PlainToken(token) && ';' !in other
    ensures CookieParts(other + "; " + AuthPrefix + token) == [Trim(other), AuthPrefix + token]
  {
    var pair := AuthPrefix + token;
    var h := other + "; " + pair;
    assert other + "; " + AuthPrefix + token == h;
    PlainPair(token);
    assert Split(h, ';') == [other, " " + pair] by {
      TwoPieces(other, pair);
    }
    assert Trim(" " + pair) == pair by {
      TrimAfterSpace(pair);
    }
    PartsOfTwo(h, other, " " + pair, pair);
  }

  lemma PartsOfTwo(h: string, a: string, b: string, tb: string)
    requires Split(h, ';') == [a, b] && Trim(b) == tb
    ensures CookieParts(h) == [Trim(a), tb]
  {
  }

  /** The pair `auth=<token>` is free of `;` and of surrounding white space. */
  lemma PlainPair(token: string)
    requires PlainToken(token)
    ensures var pair := AuthPrefix + token;
      ';' !in pair && pair != "" && !IsSpace(pair[0]) && Trim(pair) == pair
  {
    var pair := AuthPrefix + token;
    assert forall k :: 0 <= k < |pair| ==> pair[k] in AuthPrefix || pair[k] in token;
    assert !IsSpace(pair[0]) && !IsSpace(pair[|pair| - 1]);
    TrimNoop(pair);
  }

  lemma TwoPieces(a: string, b: string)
    requires ';' !in a && ';' !in b
    ensures Split(a + "; " + b, ';') == [a, " " + b]
  {
    var tail := " " + b;
    assert a + "; " + b == a + [';'] + tail;
    SplitAtFirst(a, ';', tail);
    assert ';' !in tail[..|tail|];
    SplitFirst(tail, ';', |tail|);
  }

  lemma TrimAfterSpace(b: string)
    requires Trim(b) == b && b != "" && !IsSpace(b[0])
    ensures Trim(" " + b) == b
  {
    assert (" " + b)[1..] == b;
  }

  /** The caller behind a request: a non-empty cookie value the session verifier accepts. */
  function Authenticate(header: Option<string>, sessions: map<string, string>): (r: Option<string>)
    ensures r.Some? <==> exists t :: GetAuthCookie(header) == Some(t) && t != "" && t in sessions
    ensures r.Some? ==> r.value == sessions[GetAuthCookie(header).value]
  {
    var token := GetAuthCookie(header);
    if token.None? || token.value == "" then None
    else if token.value in sessions then Some(sessions[token.value])
    else None
  }

  /** After logout the browser sends `auth=` with an empty value, which authenticates no one. */
  lemma ClearedCookieIsAnonymous(sessions: map<string, string>)
    ensures GetAuthCookie(Some(CookiePair(ClearAuthCookie()))) == Some("")
    ensures Authenticate(Some(CookiePair(ClearAuthCookie())), sessions) == None
  {
    assert ClearAuthCookie() == AuthPrefix + [';'] + " HttpOnly; Path=/; SameSite=Lax; Max-Age=0";
    assert ';' !in AuthPrefix;
    SplitAtFirst(AuthPrefix, ';', " HttpOnly; Path=/; SameSite=Lax; Max-Age=0");
    assert AuthPrefix + "" == AuthPrefix;
    ReadBackPair("");
  }

  /** The `Access-Control-Allow-Origin` value: the request origin when it is non-empty and equals the configured origin (or any origin when none is configured). */
  function AllowOrigin(clientOrigin: Option<string>, origin: Option<string>): (r: Option<string>)
    ensures r.Some? <==>
      origin.Some? && origin.value != "" && (clientOrigin.None? || clientOrigin == origin)
    ensures r.Some? ==> r == origin
  {
    var allowed := if clientOrigin.Some? then clientOrigin else origin;
    if allowed.Some? && allowed.value != "" && origin.Some? && origin.value != "" && allowed == origin then origin
    else None
  }
}
