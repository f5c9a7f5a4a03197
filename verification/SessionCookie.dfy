/**
 * The two parsers of the Cookie header: the middleware's map (services/tools-service/src/cookies.ts)
 * and the targeted search of packages/shared/src/adapters/jwt.ts, and the token a request carries.
 */
module SessionCookie {
  import opened Common

  const NAME := "si_session"

  /** decodeURIComponent: None where it throws. */
  type Decoder = string -> Option<string>

  // ---------------------------------------------------------------------------
  // Strings
  // ---------------------------------------------------------------------------

  /** s.split(c) */
  function Split(s: string, c: char): (parts: seq<string>)
    ensures |parts| > 0
  {
    if s == "" then [""]
    else
      var parts := Split(s[..|s| - 1], c);
      var n := |parts| - 1;
      if s[|s| - 1] == c then parts + [""] else parts[n := parts[n] + [s[|s| - 1]]]
  }

  function Join(parts: seq<string>, c: char): string {
    if parts == [] then ""
    else if |parts| == 1 then parts[0]
    else Join(parts[..|parts| - 1], c) + [c] + parts[|parts| - 1]
  }

  /** The parts are free of the separator, and joined by it they give the string back. */
  lemma {:induction false} SplitExact(s: string, c: char)
    ensures Join(Split(s, c), c) == s
    ensures forall i :: 0 <= i < |Split(s, c)| ==> c !in Split(s, c)[i]
  {
    if s != "" {
      var parts := Split(s[..|s| - 1], c);
      SplitExact(s[..|s| - 1], c);
      var n := |parts| - 1;
      if s[|s| - 1] == c {
        assert (parts + [""])[..n + 1] == parts;
      } else {
        assert parts[n := parts[n] + [s[|s| - 1]]][..n] == parts[..n];
        if n > 0 { assert s == Join(parts[..n], c) + [c] + (parts[n] + [s[|s| - 1]]); }
      }
    }
  }

  /** s.indexOf(c) */
  function IndexOf(s: string, c: char, from: nat := 0): (i: Option<nat>)
    requires from <= |s|
    ensures i.Some? ==> from <= i.value < |s| && s[i.value] == c && forall j :: from <= j < i.value ==> s[j] != c
    ensures i.None? ==> forall j :: from <= j < |s| ==> s[j] != c
    decreases |s| - from
  {
    if from == |s| then None
    else if s[from] == c then Some(from)
    else IndexOf(s, c, from + 1)
  }

  function TrimStart(s: string): string {
    if s != "" && IsSpace(s[0]) then TrimStart(s[1..]) else s
  }

  function TrimEnd(s: string): string {
    if s != "" && IsSpace(s[|s| - 1]) then TrimEnd(s[..|s| - 1]) else s
  }

  function Trim(s: string): string { TrimEnd(TrimStart(s)) }

  /** Exactly the white space at both ends goes. */
  lemma TrimExact(s: string) returns (i: nat, j: nat)
    ensures i <= j <= |s| && Trim(s) == s[i..j]
    ensures forall k :: 0 <= k < i || j <= k < |s| ==> IsSpace(s[k])
    ensures i < j ==> !IsSpace(s[i]) && !IsSpace(s[j - 1])
  {
    i := TrimStartExact(s);
    var n := TrimEndExact(s[i..]);
    j := i + n;
    assert forall k :: n <= k < |s[i..]| ==> s[i..][k] == s[i + k];
    assert forall k :: j <= k < |s| ==> s[k] == s[i..][k - i];
  }

  lemma {:induction false} TrimStartExact(s: string) returns (i: nat)
    ensures i <= |s| && TrimStart(s) == s[i..]
    ensures (forall k :: 0 <= k < i ==> IsSpace(s[k])) && (i < |s| ==> !IsSpace(s[i]))
  {
    i := 0;
    if s != "" && IsSpace(s[0]) {
      var n := TrimStartExact(s[1..]);
      i := n + 1;
    }
  }

  lemma {:induction false} TrimEndExact(s: string) returns (j: nat)
    ensures j <= |s| && TrimEnd(s) == s[..j]
    ensures (forall k :: j <= k < |s| ==> IsSpace(s[k])) && (j > 0 ==> !IsSpace(s[j - 1]))
  {
    j := |s|;
    if s != "" && IsSpace(s[|s| - 1]) { j := TrimEndExact(s[..|s| - 1]); }
  }

  function Lower(c: char): char { if 'A' <= c <= 'Z' then c - 'A' + 'a' else c }

  // ---------------------------------------------------------------------------
  // Parts of the header
  // ---------------------------------------------------------------------------

  datatype Cookie = Cookie(name: string, value: string)

  /** name=value, trimmed; a part without '=' is no cookie. */
  function CookieOf(part: string): Option<Cookie> {
    var separator := IndexOf(part, '=');
    if separator.None? then None
    else Some(Cookie(Trim(part[..separator.value]), Trim(part[separator.value + 1..])))
  }

  predicate IsSession(cookie: Option<Cookie>) { cookie.Some? && cookie.value.name == NAME }

  function Parts(header: Option<string>): seq<string> { if header.None? then [] else Split(header.value, ';') }

  function CookiesOf(parts: seq<string>): seq<Option<Cookie>> {
    seq(|parts|, (i: nat) requires i < |parts| => CookieOf(parts[i]))
  }

  /** The cookies a header names, in order; None for the parts without '='. */
  function Named(header: Option<string>): seq<Option<Cookie>> { CookiesOf(Parts(header)) }

  // ---------------------------------------------------------------------------
  // The middleware
  // ---------------------------------------------------------------------------

  /** The part stores nothing: no '=', or an empty name. */
  predicate Skipped(cookie: Option<Cookie>) { cookie.None? || cookie.value.name == "" }

  /** The map of the cookies, later ones overwriting; None when a decode throws. */
  function ToMap(cookies: seq<Option<Cookie>>, decode: Decoder): Option<map<string, string>> {
    if cookies == [] then Some(map[])
    else
      var before := ToMap(cookies[..|cookies| - 1], decode);
      var last := cookies[|cookies| - 1];
      if before.None? || Skipped(last) then before
      else
        var value := decode(last.value.value);
        if value.None? then None else Some(before.value[last.value.name := value.value])
  }

  lemma ToMapNext(cookies: seq<Option<Cookie>>, i: nat, decode: Decoder)
    requires i < |cookies| && ToMap(cookies[..i], decode).Some?
    ensures ToMap(cookies[..i + 1], decode) ==
              var before, last := ToMap(cookies[..i], decode), cookies[i];
              if Skipped(last) then before
              else if decode(last.value.value).None? then None
              else Some(before.value[last.value.name := decode(last.value.value).value])
  {
    assert cookies[..i + 1][..i] == cookies[..i];
  }

  method ParseCookieHeader(header: Option<string>, decode: Decoder) returns (r: Option<map<string, string>>)
    ensures r == ToMap(Named(header), decode)
  {
    var parts := Parts(header);
    ghost var named := Named(header);
    var cookies: map<string, string> := map[];
    for i := 0 to |parts|
      invariant ToMap(named[..i], decode) == Some(cookies)
    {
      var cookie := CookieOf(parts[i]);
      ToMapNext(named, i, decode);
      if cookie.None? || cookie.value.name == "" { continue; }
      var value := decode(cookie.value.value);
      if value.None? {
        ThrowsOn(named, i, decode);
        return None;
      }
      cookies := cookies[cookie.value.name := value.value];
    }
    assert named[..|parts|] == named;
    return Some(cookies);
  }

  predicate Throws(cookie: Option<Cookie>, decode: Decoder) { !Skipped(cookie) && decode(cookie.value.value).None? }

  lemma {:induction false} ThrowsOn(cookies: seq<Option<Cookie>>, i: nat, decode: Decoder)
    requires i < |cookies| && Throws(cookies[i], decode)
    ensures ToMap(cookies, decode).None?
  {
    if i < |cookies| - 1 { ThrowsOn(cookies[..|cookies| - 1], i, decode); }
  }

  /** The middleware throws exactly when the value of some named cookie does not decode. */
  lemma {:induction false} ThrowsIff(cookies: seq<Option<Cookie>>, decode: Decoder)
    ensures ToMap(cookies, decode).None? <==> exists i :: 0 <= i < |cookies| && Throws(cookies[i], decode)
    ensures forall i :: 0 <= i < |cookies| ==>
              (Throws(cookies[i], decode) <==>
                 cookies[i].Some? && cookies[i].value.name != "" && decode(cookies[i].value.value).None?)
  {
    if cookies != [] {
      var n := |cookies| - 1;
      ThrowsIff(cookies[..n], decode);
      if i :| 0 <= i < n && Throws(cookies[..n][i], decode) { assert Throws(cookies[i], decode); }
      if i :| 0 <= i < |cookies| && Throws(cookies[i], decode) { ThrowsOn(cookies, i, decode); }
    }
  }

  /** The last cookie with this name. */
  ghost predicate IsLastNamed(cookies: seq<Option<Cookie>>, name: string, k: nat) {
    && k < |cookies| && cookies[k].Some? && cookies[k].value.name == name
    && forall j :: k < j < |cookies| ==> cookies[j].None? || cookies[j].value.name != name
  }

  ghost predicate Holds(cookies: seq<Option<Cookie>>, m: map<string, string>, name: string, decode: Decoder) {
    if name in m then
      name != "" && exists k: nat :: IsLastNamed(cookies, name, k) && Some(m[name]) == decode(cookies[k].value.value)
    else
      name == "" || forall k :: 0 <= k < |cookies| ==> cookies[k].None? || cookies[k].value.name != name
  }

  lemma HoldsNext(cookies: seq<Option<Cookie>>, n: nat, name: string, decode: Decoder)
    requires |cookies| == n + 1 && ToMap(cookies, decode).Some? && ToMap(cookies[..n], decode).Some?
    requires Holds(cookies[..n], ToMap(cookies[..n], decode).value, name, decode)
    ensures Holds(cookies, ToMap(cookies, decode).value, name, decode)
  {
    var before, now := ToMap(cookies[..n], decode).value, ToMap(cookies, decode).value;
    if name != "" && cookies[n].Some? && cookies[n].value.name == name {
      assert IsLastNamed(cookies, name, n) && Some(now[name]) == decode(cookies[n].value.value);
    } else if name in now {
      var k: nat :| IsLastNamed(cookies[..n], name, k) && Some(before[name]) == decode(cookies[..n][k].value.value);
      assert IsLastNamed(cookies, name, k);
    } else if name != "" {
      forall k | 0 <= k < |cookies| ensures cookies[k].None? || cookies[k].value.name != name {
        if k < n { assert cookies[..n][k] == cookies[k]; }
      }
    }
  }

  /** The map holds every cookie the header names, under the value of its last occurrence, and nothing else. */
  lemma {:induction false} MapExact(cookies: seq<Option<Cookie>>, decode: Decoder, name: string)
    requires ToMap(cookies, decode).Some?
    ensures Holds(cookies, ToMap(cookies, decode).value, name, decode)
  {
    if cookies != [] {
      var n := |cookies| - 1;
      MapExact(cookies[..n], decode, name);
      HoldsNext(cookies, n, name, decode);
    }
  }

  // ---------------------------------------------------------------------------
  // The targeted search
  // ---------------------------------------------------------------------------

  /** The first si_session from position i on. */
  function First(cookies: seq<Option<Cookie>>, i: nat := 0): (k: Option<nat>)
    requires i <= |cookies|
    ensures k.Some? ==> i <= k.value < |cookies| && IsSession(cookies[k.value])
                        && forall j :: i <= j < k.value ==> !IsSession(cookies[j])
    ensures k.None? ==> forall j :: i <= j < |cookies| ==> !IsSession(cookies[j])
    decreases |cookies| - i
  {
    if i == |cookies| then None else if IsSession(cookies[i]) then Some(i) else First(cookies, i + 1)
  }

  function DecodedOrRaw(raw: string, decode: Decoder): string { if decode(raw).Some? then decode(raw).value else raw }

  function SessionOf(cookies: seq<Option<Cookie>>, decode: Decoder): Option<string> {
    var k := First(cookies);
    if k.None? then None else Some(DecodedOrRaw(cookies[k.value].value.value, decode))
  }

  method ReadSessionCookie(header: Option<string>, decode: Decoder) returns (r: Option<string>)
    ensures r == SessionOf(Named(header), decode)
  {
    var parts := Parts(header);
    for i := 0 to |parts|
      invariant First(Named(header)) == First(Named(header), i)
    {
      var cookie := CookieOf(parts[i]);
      assert Named(header)[i] == cookie;
      if cookie.None? || cookie.value.name != NAME { continue; }
      var decoded := decode(cookie.value.value);
      return Some(if decoded.Some? then decoded.value else cookie.value.value);
    }
    return None;
  }

  // ---------------------------------------------------------------------------
  // The token of a request
  // ---------------------------------------------------------------------------

  predicate IsBearer(authorization: Option<string>) {
    && authorization.Some? && |authorization.value| >= 7
    && forall i :: 0 <= i < 7 ==> Lower(authorization.value[i]) == "bearer "[i]
  }

  /** Letter by letter, in either case. */
  lemma BearerIff(s: string)
    ensures IsBearer(Some(s)) <==>
              && |s| >= 7
              && s[0] in "bB" && s[1] in "eE" && s[2] in "aA" && s[3] in "rR"
              && s[4] in "eE" && s[5] in "rR" && s[6] == ' '
  {
    if |s| >= 7 {
      assert forall i :: 0 <= i < 7 ==> (Lower(s[i]) == "bearer "[i] <==>
                                           s[i] == "bearer "[i] || s[i] == "BEARER "[i]);
    }
  }

  /** extractToken; cookies is None where no middleware ran. */
  function Token(authorization: Option<string>, cookies: Option<map<string, string>>, header: Option<string>,
                 decode: Decoder): Option<string> {
    if IsBearer(authorization) then Some(Trim(authorization.value[7..]))
    else if cookies.Some? && NAME in cookies.value then Some(cookies.value[NAME])
    else SessionOf(Named(header), decode)
  }

  /** The last si_session. */
  ghost predicate IsLast(cookies: seq<Option<Cookie>>, k: nat) {
    k < |cookies| && IsSession(cookies[k]) && forall j :: k < j < |cookies| ==> !IsSession(cookies[j])
  }

  lemma {:induction false} FirstOfPrefix(cookies: seq<Option<Cookie>>, n: nat, i: nat)
    requires |cookies| == n + 1 && i <= n
    ensures First(cookies, i) ==
              if First(cookies[..n], i).Some? || !IsSession(cookies[n]) then First(cookies[..n], i) else Some(n)
    decreases n - i
  {
    if i < n {
      assert cookies[..n][i] == cookies[i];
      FirstOfPrefix(cookies, n, i + 1);
    }
  }

  /** The map holds the last si_session of the header, decoded, and none when there is none. */
  lemma {:induction false} MapHoldsLast(cookies: seq<Option<Cookie>>, decode: Decoder) returns (k: nat)
    requires ToMap(cookies, decode).Some?
    ensures NAME in ToMap(cookies, decode).value <==> First(cookies).Some?
    ensures First(cookies).Some? ==>
              && First(cookies).value <= k && IsLast(cookies, k)
              && Some(ToMap(cookies, decode).value[NAME]) == decode(cookies[k].value.value)
  {
    k := 0;
    if cookies != [] {
      var n := |cookies| - 1;
      FirstOfPrefix(cookies, n, 0);
      k := MapHoldsLast(cookies[..n], decode);
      if IsSession(cookies[n]) { k := n; }
    }
  }

  /** What the middleware's map makes of the header: the last si_session, decoded. */
  ghost predicate FromLast(named: seq<Option<Cookie>>, token: Option<string>, decode: Decoder) {
    exists k: nat :: IsLast(named, k) && token == decode(named[k].value.value)
  }

  ghost predicate IsFirst(named: seq<Option<Cookie>>, k: nat) {
    k < |named| && IsSession(named[k]) && forall j :: 0 <= j < k ==> !IsSession(named[j])
  }

  /** What the targeted search makes of it: the first one, raw when it does not decode. */
  ghost predicate FromFirst(named: seq<Option<Cookie>>, token: Option<string>, decode: Decoder) {
    exists k: nat :: IsFirst(named, k) && token == Some(DecodedOrRaw(named[k].value.value, decode))
  }

  ghost predicate NoSession(named: seq<Option<Cookie>>) { forall k :: 0 <= k < |named| ==> !IsSession(named[k]) }

  /** A bearer token wins; else the last or the first si_session, with or without the middleware. */
  lemma TokenSource(authorization: Option<string>, header: Option<string>, decode: Decoder)
    requires !IsBearer(authorization)
    ensures var named := Named(header);
            var token := Token(authorization, None, header, decode);
            if NoSession(named) then token.None? else FromFirst(named, token, decode)
    ensures var named := Named(header);
            var cookies := ToMap(named, decode);
            cookies.Some? ==>
              var token := Token(authorization, cookies, header, decode);
              if NoSession(named) then token.None? else FromLast(named, token, decode)
  {
    var named := Named(header);
    if First(named).Some? {
      assert IsFirst(named, First(named).value);
    }
    if ToMap(named, decode).Some? {
      var last := MapHoldsLast(named, decode);
    }
  }

  method ExtractToken(authorization: Option<string>, cookies: Option<map<string, string>>, header: Option<string>,
                      decode: Decoder) returns (r: Option<string>)
    ensures r == Token(authorization, cookies, header, decode)
    ensures IsBearer(authorization) ==> r == Some(Trim(authorization.value[7..]))
    ensures !IsBearer(authorization) && cookies.None? ==>
              if NoSession(Named(header)) then r.None? else FromFirst(Named(header), r, decode)
    ensures !IsBearer(authorization) && cookies.Some? && cookies == ToMap(Named(header), decode) ==>
              if NoSession(Named(header)) then r.None? else FromLast(Named(header), r, decode)
  {
    if !IsBearer(authorization) { TokenSource(authorization, header, decode); }
    if IsBearer(authorization) { return Some(Trim(authorization.value[7..])); }
    if cookies.Some? && NAME in cookies.value { return Some(cookies.value[NAME]); }
    r := ReadSessionCookie(header, decode);
  }

  /** First and last si_session, where there is one, decode to the same value. */
  ghost predicate FirstAndLastAgree(cookies: seq<Option<Cookie>>, decode: Decoder) {
    forall k: nat :: First(cookies).Some? && IsLast(cookies, k) ==>
      decode(cookies[First(cookies).value].value.value) == decode(cookies[k].value.value)
  }

  /**
   * Exactly when the middleware makes no difference to a request it lets through: a bearer token, or
   * first and last si_session agree.
   */
  lemma SameTokenIff(authorization: Option<string>, header: Option<string>, decode: Decoder)
    requires ToMap(Named(header), decode).Some?
    ensures IsBearer(authorization) || FirstAndLastAgree(Named(header), decode) <==>
              Token(authorization, ToMap(Named(header), decode), header, decode)
                == Token(authorization, None, header, decode)
  {
    var cookies := Named(header);
    var last := MapHoldsLast(cookies, decode);
    if First(cookies).Some? {
      ThrowsIff(cookies, decode);
      assert !Throws(cookies[First(cookies).value], decode);
      assert forall k :: IsLast(cookies, k) ==> k == last;
    }
  }

  /** In particular for every header that names si_session at most once. */
  lemma SameTokenForOneSession(authorization: Option<string>, header: Option<string>, decode: Decoder)
    requires var named := Named(header);
             forall i, j :: 0 <= i < j < |named| ==> !IsSession(named[i]) || !IsSession(named[j])
    requires var named := Named(header);
             forall i :: 0 <= i < |named| && named[i].Some? ==> decode(named[i].value.value).Some?
    ensures ToMap(Named(header), decode).Some?
    ensures Token(authorization, ToMap(Named(header), decode), header, decode)
              == Token(authorization, None, header, decode)
  {
    ThrowsIff(Named(header), decode);
    SameTokenIff(authorization, header, decode);
  }

  lemma {:induction false} SplitConcat(s: string, t: string, c: char)
    requires c !in t
    ensures Split(s + [c] + t, c) == Split(s, c) + [t]
  {
    var whole := s + [c] + t;
    if t == "" {
      assert whole[..|whole| - 1] == s;
    } else {
      assert whole[..|whole| - 1] == s + [c] + t[..|t| - 1];
      SplitConcat(s, t[..|t| - 1], c);
      assert t[..|t| - 1] + [t[|t| - 1]] == t;
    }
  }

  lemma {:induction false} SplitPlain(s: string, c: char)
    requires c !in s
    ensures Split(s, c) == [s]
  {
    if s != "" {
      SplitPlain(s[..|s| - 1], c);
      assert s[..|s| - 1] + [s[|s| - 1]] == s;
    }
  }

  lemma SessionPart(v: char)
    requires !IsSpace(v)
    ensures CookieOf("si_session=" + [v]) == Some(Cookie(NAME, [v]))
  {
    var part := "si_session=" + [v];
    assert part[10] == '=' && part[..10] == NAME && part[11..] == [v];
    var i := IndexOf(part, '=');
    assert forall j :: 0 <= j < 10 ==> part[j] == NAME[j];
    assert i == Some(10);
    assert Trim(NAME) == NAME && Trim([v]) == [v];
  }

  lemma TwoParts(p: string, q: string)
    requires ';' !in p && ';' !in q
    ensures Named(Some(p + ";" + q)) == [CookieOf(p), CookieOf(q)]
  {
    SplitPlain(p, ';');
    SplitConcat(p, q, ';');
    assert Parts(Some(p + ";" + q)) == [p, q];
  }

  lemma TwoNamed(header: Option<string>, x: string, y: string, decode: Decoder)
    requires Named(header) == [Some(Cookie(NAME, x)), Some(Cookie(NAME, y))]
    requires decode(x) == Some(x) && decode(y) == Some(y)
    ensures ToMap(Named(header), decode).Some?
    ensures Token(None, ToMap(Named(header), decode), header, decode) == Some(y)
    ensures Token(None, None, header, decode) == Some(x)
  {
    var named := Named(header);
    ThrowsIff(named, decode);
    var last := MapHoldsLast(named, decode);
    assert IsSession(named[0]) && IsSession(named[1]);
  }

  /** With two of them the two parsers disagree: the map keeps the last, the search takes the first. */
  lemma TwoSessionsDiffer(decode: Decoder)
    requires decode("a") == Some("a") && decode("b") == Some("b")
    ensures var header := Some("si_session=" + "a" + ";" + ("si_session=" + "b"));
            && ToMap(Named(header), decode).Some?
            && Token(None, ToMap(Named(header), decode), header, decode) == Some("b")
            && Token(None, None, header, decode) == Some("a")
  {
    SessionPart('a');
    SessionPart('b');
    TwoParts("si_session=" + "a", "si_session=" + "b");
    TwoNamed(Some("si_session=" + "a" + ";" + ("si_session=" + "b")), "a", "b", decode);
  }

  // ---------------------------------------------------------------------------
  // Headers as strings
  // ---------------------------------------------------------------------------

  predicate Blank(w: string) { forall k :: 0 <= k < |w| ==> IsSpace(w[k]) }

  /** Nothing to trim. */
  predicate Tight(s: string) { s == "" || (!IsSpace(s[0]) && !IsSpace(s[|s| - 1])) }

  lemma {:induction false} TrimStartBlank(w: string, s: string)
    requires Blank(w) && (s == "" || !IsSpace(s[0]))
    ensures TrimStart(w + s) == s
  {
    if w == "" {
      assert w + s == s;
    } else {
      assert (w + s)[1..] == w[1..] + s;
      TrimStartBlank(w[1..], s);
    }
  }

  lemma {:induction false} TrimEndBlank(s: string, w: string)
    requires Blank(w) && (s == "" || !IsSpace(s[|s| - 1]))
    ensures TrimEnd(s + w) == s
  {
    if w == "" {
      assert s + w == s;
    } else {
      assert (s + w)[..|s + w| - 1] == s + w[..|w| - 1];
      TrimEndBlank(s, w[..|w| - 1]);
    }
  }

  lemma {:induction false} TrimAllBlank(w: string)
    requires Blank(w)
    ensures TrimStart(w) == ""
  {
    if w != "" { TrimAllBlank(w[1..]); }
  }

  lemma TrimPadded(w1: string, s: string, w2: string)
    requires Blank(w1) && Blank(w2) && Tight(s)
    ensures Trim(w1 + s + w2) == s
  {
    if s == "" {
      assert w1 + s + w2 == w1 + w2;
      TrimAllBlank(w1 + w2);
    } else {
      assert w1 + s + w2 == w1 + (s + w2);
      TrimStartBlank(w1, s + w2);
      TrimEndBlank(s, w2);
    }
  }

  lemma IndexIs(s: string, c: char, i: nat)
    requires i < |s| && s[i] == c && forall j :: 0 <= j < i ==> s[j] != c
    ensures IndexOf(s, c) == Some(i)
  {
  }

  /** White space around name and value does not count, and the first '=' separates them. */
  lemma CookiePadded(w1: string, n: string, w2: string, w3: string, v: string, w4: string)
    requires Blank(w1) && Blank(w2) && Blank(w3) && Blank(w4) && Tight(n) && Tight(v) && '=' !in n
    ensures CookieOf(w1 + n + w2 + "=" + w3 + v + w4) == Some(Cookie(n, v))
  {
    var part, left, right := w1 + n + w2 + "=" + w3 + v + w4, w1 + n + w2, w3 + v + w4;
    assert part == left + "=" + right;
    forall j | 0 <= j < |left|
      ensures part[j] != '='
    {
      assert part[j] == left[j];
      if j < |w1| {
        assert left[j] == w1[j];
      } else if j < |w1| + |n| {
        assert left[j] == n[j - |w1|] && left[j] in n;
      } else {
        assert left[j] == w2[j - |w1| - |n|];
      }
    }
    IndexIs(part, '=', |left|);
    assert part[..|left|] == left && part[|left| + 1..] == right;
    TrimPadded(w1, n, w2);
    TrimPadded(w3, v, w4);
  }

  lemma NoCookie(part: string)
    ensures CookieOf(part).None? <==> '=' !in part
  {
    var i := IndexOf(part, '=');
    if i.Some? { assert part[i.value] in part; }
  }

  /** Browsers put a space behind the separator. */
  lemma NamedNext(p: string, part: string)
    requires ';' !in part
    ensures Named(Some(p + ";" + part)) == Named(Some(p)) + [CookieOf(part)]
    ensures Named(Some(part)) == [CookieOf(part)]
  {
    SplitConcat(p, part, ';');
    SplitPlain(part, ';');
  }

  lemma SessionIsLast(named: seq<Option<Cookie>>, v: string, decode: Decoder)
    requires |named| > 0 && named[|named| - 1] == Some(Cookie(NAME, v)) && NoSession(named[..|named| - 1])
    ensures SessionOf(named, decode) == Some(if decode(v).Some? then decode(v).value else v)
    ensures ToMap(named, decode).Some? ==>
              NAME in ToMap(named, decode).value && Some(ToMap(named, decode).value[NAME]) == decode(v)
  {
    var n := |named| - 1;
    assert IsSession(named[n]);
    forall j | 0 <= j < n ensures !IsSession(named[j]) { assert named[j] == named[..n][j]; }
    assert First(named) == Some(n);
  }

  lemma SpacedCookie(n: string, v: string)
    requires Tight(n) && '=' !in n && ';' !in n && ';' !in v && Tight(v)
    ensures CookieOf(" " + n + "=" + v) == Some(Cookie(n, v)) && ';' !in " " + n + "=" + v
  {
    assert " " + n + "=" + v == " " + n + "" + "=" + "" + v + "";
    CookiePadded(" ", n, "", "", v, "");
  }

  lemma SessionBehind(p: string, part: string, v: string, decode: Decoder)
    requires NoSession(Named(Some(p))) && ';' !in part && CookieOf(part) == Some(Cookie(NAME, v))
    ensures var header := Some(p + ";" + part);
            && Token(None, None, header, decode) == Some(if decode(v).Some? then decode(v).value else v)
            && (ToMap(Named(header), decode).Some? ==>
                  Token(None, ToMap(Named(header), decode), header, decode) == decode(v))
  {
    NamedNext(p, part);
    var named := Named(Some(p + ";" + part));
    assert named[..|named| - 1] == Named(Some(p));
    SessionIsLast(named, v, decode);
  }

  /**
   * Whatever cookies come before it: a session cookie behind "; " is found and decoded, by the search
   * and by the middleware's map alike.
   */
  lemma SessionFound(p: string, v: string, decode: Decoder)
    requires NoSession(Named(Some(p)))
    requires ';' !in v && forall k :: 0 <= k < |v| ==> !IsSpace(v[k])
    ensures var header := Some(p + ";" + (" " + "si_session" + "=" + v));
            && Token(None, None, header, decode) == Some(if decode(v).Some? then decode(v).value else v)
            && (ToMap(Named(header), decode).Some? ==>
                  Token(None, ToMap(Named(header), decode), header, decode) == decode(v))
  {
    SpacedCookie("si_session", v);
    SessionBehind(p, " " + "si_session" + "=" + v, v, decode);
  }

  lemma PlainCookie(n: string, v: string)
    requires Tight(n) && '=' !in n && ';' !in n && ';' !in v && Tight(v)
    ensures CookieOf(n + "=" + v) == Some(Cookie(n, v)) && ';' !in n + "=" + v
  {
    assert n + "=" + v == "" + n + "" + "=" + "" + v + "";
    CookiePadded("", n, "", "", v, "");
  }

  lemma SessionOnly(part: string, v: string, decode: Decoder)
    requires ';' !in part && CookieOf(part) == Some(Cookie(NAME, v))
    ensures Token(None, None, Some(part), decode) == Some(if decode(v).Some? then decode(v).value else v)
    ensures ToMap(Named(Some(part)), decode).Some? ==>
              Token(None, ToMap(Named(Some(part)), decode), Some(part), decode) == decode(v)
  {
    NamedNext("", part);
    assert [CookieOf(part)][..0] == [];
    SessionIsLast([CookieOf(part)], v, decode);
  }

  /** Alone in the header it is found just so. */
  lemma SessionAlone(v: string, decode: Decoder)
    requires ';' !in v && forall k :: 0 <= k < |v| ==> !IsSpace(v[k])
    ensures var header := Some("si_session" + "=" + v);
            && Token(None, None, header, decode) == Some(if decode(v).Some? then decode(v).value else v)
            && (ToMap(Named(header), decode).Some? ==>
                  Token(None, ToMap(Named(header), decode), header, decode) == decode(v))
  {
    PlainCookie("si_session", v);
    SessionOnly("si_session" + "=" + v, v, decode);
  }

  /** A bearer token is what follows the scheme, without the white space around it, whatever the cookies say. */
  lemma BearerToken(scheme: string, w1: string, t: string, w2: string, cookies: Option<map<string, string>>,
                    header: Option<string>, decode: Decoder)
    requires |scheme| == 7 && IsBearer(Some(scheme)) && Blank(w1) && Blank(w2) && Tight(t)
    ensures Token(Some(scheme + w1 + t + w2), cookies, header, decode) == Some(t)
  {
    var s := scheme + w1 + t + w2;
    assert s[7..] == w1 + t + w2;
    assert forall i :: 0 <= i < 7 ==> s[i] == scheme[i];
    TrimPadded(w1, t, w2);
  }
}
