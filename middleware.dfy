/**
 * The request middleware: requests for the dashboard and the task API need a token
 * cookie that decrypts; anything else passes. A refused request is redirected to the
 * login page with the requested path, passed through `encodeURI`, as `callbackUrl`.
 */
module Middleware {
  import opened Wrappers
  import opened Text
  import Auth

  const ProtectedPaths: seq<string> := ["/dashboard", "/api/tasks"]

  /** `prefixes.some(p => pathname.startsWith(p))`. */
  function SomePrefix(prefixes: seq<string>, pathname: string): (b: bool)
    ensures b <==> exists i :: 0 <= i < |prefixes| && StartsWith(pathname, prefixes[i])
  {
    if prefixes == [] then false
    else StartsWith(pathname, prefixes[0]) || SomePrefix(prefixes[1..], pathname)
  }

  /** A plain prefix test: '/dashboardX' counts as protected too. */
  predicate IsProtected(pathname: string) {
    SomePrefix(ProtectedPaths, pathname)
  }

  lemma ProtectedIffPrefix(pathname: string)
    ensures IsProtected(pathname) <==> StartsWith(pathname, "/dashboard") || StartsWith(pathname, "/api/tasks")
  {
    assert ProtectedPaths[0] == "/dashboard" && ProtectedPaths[1] == "/api/tasks";
  }

  // ---- encodeURI ----

  /** The characters `encodeURI` leaves as they are. */
  predicate Unescaped(c: char) {
    ('A' <= c <= 'Z') || ('a' <= c <= 'z') || ('0' <= c <= '9') || c in "-_.!~*'();/?:@&=+$,#"
  }

  predicate IsHexDigit(c: char) {
    ('0' <= c <= '9') || ('A' <= c <= 'F')
  }

  function HexDigit(n: int): (c: char)
    requires 0 <= n < 16
    ensures IsHexDigit(c)
  {
    "0123456789ABCDEF"[n]
  }

  /** The UTF-8 encoding of a scalar value, as byte values. */
  function Utf8(c: char): (bs: seq<int>)
    ensures 1 <= |bs| <= 4
    ensures forall i :: 0 <= i < |bs| ==> 0 <= bs[i] < 256
    ensures |bs| == 1 <==> (c as int) < 0x80
  {
    var n := c as int;
    if n < 0x80 then [n]
    else if n < 0x800 then [0xC0 + n / 64, 0x80 + n % 64]
    else if n < 0x10000 then [0xE0 + n / 4096, 0x80 + (n / 64) % 64, 0x80 + n % 64]
    else [0xF0 + n / 262144, 0x80 + (n / 4096) % 64, 0x80 + (n / 64) % 64, 0x80 + n % 64]
  }

  /** Reads a UTF-8 sequence back into its scalar value. */
  function Utf8Value(bs: seq<int>): int
    requires 1 <= |bs| <= 4
  {
    if |bs| == 1 then bs[0]
    else if |bs| == 2 then (bs[0] - 0xC0) * 64 + (bs[1] - 0x80)
    else if |bs| == 3 then (bs[0] - 0xE0) * 4096 + (bs[1] - 0x80) * 64 + (bs[2] - 0x80)
    else (bs[0] - 0xF0) * 262144 + (bs[1] - 0x80) * 4096 + (bs[2] - 0x80) * 64 + (bs[3] - 0x80)
  }

  /** The UTF-8 encoding loses nothing. */
  lemma Utf8RoundTrip(c: char)
    ensures Utf8Value(Utf8(c)) == c as int
  {
    var n := c as int;
    if 0x800 <= n < 0x10000 {
      assert n == (n / 4096) * 4096 + ((n / 64) % 64) * 64 + n % 64;
    } else if 0x10000 <= n {
      assert n / 64 == (n / 4096) * 64 + (n / 64) % 64;
      assert n / 4096 == (n / 262144) * 64 + (n / 4096) % 64;
    }
  }

  /** `%XY` for every byte. */
  function PercentEncode(bs: seq<int>): (r: string)
    requires forall i :: 0 <= i < |bs| ==> 0 <= bs[i] < 256
    ensures |r| == 3 * |bs|
    ensures forall i :: 0 <= i < |r| ==> r[i] == '%' || IsHexDigit(r[i])
  {
    if bs == [] then [] else ['%', HexDigit(bs[0] / 16), HexDigit(bs[0] % 16)] + PercentEncode(bs[1..])
  }

  function EncodeChar(c: char): (r: string)
    ensures 1 <= |r|
  {
    if Unescaped(c) then [c] else PercentEncode(Utf8(c))
  }

  /** `encodeURI` over a string of scalar values. */
  function EncodeURI(s: string): (r: string)
    ensures |s| <= |r|
  {
    if s == [] then [] else EncodeChar(s[0]) + EncodeURI(s[1..])
  }

  /** What comes out is made of unescaped characters, '%' and hex digits only. */
  lemma {:induction false} EncodeURIOutput(s: string)
    ensures forall i :: 0 <= i < |EncodeURI(s)| ==>
      Unescaped(EncodeURI(s)[i]) || EncodeURI(s)[i] == '%' || IsHexDigit(EncodeURI(s)[i])
  {
    if s != [] {
      EncodeURIOutput(s[1..]);
      var head, tail := EncodeChar(s[0]), EncodeURI(s[1..]);
      assert EncodeURI(s) == head + tail;
      forall i | 0 <= i < |head + tail|
        ensures Unescaped((head + tail)[i]) || (head + tail)[i] == '%' || IsHexDigit((head + tail)[i])
      {
        if i >= |head| {
          assert (head + tail)[i] == tail[i - |head|];
        }
      }
    }
  }

  /** A path made only of unescaped characters comes out unchanged. */
  lemma {:induction false} EncodeURIKeepsPlainPaths(s: string)
    requires forall i :: 0 <= i < |s| ==> Unescaped(s[i])
    ensures EncodeURI(s) == s
  {
    if s != [] {
      EncodeURIKeepsPlainPaths(s[1..]);
      assert s == [s[0]] + s[1..];
    }
  }

  /** Encoding works character by character. */
  lemma {:induction false} EncodeURIAppend(a: string, b: string)
    ensures EncodeURI(a + b) == EncodeURI(a) + EncodeURI(b)
  {
    if a != [] {
      assert (a + b)[1..] == a[1..] + b;
      EncodeURIAppend(a[1..], b);
    } else {
      assert a + b == b;
    }
  }

  // ---- the middleware ----

  datatype Outcome = Next | Redirect(path: string, callbackUrl: string)

  const LoginPath: string := "/auth/login"

  /** `middleware(request)` given the `token` cookie and the requested path. */
  function Middleware(pathname: string, token: Option<string>, verify: string -> Auth.Verified): (r: Outcome)
    ensures r.Redirect? <==>
      IsProtected(pathname) && (Auth.Falsy(token) || Auth.Decrypt(verify, token.value).None?)
    ensures r.Redirect? ==> r.path == "/auth/login" && r.callbackUrl == EncodeURI(pathname)
  {
    if IsProtected(pathname) && (Auth.Falsy(token) || Auth.Decrypt(verify, token.value).None?) then
      Redirect(LoginPath, EncodeURI(pathname))
    else
      Next
  }

  /** The paths of `config.matcher`, each with any sub-path. */
  const MatcherBases: seq<string> := ["/dashboard", "/api/tasks", "/api/notifications"]

  predicate Matched(pathname: string) {
    exists i :: 0 <= i < |MatcherBases| &&
      (pathname == MatcherBases[i] || StartsWith(pathname, MatcherBases[i] + "/"))
  }

  /** A request as the framework handles it: the middleware runs only on matched paths. */
  function HandleRequest(pathname: string, token: Option<string>, verify: string -> Auth.Verified): (r: Outcome)
    ensures !Matched(pathname) ==> r == Next
    ensures Matched(pathname) ==> r == Middleware(pathname, token, verify)
  {
    if Matched(pathname) then Middleware(pathname, token, verify) else Next
  }

  /** No protected prefix starts a notifications path: they part at the sixth character. */
  lemma NotificationsUnprotected(rest: string)
    ensures !IsProtected("/api/notifications" + rest)
  {
    var p := "/api/notifications" + rest;
    assert p[5] == 'n';
    ProtectedIffPrefix(p);
  }

  /** The notifications API is matched but not protected: it passes without any token. */
  lemma NotificationsPassUnchecked(rest: string, token: Option<string>, verify: string -> Auth.Verified)
    ensures HandleRequest("/api/notifications" + rest, token, verify) == Next
  {
    NotificationsUnprotected(rest);
  }

  /** Anything under the two protected prefixes is protected, whatever follows them. */
  lemma ProtectedPrefixes(rest: string)
    ensures IsProtected("/dashboard" + rest) && IsProtected("/api/tasks" + rest)
  {
    ProtectedIffPrefix("/dashboard" + rest);
    ProtectedIffPrefix("/api/tasks" + rest);
    assert ("/dashboard" + rest)[..10] == "/dashboard";
    assert ("/api/tasks" + rest)[..10] == "/api/tasks";
  }

  /** '/dashboardX' is none of the matcher's paths and lies below none of them. */
  lemma LookalikeUnmatched()
    ensures !Matched("/dashboardX")
  {
    var p := "/dashboardX";
    forall i | 0 <= i < |MatcherBases|
      ensures p != MatcherBases[i] && !StartsWith(p, MatcherBases[i] + "/")
    {
      if i == 0 {
        assert p[10] != (MatcherBases[0] + "/")[10];
      } else {
        assert p[1] != MatcherBases[i][1];
      }
    }
  }

  /**
   * The prefix test alone would protect '/dashboardX', but the matcher never runs the
   * middleware on it, so it passes without a token.
   */
  lemma LookalikeNeverChecked(token: Option<string>, verify: string -> Auth.Verified)
    ensures IsProtected("/dashboardX")
    ensures HandleRequest("/dashboardX", token, verify) == Next
  {
    ProtectedPrefixes("X");
    assert "/dashboard" + "X" == "/dashboardX";
    LookalikeUnmatched();
  }
}
