/** Identity resolution (server/server.js:32-35, 58-86): which registry key, if any, a
    request is routed to. */
module Identity {
  import opened Wire

  // ---------------------------------------------------------------------------------------
  // `String.prototype.indexOf`

  /** `pat` occurs in `s` starting at index `i`. */
  predicate OccursAt(s: string, pat: string, i: nat) {
    i + |pat| <= |s| && s[i..i + |pat|] == pat
  }

  /** `pat` occurs somewhere in `s`. */
  predicate Contains(s: string, pat: string) {
    exists i: nat | i <= |s| :: OccursAt(s, pat, i)
  }

  /** `s.indexOf(pat, from)`: the first index at or after `from` where `pat` occurs,
      or -1. */
  function IndexFrom(s: string, pat: string, from: nat): (r: int)
    requires from <= |s|
    ensures r == -1 || (from <= r && OccursAt(s, pat, r))
    ensures r == -1 ==> forall j: nat | from <= j <= |s| :: !OccursAt(s, pat, j)
    ensures r != -1 ==> forall j: nat | from <= j < r :: !OccursAt(s, pat, j)
    decreases |s| - from
  {
    if OccursAt(s, pat, from) then from
    else if from == |s| then -1
    else IndexFrom(s, pat, from + 1)
  }

  function IndexOf(s: string, pat: string): (r: int)
    ensures r > -1 <==> Contains(s, pat)
    ensures r > -1 ==> OccursAt(s, pat, r) && forall j: nat | j < r :: !OccursAt(s, pat, j)
  {
    IndexFrom(s, pat, 0)
  }

  /** The mobile test `pathname.indexOf('/mobile/') > -1`: a substring test, not a prefix
      test. */
  predicate IsMobilePath(path: string) {
    IndexOf(path, "/mobile/") > -1
  }

  lemma {:induction false} MobilePathIsSubstringTest(path: string)
    ensures IsMobilePath(path) <==> Contains(path, "/mobile/")
    ensures IsMobilePath("/mobile/" + path)
    ensures IsMobilePath("/files/data/mobile/" + path) && IsMobilePath("/ui/mobile/" + path)
  {
    assert OccursAt("/mobile/" + path, "/mobile/", 0) by {
      assert ("/mobile/" + path)[0..8] == "/mobile/";
    }
    assert OccursAt("/files/data/mobile/" + path, "/mobile/", 11) by {
      assert ("/files/data/mobile/" + path)[11..19] == "/mobile/";
    }
    assert OccursAt("/ui/mobile/" + path, "/mobile/", 3) by {
      assert ("/ui/mobile/" + path)[3..11] == "/mobile/";
    }
  }

  // ---------------------------------------------------------------------------------------
  // The fingerprint `ip + '-' + ua.replace(/\s/g, '-')`

  /** The characters JavaScript's `\s` matches. */
  predicate IsJsWhitespace(ch: char) {
    var n := ch as int;
    n == 0x09 || n == 0x0A || n == 0x0B || n == 0x0C || n == 0x0D || n == 0x20
    || n == 0xA0 || n == 0x1680 || (0x2000 <= n <= 0x200A) || n == 0x2028 || n == 0x2029
    || n == 0x202F || n == 0x205F || n == 0x3000 || n == 0xFEFF
  }

  /** One character of `replace(/\s/g, '-')`. */
  function Dash(ch: char): (r: char)
    ensures !IsJsWhitespace(r)
    ensures IsJsWhitespace(ch) ==> r == '-'
    ensures IsJsWhitespace(ch) <==> r != ch
  {
    if IsJsWhitespace(ch) then '-' else ch
  }

  /** `ua.replace(/\s/g, '-')`. */
  function Dashify(ua: string): (r: string)
    ensures |r| == |ua|
    ensures forall i | 0 <= i < |ua| :: r[i] == Dash(ua[i])
  {
    if ua == [] then [] else [Dash(ua[0])] + Dashify(ua[1..])
  }

  /** Two user-agent characters that the fingerprint cannot tell apart. */
  predicate SameAfterDash(a: char, b: char) {
    a == b || ((IsJsWhitespace(a) || a == '-') && (IsJsWhitespace(b) || b == '-'))
  }

  lemma DashAgrees(a: char, b: char)
    ensures Dash(a) == Dash(b) <==> SameAfterDash(a, b)
  {
  }

  lemma SameFingerprint(u: string, w: string)
    requires |u| == |w| && forall i | 0 <= i < |u| :: SameAfterDash(u[i], w[i])
    ensures Dashify(u) == Dashify(w)
  {
    var du, dw := Dashify(u), Dashify(w);
    forall i | 0 <= i < |u| ensures du[i] == dw[i] {
      DashAgrees(u[i], w[i]);
    }
  }

  lemma FingerprintAgrees(u: string, w: string)
    requires Dashify(u) == Dashify(w)
    ensures |u| == |w| && forall i | 0 <= i < |u| :: SameAfterDash(u[i], w[i])
  {
    var d := Dashify(u);
    forall i | 0 <= i < |u| ensures SameAfterDash(u[i], w[i]) {
      assert d[i] == Dash(u[i]) && d[i] == Dash(w[i]);
      DashAgrees(u[i], w[i]);
    }
  }

  /** Two user agents yield the same fingerprint exactly when they agree position by
      position up to whitespace-versus-dash; `"a b"` and `"a-b"` share a session. */
  lemma DashifyCollisions(u: string, w: string)
    ensures Dashify(u) == Dashify(w)
            <==> |u| == |w| && forall i | 0 <= i < |u| :: SameAfterDash(u[i], w[i])
  {
    if Dashify(u) == Dashify(w) {
      FingerprintAgrees(u, w);
    } else if |u| == |w| && forall i | 0 <= i < |u| :: SameAfterDash(u[i], w[i]) {
      SameFingerprint(u, w);
    }
  }

  /** The fingerprint holds no whitespace, so normalising it again changes nothing. */
  lemma DashifyIdempotent(ua: string)
    ensures forall i | 0 <= i < |ua| :: !IsJsWhitespace(Dashify(ua)[i])
    ensures Dashify(Dashify(ua)) == Dashify(ua)
  {
    forall i | 0 <= i < |ua| ensures Dashify(Dashify(ua))[i] == Dashify(ua)[i] {
      assert !IsJsWhitespace(Dashify(ua)[i]);
    }
  }

  /** The names every object literal inherits from `Object.prototype`: looking one of them
      up in `dispatcherMap` yields a truthy value that is not a session. */
  const InheritedNames: set<string> := {
    "constructor", "__proto__", "__defineGetter__", "__defineSetter__", "__lookupGetter__",
    "__lookupSetter__", "hasOwnProperty", "isPrototypeOf", "propertyIsEnumerable",
    "toString", "toLocaleString", "valueOf"
  }

  /** The key derived for a mobile client. It always holds a dash, which no inherited
      name does, so it is never empty and never collides with one of them. */
  function MobileKey(ip: string, ua: string): (r: string)
    ensures |r| == |ip| + 1 + |ua| && r[..|ip|] == ip && r[|ip|] == '-'
    ensures r[|ip| + 1..] == Dashify(ua)
  {
    ip + "-" + Dashify(ua)
  }

  lemma MobileKeyInjectiveOnIp(ip1: string, ua1: string, ip2: string, ua2: string)
    requires MobileKey(ip1, ua1) == MobileKey(ip2, ua2) && |ip1| == |ip2|
    ensures ip1 == ip2 && Dashify(ua1) == Dashify(ua2)
  {
    assert MobileKey(ip1, ua1)[..|ip1|] == ip1;
    assert MobileKey(ip2, ua2)[|ip2| + 1..] == Dashify(ua2);
  }

  /** Without equal-length addresses the key is ambiguous: an address is free text when it
      comes from `x-forwarded-for`, and a dash in it can stand for a dashed space. */
  lemma MobileKeyAmbiguousAcrossIps()
    ensures MobileKey("a-b", "c") == MobileKey("a", "b c") && "a-b" != "a"
  {
    assert Dash(' ') == '-';
    assert Dashify("b c") == "b-c";
  }

  // ---------------------------------------------------------------------------------------
  // Resolution

  datatype Resolution =
    | Explicit(key: string)   // an explicit `targetId` the registry answers to
    | Derived(key: string)    // a mobile path: the ip/user-agent fingerprint
    | Shared                  // the process-wide default dispatchers
    | NoUserAgent             // a mobile path without a User-Agent header: `replace` throws

  /** `reqInfo.query.targetId && dispatcherMap[targetId]`, counting only the registry's own
      keys. */
  predicate Honoured(keys: set<string>, targetId: Option<string>) {
    targetId.Some? && targetId.value != "" && targetId.value in keys
  }

  /** The resolution step of `processPostedData`, with the lookup restricted to the
      registry's own keys. */
  function Resolve(keys: set<string>, path: string, targetId: Option<string>, ip: string,
                   ua: Option<string>): (r: Resolution)
    ensures r.Explicit? <==> Honoured(keys, targetId)
    ensures r.Explicit? ==> r.key == targetId.value && r.key in keys
    ensures r.Derived? <==> !Honoured(keys, targetId) && IsMobilePath(path) && ua.Some?
    ensures r.Derived? ==> r.key == MobileKey(ip, ua.value)
    ensures r.NoUserAgent? <==> !Honoured(keys, targetId) && IsMobilePath(path) && ua.None?
    ensures r.Shared? <==> !Honoured(keys, targetId) && !IsMobilePath(path)
  {
    if Honoured(keys, targetId) then Explicit(targetId.value)
    else if IsMobilePath(path) then
      (if ua.Some? then Derived(MobileKey(ip, ua.value)) else NoUserAgent)
    else Shared
  }

  /** The resolution step as written: `dispatcherMap` is an object literal, so a `targetId`
      naming an inherited property also passes the truthiness test. */
  function ResolveAsWritten(keys: set<string>, path: string, targetId: Option<string>,
                            ip: string, ua: Option<string>): (r: Resolution)
    ensures targetId.Some? && targetId.value in InheritedNames ==> r == Explicit(targetId.value)
    ensures !(targetId.Some? && targetId.value in InheritedNames) ==>
              r == Resolve(keys, path, targetId, ip, ua)
  {
    if targetId.Some? && targetId.value != ""
       && (targetId.value in keys || targetId.value in InheritedNames)
    then Explicit(targetId.value)
    else Resolve(keys, path, targetId, ip, ua)
  }
}
