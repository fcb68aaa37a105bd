/**
 * Inspection and clean-up of the browser's cookie string: the names of the
 * session cookies, the expiry writes that delete them, and the test for a
 * corrupted authentication state (more than one session cookie for the
 * project).
 */
module Cookies {
  import opened Common
  import opened Text
  import Middleware

  const SessionPrefix: string := "a_session_"

  /** `cookie.split('=')[0].trim()`: the text before the first '=', trimmed. */
  function CookieName(segment: string): (name: string)
    ensures '=' !in name
  {
    var first := Before(segment, '=');
    assert '=' !in TrimStart(first);
    Trim(first)
  }

  /** The name is the first `=`-separated piece, trimmed. */
  lemma CookieNameIsFirstPiece(segment: string)
    ensures CookieName(segment) == Trim(Split(segment, '=')[0])
  {
    FirstPieceIsBefore(segment, '=');
  }

  predicate IsSessionName(name: string) {
    StartsWith(name, SessionPrefix)
  }

  /** The part every expiry write shares after the cookie name. */
  const Expired: string := "=;expires=Thu, 01 Jan 1970 00:00:01 GMT;path=/"

  /** The first write, for the current domain. */
  function FirstWrite(name: string): string {
    name + Expired + ";"
  }

  /** The write for one entry of the domain list; an empty entry adds no domain attribute. */
  function DomainWrite(name: string, domain: string): string {
    name + Expired + (if domain != "" then ";domain=" + domain else "")
  }

  /** `['', hostname, '.' + hostname]`. */
  function Domains(hostname: string): seq<string> {
    ["", hostname, "." + hostname]
  }

  function DomainWrites(name: string, domains: seq<string>): (w: seq<string>)
    ensures |w| == |domains|
    ensures forall k :: 0 <= k < |domains| ==> w[k] == DomainWrite(name, domains[k])
  {
    seq(|domains|, k requires 0 <= k < |domains| => DomainWrite(name, domains[k]))
  }

  /** The four writes that expire one session cookie. */
  function WritesFor(name: string, hostname: string): (w: seq<string>)
    ensures |w| == 4
    ensures w[0] == FirstWrite(name)
    ensures forall k :: 1 <= k < 4 ==> w[k] == DomainWrite(name, Domains(hostname)[k - 1])
  {
    [FirstWrite(name)] + DomainWrites(name, Domains(hostname))
  }

  /** The name of every segment. */
  function CookieNames(segments: seq<string>): (names: seq<string>)
    ensures |names| == |segments|
    ensures forall i :: 0 <= i < |segments| ==> names[i] == CookieName(segments[i])
  {
    seq(|segments|, i requires 0 <= i < |segments| => CookieName(segments[i]))
  }

  /** The names that start with the session prefix, in their order. */
  function SessionOnly(names: seq<string>): (r: seq<string>)
    ensures |r| <= |names|
    ensures forall n :: n in r <==> n in names && IsSessionName(n)
  {
    if names == [] then []
    else
      var init := SessionOnly(names[..|names| - 1]);
      assert names == names[..|names| - 1] + [names[|names| - 1]];
      if IsSessionName(names[|names| - 1]) then init + [names[|names| - 1]] else init
  }

  /** The names of the session cookies, in the order of the cookie string. */
  function SessionNames(segments: seq<string>): seq<string> {
    SessionOnly(CookieNames(segments))
  }

  /** Each session name comes from a segment of the cookie string, and each session segment gives one. */
  lemma SessionNamesIff(segments: seq<string>, n: string)
    ensures n in SessionNames(segments) <==> IsSessionName(n) && exists i :: 0 <= i < |segments| && CookieName(segments[i]) == n
  {
    var names := CookieNames(segments);
    if n in names {
      var i :| 0 <= i < |names| && names[i] == n;
    }
  }

  /** All writes for a list of cookie names, name by name. */
  function AllWrites(names: seq<string>, hostname: string): (w: seq<string>)
    ensures |w| == 4 * |names|
  {
    if names == [] then [] else AllWrites(names[..|names| - 1], hostname) + WritesFor(names[|names| - 1], hostname)
  }

  /** What the clean-up writes to `document.cookie`, in order. */
  function CleanupWrites(segments: seq<string>, hostname: string): seq<string> {
    AllWrites(SessionNames(segments), hostname)
  }

  /** One more name adds that cookie's four writes when it is a session cookie, and nothing otherwise. */
  lemma WritesStep(names: seq<string>, i: nat, hostname: string)
    requires i < |names|
    ensures AllWrites(SessionOnly(names[..i + 1]), hostname) ==
      AllWrites(SessionOnly(names[..i]), hostname) + (if IsSessionName(names[i]) then WritesFor(names[i], hostname) else [])
  {
    var prefix := names[..i + 1];
    assert prefix[..i] == names[..i];
    var sel := SessionOnly(names[..i]);
    if IsSessionName(names[i]) {
      assert (sel + [names[i]])[..|sel|] == sel;
    }
  }

  /**
   * `cleanupAppwriteCookies`: the outer loop visits the `;`-separated
   * segments, the inner loop (in Expire) the three domains of a session
   * cookie; the result is the sequence of strings assigned to
   * `document.cookie`.
   */
  method Cleanup(cookieString: string, hostname: string) returns (writes: seq<string>)
    ensures writes == CleanupWrites(Split(cookieString, ';'), hostname)
  {
    var cookies := Split(cookieString, ';');
    ghost var names := CookieNames(cookies);
    writes := [];
    var i := 0;
    while i < |cookies|
      invariant 0 <= i <= |cookies|
      invariant writes == AllWrites(SessionOnly(names[..i]), hostname)
    {
      var name := CookieName(cookies[i]);
      WritesStep(names, i, hostname);
      if IsSessionName(name) {
        var expiries := Expire(name, hostname);
        writes := writes + expiries;
      }
      i := i + 1;
    }
    assert names[..i] == names;
  }

  /** The writes for one session cookie: the plain one, then one per entry of the domain list. */
  method Expire(name: string, hostname: string) returns (writes: seq<string>)
    ensures writes == WritesFor(name, hostname)
  {
    writes := [FirstWrite(name)];
    var domains := Domains(hostname);
    var j := 0;
    while j < |domains|
      invariant 0 <= j <= |domains|
      invariant writes == [FirstWrite(name)] + DomainWrites(name, domains[..j])
    {
      assert DomainWrites(name, domains[..j + 1]) == DomainWrites(name, domains[..j]) + [DomainWrite(name, domains[j])];
      writes := writes + [DomainWrite(name, domains[j])];
      j := j + 1;
    }
    assert domains[..j] == domains;
  }

  /**
   * Write k of the clean-up belongs to the (k / 4)-th session cookie: the
   * first of its four writes has no domain, the other three use the
   * domains '', hostname and '.' + hostname.
   */
  lemma {:induction false} AllWritesLayout(names: seq<string>, hostname: string, k: nat)
    requires k < 4 * |names|
    ensures AllWrites(names, hostname)[k] ==
      if k % 4 == 0 then FirstWrite(names[k / 4]) else DomainWrite(names[k / 4], Domains(hostname)[k % 4 - 1])
  {
    var n := |names|;
    var init := names[..n - 1];
    if k < 4 * (n - 1) {
      AllWritesLayout(init, hostname, k);
      assert init[k / 4] == names[k / 4];
    } else {
      assert k / 4 == n - 1;
    }
  }

  /** Every write expires a session cookie named in the cookie string, and each such cookie gets four. */
  lemma CleanupTouchesOnlySessionCookies(segments: seq<string>, hostname: string, k: nat)
    requires k < |CleanupWrites(segments, hostname)|
    ensures var name := SessionNames(segments)[k / 4];
      && IsSessionName(name)
      && (exists i :: 0 <= i < |segments| && CookieName(segments[i]) == name)
      && StartsWith(CleanupWrites(segments, hostname)[k], name + Expired)
    ensures |CleanupWrites(segments, hostname)| == 4 * |SessionNames(segments)|
  {
    var names := SessionNames(segments);
    AllWritesLayout(names, hostname, k);
    var name := names[k / 4];
    SessionNamesIff(segments, name);
    var w := CleanupWrites(segments, hostname)[k];
    var d := if k % 4 == 0 then ";" else (var dom := Domains(hostname)[k % 4 - 1]; if dom != "" then ";domain=" + dom else "");
    assert w == (name + Expired) + d;
  }

  // ---------------------------------------------------------------------
  // Corrupted authentication state
  // ---------------------------------------------------------------------

  /** `cookie.trim().startsWith(`a_session_${projectId}`)`. */
  predicate ProjectSession(segment: string, projectId: string) {
    StartsWith(Trim(segment), SessionPrefix + projectId)
  }

  /** For each segment, whether it passes the filter. */
  function Matching(segments: seq<string>, projectId: string): (flags: seq<bool>)
    ensures |flags| == |segments|
    ensures forall i :: 0 <= i < |segments| ==> flags[i] == ProjectSession(segments[i], projectId)
  {
    seq(|segments|, i requires 0 <= i < |segments| => ProjectSession(segments[i], projectId))
  }

  /** The number of `true` entries. */
  function CountTrue(flags: seq<bool>): (n: nat)
    ensures n <= |flags|
  {
    if flags == [] then 0 else (if flags[0] then 1 else 0) + CountTrue(flags[1..])
  }

  /** `sessionCookies.length`: the number of segments the filter keeps. */
  function SessionCount(segments: seq<string>, projectId: string): (n: nat)
    ensures n <= |segments|
  {
    CountTrue(Matching(segments, projectId))
  }

  /** `hasCorruptedAuthState`. */
  predicate HasCorruptedAuthState(cookieString: string, env: Option<string>) {
    SessionCount(Split(cookieString, ';'), Middleware.ProjectId(env)) > 1
  }

  /** The auth state is corrupted exactly when two different segments are session cookies of this project. */
  lemma CorruptedIff(cookieString: string, env: Option<string>)
    ensures HasCorruptedAuthState(cookieString, env) <==>
      var segments, projectId := Split(cookieString, ';'), Middleware.ProjectId(env);
      exists i, j :: 0 <= i < j < |segments| && ProjectSession(segments[i], projectId) && ProjectSession(segments[j], projectId)
  {
    var segments, projectId := Split(cookieString, ';'), Middleware.ProjectId(env);
    assert HasCorruptedAuthState(cookieString, env) == (SessionCount(segments, projectId) > 1);
    CountAboveOneIff(segments, projectId);
  }

  /** One `true` entry makes the count positive. */
  lemma {:induction false} OneTrueCounts(flags: seq<bool>, i: nat)
    requires i < |flags| && flags[i]
    ensures CountTrue(flags) > 0
  {
    if i > 0 {
      assert flags[1..][i - 1] == flags[i];
      OneTrueCounts(flags[1..], i - 1);
    }
  }

  /** Two `true` entries make the count exceed one. */
  lemma {:induction false} TwoTrueCount(flags: seq<bool>, i: nat, j: nat)
    requires i < j < |flags| && flags[i] && flags[j]
    ensures CountTrue(flags) > 1
  {
    var tail := flags[1..];
    assert tail[j - 1] == flags[j];
    if i == 0 {
      OneTrueCounts(tail, j - 1);
    } else {
      assert tail[i - 1] == flags[i];
      TwoTrueCount(tail, i - 1, j - 1);
    }
  }

  /** A positive count has a `true` entry behind it. */
  lemma {:induction false} PositiveHasTrue(flags: seq<bool>) returns (i: nat)
    requires CountTrue(flags) > 0
    ensures i < |flags| && flags[i]
  {
    if flags[0] {
      i := 0;
    } else {
      var k := PositiveHasTrue(flags[1..]);
      i := k + 1;
    }
  }

  /** A count above one has two distinct `true` entries behind it. */
  lemma {:induction false} AboveOneHasTwoTrue(flags: seq<bool>) returns (i: nat, j: nat)
    requires CountTrue(flags) > 1
    ensures i < j < |flags| && flags[i] && flags[j]
  {
    if flags[0] {
      var k := PositiveHasTrue(flags[1..]);
      i, j := 0, k + 1;
    } else {
      var a, b := AboveOneHasTwoTrue(flags[1..]);
      i, j := a + 1, b + 1;
    }
  }

  /** More than one matching segment means two distinct positions both match, and back. */
  lemma CountAboveOneIff(segments: seq<string>, projectId: string)
    ensures SessionCount(segments, projectId) > 1 <==>
      exists i, j :: 0 <= i < j < |segments| && ProjectSession(segments[i], projectId) && ProjectSession(segments[j], projectId)
  {
    var flags := Matching(segments, projectId);
    if CountTrue(flags) > 1 {
      var i, j := AboveOneHasTwoTrue(flags);
      assert ProjectSession(segments[i], projectId) && ProjectSession(segments[j], projectId);
    }
    if exists i, j :: 0 <= i < j < |segments| && ProjectSession(segments[i], projectId) && ProjectSession(segments[j], projectId) {
      var i, j :| 0 <= i < j < |segments| && ProjectSession(segments[i], projectId) && ProjectSession(segments[j], projectId);
      TwoTrueCount(flags, i, j);
    }
  }

  /** The count is positive exactly when some segment matches. */
  lemma CountPositiveIff(segments: seq<string>, projectId: string)
    ensures SessionCount(segments, projectId) > 0 <==> exists i :: 0 <= i < |segments| && ProjectSession(segments[i], projectId)
  {
    var flags := Matching(segments, projectId);
    if CountTrue(flags) > 0 {
      var i := PositiveHasTrue(flags);
      assert ProjectSession(segments[i], projectId);
    }
    if exists i :: 0 <= i < |segments| && ProjectSession(segments[i], projectId) {
      var i :| 0 <= i < |segments| && ProjectSession(segments[i], projectId);
      OneTrueCounts(flags, i);
    }
  }

  /**
   * The test is a prefix match, so a project's `_legacy` session cookie next
   * to its plain one counts as a second session: the state is reported
   * corrupted.
   */
  lemma LegacyCookieCountsAsSecond(segments: seq<string>, projectId: string, i: nat, j: nat, v: string, w: string)
    requires i < j < |segments|
    requires Trim(segments[i]) == SessionPrefix + projectId + "=" + v
    requires Trim(segments[j]) == SessionPrefix + projectId + "_legacy=" + w
    ensures SessionCount(segments, projectId) > 1
  {
    var p := SessionPrefix + projectId;
    assert (p + "=" + v)[..|p|] == p;
    assert (p + "_legacy=" + w)[..|p|] == p;
    assert ProjectSession(segments[i], projectId) && ProjectSession(segments[j], projectId);
    TwoTrueCount(Matching(segments, projectId), i, j);
  }
}
