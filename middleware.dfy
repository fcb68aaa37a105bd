/**
 * The request gate run before the matched pages: on a local or allowed
 * host, a visitor with a session cookie is sent from the landing page to
 * the dashboard and a visitor without one is sent from any other page to
 * the landing page; requests for other hosts and other paths pass through.
 */
module Middleware {
  import opened Common
  import opened Text

  datatype Decision = Next | Redirect(target: string)

  /** `isPublicPath`. */
  predicate IsPublic(path: string) {
    path == "/"
  }

  /** `isLocalhost`. */
  predicate IsLocal(hostname: string) {
    hostname == "localhost" || hostname == "127.0.0.1" || Contains(hostname, "192.168")
  }

  /** `allowedHostnames`. */
  const AllowedHostnames: seq<string> := ["https://maglo-three.vercel.app/", "maglo-three.vercel.app"]

  /** The hosts the gate applies to. */
  predicate Gated(hostname: string) {
    IsLocal(hostname) || hostname in AllowedHostnames
  }

  const DefaultProjectId: string := "6925f7e8003628848504"

  /** `process.env.NEXT_PUBLIC_APPWRITE_PROJECT_ID || '6925f7e8003628848504'`. */
  function ProjectId(env: Option<string>): (id: string)
    ensures id != ""
    ensures env.Some? && env.value != "" ==> id == env.value
  {
    if env.Some? && env.value != "" then env.value else DefaultProjectId
  }

  /** The test applied to each cookie name. */
  predicate IsSessionCookie(name: string, projectId: string) {
    name == "a_session_" + projectId || name == "a_session_" + projectId + "_legacy" || StartsWith(name, "a_session_")
  }

  /** `cookies.some(...)`. */
  predicate HasSession(names: seq<string>, projectId: string) {
    exists i :: 0 <= i < |names| && IsSessionCookie(names[i], projectId)
  }

  /** The two exact names are themselves prefixed by "a_session_", so only the prefix test matters. */
  lemma HasSessionIff(names: seq<string>, projectId: string)
    ensures HasSession(names, projectId) <==> exists i :: 0 <= i < |names| && StartsWith(names[i], "a_session_")
  {
    forall i | 0 <= i < |names|
      ensures IsSessionCookie(names[i], projectId) <==> StartsWith(names[i], "a_session_")
    {
      var p := "a_session_";
      assert (p + projectId)[..|p|] == p;
      assert (p + projectId + "_legacy")[..|p|] == p;
    }
  }

  /** `middleware`: the decision for a path, a hostname and the request's cookie names. */
  function Decide(path: string, hostname: string, cookieNames: seq<string>, env: Option<string>): (d: Decision)
    ensures d.Redirect? ==> d.target == "/" || d.target == "/dashboard"
  {
    if !Gated(hostname) then Next
    else
      var session := HasSession(cookieNames, ProjectId(env));
      if IsPublic(path) && session then Redirect("/dashboard")
      else if !IsPublic(path) && !session then Redirect("/")
      else Next
  }

  /** A hostname that is neither local nor allowed always passes, whatever the path and cookies. */
  lemma UnknownHostPasses(path: string, hostname: string, cookieNames: seq<string>, env: Option<string>)
    requires !IsLocal(hostname) && hostname !in AllowedHostnames
    ensures Decide(path, hostname, cookieNames, env) == Next
  {
  }

  /**
   * On a gated host the request passes exactly when "the path is public"
   * and "there is a session" differ; otherwise a session goes to the
   * dashboard and no session goes to the landing page.
   */
  lemma GatedDecision(path: string, hostname: string, cookieNames: seq<string>, env: Option<string>)
    requires Gated(hostname)
    ensures var session := exists i :: 0 <= i < |cookieNames| && StartsWith(cookieNames[i], "a_session_");
      && (Decide(path, hostname, cookieNames, env) == Next <==> IsPublic(path) != session)
      && (IsPublic(path) && session ==> Decide(path, hostname, cookieNames, env) == Redirect("/dashboard"))
      && (!IsPublic(path) && !session ==> Decide(path, hostname, cookieNames, env) == Redirect("/"))
  {
    HasSessionIff(cookieNames, ProjectId(env));
  }

  /** `config.matcher`: "/" and each listed section with anything below it. */
  predicate Matched(path: string) {
    path == "/" ||
    exists section :: section in ["/dashboard", "/invoices", "/transactions", "/wallets", "/settings", "/help"] &&
      (path == section || StartsWith(path, section + "/"))
  }

  /** The gate as deployed: unmatched paths never reach it. */
  function Route(path: string, hostname: string, cookieNames: seq<string>, env: Option<string>): (d: Decision)
    ensures !Matched(path) ==> d == Next
    ensures Matched(path) ==> d == Decide(path, hostname, cookieNames, env)
  {
    if Matched(path) then Decide(path, hostname, cookieNames, env) else Next
  }

  /** A matched page other than "/" is only ever redirected to the landing page. */
  lemma ProtectedPagesNeedSession(path: string, hostname: string, cookieNames: seq<string>, env: Option<string>)
    requires Matched(path) && !IsPublic(path) && Gated(hostname)
    ensures Route(path, hostname, cookieNames, env) != Next <==> !exists i :: 0 <= i < |cookieNames| && StartsWith(cookieNames[i], "a_session_")
    ensures Route(path, hostname, cookieNames, env) != Next ==> Route(path, hostname, cookieNames, env) == Redirect("/")
  {
    GatedDecision(path, hostname, cookieNames, env);
  }
}
