/** The request middleware of middleware.ts: requests whose lower-cased
    path contains a blocked fragment are answered 404; every other request
    goes on with the performance and security headers set one by one on
    its response. The clock and NODE_ENV are inputs; the console logging
    is not modelled. */
module Middleware {
  import Strings

  /** BLOCKED_PATHS: the fragments of scanner probes. */
  const BlockedPaths: seq<string> := [
    "/wp-content", "/wp-admin", "/wordpress", ".php", ".cgi", "/devicesgateway",
    "/apply_sec", "/.env", "/config", "/phpmyadmin", "/.git", "/backup"
  ]

  /** Array.prototype.some over the fragments: some fragment occurs in `s`. */
  function SomeContained(fragments: seq<string>, s: string): (b: bool)
    ensures b <==> exists k :: 0 <= k < |fragments| && Strings.Contains(s, fragments[k])
  {
    if fragments == [] then false
    else if Strings.Contains(s, fragments[0]) then true
    else
      var b := SomeContained(fragments[1..], s);
      assert forall k :: 1 <= k < |fragments| ==> fragments[1..][k - 1] == fragments[k];
      b
  }

  /** The pathname, lower-cased, contains one of the blocked fragments. */
  function IsBlocked(pathname: string): (b: bool)
    ensures b <==> exists k :: 0 <= k < |BlockedPaths| && Strings.Contains(Strings.ToLower(pathname), BlockedPaths[k])
  {
    SomeContained(BlockedPaths, Strings.ToLower(pathname))
  }

  /** Blocking ignores letter case: two paths that differ only in case are
      both blocked or both let through. */
  lemma BlockingIgnoresCase(a: string, b: string)
    requires Strings.SameIgnoringCase(a, b)
    ensures IsBlocked(a) == IsBlocked(b)
  {
    Strings.ToLowerCaseVariants(a, b);
  }

  /** Every fragment is written in lower case, so it can match a lower-cased
      path. */
  lemma BlockedPathsAreLowerCase()
    ensures forall k :: 0 <= k < |BlockedPaths| ==> Strings.ToLower(BlockedPaths[k]) == BlockedPaths[k]
  {
  }

  /** A path holding a blocked fragment at some position, in any mix of
      upper and lower case, is blocked. */
  lemma FragmentInAnyCaseIsBlocked(pathname: string, k: nat, i: nat)
    requires k < |BlockedPaths| && i + |BlockedPaths[k]| <= |pathname|
    requires Strings.SameIgnoringCase(pathname[i..i + |BlockedPaths[k]|], BlockedPaths[k])
    ensures IsBlocked(pathname)
  {
    var p := BlockedPaths[k];
    var lower := Strings.ToLower(pathname);
    BlockedPathsAreLowerCase();
    forall j | 0 <= j < |p| ensures lower[i..i + |p|][j] == p[j] {
      assert lower[i + j] == Strings.LowerChar(pathname[i..i + |p|][j]);
      assert Strings.LowerChar(p[j]) == Strings.ToLower(p)[j];
    }
    assert lower[i..i + |p|] == p;
    assert Strings.OccursAt(lower, p, i);
  }

  /** The response's header list, set one entry at a time. */
  class ResponseHeaders {
    var entries: map<string, string>

    constructor()
      ensures entries == map[]
    {
      entries := map[];
    }

    /** Headers.set: adds the entry or replaces its value. */
    method Set(name: string, value: string)
      modifies this
      ensures entries == old(entries)[name := value]
    {
      entries := entries[name := value];
    }
  }

  datatype Status = NotFound | Next

  const ResponseTime := "X-Response-Time"
  const FrameOptions := "X-Frame-Options"
  const ContentTypeOptions := "X-Content-Type-Options"
  const ReferrerPolicy := "Referrer-Policy"
  const PermissionsPolicy := "Permissions-Policy"
  const ContentSecurityPolicy := "Content-Security-Policy-Report-Only"

  /** The six header names are pairwise different, so no header set by the
      middleware overwrites another. */
  lemma HeaderNamesDistinct()
    ensures ResponseTime != FrameOptions && ResponseTime != ContentTypeOptions && ResponseTime != ReferrerPolicy
    ensures ResponseTime != PermissionsPolicy && ResponseTime != ContentSecurityPolicy
    ensures FrameOptions != ContentTypeOptions && FrameOptions != ReferrerPolicy && FrameOptions != PermissionsPolicy
    ensures FrameOptions != ContentSecurityPolicy && ContentTypeOptions != ReferrerPolicy
    ensures ContentTypeOptions != PermissionsPolicy && ContentTypeOptions != ContentSecurityPolicy
    ensures ReferrerPolicy != PermissionsPolicy && ReferrerPolicy != ContentSecurityPolicy
    ensures PermissionsPolicy != ContentSecurityPolicy
  {
    assert ResponseTime[2] != FrameOptions[2];
    assert ResponseTime[0] != ReferrerPolicy[0] && FrameOptions[0] != ReferrerPolicy[0];
  }

  /** The report-only content security policy sent in production. */
  const CspValue :=
    "default-src 'self'; "
    + "script-src 'self' 'unsafe-inline' 'unsafe-eval' https://maps.googleapis.com https://maps.gstatic.com; "
    + "style-src 'self' 'unsafe-inline' https://fonts.googleapis.com; "
    + "img-src 'self' data: blob: https://*.googleapis.com https://*.gstatic.com; "
    + "font-src 'self' https://fonts.gstatic.com; "
    + "connect-src 'self' https://maps.googleapis.com; "
    + "frame-src 'self' https://maps.google.com"

  /** The middleware: a blocked path gets a bare 404; any other request
      continues with the response time, the four security headers and, in
      production only, the report-only CSP. `elapsedMs` is the clock
      reading's difference. */
  method Handle(pathname: string, production: bool, elapsedMs: nat) returns (status: Status, headers: map<string, string>)
    ensures status == NotFound <==> IsBlocked(pathname)
    ensures status == NotFound ==> headers == map[]
    ensures status == Next ==>
      && ResponseTime in headers && FrameOptions in headers && ContentTypeOptions in headers
      && ReferrerPolicy in headers && PermissionsPolicy in headers
      && headers[ResponseTime] == Strings.NatToString(elapsedMs) + "ms"
      && headers[FrameOptions] == "DENY"
      && headers[ContentTypeOptions] == "nosniff"
      && headers[ReferrerPolicy] == "strict-origin-when-cross-origin"
      && headers[PermissionsPolicy] == "camera=(), microphone=(), geolocation=(self)"
      && (ContentSecurityPolicy in headers <==> production)
      && (production ==> headers[ContentSecurityPolicy] == CspValue)
      && headers.Keys <= {ResponseTime, FrameOptions, ContentTypeOptions, ReferrerPolicy, PermissionsPolicy, ContentSecurityPolicy}
  {
    if IsBlocked(pathname) {
      return NotFound, map[];
    }
    HeaderNamesDistinct();
    var response := new ResponseHeaders();
    response.Set(ResponseTime, Strings.NatToString(elapsedMs) + "ms");
    response.Set(FrameOptions, "DENY");
    response.Set(ContentTypeOptions, "nosniff");
    response.Set(ReferrerPolicy, "strict-origin-when-cross-origin");
    response.Set(PermissionsPolicy, "camera=(), microphone=(), geolocation=(self)");
    if production {
      response.Set(ContentSecurityPolicy, CspValue);
    }
    return Next, response.entries;
  }
}
