/** Which origin the route talks to: an operator override, or the live or sandbox API. */
module Endpoint {
  import opened Wrappers
  import opened Json

  const LiveOrigin: string := "https://api-m.paypal.com"
  const SandboxOrigin: string := "https://api-m.sandbox.paypal.com"

  predicate EndsWithSlash(s: string) {
    s != [] && s[|s| - 1] == '/'
  }

  /** `s.replace(/\/+$/, "")`: the run of `/` at the end of `s` removed. */
  function StripTrailingSlashes(s: string): (r: string)
    ensures |r| <= |s| && r == s[..|r|]
    ensures !EndsWithSlash(r)
    ensures forall i :: |r| <= i < |s| ==> s[i] == '/'
  {
    if EndsWithSlash(s) then StripTrailingSlashes(s[..|s| - 1]) else s
  }

  /** Stripping an already stripped URL changes nothing. */
  lemma StripIdempotent(s: string)
    ensures StripTrailingSlashes(StripTrailingSlashes(s)) == StripTrailingSlashes(s)
  {
  }

  /**
   * The three properties in StripTrailingSlashes' contract pin its result down:
   * the only prefix that does not end in `/` and leaves only `/` behind it.
   */
  lemma {:induction false} StripUnique(s: string, r: string)
    requires |r| <= |s| && r == s[..|r|]
    requires !EndsWithSlash(r)
    requires forall i :: |r| <= i < |s| ==> s[i] == '/'
    ensures r == StripTrailingSlashes(s)
  {
    if EndsWithSlash(s) && |r| < |s| {
      StripUnique(s[..|s| - 1], r);
    }
  }

  /** The base URL of route.ts: a non-empty override wins, otherwise `environment` picks the origin. */
  function BaseUrl(environment: string, customBaseUrl: Option<string>): (r: string)
    ensures Given(customBaseUrl) ==>
              var c := customBaseUrl.value;
              |r| <= |c| && r == c[..|r|] && forall i :: |r| <= i < |c| ==> c[i] == '/'
    ensures !Given(customBaseUrl) ==> (r == LiveOrigin <==> environment == "live")
    ensures !Given(customBaseUrl) ==> (r == SandboxOrigin <==> environment != "live")
    ensures !EndsWithSlash(r)
  {
    if Given(customBaseUrl) then StripTrailingSlashes(customBaseUrl.value)
    else if environment == "live" then LiveOrigin
    else SandboxOrigin
  }

  /** Where the client-credentials grant is requested. */
  function TokenUrl(baseUrl: string): string {
    baseUrl + "/v1/oauth2/token"
  }
}
