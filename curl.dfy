/** The reproducible cURL command the route returns beside every API trace. */
module Curl {
  import opened Wrappers

  type Header = (string, string)

  /** What the command and the trace show instead of the bearer token. */
  const MaskedBearer: string := "Bearer <access_token>"

  /** The value a header line shows: Authorization is always the placeholder. */
  function DisplayValue(h: Header): string {
    if h.0 == "Authorization" then MaskedBearer else h.1
  }

  /** One ` \` line break followed by `-H 'name: value'`. */
  function HeaderLine(h: Header): string {
    " \\\n  -H '" + h.0 + ": " + DisplayValue(h) + "'"
  }

  /** The header lines of `hs`, in map order. */
  function HeaderLines(hs: seq<Header>): string {
    if hs == [] then "" else HeaderLines(hs[..|hs| - 1]) + HeaderLine(hs[|hs| - 1])
  }

  function DataLine(body: string): string {
    " \\\n  -d '" + body + "'"
  }

  /** `apiBody && method !== "GET"`: a non-empty serialised body on a non-GET request. */
  predicate SendsBody(verb: string, body: Option<string>) {
    body.Some? && body.value != "" && verb != "GET"
  }

  function CommandHead(verb: string, url: string): string {
    "curl -X " + verb + " '" + url + "'"
  }

  /** The command: method and URL, a line per header, then `-d` when a body is sent. */
  function CurlCommand(verb: string, url: string, headers: seq<Header>, body: Option<string>): string {
    CommandHead(verb, url) + HeaderLines(headers) + (if SendsBody(verb, body) then DataLine(body.value) else "")
  }

  /** The route's loop: start from method and URL, append a line per header, then the body. */
  method BuildCurl(verb: string, url: string, headers: seq<Header>, body: Option<string>) returns (cmd: string)
    ensures cmd == CurlCommand(verb, url, headers, body)
  {
    cmd := "curl -X " + verb + " '" + url + "'";
    var i := 0;
    assert headers[..0] == [];
    while i < |headers|
      invariant 0 <= i <= |headers|
      invariant cmd == CommandHead(verb, url) + HeaderLines(headers[..i])
    {
      var (k, v) := headers[i];
      var displayVal := if k == "Authorization" then MaskedBearer else v;
      var line := " \\\n  -H '" + k + ": " + displayVal + "'";
      assert line == HeaderLine(headers[i]);
      HeaderLinesSnoc(headers, i);
      AppendAssoc(CommandHead(verb, url), HeaderLines(headers[..i]), line);
      cmd := cmd + line;
      i := i + 1;
    }
    assert headers[..i] == headers;
    if body.Some? && body.value != "" && verb != "GET" {
      var data := " \\\n  -d '" + body.value + "'";
      assert data == DataLine(body.value);
      cmd := cmd + data;
    }
  }

  lemma HeaderLinesSnoc(hs: seq<Header>, i: nat)
    requires i < |hs|
    ensures HeaderLines(hs[..i + 1]) == HeaderLines(hs[..i]) + HeaderLine(hs[i])
  {
    assert hs[..i + 1][..i] == hs[..i];
  }

  /** String concatenation is associative (stated once so the loop's proof stays small). */
  lemma AppendAssoc(a: string, b: string, c: string)
    ensures (a + b) + c == a + (b + c)
  {
  }

  /** Two header maps with the same names in the same order that differ at most in Authorization. */
  predicate SameButAuthorization(hs: seq<Header>, hs': seq<Header>) {
    |hs| == |hs'| &&
    forall i :: 0 <= i < |hs| ==> hs[i].0 == hs'[i].0 && (hs[i].0 != "Authorization" ==> hs[i].1 == hs'[i].1)
  }

  /**
   * The command cannot reveal an Authorization value: header maps that differ
   * only there give the same command, whatever the token.
   */
  lemma {:induction false} CommandIgnoresAuthorization(verb: string, url: string, hs: seq<Header>, hs': seq<Header>, body: Option<string>)
    requires SameButAuthorization(hs, hs')
    ensures CurlCommand(verb, url, hs, body) == CurlCommand(verb, url, hs', body)
  {
    LinesIgnoreAuthorization(hs, hs');
  }

  lemma {:induction false} LinesIgnoreAuthorization(hs: seq<Header>, hs': seq<Header>)
    requires SameButAuthorization(hs, hs')
    ensures HeaderLines(hs) == HeaderLines(hs')
    decreases |hs|
  {
    if hs != [] {
      var n := |hs| - 1;
      LinesIgnoreAuthorization(hs[..n], hs'[..n]);
      assert HeaderLine(hs[n]) == HeaderLine(hs'[n]);
    }
  }

  /** A GET command never carries `-d`, whatever body was prepared. */
  lemma GetCommandHasNoData(url: string, headers: seq<Header>, body: Option<string>)
    ensures CurlCommand("GET", url, headers, body) == CommandHead("GET", url) + HeaderLines(headers)
  {
  }
}
