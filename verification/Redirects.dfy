/**
  Following redirects (`execute_with_redirects`, `with_default_headers`, `attach_cookies`,
  `offer_content_encodings`, `head_declares_body`, src/courierust_client/mod.rs).

  What servers answer, how a location resolves against a URL, what the cookie jar holds for a
  hop and how a length reads are parameters. A header map takes a name to all its values at once.
 */
module Redirects {
  import opened Basics

  type Headers = map<string, string>

  datatype Url = Url(scheme: string, authority: string, target: string)

  datatype Request = Request(verb: string, headers: Headers, hasBody: bool)

  datatype Config = Config(maxRedirects: nat, defaults: Headers, acceptEncoding: bool)

  datatype Answer = Failed | Answered(status: nat, location: Option<string>)

  datatype World = World(
    answer: nat -> Answer,
    resolve: (Url, string) -> Option<Url>,
    jar: nat -> Option<string>,
    readLength: string -> Option<nat>)

  /** One request as it is sent. */
  datatype Hop = Hop(url: Url, verb: string, headers: Headers, hasBody: bool)

  datatype End = Response(status: nat) | Failure

  datatype Chain = Chain(hops: seq<Hop>, end: End)

  const AUTHORIZATION := "authorization"
  const PROXY_AUTHORIZATION := "proxy-authorization"
  const COOKIE := "cookie"
  const ACCEPT_ENCODING := "accept-encoding"
  const CODINGS := "gzip, deflate"
  const CREDENTIALS: set<string> := {AUTHORIZATION, PROXY_AUTHORIZATION, COOKIE}
  const BODY_FIELDS: set<string> := {"content-length", "content-type", "transfer-encoding"}

  // ------------------------------------------------------------------
  // One hop
  // ------------------------------------------------------------------

  /** `with_default_headers`: what the request says wins. */
  function WithDefaults(defaults: Headers, headers: Headers): Headers {
    defaults + headers
  }

  /** `offer_content_encodings` and `attach_cookies`: only what is not there yet. */
  function Dress(cfg: Config, headers: Headers, cookie: Option<string>): Headers {
    var offered :=
      if cfg.acceptEncoding && ACCEPT_ENCODING !in headers then headers[ACCEPT_ENCODING := CODINGS] else headers;
    if cookie.Some? && COOKIE !in offered then offered[COOKIE := cookie.value] else offered
  }

  /** `head_declares_body` */
  predicate DeclaresBody(w: World, headers: Headers) {
    "transfer-encoding" in headers ||
    ("content-length" in headers &&
    var n := w.readLength(headers["content-length"]);
    n.None? || n.value > 0)
  }

  predicate HadBody(w: World, req: Request) {
    req.hasBody || DeclaresBody(w, req.headers)
  }

  predicate IsRedirect(status: nat) {
    300 <= status < 400 && status != 304
  }

  function NextVerb(status: nat, verb: string): string {
    if status == 303 || ((status == 301 || status == 302) && verb == "POST") then "GET" else verb
  }

  predicate SameOrigin(a: Url, b: Url) {
    a.scheme == b.scheme && a.authority == b.authority
  }

  /** The fields a follow-up keeps. */
  function Carried(headers: Headers, from: Url, to: Url): Headers {
    (if SameOrigin(from, to) then headers else headers - CREDENTIALS) - BODY_FIELDS
  }

  /** What the answer to a hop leads to. */
  datatype Move = Stop(end: End) | Follow(url: Url, req: Request)

  function Decide(w: World, url: Url, req: Request, answer: Answer, mayFollow: bool): Move {
    match answer
    case Failed => Stop(Failure)
    case Answered(status, location) =>
      if !mayFollow || !IsRedirect(status) || location.None? then Stop(Response(status))
      else
        match w.resolve(url, location.value)
        case None => Stop(Failure)
        case Some(next) =>
          var verb := NextVerb(status, req.verb);
          if verb == req.verb && HadBody(w, req) then Stop(Response(status))
          else Follow(next, Request(verb, Carried(req.headers, url, next), false))
  }

  function Sent(cfg: Config, w: World, url: Url, req: Request, depth: nat): Hop {
    Hop(url, req.verb, Dress(cfg, req.headers, w.jar(depth)), req.hasBody)
  }

  // ------------------------------------------------------------------
  // The chain
  // ------------------------------------------------------------------

  /** The hops from one on, when its request carries what it is going to carry. */
  function From(cfg: Config, w: World, url: Url, req: Request, depth: nat): (c: Chain)
    ensures c.hops != [] && c.hops[0] == Sent(cfg, w, url, req, depth)
    decreases if depth <= cfg.maxRedirects then cfg.maxRedirects - depth + 1 else 0
  {
    var hop := Sent(cfg, w, url, req, depth);
    match Decide(w, url, req, w.answer(depth), depth < cfg.maxRedirects)
    case Stop(end) => Chain([hop], end)
    case Follow(next, more) =>
      if depth >= cfg.maxRedirects then Chain([hop], Failure)
      else
        var rest := From(cfg, w, next, more, depth + 1);
        Chain([hop] + rest.hops, rest.end)
  }

  /** A whole call. */
  function Run(cfg: Config, w: World, url: Url, req: Request): Chain {
    From(cfg, w, url, req.(headers := WithDefaults(cfg.defaults, req.headers)), 0)
  }

  /** `execute_with_redirects` */
  method ExecuteWithRedirects(cfg: Config, w: World, url: Url, request: Request, depth: nat) returns (chain: Chain)
    requires depth <= cfg.maxRedirects
    ensures chain == if depth == 0 then Run(cfg, w, url, request) else From(cfg, w, url, request, depth)
    decreases cfg.maxRedirects - depth
  {
    var req := request;
    if depth == 0 {
      req := req.(headers := WithDefaults(cfg.defaults, req.headers));
    }
    var original := req.headers;
    var hadBody := req.hasBody || DeclaresBody(w, original);
    var hop := Hop(url, req.verb, Dress(cfg, req.headers, w.jar(depth)), req.hasBody);
    var answer := w.answer(depth);
    if answer.Failed? { return Chain([hop], Failure); }
    if depth >= cfg.maxRedirects || !IsRedirect(answer.status) || answer.location.None? {
      return Chain([hop], Response(answer.status));
    }
    var next := w.resolve(url, answer.location.value);
    if next.None? { return Chain([hop], Failure); }
    var verb := NextVerb(answer.status, req.verb);
    if verb == req.verb && hadBody { return Chain([hop], Response(answer.status)); }
    var headers := original;
    if next.value.authority != url.authority || next.value.scheme != url.scheme {
      headers := headers - CREDENTIALS;
    }
    headers := headers - BODY_FIELDS;
    var rest := ExecuteWithRedirects(cfg, w, next.value, Request(verb, headers, false), depth + 1);
    return Chain([hop] + rest.hops, rest.end);
  }

  // ------------------------------------------------------------------
  // How long
  // ------------------------------------------------------------------

  lemma {:induction false} ChainIsShort(cfg: Config, w: World, url: Url, req: Request, depth: nat)
    requires depth <= cfg.maxRedirects
    ensures 1 <= |From(cfg, w, url, req, depth).hops| <= cfg.maxRedirects - depth + 1
    decreases cfg.maxRedirects - depth
  {
    var move := Decide(w, url, req, w.answer(depth), depth < cfg.maxRedirects);
    if move.Follow? {
      ChainIsShort(cfg, w, move.url, move.req, depth + 1);
    }
  }

  /** Every call ends within one more hop than the redirects it may follow. */
  lemma HopsAreBounded(cfg: Config, w: World, url: Url, req: Request)
    ensures 1 <= |Run(cfg, w, url, req).hops| <= cfg.maxRedirects + 1
  {
    ChainIsShort(cfg, w, url, req.(headers := WithDefaults(cfg.defaults, req.headers)), 0);
  }

  // ------------------------------------------------------------------
  // Credentials
  // ------------------------------------------------------------------

  /** No hop up to `i` left the origin of the first. */
  ghost predicate Stayed(hops: seq<Hop>, i: nat)
    requires i < |hops|
  {
    forall j :: 0 <= j <= i ==> SameOrigin(hops[0].url, hops[j].url)
  }

  /** Field `name` of hop `i` is the one in `carried`, and no hop left the origin. */
  ghost predicate Owned(hops: seq<Hop>, i: nat, carried: Headers, name: string)
    requires i < |hops|
  {
    name in carried && name in hops[i].headers && hops[i].headers[name] == carried[name] && Stayed(hops, i)
  }

  ghost predicate CredentialLaw(hops: seq<Hop>, i: nat, carried: Headers, cookie: Option<string>, name: string)
    requires i < |hops|
  {
    name in hops[i].headers ==>
      Owned(hops, i, carried, name) || (name == COOKIE && cookie == Some(hops[i].headers[name]))
  }

  lemma NamesDiffer()
    ensures ACCEPT_ENCODING !in CREDENTIALS && ACCEPT_ENCODING !in BODY_FIELDS && CREDENTIALS !! BODY_FIELDS
  {
    assert |AUTHORIZATION| == 13 && |PROXY_AUTHORIZATION| == 19 && |COOKIE| == 6 && |ACCEPT_ENCODING| == 15;
    assert |"content-length"| == 14 && |"content-type"| == 12 && |"transfer-encoding"| == 17;
  }

  lemma FirstHopLaw(cfg: Config, headers: Headers, cookie: Option<string>, hops: seq<Hop>, name: string)
    requires hops != [] && hops[0].headers == Dress(cfg, headers, cookie) && name in CREDENTIALS
    ensures CredentialLaw(hops, 0, headers, cookie, name)
  {
    NamesDiffer();
  }

  /** What holds of a chain's tail holds of the chain, one hop earlier. */
  lemma EarlierHopLaw(hop: Hop, rest: seq<Hop>, i: nat, headers: Headers, cookie: Option<string>, name: string)
    requires i < |rest| && name in CREDENTIALS
    requires CredentialLaw(rest, i, Carried(headers, hop.url, rest[0].url), cookie, name)
    ensures CredentialLaw([hop] + rest, i + 1, headers, cookie, name)
  {
    var all := [hop] + rest;
    var carried := Carried(headers, hop.url, rest[0].url);
    assert all[i + 1] == rest[i];
    if Owned(rest, i, carried, name) {
      assert name in carried && SameOrigin(hop.url, rest[0].url);
      forall j | 0 <= j <= i + 1 ensures SameOrigin(all[0].url, all[j].url) {
        if j > 0 {
          assert all[j] == rest[j - 1];
          assert SameOrigin(rest[0].url, rest[j - 1].url);
        }
      }
      assert Stayed(all, i + 1);
      assert headers[name] == carried[name];
    }
  }

  lemma {:induction false} CredentialsFollow(
      cfg: Config, w: World, url: Url, req: Request, depth: nat, i: nat, name: string)
    requires depth <= cfg.maxRedirects && name in CREDENTIALS && i < |From(cfg, w, url, req, depth).hops|
    ensures CredentialLaw(From(cfg, w, url, req, depth).hops, i, req.headers, w.jar(depth + i), name)
    decreases i
  {
    var hops := From(cfg, w, url, req, depth).hops;
    if i == 0 {
      FirstHopLaw(cfg, req.headers, w.jar(depth), hops, name);
    } else {
      var move := Decide(w, url, req, w.answer(depth), depth < cfg.maxRedirects);
      var rest := From(cfg, w, move.url, move.req, depth + 1).hops;
      CredentialsFollow(cfg, w, move.url, move.req, depth + 1, i - 1, name);
      EarlierHopLaw(hops[0], rest, i - 1, req.headers, w.jar(depth + i), name);
    }
  }

  /**
    A credential of the caller or of the client's defaults is on a hop only if no hop so far left
    the first hop's origin: once dropped it never comes back, not even on a return to that origin.
    The one other source is the cookie jar, which answers for the hop's own URL.
   */
  lemma CredentialsStayHome(cfg: Config, w: World, url: Url, req: Request, i: nat, name: string)
    requires name in CREDENTIALS && i < |Run(cfg, w, url, req).hops|
    ensures CredentialLaw(Run(cfg, w, url, req).hops, i, WithDefaults(cfg.defaults, req.headers), w.jar(i), name)
  {
    CredentialsFollow(cfg, w, url, req.(headers := WithDefaults(cfg.defaults, req.headers)), 0, i, name);
  }

  // ------------------------------------------------------------------
  // Everything else
  // ------------------------------------------------------------------

  /** The fields the chain has no business with. */
  predicate Neutral(name: string) {
    name !in CREDENTIALS && name !in BODY_FIELDS && name != ACCEPT_ENCODING
  }

  ghost predicate SameField(a: Headers, b: Headers, name: string) {
    (name in a <==> name in b) && (name in a ==> a[name] == b[name])
  }

  lemma DressKeeps(cfg: Config, headers: Headers, cookie: Option<string>, name: string)
    requires name != ACCEPT_ENCODING && name != COOKIE
    ensures SameField(Dress(cfg, headers, cookie), headers, name)
  {
  }

  lemma CarriedKeeps(headers: Headers, from: Url, to: Url, name: string)
    requires Neutral(name)
    ensures SameField(Carried(headers, from, to), headers, name)
  {
  }

  lemma {:induction false} NeutralFollow(
      cfg: Config, w: World, url: Url, req: Request, depth: nat, i: nat, name: string)
    requires depth <= cfg.maxRedirects && Neutral(name) && i < |From(cfg, w, url, req, depth).hops|
    ensures SameField(From(cfg, w, url, req, depth).hops[i].headers, req.headers, name)
    decreases i
  {
    if i == 0 {
      DressKeeps(cfg, req.headers, w.jar(depth), name);
    } else {
      var move := Decide(w, url, req, w.answer(depth), depth < cfg.maxRedirects);
      NeutralFollow(cfg, w, move.url, move.req, depth + 1, i - 1, name);
      CarriedKeeps(req.headers, url, move.url, name);
    }
  }

  /** Every other field of the first request is on every hop, unchanged, and no hop has one more. */
  lemma OtherFieldsArePreserved(cfg: Config, w: World, url: Url, req: Request, i: nat, name: string)
    requires Neutral(name) && i < |Run(cfg, w, url, req).hops|
    ensures SameField(Run(cfg, w, url, req).hops[i].headers, WithDefaults(cfg.defaults, req.headers), name)
  {
    NeutralFollow(cfg, w, url, req.(headers := WithDefaults(cfg.defaults, req.headers)), 0, i, name);
  }

  // ------------------------------------------------------------------
  // Bodies and methods
  // ------------------------------------------------------------------

  /** A hop with no body and nothing that describes one. */
  ghost predicate Bodiless(hop: Hop) {
    !hop.hasBody && hop.headers.Keys !! BODY_FIELDS
  }

  lemma DressAddsNoBody(cfg: Config, headers: Headers, cookie: Option<string>)
    requires headers.Keys !! BODY_FIELDS
    ensures Dress(cfg, headers, cookie).Keys !! BODY_FIELDS
  {
    NamesDiffer();
    forall name | name in BODY_FIELDS ensures name !in Dress(cfg, headers, cookie) {
      assert name !in headers && name !in CREDENTIALS;
    }
  }

  lemma {:induction false} BodilessFollow(cfg: Config, w: World, url: Url, req: Request, depth: nat, i: nat)
    requires depth <= cfg.maxRedirects && i < |From(cfg, w, url, req, depth).hops|
    ensures i > 0 || (!req.hasBody && req.headers.Keys !! BODY_FIELDS) ==>
      Bodiless(From(cfg, w, url, req, depth).hops[i])
    ensures var verb := From(cfg, w, url, req, depth).hops[i].verb; verb == req.verb || verb == "GET"
    decreases i
  {
    if i == 0 {
      if !req.hasBody && req.headers.Keys !! BODY_FIELDS { DressAddsNoBody(cfg, req.headers, w.jar(depth)); }
    } else {
      var move := Decide(w, url, req, w.answer(depth), depth < cfg.maxRedirects);
      BodilessFollow(cfg, w, move.url, move.req, depth + 1, i - 1);
    }
  }

  /** No follow-up has a body or a field that describes one, and each uses the first method or GET. */
  lemma FollowUpsAreBodiless(cfg: Config, w: World, url: Url, req: Request, i: nat)
    requires 0 < i < |Run(cfg, w, url, req).hops|
    ensures Bodiless(Run(cfg, w, url, req).hops[i])
    ensures var verb := Run(cfg, w, url, req).hops[i].verb; verb == req.verb || verb == "GET"
  {
    BodilessFollow(cfg, w, url, req.(headers := WithDefaults(cfg.defaults, req.headers)), 0, i);
  }

  /** A request with a body is followed only as a GET that replaces another method. */
  lemma BodyIsDroppedOnlyForGet(cfg: Config, w: World, url: Url, req: Request)
    requires HadBody(w, req.(headers := WithDefaults(cfg.defaults, req.headers)))
    requires |Run(cfg, w, url, req).hops| > 1
    ensures Run(cfg, w, url, req).hops[1].verb == "GET" && req.verb != "GET"
    ensures w.answer(0).Answered? && (w.answer(0).status == 303 || (req.verb == "POST" && 301 <= w.answer(0).status <= 302))
  {
    var first := req.(headers := WithDefaults(cfg.defaults, req.headers));
    var move := Decide(w, url, first, w.answer(0), 0 < cfg.maxRedirects);
    assert Run(cfg, w, url, req).hops[1] == Sent(cfg, w, move.url, move.req, 1);
  }
}
