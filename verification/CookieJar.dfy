/**
  Sending cookies (`header_value`), and the jar itself as the object that holds
  them (src/courierust_client/cookies.rs).
 */
module CookieJars {
  import opened Basics
  import opened Cookies

  // ------------------------------------------------------------------
  // What is sent, and in which order
  // ------------------------------------------------------------------

  predicate Sendable(isIp: string -> bool, url: Url, cookie: Cookie) {
    HostMatches(isIp, url, cookie) && PathMatch(url.target, cookie.path) && (cookie.secure ==> url.scheme == "https")
  }

  function Matched(isIp: string -> bool, url: Url, cookies: seq<Cookie>): seq<Cookie> {
    if cookies == [] then []
    else
      var last := cookies[|cookies| - 1];
      Matched(isIp, url, cookies[..|cookies| - 1]) + if Sendable(isIp, url, last) then [last] else []
  }

  /** Longer paths first, then older cookies. */
  predicate Precedes(a: Cookie, b: Cookie) {
    |a.path| > |b.path| || (|a.path| == |b.path| && a.created < b.created)
  }

  function Insert(c: Cookie, sorted: seq<Cookie>): seq<Cookie> {
    if sorted == [] || Precedes(c, sorted[0]) then [c] + sorted
    else [sorted[0]] + Insert(c, sorted[1..])
  }

  function Sorted(cookies: seq<Cookie>): seq<Cookie> {
    if cookies == [] then [] else Insert(cookies[0], Sorted(cookies[1..]))
  }

  function Pair(c: Cookie): string {
    c.name + "=" + c.value
  }

  function Render(cookies: seq<Cookie>): (s: string)
    ensures cookies != [] ==> s != ""
  {
    if cookies == [] then ""
    else if |cookies| == 1 then Pair(cookies[0])
    else Render(cookies[..|cookies| - 1]) + "; " + Pair(cookies[|cookies| - 1])
  }

  function Sent(isIp: string -> bool, url: Url, cookies: seq<Cookie>): seq<Cookie> {
    Sorted(Matched(isIp, url, cookies))
  }

  function Header(isIp: string -> bool, url: Url, cookies: seq<Cookie>): Option<string> {
    if Matched(isIp, url, cookies) == [] then None else Some(Render(Sent(isIp, url, cookies)))
  }

  ghost predicate InOrder(cookies: seq<Cookie>) {
    forall i, j :: 0 <= i < j < |cookies| ==> Precedes(cookies[i], cookies[j])
  }

  ghost predicate DistinctStamps(cookies: seq<Cookie>) {
    forall i, j :: 0 <= i < j < |cookies| ==> cookies[i].created != cookies[j].created
  }

  lemma {:induction false} InsertMembers(c: Cookie, sorted: seq<Cookie>, x: Cookie)
    ensures x in Insert(c, sorted) <==> x == c || x in sorted
    ensures |Insert(c, sorted)| == |sorted| + 1
  {
    if sorted != [] && !Precedes(c, sorted[0]) {
      InsertMembers(c, sorted[1..], x);
      assert sorted == [sorted[0]] + sorted[1..];
    }
  }

  lemma {:induction false} InsertOrders(c: Cookie, sorted: seq<Cookie>)
    requires InOrder(sorted) && forall x :: x in sorted ==> x.created != c.created
    ensures InOrder(Insert(c, sorted))
  {
    if sorted != [] && !Precedes(c, sorted[0]) {
      var rest := Insert(c, sorted[1..]);
      InsertOrders(c, sorted[1..]);
      forall j | 0 <= j < |rest| ensures Precedes(sorted[0], rest[j]) {
        InsertMembers(c, sorted[1..], rest[j]);
      }
    }
  }

  lemma {:induction false} SortedMembers(cookies: seq<Cookie>, x: Cookie)
    ensures x in Sorted(cookies) <==> x in cookies
    ensures |Sorted(cookies)| == |cookies|
  {
    if cookies != [] {
      SortedMembers(cookies[1..], x);
      InsertMembers(cookies[0], Sorted(cookies[1..]), x);
    }
  }

  lemma {:induction false} SortedIsInOrder(cookies: seq<Cookie>)
    requires DistinctStamps(cookies)
    ensures InOrder(Sorted(cookies))
  {
    if cookies != [] {
      var rest := cookies[1..];
      SortedIsInOrder(rest);
      forall x | x in Sorted(rest) ensures x.created != cookies[0].created {
        SortedMembers(rest, x);
      }
      InsertOrders(cookies[0], Sorted(rest));
    }
  }

  lemma {:induction false} MatchedMembers(isIp: string -> bool, url: Url, cookies: seq<Cookie>, x: Cookie)
    ensures x in Matched(isIp, url, cookies) <==> x in cookies && Sendable(isIp, url, x)
  {
    if cookies != [] {
      var n := |cookies| - 1;
      MatchedMembers(isIp, url, cookies[..n], x);
      assert cookies == cookies[..n] + [cookies[n]];
    }
  }

  lemma {:induction false} MatchedStamps(isIp: string -> bool, url: Url, cookies: seq<Cookie>)
    requires Ordered(cookies)
    ensures DistinctStamps(Matched(isIp, url, cookies))
  {
    if cookies != [] {
      var n := |cookies| - 1;
      var before := Matched(isIp, url, cookies[..n]);
      MatchedStamps(isIp, url, cookies[..n]);
      forall x | x in before ensures x.created != cookies[n].created {
        MatchedMembers(isIp, url, cookies[..n], x);
      }
    }
  }

  /**
    The header carries exactly the cookies that may go to the URL, each once, longest path
    first and oldest first among equals.
   */
  lemma SentExactly(isIp: string -> bool, url: Url, cookies: seq<Cookie>)
    requires Ordered(cookies)
    ensures InOrder(Sent(isIp, url, cookies))
    ensures forall x :: x in Sent(isIp, url, cookies) <==> x in cookies && Sendable(isIp, url, x)
    ensures Header(isIp, url, cookies).None? <==> forall x :: x in cookies ==> !Sendable(isIp, url, x)
  {
    var matched := Matched(isIp, url, cookies);
    MatchedStamps(isIp, url, cookies);
    SortedIsInOrder(matched);
    forall x ensures x in Sent(isIp, url, cookies) <==> x in cookies && Sendable(isIp, url, x) {
      SortedMembers(matched, x);
      MatchedMembers(isIp, url, cookies, x);
    }
    forall x ensures x in matched <==> x in cookies && Sendable(isIp, url, x) {
      MatchedMembers(isIp, url, cookies, x);
    }
    if matched != [] { assert matched[0] in matched; }
  }

  lemma Heads(a: seq<Cookie>, b: seq<Cookie>)
    requires InOrder(a) && InOrder(b) && a != [] && b != []
    requires forall x :: x in a <==> x in b
    ensures a[0] == b[0]
  {
    assert a[0] in b && b[0] in a;
  }

  lemma TailMembers(a: seq<Cookie>, x: Cookie)
    requires InOrder(a) && a != []
    ensures x in a[1..] <==> x in a && x != a[0]
  {
    assert a == [a[0]] + a[1..];
  }

  /** The order leaves nothing to the sorting algorithm: the cookies that are sent fix the list. */
  lemma {:induction false} OrderIsUnique(a: seq<Cookie>, b: seq<Cookie>)
    requires InOrder(a) && InOrder(b)
    requires forall x :: x in a <==> x in b
    ensures a == b
  {
    assert a != [] ==> a[0] in b;
    assert b != [] ==> b[0] in a;
    if a != [] {
      Heads(a, b);
      forall x ensures x in a[1..] <==> x in b[1..] {
        TailMembers(a, x);
        TailMembers(b, x);
      }
      OrderIsUnique(a[1..], b[1..]);
    }
  }

  /**
    In every jar a run can reach, a cookie goes only where its setter could have sent it: a
    host-only cookie to its own host, a domain cookie to hosts of a domain its setter belongs
    to, and a secure one only over https.
   */
  lemma CookiesStayHome(isIp: string -> bool, max: nat, perHost: nat, steps: seq<Step>, url: Url, c: Cookie)
    requires c in Sent(isIp, url, Exec(Empty(max, perHost), isIp, steps).cookies)
    ensures c.domain.None? ==> url.host == c.host
    ensures c.domain.Some? ==>
      DomainMatch(isIp, url.host, c.domain.value) && DomainMatch(isIp, c.host, c.domain.value)
    ensures c.secure ==> url.scheme == "https"
  {
    EveryJarIsSound(isIp, Empty(max, perHost), steps);
    SentExactly(isIp, url, Exec(Empty(max, perHost), isIp, steps).cookies);
  }

  // ------------------------------------------------------------------
  // Requests with a query
  // ------------------------------------------------------------------

  /**
    The request path is matched together with its query. That agrees with
    section 5.1.4 of RFC 6265 for every cookie, except one for exactly this page
    (which is then not sent) and one whose own path reaches into the query and
    matches it there (which is).
   */
  lemma QueryHidesThePage(path: string, query: string, cookiePath: string)
    requires '?' !in path
    ensures (PathMatch(path + "?" + query, cookiePath) <==> PathMatch(path, cookiePath))
        <==> !(cookiePath == path && !EndsWith(path, "/"))
             && !(StartsWith(cookiePath, path + "?") && PathMatch(query, cookiePath[|path| + 1..]))
  {
    var target := path + "?" + query;
    assert target[..|path|] == path && target[|path|] == '?';
    if |cookiePath| <= |path| {
      assert target[..|cookiePath|] == path[..|cookiePath|];
      assert |cookiePath| < |path| ==> target[|cookiePath|] == path[|cookiePath|];
    } else if StartsWith(cookiePath, path + "?") {
      IntoTheQuery(path, query, cookiePath[|path| + 1..]);
      assert cookiePath == path + "?" + cookiePath[|path| + 1..];
    } else if PathMatch(target, cookiePath) {
      ReachesTheQuery(path, query, cookiePath);
    }
  }

  /** Behind the question mark, the query is matched like a path. */
  lemma IntoTheQuery(path: string, query: string, rest: string)
    ensures PathMatch(path + "?" + query, path + "?" + rest) <==> PathMatch(query, rest)
  {
    var target, cookiePath := path + "?" + query, path + "?" + rest;
    var n := |path| + 1;
    assert target[n..] == query && cookiePath[n..] == rest;
    if |query| >= |rest| {
      assert target[..|cookiePath|][n..] == query[..|rest|];
      assert target[..|cookiePath|][..n] == path + "?" && cookiePath[..n] == path + "?";
      assert target[..|cookiePath|] == target[..|cookiePath|][..n] + target[..|cookiePath|][n..];
      assert |query| > |rest| ==> target[|cookiePath|] == query[|rest|];
    }
    assert rest == "" ==> cookiePath[|cookiePath| - 1] == '?';
    assert EndsWith(cookiePath, "/") <==> cookiePath[|cookiePath| - 1] == '/';
    assert EndsWith(rest, "/") <==> rest != "" && rest[|rest| - 1] == '/';
  }

  lemma ReachesTheQuery(path: string, query: string, cookiePath: string)
    requires |cookiePath| > |path| && PathMatch(path + "?" + query, cookiePath)
    ensures StartsWith(cookiePath, path + "?")
  {
    var target, n := path + "?" + query, |path| + 1;
    assert target[..|cookiePath|][..n] == target[..n] == path + "?";
  }

  /** A cookie for page `/a` is not sent to `/a` with a query. */
  lemma PageCookieStaysBehind()
    ensures PathMatch("/a", "/a") && !PathMatch("/a" + "?" + "q", "/a")
  {
    assert '?' !in "/a" by { assert "/a"[0] != '?' && "/a"[1] != '?'; }
    assert !EndsWith("/a", "/") by { assert "/a"[1..] == "a" && "a"[0] != '/'; }
    QueryHidesThePage("/a", "q", "/a");
  }

  /** The default path is the one the standard asks for exactly when the query holds no slash. */
  lemma QueryEntersTheDefaultPath(path: string, query: string)
    requires '?' !in path && StartsWith(path, "/")
    ensures DefaultPath(path + "?" + query) == DefaultPath(path) <==> '/' !in query
  {
    var target := path + "?" + query;
    assert path[..1][0] == '/' && '/' in path;
    SlashInPath(path, "?" + query);
    var i, j := LastSlash(target), LastSlash(path);
    assert target == path + ("?" + query);
    if '/' in query {
      var k :| 0 <= k < |query| && query[k] == '/';
      assert ("?" + query)[k + 1] == '/';
      assert target[|path|] == '?' && i > |path|;
      assert target[..i][|path|] == '?';
      assert '?' in DefaultPath(target) && '?' !in DefaultPath(path);
    } else {
      assert i == j && target[..i] == path[..j];
    }
  }

  /** A query with a slash: the default path of page `/a` reaches into it. */
  lemma DefaultPathHoldsAQuery()
    ensures DefaultPath("/a" + "?" + "x/y") != DefaultPath("/a")
  {
    assert '?' !in "/a" by { assert "/a"[0] != '?' && "/a"[1] != '?'; }
    assert StartsWith("/a", "/") by { assert "/a"[..1] == "/"; }
    assert "x/y"[1] == '/';
    QueryEntersTheDefaultPath("/a", "x/y");
  }

  /** The last slash is in the path exactly when none follows it. */
  lemma {:induction false} SlashInPath(path: string, rest: string)
    requires '/' in path
    ensures LastSlash(path + rest) == LastSlash(path) <==> '/' !in rest
    ensures '/' in rest ==> LastSlash(path + rest) >= |path|
    decreases |rest|
  {
    var s := path + rest;
    if rest == "" {
      assert s == path;
    } else {
      var n := |rest| - 1;
      assert s[|s| - 1] == rest[n];
      if rest[n] == '/' {
        assert '/' in rest;
      } else {
        assert s[..|s| - 1] == path + rest[..n];
        SlashInPath(path, rest[..n]);
        assert '/' in rest <==> '/' in rest[..n];
      }
    }
  }

  // ------------------------------------------------------------------
  // Dropping the oldest, one at a time
  // ------------------------------------------------------------------

  predicate Kept(host: Option<string>, c: Cookie) {
    host.Some? ==> c.host == host.value
  }

  /** The first cookie of a host (or of any host), or the length. */
  function FirstOf(cookies: seq<Cookie>, host: Option<string>): (i: nat)
    ensures i <= |cookies| && (i < |cookies| ==> Kept(host, cookies[i]))
    ensures forall k :: 0 <= k < i ==> !Kept(host, cookies[k])
  {
    if cookies == [] || Kept(host, cookies[0]) then 0 else 1 + FirstOf(cookies[1..], host)
  }

  function Dropped(cookies: seq<Cookie>, host: Option<string>): seq<Cookie> {
    var i := FirstOf(cookies, host);
    if i < |cookies| then RemoveAt(cookies, i) else cookies
  }

  lemma DroppedStep(cookies: seq<Cookie>, host: string)
    requires cookies != []
    ensures Dropped(cookies, Some(host)) ==
      if cookies[0].host == host then cookies[1..] else [cookies[0]] + Dropped(cookies[1..], Some(host))
  {
    if cookies[0].host == host {
      assert RemoveAt(cookies, 0) == cookies[1..];
    } else {
      var i := FirstOf(cookies[1..], Some(host));
      assert FirstOf(cookies, Some(host)) == i + 1;
      if i < |cookies| - 1 {
        assert RemoveAt(cookies, i + 1) == [cookies[0]] + RemoveAt(cookies[1..], i);
      }
    }
  }

  lemma {:induction false} DroppedCounts(cookies: seq<Cookie>, host: string, other: string)
    requires CountHost(cookies, host) > 0
    ensures CountHost(Dropped(cookies, Some(host)), other)
         == CountHost(cookies, other) - if other == host then 1 else 0
    ensures |Dropped(cookies, Some(host))| == |cookies| - 1
  {
    DroppedStep(cookies, host);
    if cookies[0].host != host {
      DroppedCounts(cookies[1..], host, other);
      var rest := Dropped(cookies[1..], Some(host));
      assert ([cookies[0]] + rest)[1..] == rest;
    }
  }

  /** Dropping the oldest cookie of an over-full host does not change what will be left. */
  lemma {:induction false} DropTowardsCap(cookies: seq<Cookie>, host: string, n: nat)
    requires CountHost(cookies, host) > n
    ensures CapHosts(Dropped(cookies, Some(host)), n) == CapHosts(cookies, n)
  {
    DroppedStep(cookies, host);
    if cookies[0].host != host {
      DropTowardsCap(cookies[1..], host, n);
      DroppedCounts(cookies[1..], host, cookies[0].host);
      var rest := Dropped(cookies[1..], Some(host));
      assert ([cookies[0]] + rest)[1..] == rest;
    }
  }

  lemma DroppedOrdered(cookies: seq<Cookie>, host: Option<string>)
    requires Ordered(cookies)
    ensures Ordered(Dropped(cookies, host))
  {
  }

  lemma DropTowardsNewest(cookies: seq<Cookie>, n: nat)
    requires |cookies| > n
    ensures Dropped(cookies, None) == cookies[1..] && Newest(cookies[1..], n) == Newest(cookies, n)
  {
    assert RemoveAt(cookies, 0) == cookies[1..];
    if |cookies| - 1 > n {
      assert cookies[1..][|cookies| - 1 - n..] == cookies[|cookies| - n..];
    }
  }

  // ------------------------------------------------------------------
  // The jar
  // ------------------------------------------------------------------

  class CookieJar {
    var cookies: seq<Cookie>
    var nextCreated: nat
    const maxCookies: nat
    const maxPerHost: nat
    const isIp: string -> bool

    function State(): Jar
      reads this
    {
      Jar(cookies, nextCreated, maxCookies, maxPerHost)
    }

    ghost predicate Valid()
      reads this
    {
      Inv(isIp, State())
    }

    constructor (max: nat, perHost: nat, ip: string -> bool)
      ensures State() == Empty(max, perHost) && isIp == ip && Valid()
    {
      cookies := [];
      nextCreated := 0;
      maxCookies := if max == 0 then 1 else max;
      maxPerHost := if perHost == 0 then 1 else perHost;
      isIp := ip;
    }

    /** `drop_oldest` */
    method DropOldest(host: Option<string>)
      requires Ordered(cookies)
      modifies this`cookies
      ensures cookies == Dropped(old(cookies), host)
    {
      var oldest: Option<nat> := None;
      for i := 0 to |cookies|
        invariant oldest.None? ==> forall k :: 0 <= k < i ==> !Kept(host, cookies[k])
        invariant oldest.Some? ==> oldest.value < i && Kept(host, cookies[oldest.value])
        invariant oldest.Some? ==> forall k :: 0 <= k < i && Kept(host, cookies[k]) ==>
          cookies[oldest.value].created <= cookies[k].created
      {
        if Kept(host, cookies[i]) && (oldest.None? || cookies[i].created < cookies[oldest.value].created) {
          oldest := Some(i);
        }
      }
      ghost var first := FirstOf(cookies, host);
      if oldest.Some? {
        assert oldest.value == first;
        cookies := cookies[..oldest.value] + cookies[oldest.value + 1..];
      }
    }

    /** The host part of `enforce_limits`, for one host. */
    method CapHost(host: string)
      requires Ordered(cookies)
      modifies this`cookies
      ensures Ordered(cookies) && CapHosts(cookies, maxPerHost) == CapHosts(old(cookies), maxPerHost)
      ensures CountHost(cookies, host) <= maxPerHost
      ensures forall other: string :: CountHost(cookies, other) <= CountHost(old(cookies), other)
    {
      while CountHost(cookies, host) > maxPerHost
        invariant Ordered(cookies) && CapHosts(cookies, maxPerHost) == CapHosts(old(cookies), maxPerHost)
        invariant forall other: string :: CountHost(cookies, other) <= CountHost(old(cookies), other)
        decreases |cookies|
      {
        ghost var before := cookies;
        DropOldest(Some(host));
        DroppedOrdered(before, Some(host));
        DropTowardsCap(before, host, maxPerHost);
        forall other: string ensures CountHost(cookies, other) <= CountHost(before, other) {
          DroppedCounts(before, host, other);
        }
        DroppedCounts(before, host, host);
      }
    }

    method CapJar()
      requires Ordered(cookies)
      modifies this`cookies
      ensures cookies == Newest(old(cookies), maxCookies) && Ordered(cookies)
    {
      while |cookies| > maxCookies
        invariant Ordered(cookies) && Newest(cookies, maxCookies) == Newest(old(cookies), maxCookies)
        decreases |cookies|
      {
        DropTowardsNewest(cookies, maxCookies);
        DropOldest(None);
      }
    }

    /** The hosts are visited in any order. */
    method CapEveryHost()
      requires Ordered(cookies)
      modifies this`cookies
      ensures cookies == CapHosts(old(cookies), maxPerHost)
    {
      var hosts := set c | c in cookies :: c.host;
      forall host: string | host !in hosts ensures CountHost(cookies, host) <= maxPerHost {
        NoneOf(cookies, host);
      }
      while hosts != {}
        invariant Ordered(cookies) && CapHosts(cookies, maxPerHost) == CapHosts(old(cookies), maxPerHost)
        invariant forall host: string :: host !in hosts ==> CountHost(cookies, host) <= maxPerHost
        decreases |hosts|
      {
        var host :| host in hosts;
        CapHost(host);
        hosts := hosts - {host};
      }
      CapSame(cookies, maxPerHost);
    }

    /** `enforce_limits` */
    method EnforceLimits()
      requires Ordered(cookies)
      modifies this`cookies
      ensures State() == Enforced(old(State()))
    {
      CapJar();
      CapEveryHost();
    }

    /** `store_at` */
    method StoreAt(url: Url, received: Option<Parsed>, now: int)
      requires Valid()
      modifies this`cookies, this`nextCreated
      ensures State() == Store(old(State()), isIp, url, received, now) && Valid()
    {
      StoreKeeps(isIp, State(), url, received, now);
      if received.None? { return; }
      var parsed := received.value;
      if parsed.domain.Some? && !DomainMatch(isIp, url.host, parsed.domain.value) { return; }
      if |parsed.name| + |parsed.value| > MAX_COOKIE_BYTES { return; }
      var existing := Position(cookies, KeyFor(url, parsed));
      if now >= DeletionAt(parsed, now) {
        if existing < |cookies| {
          cookies := cookies[..existing] + cookies[existing + 1..];
        }
        return;
      }
      PutKeeps(isIp, State(), url, parsed, now);
      PutCookie(existing, url, parsed, now);
      EnforceLimits();
    }

    /** The replace-or-push of `store_at`. */
    method PutCookie(existing: nat, url: Url, parsed: Parsed, now: int)
      requires existing == Position(cookies, KeyFor(url, parsed))
      modifies this`cookies, this`nextCreated
      ensures cookies == Put(old(State()), url, parsed, now)
      ensures nextCreated == old(nextCreated) + if existing < |old(cookies)| then 0 else 1
    {
      if existing < |cookies| {
        var created := cookies[existing].created;
        cookies := cookies[existing := Made(url, parsed, now, created)];
      } else {
        nextCreated := nextCreated + 1;
        cookies := cookies + [Made(url, parsed, now, nextCreated)];
      }
    }

    method Clear()
      requires Valid()
      modifies this`cookies
      ensures State() == Next(old(State()), isIp, Step.Clear) && Valid()
    {
      cookies := [];
    }

    /** `header_value` */
    method HeaderValue(url: Url) returns (header: Option<string>)
      ensures header == Header(isIp, url, cookies)
    {
      var matched := Matching(url);
      if matched == [] { return None; }
      var sorted := Sorted(matched);
      SortedMembers(matched, matched[0]);
      var out := RenderAll(sorted);
      return Some(out);
    }

    /** The cookies that may go to the URL. */
    method Matching(url: Url) returns (matched: seq<Cookie>)
      ensures matched == Matched(isIp, url, cookies)
    {
      matched := [];
      for i := 0 to |cookies|
        invariant matched == Matched(isIp, url, cookies[..i])
      {
        assert cookies[..i + 1][..i] == cookies[..i];
        if HostMatches(isIp, url, cookies[i]) && PathMatch(url.target, cookies[i].path) {
          if !cookies[i].secure || url.scheme == "https" {
            matched := matched + [cookies[i]];
          }
        }
      }
      assert cookies[..|cookies|] == cookies;
    }
  }

  /** The pairs joined by a semicolon and a space. */
  method RenderAll(sorted: seq<Cookie>) returns (out: string)
    ensures out == Render(sorted)
  {
    out := "";
    for i := 0 to |sorted|
      invariant out == Render(sorted[..i])
    {
      assert sorted[..i + 1][..i] == sorted[..i];
      if out != "" {
        out := out + "; ";
      }
      out := out + Pair(sorted[i]);
    }
    assert sorted[..|sorted|] == sorted;
  }

  lemma {:induction false} NoneOf(cookies: seq<Cookie>, host: string)
    requires forall c :: c in cookies ==> c.host != host
    ensures CountHost(cookies, host) == 0
  {
    if cookies != [] {
      assert cookies[0] in cookies;
      NoneOf(cookies[1..], host);
    }
  }
}
