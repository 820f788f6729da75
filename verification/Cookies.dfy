/**
  The client's cookie jar (src/courierust_client/cookies.rs): which cookies are
  stored, replaced, deleted and evicted, and which are sent where.

  A `Set-Cookie` value enters the model already parsed. Whether a host is an IP
  literal is the standard library's decision, so it is a parameter.
 */
module Cookies {
  import opened Basics

  datatype Cookie = Cookie(
    name: string,
    value: string,
    host: string,
    domain: Option<string>,
    path: string,
    secure: bool,
    expiresAt: Option<int>,
    created: nat)

  datatype Parsed = Parsed(
    name: string,
    value: string,
    domain: Option<string>,
    path: Option<string>,
    secure: bool,
    maxAge: Option<int>,
    expires: Option<int>)

  /** The parts of a URL the jar looks at; `target` is the path with its query. */
  datatype Url = Url(scheme: string, host: string, target: string)

  datatype Key = Key(name: string, domain: string, path: string)

  datatype Jar = Jar(cookies: seq<Cookie>, nextCreated: nat, maxCookies: nat, maxPerHost: nat)

  const MAX_COOKIE_BYTES := 4096
  const I64_MAX := 0x7FFF_FFFF_FFFF_FFFF
  const I64_MIN := -0x8000_0000_0000_0000

  // ------------------------------------------------------------------
  // Matching
  // ------------------------------------------------------------------

  /** `domain_match` */
  predicate DomainMatch(isIp: string -> bool, host: string, domain: string) {
    host == domain ||
    (!isIp(host) && !isIp(domain) &&
    |host| > |domain| && EndsWith(host, domain) && host[|host| - |domain| - 1] == '.')
  }

  /** `host_matches` */
  predicate HostMatches(isIp: string -> bool, url: Url, cookie: Cookie) {
    match cookie.domain
    case None => url.host == cookie.host
    case Some(domain) => DomainMatch(isIp, url.host, domain)
  }

  /** `path_match` */
  predicate PathMatch(requestPath: string, cookiePath: string) {
    requestPath == cookiePath ||
    (StartsWith(requestPath, cookiePath) &&
    (EndsWith(cookiePath, "/") || (|requestPath| > |cookiePath| && requestPath[|cookiePath|] == '/')))
  }

  /** `default_path` */
  function DefaultPath(requestPath: string): string {
    var i := LastSlash(requestPath);
    if i == 0 || i == |requestPath| then "/" else requestPath[..i]
  }

  // ------------------------------------------------------------------
  // Storing
  // ------------------------------------------------------------------

  function Effective(cookie: Cookie): string {
    if cookie.domain.Some? then cookie.domain.value else cookie.host
  }

  function KeyOf(cookie: Cookie): Key {
    Key(cookie.name, Effective(cookie), cookie.path)
  }

  /** `deletion_at` */
  function DeletionAt(parsed: Parsed, now: int): int {
    match parsed.maxAge
    case Some(age) =>
      if age <= 0 then I64_MIN else if now + age > I64_MAX then I64_MAX else now + age
    case None => if parsed.expires.Some? then parsed.expires.value else I64_MAX
  }

  predicate Accepted(isIp: string -> bool, url: Url, parsed: Parsed) {
    (parsed.domain.Some? ==> DomainMatch(isIp, url.host, parsed.domain.value)) &&
    |parsed.name| + |parsed.value| <= MAX_COOKIE_BYTES
  }

  function PathFor(url: Url, parsed: Parsed): string {
    if parsed.path.Some? && StartsWith(parsed.path.value, "/") then parsed.path.value else DefaultPath(url.target)
  }

  function KeyFor(url: Url, parsed: Parsed): Key {
    Key(parsed.name, if parsed.domain.Some? then parsed.domain.value else url.host, PathFor(url, parsed))
  }

  function Made(url: Url, parsed: Parsed, now: int, created: nat): Cookie {
    var dead := DeletionAt(parsed, now);
    Cookie(parsed.name, parsed.value, url.host, parsed.domain, PathFor(url, parsed), parsed.secure,
           if dead == I64_MAX then None else Some(dead), created)
  }

  /** The first cookie with a key, or the length. */
  function Position(cookies: seq<Cookie>, key: Key): (i: nat)
    ensures i <= |cookies| && (i < |cookies| ==> KeyOf(cookies[i]) == key)
    ensures forall k :: 0 <= k < i ==> KeyOf(cookies[k]) != key
  {
    if cookies == [] || KeyOf(cookies[0]) == key then 0 else 1 + Position(cookies[1..], key)
  }

  function RemoveAt(cookies: seq<Cookie>, i: nat): seq<Cookie>
    requires i < |cookies|
  {
    cookies[..i] + cookies[i + 1..]
  }

  /** The cookies with the new one put in, before any eviction. */
  function Put(jar: Jar, url: Url, parsed: Parsed, now: int): seq<Cookie> {
    var i := Position(jar.cookies, KeyFor(url, parsed));
    if i < |jar.cookies| then jar.cookies[i := Made(url, parsed, now, jar.cookies[i].created)]
    else jar.cookies + [Made(url, parsed, now, jar.nextCreated + 1)]
  }

  function CountHost(cookies: seq<Cookie>, host: string): nat {
    if cookies == [] then 0
    else (if cookies[0].host == host then 1 else 0) + CountHost(cookies[1..], host)
  }

  /** The last `n` cookies of a list that is in order of creation. */
  function Newest(cookies: seq<Cookie>, n: nat): (r: seq<Cookie>)
    ensures |r| <= n
  {
    if |cookies| > n then cookies[|cookies| - n..] else cookies
  }

  /** The newest `n` cookies of each host. */
  function CapHosts(cookies: seq<Cookie>, n: nat): seq<Cookie> {
    if cookies == [] then []
    else
      var rest := CapHosts(cookies[1..], n);
      if CountHost(cookies[1..], cookies[0].host) < n then [cookies[0]] + rest else rest
  }

  function Enforced(jar: Jar): Jar {
    jar.(cookies := CapHosts(Newest(jar.cookies, jar.maxCookies), jar.maxPerHost))
  }

  predicate Alive(parsed: Parsed, now: int) {
    now < DeletionAt(parsed, now)
  }

  /** `store_at` */
  function Store(jar: Jar, isIp: string -> bool, url: Url, received: Option<Parsed>, now: int): Jar {
    if received.None? || !Accepted(isIp, url, received.value) then jar
    else
      var parsed := received.value;
      var i := Position(jar.cookies, KeyFor(url, parsed));
      if !Alive(parsed, now) then if i < |jar.cookies| then jar.(cookies := RemoveAt(jar.cookies, i)) else jar
      else
        var next := if i < |jar.cookies| then jar.nextCreated else jar.nextCreated + 1;
        Enforced(jar.(cookies := Put(jar, url, parsed, now), nextCreated := next))
  }

  // ------------------------------------------------------------------
  // What every jar keeps
  // ------------------------------------------------------------------

  ghost predicate Ordered(cookies: seq<Cookie>) {
    forall i, j :: 0 <= i < j < |cookies| ==> cookies[i].created < cookies[j].created
  }

  ghost predicate Stamped(cookies: seq<Cookie>, next: nat) {
    forall i :: 0 <= i < |cookies| ==> 1 <= cookies[i].created <= next
  }

  ghost predicate DistinctKeys(cookies: seq<Cookie>) {
    forall i, j :: 0 <= i < j < |cookies| ==> KeyOf(cookies[i]) != KeyOf(cookies[j])
  }

  /** No cookie reaches further than its setter, and none is over the size ceiling. */
  predicate Modest(isIp: string -> bool, cookie: Cookie) {
    (cookie.domain.Some? ==> DomainMatch(isIp, cookie.host, cookie.domain.value)) &&
    |cookie.name| + |cookie.value| <= MAX_COOKIE_BYTES
  }

  ghost predicate AllModest(isIp: string -> bool, cookies: seq<Cookie>) {
    forall i :: 0 <= i < |cookies| ==> Modest(isIp, cookies[i])
  }

  ghost predicate HostsWithin(cookies: seq<Cookie>, n: nat) {
    forall host: string :: CountHost(cookies, host) <= n
  }

  ghost predicate Sound(isIp: string -> bool, cookies: seq<Cookie>, next: nat) {
    Ordered(cookies) && Stamped(cookies, next) && DistinctKeys(cookies) && AllModest(isIp, cookies)
  }

  ghost predicate Inv(isIp: string -> bool, jar: Jar) {
    jar.maxCookies >= 1 && jar.maxPerHost >= 1 &&
    Sound(isIp, jar.cookies, jar.nextCreated) &&
    |jar.cookies| <= jar.maxCookies && HostsWithin(jar.cookies, jar.maxPerHost)
  }

  /** Being a sub-list in the same order. */
  ghost predicate Within(small: seq<Cookie>, big: seq<Cookie>) {
    small == [] ||
    (big != [] && ((small[0] == big[0] && Within(small[1..], big[1..])) || Within(small, big[1..])))
  }

  lemma {:induction false} WithinFrom(small: seq<Cookie>, big: seq<Cookie>, x: Cookie)
    requires Within(small, big) && x in small
    ensures x in big
    decreases |big|
  {
    if small[0] == big[0] && Within(small[1..], big[1..]) {
      if x != small[0] {
        assert x in small[1..];
        WithinFrom(small[1..], big[1..], x);
      }
    } else {
      WithinFrom(small, big[1..], x);
    }
  }

  lemma SoundTail(isIp: string -> bool, big: seq<Cookie>, next: nat)
    requires big != [] && Sound(isIp, big, next)
    ensures Sound(isIp, big[1..], next)
    ensures forall x :: x in big[1..] ==> big[0].created < x.created && KeyOf(big[0]) != KeyOf(x)
  {
    forall x | x in big[1..] ensures big[0].created < x.created && KeyOf(big[0]) != KeyOf(x) {
      var j :| 0 <= j < |big[1..]| && big[1..][j] == x;
      assert big[j + 1] == x;
    }
  }

  lemma SoundCons(isIp: string -> bool, small: seq<Cookie>, next: nat)
    requires small != [] && Sound(isIp, small[1..], next)
    requires Modest(isIp, small[0]) && 1 <= small[0].created <= next
    requires forall x :: x in small[1..] ==> small[0].created < x.created && KeyOf(small[0]) != KeyOf(x)
    ensures Sound(isIp, small, next)
  {
    assert forall j :: 1 <= j < |small| ==> small[j] == small[1..][j - 1] && small[j] in small[1..];
  }

  lemma {:induction false} WithinSound(isIp: string -> bool, small: seq<Cookie>, big: seq<Cookie>, next: nat)
    requires Within(small, big) && Sound(isIp, big, next)
    ensures Sound(isIp, small, next)
    decreases |big|
  {
    if small != [] {
      var rest := big[1..];
      SoundTail(isIp, big, next);
      if small[0] == big[0] && Within(small[1..], rest) {
        WithinSound(isIp, small[1..], rest, next);
        forall x | x in small[1..] ensures x in rest {
          WithinFrom(small[1..], rest, x);
        }
        SoundCons(isIp, small, next);
      } else {
        WithinSound(isIp, small, rest, next);
      }
    }
  }

  lemma {:induction false} WithinCount(small: seq<Cookie>, big: seq<Cookie>, host: string)
    requires Within(small, big)
    ensures CountHost(small, host) <= CountHost(big, host) && |small| <= |big|
    decreases |big|
  {
    if small != [] {
      if small[0] == big[0] && Within(small[1..], big[1..]) {
        WithinCount(small[1..], big[1..], host);
      } else {
        WithinCount(small, big[1..], host);
      }
    }
  }

  lemma {:induction false} WithinSelf(cookies: seq<Cookie>)
    ensures Within(cookies, cookies)
  {
    if cookies != [] { WithinSelf(cookies[1..]); }
  }

  lemma {:induction false} SuffixWithin(cookies: seq<Cookie>, k: nat)
    requires k <= |cookies|
    ensures Within(cookies[k..], cookies)
  {
    if k == 0 {
      WithinSelf(cookies);
      assert cookies[0..] == cookies;
    } else {
      SuffixWithin(cookies[1..], k - 1);
      assert cookies[1..][k - 1..] == cookies[k..];
    }
  }

  lemma {:induction false} RemoveWithin(cookies: seq<Cookie>, i: nat)
    requires i < |cookies|
    ensures Within(RemoveAt(cookies, i), cookies)
  {
    if i == 0 {
      WithinSelf(cookies[1..]);
      assert RemoveAt(cookies, 0) == cookies[1..];
    } else {
      RemoveWithin(cookies[1..], i - 1);
      assert RemoveAt(cookies, i) == [cookies[0]] + RemoveAt(cookies[1..], i - 1);
      assert RemoveAt(cookies, i)[1..] == RemoveAt(cookies[1..], i - 1);
    }
  }

  lemma {:induction false} CapWithin(cookies: seq<Cookie>, n: nat)
    ensures Within(CapHosts(cookies, n), cookies)
  {
    if cookies != [] {
      CapWithin(cookies[1..], n);
      var rest := CapHosts(cookies[1..], n);
      assert ([cookies[0]] + rest)[1..] == rest;
    }
  }

  /** Each host keeps as many cookies as it had, up to the ceiling. */
  lemma {:induction false} CapCounts(cookies: seq<Cookie>, n: nat, host: string)
    ensures CountHost(CapHosts(cookies, n), host)
         == if CountHost(cookies, host) <= n then CountHost(cookies, host) else n
  {
    if cookies != [] {
      CapCounts(cookies[1..], n, host);
      var rest := CapHosts(cookies[1..], n);
      assert ([cookies[0]] + rest)[1..] == rest;
    }
  }

  lemma EnforcedKeeps(isIp: string -> bool, jar: Jar)
    requires jar.maxCookies >= 1 && jar.maxPerHost >= 1
    requires Sound(isIp, jar.cookies, jar.nextCreated)
    ensures Inv(isIp, Enforced(jar))
  {
    var newest := Newest(jar.cookies, jar.maxCookies);
    var k := if |jar.cookies| > jar.maxCookies then |jar.cookies| - jar.maxCookies else 0;
    assert newest == jar.cookies[k..];
    SuffixWithin(jar.cookies, k);
    WithinSound(isIp, newest, jar.cookies, jar.nextCreated);
    CapWithin(newest, jar.maxPerHost);
    WithinSound(isIp, CapHosts(newest, jar.maxPerHost), newest, jar.nextCreated);
    WithinCount(CapHosts(newest, jar.maxPerHost), newest, "");
    forall host: string ensures CountHost(CapHosts(newest, jar.maxPerHost), host) <= jar.maxPerHost {
      CapCounts(newest, jar.maxPerHost, host);
    }
  }

  lemma PutKey(url: Url, parsed: Parsed, now: int, created: nat)
    ensures KeyOf(Made(url, parsed, now, created)) == KeyFor(url, parsed)
  {
  }

  lemma PutKeeps(isIp: string -> bool, jar: Jar, url: Url, parsed: Parsed, now: int)
    requires Sound(isIp, jar.cookies, jar.nextCreated) && Accepted(isIp, url, parsed)
    ensures var i := Position(jar.cookies, KeyFor(url, parsed));
      Sound(isIp, Put(jar, url, parsed, now), if i < |jar.cookies| then jar.nextCreated else jar.nextCreated + 1)
  {
    var i := Position(jar.cookies, KeyFor(url, parsed));
    PutKey(url, parsed, now, if i < |jar.cookies| then jar.cookies[i].created else jar.nextCreated + 1);
  }

  /** Storing keeps every jar sound: no key twice, stamps in order, both ceilings, no planted cookie. */
  lemma StoreKeeps(isIp: string -> bool, jar: Jar, url: Url, received: Option<Parsed>, now: int)
    requires Inv(isIp, jar)
    ensures Inv(isIp, Store(jar, isIp, url, received, now))
  {
    if received.Some? && Accepted(isIp, url, received.value) {
      var parsed := received.value;
      var i := Position(jar.cookies, KeyFor(url, parsed));
      if !Alive(parsed, now) {
        if i < |jar.cookies| {
          var less := RemoveAt(jar.cookies, i);
          RemoveWithin(jar.cookies, i);
          WithinSound(isIp, less, jar.cookies, jar.nextCreated);
          forall host: string ensures CountHost(less, host) <= jar.maxPerHost {
            WithinCount(less, jar.cookies, host);
          }
        }
      } else {
        PutKeeps(isIp, jar, url, parsed, now);
        var next := if i < |jar.cookies| then jar.nextCreated else jar.nextCreated + 1;
        EnforcedKeeps(isIp, jar.(cookies := Put(jar, url, parsed, now), nextCreated := next));
      }
    }
  }

  // ------------------------------------------------------------------
  // Who is evicted
  // ------------------------------------------------------------------

  lemma {:induction false} CapKeeps(cookies: seq<Cookie>, n: nat, i: nat)
    requires Ordered(cookies) && i < |cookies|
    ensures cookies[i] in CapHosts(cookies, n) <==> CountHost(cookies[i + 1..], cookies[i].host) < n
    decreases |cookies|
  {
    var rest := CapHosts(cookies[1..], n);
    CapWithin(cookies[1..], n);
    if i == 0 {
      if cookies[0] in rest {
        WithinFrom(rest, cookies[1..], cookies[0]);
      }
      assert cookies[1..] == cookies[i + 1..];
    } else {
      CapKeeps(cookies[1..], n, i - 1);
      assert cookies[1..][i..] == cookies[i + 1..];
      assert cookies[0] != cookies[i];
    }
  }

  /**
    Eviction removes only the oldest: a cookie stays exactly when fewer than the
    jar's ceiling are newer, and fewer than the host's ceiling from its own host.
   */
  lemma EvictionIsByAge(jar: Jar, i: nat)
    requires Ordered(jar.cookies) && i < |jar.cookies|
    ensures jar.cookies[i] in Enforced(jar).cookies
        <==> |jar.cookies| - 1 - i < jar.maxCookies &&
             CountHost(jar.cookies[i + 1..], jar.cookies[i].host) < jar.maxPerHost
  {
    var k := if |jar.cookies| > jar.maxCookies then |jar.cookies| - jar.maxCookies else 0;
    assert Newest(jar.cookies, jar.maxCookies) == jar.cookies[k..];
    if i >= k {
      YoungStays(jar.cookies, k, jar.maxPerHost, i);
    } else {
      OldGoes(jar.cookies, k, jar.maxPerHost, i);
    }
  }

  /** Among the newest, only the ceiling of the host decides. */
  lemma YoungStays(cookies: seq<Cookie>, k: nat, n: nat, i: nat)
    requires Ordered(cookies) && k <= i < |cookies|
    ensures cookies[i] in CapHosts(cookies[k..], n) <==> CountHost(cookies[i + 1..], cookies[i].host) < n
  {
    CapKeeps(cookies[k..], n, i - k);
    assert cookies[k..][i - k + 1..] == cookies[i + 1..];
  }

  /** What is not among the newest is gone. */
  lemma OldGoes(cookies: seq<Cookie>, k: nat, n: nat, i: nat)
    requires Ordered(cookies) && i < k <= |cookies|
    ensures cookies[i] !in CapHosts(cookies[k..], n)
  {
    var newest := cookies[k..];
    CapWithin(newest, n);
    if cookies[i] in CapHosts(newest, n) {
      WithinFrom(CapHosts(newest, n), newest, cookies[i]);
    }
  }

  lemma {:induction false} CountIsSmall(cookies: seq<Cookie>, host: string)
    ensures CountHost(cookies, host) <= |cookies|
  {
    if cookies != [] { CountIsSmall(cookies[1..], host); }
  }

  /** A cookie with a new key survives its own store, however full the jar is. */
  lemma NewCookieSurvives(isIp: string -> bool, jar: Jar, url: Url, parsed: Parsed, now: int)
    requires Inv(isIp, jar) && Accepted(isIp, url, parsed) && Alive(parsed, now)
    requires forall i :: 0 <= i < |jar.cookies| ==> KeyOf(jar.cookies[i]) != KeyFor(url, parsed)
    ensures Made(url, parsed, now, jar.nextCreated + 1) in Store(jar, isIp, url, Some(parsed), now).cookies
  {
    PutKeeps(isIp, jar, url, parsed, now);
    var full := jar.(cookies := Put(jar, url, parsed, now), nextCreated := jar.nextCreated + 1);
    var n := |jar.cookies|;
    assert full.cookies[n + 1..] == [];
    EvictionIsByAge(full, n);
  }

  /**
    A refreshed cookie keeps its creation stamp, so it can be the one evicted: it is
    lost exactly when its new host already has a full set of newer cookies.
   */
  lemma RefreshSurvivesExactly(isIp: string -> bool, jar: Jar, url: Url, parsed: Parsed, now: int)
    requires Inv(isIp, jar) && Accepted(isIp, url, parsed) && Alive(parsed, now)
    requires Position(jar.cookies, KeyFor(url, parsed)) < |jar.cookies|
    ensures var i := Position(jar.cookies, KeyFor(url, parsed));
      Made(url, parsed, now, jar.cookies[i].created) in Store(jar, isIp, url, Some(parsed), now).cookies
      <==> CountHost(jar.cookies[i + 1..], url.host) < jar.maxPerHost
  {
    var i := Position(jar.cookies, KeyFor(url, parsed));
    PutKeeps(isIp, jar, url, parsed, now);
    var full := jar.(cookies := Put(jar, url, parsed, now));
    assert full.cookies[i + 1..] == jar.cookies[i + 1..];
    EvictionIsByAge(full, i);
  }

  // ------------------------------------------------------------------
  // Runs
  // ------------------------------------------------------------------

  datatype Step = Set(url: Url, received: Option<Parsed>, now: int) | Clear

  /** `with_limits` */
  function Empty(maxCookies: nat, maxPerHost: nat): (jar: Jar)
    ensures forall isIp: string -> bool :: Inv(isIp, jar)
  {
    Jar([], 0, if maxCookies == 0 then 1 else maxCookies, if maxPerHost == 0 then 1 else maxPerHost)
  }

  function Next(jar: Jar, isIp: string -> bool, step: Step): Jar {
    match step
    case Set(url, received, now) => Store(jar, isIp, url, received, now)
    case Clear => jar.(cookies := [])
  }

  function Exec(jar: Jar, isIp: string -> bool, steps: seq<Step>): Jar {
    if steps == [] then jar
    else Next(Exec(jar, isIp, steps[..|steps| - 1]), isIp, steps[|steps| - 1])
  }

  lemma NextKeeps(isIp: string -> bool, jar: Jar, step: Step)
    requires Inv(isIp, jar)
    ensures Inv(isIp, Next(jar, isIp, step))
  {
    match step
    case Set(url, received, now) => StoreKeeps(isIp, jar, url, received, now);
    case Clear =>
  }

  /** Every jar a run can reach is sound. */
  lemma {:induction false} EveryJarIsSound(isIp: string -> bool, jar: Jar, steps: seq<Step>)
    requires Inv(isIp, jar)
    ensures Inv(isIp, Exec(jar, isIp, steps))
  {
    if steps != [] {
      EveryJarIsSound(isIp, jar, steps[..|steps| - 1]);
      NextKeeps(isIp, Exec(jar, isIp, steps[..|steps| - 1]), steps[|steps| - 1]);
    }
  }

  // ------------------------------------------------------------------
  // A refresh that is lost
  // ------------------------------------------------------------------

  const NO_IP: string -> bool := (s: string) => false

  /** A session cookie for the whole site. */
  function SiteCookie(name: string, value: string, domain: Option<string>): Parsed {
    Parsed(name, value, domain, Some("/"), false, None, None)
  }

  function Setting(host: string, parsed: Parsed): Step {
    Set(Url("https", host, "/"), Some(parsed), 0)
  }

  lemma SiteCookieMade(name: string, value: string, host: string, domain: Option<string>, created: nat)
    ensures Made(Url("https", host, "/"), SiteCookie(name, value, domain), 0, created)
         == Cookie(name, value, host, domain, "/", false, None, created)
    ensures KeyFor(Url("https", host, "/"), SiteCookie(name, value, domain))
         == Key(name, if domain.Some? then domain.value else host, "/")
    ensures Alive(SiteCookie(name, value, domain), 0)
  {
    assert StartsWith("/", "/") by { assert "/"[..1] == "/"; }
  }

  lemma SiblingsMatch()
    ensures DomainMatch(NO_IP, "a.x", "x") && DomainMatch(NO_IP, "b.x", "x") && "a.x" != "b.x"
  {
    assert "a.x"[2..] == "x" && "b.x"[2..] == "x";
    assert "a.x"[0] != "b.x"[0];
  }

  lemma FirstSet()
    ensures Next(Empty(10, 1), NO_IP, Setting("a.x", SiteCookie("s", "1", Some("x"))))
         == Jar([Cookie("s", "1", "a.x", Some("x"), "/", false, None, 1)], 1, 10, 1)
  {
    SiteCookieMade("s", "1", "a.x", Some("x"), 1);
    SiblingsMatch();
    var c := Cookie("s", "1", "a.x", Some("x"), "/", false, None, 1);
    assert [] + [c] == [c] && [c][1..] == [];
    assert CapHosts([c], 1) == [c];
  }

  lemma SecondSet(jar: Jar)
    requires jar == Jar([Cookie("s", "1", "a.x", Some("x"), "/", false, None, 1)], 1, 10, 1)
    ensures Next(jar, NO_IP, Setting("b.x", SiteCookie("t", "2", None)))
         == jar.(cookies := jar.cookies + [Cookie("t", "2", "b.x", None, "/", false, None, 2)], nextCreated := 2)
  {
    SiteCookieMade("t", "2", "b.x", None, 2);
    SiblingsMatch();
    var c, d := jar.cookies[0], Cookie("t", "2", "b.x", None, "/", false, None, 2);
    assert Position(jar.cookies, Key("t", "b.x", "/")) == 1;
    assert [c] + [d] == [c, d] && [c, d][1..] == [d] && [d][1..] == [];
    assert CountHost([d], "a.x") == 0;
    assert CapHosts([d], 1) == [d] && CapHosts([c, d], 1) == [c, d];
  }

  lemma ThirdSet(jar: Jar)
    requires jar == Jar([Cookie("s", "1", "a.x", Some("x"), "/", false, None, 1)]
                        + [Cookie("t", "2", "b.x", None, "/", false, None, 2)], 2, 10, 1)
    ensures Next(jar, NO_IP, Setting("b.x", SiteCookie("s", "3", Some("x")))).cookies == [jar.cookies[1]]
  {
    SiteCookieMade("s", "3", "b.x", Some("x"), 1);
    SiblingsMatch();
    var made, d := Cookie("s", "3", "b.x", Some("x"), "/", false, None, 1), jar.cookies[1];
    assert Position(jar.cookies, Key("s", "x", "/")) == 0;
    assert jar.cookies[0 := made] == [made, d];
    assert [made, d][1..] == [d] && [d][1..] == [];
    assert CountHost([d], "b.x") == 1;
    assert CapHosts([d], 1) == [d] && CapHosts([made, d], 1) == [d];
  }

  lemma ExecThen(jar: Jar, isIp: string -> bool, steps: seq<Step>, step: Step)
    ensures Exec(jar, isIp, steps + [step]) == Next(Exec(jar, isIp, steps), isIp, step)
  {
    assert (steps + [step])[..|steps|] == steps;
  }

  /**
    One cookie allowed per host. A cookie shared by the domain is refreshed by a sibling host
    that has one of its own, and the refreshed cookie is the one that goes.
   */
  lemma RefreshCanBeLost()
    ensures var steps := [] + [Setting("a.x", SiteCookie("s", "1", Some("x")))] + [Setting("b.x", SiteCookie("t", "2", None))];
      var refresh := Setting("b.x", SiteCookie("s", "3", Some("x")));
      var jar := Exec(Empty(10, 1), NO_IP, steps);
      && (exists i :: 0 <= i < |jar.cookies| && KeyOf(jar.cookies[i]) == KeyFor(refresh.url, refresh.received.value))
      && Exec(Empty(10, 1), NO_IP, steps + [refresh]).cookies == [Cookie("t", "2", "b.x", None, "/", false, None, 2)]
  {
    var x, y := Setting("a.x", SiteCookie("s", "1", Some("x"))), Setting("b.x", SiteCookie("t", "2", None));
    var refresh := Setting("b.x", SiteCookie("s", "3", Some("x")));
    ExecThen(Empty(10, 1), NO_IP, [], x);
    ExecThen(Empty(10, 1), NO_IP, [] + [x], y);
    ExecThen(Empty(10, 1), NO_IP, [] + [x] + [y], refresh);
    FirstSet();
    SecondSet(Exec(Empty(10, 1), NO_IP, [] + [x]));
    var jar := Exec(Empty(10, 1), NO_IP, [] + [x] + [y]);
    ThirdSet(jar);
    SiteCookieMade("s", "3", "b.x", Some("x"), 1);
    assert KeyOf(jar.cookies[0]) == Key("s", "x", "/");
  }

  // ------------------------------------------------------------------
  // The jar as a map
  // ------------------------------------------------------------------

  /** What a plain map of keys to cookies would hold, creation stamps aside. */
  function MapNext(m: map<Key, Cookie>, isIp: string -> bool, step: Step): map<Key, Cookie> {
    match step
    case Clear => map[]
    case Set(url, received, now) =>
      if received.None? || !Accepted(isIp, url, received.value) then m
      else if !Alive(received.value, now) then m - {KeyFor(url, received.value)}
      else m[KeyFor(url, received.value) := Made(url, received.value, now, 0)]
  }

  function MapExec(isIp: string -> bool, steps: seq<Step>): map<Key, Cookie> {
    if steps == [] then map[]
    else MapNext(MapExec(isIp, steps[..|steps| - 1]), isIp, steps[|steps| - 1])
  }

  function Plain(cookie: Cookie): Cookie {
    cookie.(created := 0)
  }

  ghost predicate PartOf(cookies: seq<Cookie>, m: map<Key, Cookie>) {
    forall i :: 0 <= i < |cookies| ==> KeyOf(cookies[i]) in m && m[KeyOf(cookies[i])] == Plain(cookies[i])
  }

  ghost predicate Covers(cookies: seq<Cookie>, m: map<Key, Cookie>) {
    forall key :: key in m ==> Position(cookies, key) < |cookies|
  }

  lemma WithinPart(small: seq<Cookie>, big: seq<Cookie>, m: map<Key, Cookie>)
    requires Within(small, big) && PartOf(big, m)
    ensures PartOf(small, m)
  {
    forall i | 0 <= i < |small| ensures KeyOf(small[i]) in m && m[KeyOf(small[i])] == Plain(small[i]) {
      WithinFrom(small, big, small[i]);
    }
  }

  lemma PutPart(isIp: string -> bool, jar: Jar, url: Url, parsed: Parsed, now: int, m: map<Key, Cookie>)
    requires DistinctKeys(jar.cookies) && PartOf(jar.cookies, m)
    ensures PartOf(Put(jar, url, parsed, now), m[KeyFor(url, parsed) := Made(url, parsed, now, 0)])
  {
    var i := Position(jar.cookies, KeyFor(url, parsed));
    PutKey(url, parsed, now, if i < |jar.cookies| then jar.cookies[i].created else jar.nextCreated + 1);
  }

  lemma RemovePart(cookies: seq<Cookie>, key: Key, m: map<Key, Cookie>)
    requires DistinctKeys(cookies) && PartOf(cookies, m)
    ensures var i := Position(cookies, key);
      PartOf(if i < |cookies| then RemoveAt(cookies, i) else cookies, m - {key})
  {
  }

  lemma EnforcedPart(jar: Jar, m: map<Key, Cookie>)
    requires PartOf(jar.cookies, m)
    ensures PartOf(Enforced(jar).cookies, m)
  {
    var newest := Newest(jar.cookies, jar.maxCookies);
    assert PartOf(newest, m);
    CapWithin(newest, jar.maxPerHost);
    WithinPart(CapHosts(newest, jar.maxPerHost), newest, m);
  }

  lemma StepPart(isIp: string -> bool, jar: Jar, step: Step, m: map<Key, Cookie>)
    requires Inv(isIp, jar) && PartOf(jar.cookies, m)
    ensures PartOf(Next(jar, isIp, step).cookies, MapNext(m, isIp, step))
  {
    if step.Set? && step.received.Some? && Accepted(isIp, step.url, step.received.value) {
      var parsed := step.received.value;
      if Alive(parsed, step.now) {
        PutPart(isIp, jar, step.url, parsed, step.now, m);
        EnforcedPart(jar.(cookies := Put(jar, step.url, parsed, step.now)), MapNext(m, isIp, step));
      } else {
        RemovePart(jar.cookies, KeyFor(step.url, parsed), m);
      }
    }
  }

  /** The jar only ever forgets: whatever it holds is what the last store under that key left there. */
  lemma {:induction false} JarIsPartOfTheFold(isIp: string -> bool, max: nat, perHost: nat, steps: seq<Step>)
    ensures PartOf(Exec(Empty(max, perHost), isIp, steps).cookies, MapExec(isIp, steps))
  {
    if steps != [] {
      var before := steps[..|steps| - 1];
      JarIsPartOfTheFold(isIp, max, perHost, before);
      EveryJarIsSound(isIp, Empty(max, perHost), before);
      StepPart(isIp, Exec(Empty(max, perHost), isIp, before), steps[|steps| - 1], MapExec(isIp, before));
    }
  }

  /** The step leaves the jar within both ceilings before any eviction. */
  ghost predicate Fits(jar: Jar, isIp: string -> bool, step: Step) {
    step.Set? && step.received.Some? && Accepted(isIp, step.url, step.received.value) && Alive(step.received.value, step.now) ==>
      var put := Put(jar, step.url, step.received.value, step.now);
      |put| <= jar.maxCookies && HostsWithin(put, jar.maxPerHost)
  }

  lemma {:induction false} CapSame(cookies: seq<Cookie>, n: nat)
    requires forall host: string :: CountHost(cookies, host) <= n
    ensures CapHosts(cookies, n) == cookies
  {
    if cookies != [] {
      forall host: string ensures CountHost(cookies[1..], host) <= n {
        assert CountHost(cookies, host) >= CountHost(cookies[1..], host);
      }
      CapSame(cookies[1..], n);
      assert CountHost(cookies, cookies[0].host) == 1 + CountHost(cookies[1..], cookies[0].host);
    }
  }

  lemma PutCovers(jar: Jar, url: Url, parsed: Parsed, now: int, m: map<Key, Cookie>)
    requires DistinctKeys(jar.cookies) && Covers(jar.cookies, m)
    ensures Covers(Put(jar, url, parsed, now), m[KeyFor(url, parsed) := Made(url, parsed, now, 0)])
  {
    var key := KeyFor(url, parsed);
    var i := Position(jar.cookies, key);
    PutKey(url, parsed, now, if i < |jar.cookies| then jar.cookies[i].created else jar.nextCreated + 1);
    var put := Put(jar, url, parsed, now);
    assert KeyOf(put[i]) == key;
    forall k | k in m || k == key ensures Position(put, k) < |put| {
      if k != key {
        var j := Position(jar.cookies, k);
        assert KeyOf(put[j]) == k;
      }
    }
  }

  lemma StillThere(cookies: seq<Cookie>, i: nat, key: Key)
    requires i < |cookies| && KeyOf(cookies[i]) != key && Position(cookies, key) < |cookies|
    ensures Position(RemoveAt(cookies, i), key) < |RemoveAt(cookies, i)|
  {
    var j := Position(cookies, key);
    var less := RemoveAt(cookies, i);
    var at := if j < i then j else j - 1;
    assert less[at] == cookies[j];
  }

  lemma RemoveCovers(cookies: seq<Cookie>, key: Key, m: map<Key, Cookie>)
    requires DistinctKeys(cookies) && Covers(cookies, m)
    ensures var i := Position(cookies, key);
      Covers(if i < |cookies| then RemoveAt(cookies, i) else cookies, m - {key})
  {
    var i := Position(cookies, key);
    if i < |cookies| {
      var less := RemoveAt(cookies, i);
      forall k | k in m && k != key ensures Position(less, k) < |less| {
        StillThere(cookies, i, k);
      }
    }
  }

  lemma StepCovers(isIp: string -> bool, jar: Jar, step: Step, m: map<Key, Cookie>)
    requires Inv(isIp, jar) && Covers(jar.cookies, m) && Fits(jar, isIp, step)
    ensures Covers(Next(jar, isIp, step).cookies, MapNext(m, isIp, step))
  {
    if step.Set? && step.received.Some? && Accepted(isIp, step.url, step.received.value) {
      var parsed := step.received.value;
      if Alive(parsed, step.now) {
        PutCovers(jar, step.url, parsed, step.now, m);
        CapSame(Put(jar, step.url, parsed, step.now), jar.maxPerHost);
      } else {
        RemoveCovers(jar.cookies, KeyFor(step.url, parsed), m);
      }
    }
  }

  // The number of cookies, read off the map.

  ghost function KeysAt(cookies: seq<Cookie>, host: Option<string>): set<Key> {
    set i | 0 <= i < |cookies| && (host.Some? ==> cookies[i].host == host.value) :: KeyOf(cookies[i])
  }

  function MapKeysAt(m: map<Key, Cookie>, host: string): set<Key> {
    set key | key in m && m[key].host == host
  }

  /** The fold holds no more than the ceilings allow. */
  ghost predicate MapWithin(m: map<Key, Cookie>, max: nat, perHost: nat) {
    |m| <= max && forall host: string :: |MapKeysAt(m, host)| <= perHost
  }

  ghost function CountAt(cookies: seq<Cookie>, host: Option<string>): nat {
    if host.Some? then CountHost(cookies, host.value) else |cookies|
  }

  lemma {:induction false} KeysCount(cookies: seq<Cookie>, host: Option<string>)
    requires DistinctKeys(cookies)
    ensures |KeysAt(cookies, host)| == CountAt(cookies, host)
  {
    if cookies == [] {
      assert KeysAt(cookies, host) == {};
    } else {
      var rest := cookies[1..];
      KeysCount(rest, host);
      KeysCons(cookies, host);
    }
  }

  lemma KeysCons(cookies: seq<Cookie>, host: Option<string>)
    requires cookies != [] && DistinctKeys(cookies)
    ensures KeyOf(cookies[0]) !in KeysAt(cookies[1..], host)
    ensures KeysAt(cookies, host) == KeysAt(cookies[1..], host)
              + if host.Some? && cookies[0].host != host.value then {} else {KeyOf(cookies[0])}
  {
    var rest := cookies[1..];
    forall i | 0 < i < |cookies| && (host.Some? ==> cookies[i].host == host.value)
      ensures KeyOf(cookies[i]) in KeysAt(rest, host)
    {
      assert rest[i - 1] == cookies[i];
    }
  }

  lemma WholeKeys(cookies: seq<Cookie>, m: map<Key, Cookie>, host: string)
    requires PartOf(cookies, m) && Covers(cookies, m)
    ensures KeysAt(cookies, None) == m.Keys && KeysAt(cookies, Some(host)) == MapKeysAt(m, host)
  {
    forall key | key in m ensures key in KeysAt(cookies, None) {
      assert KeyOf(cookies[Position(cookies, key)]) == key;
    }
    forall key | key in MapKeysAt(m, host) ensures key in KeysAt(cookies, Some(host)) {
      assert KeyOf(cookies[Position(cookies, key)]) == key;
    }
  }

  /** A jar that is the whole map is within the ceilings exactly when the map is. */
  lemma WholeCounts(cookies: seq<Cookie>, m: map<Key, Cookie>, max: nat, perHost: nat)
    requires DistinctKeys(cookies) && PartOf(cookies, m) && Covers(cookies, m)
    ensures |cookies| <= max && HostsWithin(cookies, perHost) <==> MapWithin(m, max, perHost)
  {
    KeysCount(cookies, None);
    WholeKeys(cookies, m, "");
    assert |m| == |m.Keys|;
    forall host: string ensures |MapKeysAt(m, host)| == CountHost(cookies, host) {
      KeysCount(cookies, Some(host));
      WholeKeys(cookies, m, host);
    }
  }

  lemma WithinFits(isIp: string -> bool, jar: Jar, step: Step, m: map<Key, Cookie>)
    requires Inv(isIp, jar) && PartOf(jar.cookies, m) && Covers(jar.cookies, m)
    requires MapWithin(MapNext(m, isIp, step), jar.maxCookies, jar.maxPerHost)
    ensures Fits(jar, isIp, step)
  {
    if step.Set? && step.received.Some? && Accepted(isIp, step.url, step.received.value) && Alive(step.received.value, step.now) {
      var parsed := step.received.value;
      PutKeeps(isIp, jar, step.url, parsed, step.now);
      PutPart(isIp, jar, step.url, parsed, step.now, m);
      PutCovers(jar, step.url, parsed, step.now, m);
      WholeCounts(Put(jar, step.url, parsed, step.now), MapNext(m, isIp, step), jar.maxCookies, jar.maxPerHost);
    }
  }

  /** The jar after `steps` holds all that the last store under each key left, and nothing else. */
  ghost predicate Whole(isIp: string -> bool, max: nat, perHost: nat, steps: seq<Step>) {
    var cookies := Exec(Empty(max, perHost), isIp, steps).cookies;
    PartOf(cookies, MapExec(isIp, steps)) && Covers(cookies, MapExec(isIp, steps))
  }

  ghost predicate FoldFits(isIp: string -> bool, max: nat, perHost: nat, steps: seq<Step>) {
    MapWithin(MapExec(isIp, steps), Empty(max, perHost).maxCookies, Empty(max, perHost).maxPerHost)
  }

  lemma WholeNext(isIp: string -> bool, max: nat, perHost: nat, before: seq<Step>, step: Step)
    requires Whole(isIp, max, perHost, before) && FoldFits(isIp, max, perHost, before + [step])
    ensures Whole(isIp, max, perHost, before + [step])
  {
    var jar := Exec(Empty(max, perHost), isIp, before);
    assert (before + [step])[..|before|] == before;
    EveryJarIsSound(isIp, Empty(max, perHost), before);
    CeilingsStay(isIp, Empty(max, perHost), before);
    WithinFits(isIp, jar, step, MapExec(isIp, before));
    StepCovers(isIp, jar, step, MapExec(isIp, before));
    JarIsPartOfTheFold(isIp, max, perHost, before + [step]);
  }

  lemma {:induction false} CeilingsStay(isIp: string -> bool, jar: Jar, steps: seq<Step>)
    ensures var end := Exec(jar, isIp, steps); end.maxCookies == jar.maxCookies && end.maxPerHost == jar.maxPerHost
  {
    if steps != [] {
      CeilingsStay(isIp, jar, steps[..|steps| - 1]);
    }
  }

  lemma WholeMeansFits(isIp: string -> bool, max: nat, perHost: nat, steps: seq<Step>)
    requires Whole(isIp, max, perHost, steps)
    ensures FoldFits(isIp, max, perHost, steps)
  {
    var jar := Exec(Empty(max, perHost), isIp, steps);
    EveryJarIsSound(isIp, Empty(max, perHost), steps);
    CeilingsStay(isIp, Empty(max, perHost), steps);
    WholeCounts(jar.cookies, MapExec(isIp, steps), jar.maxCookies, jar.maxPerHost);
  }

  ghost predicate WholeThroughout(isIp: string -> bool, max: nat, perHost: nat, steps: seq<Step>) {
    forall i :: 0 <= i <= |steps| ==> Whole(isIp, max, perHost, steps[..i])
  }

  ghost predicate FitsThroughout(isIp: string -> bool, max: nat, perHost: nat, steps: seq<Step>) {
    forall i :: 0 <= i <= |steps| ==> FoldFits(isIp, max, perHost, steps[..i])
  }

  lemma {:induction false} FitsThenWhole(isIp: string -> bool, max: nat, perHost: nat, steps: seq<Step>, i: nat)
    requires i <= |steps| && FitsThroughout(isIp, max, perHost, steps)
    ensures Whole(isIp, max, perHost, steps[..i])
    decreases i
  {
    if i == 0 {
      assert MapExec(isIp, steps[..0]) == map[];
    } else {
      FitsThenWhole(isIp, max, perHost, steps, i - 1);
      assert steps[..i] == steps[..i - 1] + [steps[i - 1]];
      WholeNext(isIp, max, perHost, steps[..i - 1], steps[i - 1]);
    }
  }

  /**
    The jar is a plain map throughout a run if and only if the stores never put more into that
    map than the two ceilings allow.
   */
  lemma BelowTheCeilingsAMap(isIp: string -> bool, max: nat, perHost: nat, steps: seq<Step>)
    ensures WholeThroughout(isIp, max, perHost, steps) <==> FitsThroughout(isIp, max, perHost, steps)
  {
    if WholeThroughout(isIp, max, perHost, steps) {
      forall i | 0 <= i <= |steps| ensures FoldFits(isIp, max, perHost, steps[..i]) {
        WholeMeansFits(isIp, max, perHost, steps[..i]);
      }
    }
    if FitsThroughout(isIp, max, perHost, steps) {
      forall i | 0 <= i <= |steps| ensures Whole(isIp, max, perHost, steps[..i]) {
        FitsThenWhole(isIp, max, perHost, steps, i);
      }
    }
  }
}
