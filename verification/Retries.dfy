/**
  How often one request is tried and how often it is put on the wire: the retry loop with
  its policy (`RetryPolicy`, `execute_with_retry`), the replay of a spent keep-alive
  connection (`execute_h1`, `is_stale_failure`) and the second connection of a command whose
  driver is gone (`send_h2_cmd`, `send_h3_cmd`), src/courierust_client/mod.rs and h1.rs.

  What the network does is a parameter: an answer for every attempt.
 */
module Retries {
  import opened Basics

  datatype ErrorKind = Io | UnexpectedEof | Timeout | Canceled | Protocol | Other

  datatype Result = Ok(response: nat) | Err(kind: ErrorKind)

  datatype Body = Empty | Bytes(bytes: seq<nat>) | Streaming

  datatype Request = Request(idempotent: bool, body: Body)

  datatype Policy = Policy(attempts: nat, baseBackoff: nat, maxBackoff: nat, retryNonIdempotent: bool)

  // ------------------------------------------------------------------
  // One attempt
  // ------------------------------------------------------------------

  /** One write of the request on a connection: how much got out, whether an answer began, how it ended. */
  datatype Exchange = Exchange(written: bool, answered: bool, result: Result)

  /** What an attempt meets. */
  datatype Weather =
    | NoRoute(kind: ErrorKind)
    | H1(reused: bool, first: Exchange, reopened: Option<ErrorKind>, second: Exchange)
    | Driver(taken: bool, reply: Result, reopened: Option<ErrorKind>, takenAgain: bool, replyAgain: Result)

  /** What an attempt comes to: how often the request went out, and the result. */
  datatype Attempt = Attempt(wires: nat, result: Result)

  /** `H1Connection::send`: a body that cannot be replayed is refused before anything is written. */
  function Send(req: Request, e: Exchange): Exchange {
    if req.body.Streaming? then Exchange(false, e.answered, Err(Protocol)) else e
  }

  function Wire(e: Exchange): nat {
    if e.written then 1 else 0
  }

  /** `is_stale_failure` */
  predicate Stale(e: Exchange) {
    !e.answered && e.result.Err? && (e.result.kind == UnexpectedEof || e.result.kind == Canceled)
  }

  /** `execute_h1`, once it has a connection */
  function TryH1(req: Request, w: Weather): Attempt
    requires w.H1?
  {
    var first := Send(req, w.first);
    if first.result.Ok? || !(w.reused && req.idempotent && Stale(first)) then Attempt(Wire(first), first.result)
    else if w.reopened.Some? then Attempt(Wire(first), Err(w.reopened.value))
    else
      var second := Send(req, w.second);
      Attempt(Wire(first) + Wire(second), second.result)
  }

  /** `send_h2_cmd` and `send_h3_cmd`: a command that was not taken is handed to one other driver. */
  function TryDriver(w: Weather): Attempt
    requires w.Driver?
  {
    if w.taken then Attempt(1, w.reply)
    else if w.reopened.Some? then Attempt(0, Err(w.reopened.value))
    else if w.takenAgain then Attempt(1, w.replyAgain)
    else Attempt(0, Err(Canceled))
  }

  function Try(req: Request, w: Weather): Attempt {
    match w
    case NoRoute(kind) => Attempt(0, Err(kind))
    case H1(_, _, _, _) => TryH1(req, w)
    case Driver(_, _, _, _, _) => TryDriver(w)
  }

  // ------------------------------------------------------------------
  // The policy
  // ------------------------------------------------------------------

  /** `should_retry` */
  predicate ShouldRetry(policy: Policy, attempt: nat, req: Request, kind: ErrorKind) {
    attempt < policy.attempts &&
    (policy.retryNonIdempotent || req.idempotent) &&
    (kind == Io || kind == UnexpectedEof || kind == Timeout || kind == Canceled)
  }

  function Min(a: nat, b: nat): nat {
    if a <= b then a else b
  }

  function Power(n: nat): (p: nat)
    ensures p >= 1
  {
    if n == 0 then 1 else 2 * Power(n - 1)
  }

  /** `backoff` */
  function Backoff(policy: Policy, attempt: nat): nat {
    var shift := Min(if attempt >= 2 then attempt - 2 else 0, 16);
    Min(policy.baseBackoff * Power(shift), policy.maxBackoff)
  }

  // ------------------------------------------------------------------
  // The loop
  // ------------------------------------------------------------------

  /** A whole call: every attempt's outcome, the pauses between them, and the result handed back. */
  datatype Trace = Trace(tries: nat, wires: nat, pauses: seq<nat>, result: Result)

  predicate Once(policy: Option<Policy>, req: Request) {
    policy.None? || policy.value.attempts <= 1 || req.body.Streaming?
  }

  /** The loop from an attempt on; `policy` is the one that is set. */
  function Loop(policy: Policy, req: Request, env: nat -> Weather, attempt: nat): Trace
    decreases policy.attempts - attempt
  {
    var a := Try(req, env(attempt));
    if a.result.Ok? || !ShouldRetry(policy, attempt, req, a.result.kind) then Trace(1, a.wires, [], a.result)
    else
      var rest := Loop(policy, req, env, attempt + 1);
      Trace(1 + rest.tries, a.wires + rest.wires, [Backoff(policy, attempt + 1)] + rest.pauses, rest.result)
  }

  function Run(policy: Option<Policy>, req: Request, env: nat -> Weather): Trace {
    if Once(policy, req) then
      var a := Try(req, env(1));
      Trace(1, a.wires, [], a.result)
    else Loop(policy.value, req, env, 1)
  }

  function After(trace: Trace, tries: nat, wires: nat, pauses: seq<nat>): Trace {
    Trace(tries + trace.tries, wires + trace.wires, pauses + trace.pauses, trace.result)
  }

  /** An attempt after which the loop goes on. */
  predicate GoesOn(policy: Policy, req: Request, env: nat -> Weather, attempt: nat) {
    var r := Try(req, env(attempt)).result;
    r.Err? && ShouldRetry(policy, attempt, req, r.kind)
  }

  lemma OneMoreTry(p: Policy, req: Request, env: nat -> Weather, attempt: nat, wires: nat, pauses: seq<nat>)
    requires attempt >= 1 && GoesOn(p, req, env, attempt)
    ensures After(Loop(p, req, env, attempt), attempt - 1, wires, pauses)
         == After(Loop(p, req, env, attempt + 1), attempt, wires + Try(req, env(attempt)).wires,
                  pauses + [Backoff(p, attempt + 1)])
  {
    var rest, pause := Loop(p, req, env, attempt + 1).pauses, [Backoff(p, attempt + 1)];
    assert pauses + (pause + rest) == pauses + pause + rest;
  }

  lemma AfterNothing(trace: Trace)
    ensures After(trace, 0, 0, []) == trace
  {
    assert [] + trace.pauses == trace.pauses;
  }

  lemma LastTry(p: Policy, req: Request, env: nat -> Weather, attempt: nat, wires: nat, pauses: seq<nat>)
    requires attempt >= 1 && !GoesOn(p, req, env, attempt)
    ensures After(Loop(p, req, env, attempt), attempt - 1, wires, pauses)
         == Trace(attempt, wires + Try(req, env(attempt)).wires, pauses, Try(req, env(attempt)).result)
  {
    assert pauses + [] == pauses;
  }

  /** `execute_with_retry` */
  method ExecuteWithRetry(policy: Option<Policy>, req: Request, env: nat -> Weather) returns (trace: Trace)
    ensures trace == Run(policy, req, env)
  {
    if Once(policy, req) {
      var a := Try(req, env(1));
      return Trace(1, a.wires, [], a.result);
    }
    var p := policy.value;
    var attempt: nat, wires: nat := 1, 0;
    var pauses: seq<nat> := [];
    AfterNothing(Loop(p, req, env, 1));
    while true
      invariant 1 <= attempt <= p.attempts
      invariant After(Loop(p, req, env, attempt), attempt - 1, wires, pauses) == Loop(p, req, env, 1)
      decreases p.attempts - attempt
    {
      var a := Try(req, env(attempt));
      if a.result.Ok? || !ShouldRetry(p, attempt, req, a.result.kind) {
        LastTry(p, req, env, attempt, wires, pauses);
        return Trace(attempt, wires + a.wires, pauses, a.result);
      }
      OneMoreTry(p, req, env, attempt, wires, pauses);
      wires := wires + a.wires;
      attempt := attempt + 1;
      pauses := pauses + [Backoff(p, attempt)];
    }
  }

  // ------------------------------------------------------------------
  // How often
  // ------------------------------------------------------------------

  lemma OneAttempt(req: Request, w: Weather)
    ensures Try(req, w).wires <= 2
    ensures !req.idempotent || req.body.Streaming? ==> Try(req, w).wires <= 1
  {
  }

  lemma {:induction false} LoopBounds(policy: Policy, req: Request, env: nat -> Weather, attempt: nat)
    requires 1 <= attempt <= policy.attempts
    ensures var t := Loop(policy, req, env, attempt);
      1 <= t.tries <= policy.attempts - attempt + 1 && t.wires <= 2 * t.tries && |t.pauses| == t.tries - 1
    ensures !req.idempotent && !policy.retryNonIdempotent ==> Loop(policy, req, env, attempt).wires <= 1
    decreases policy.attempts - attempt
  {
    var a := Try(req, env(attempt));
    OneAttempt(req, env(attempt));
    if !(a.result.Ok? || !ShouldRetry(policy, attempt, req, a.result.kind)) {
      LoopBounds(policy, req, env, attempt + 1);
    }
  }

  /** At most `attempts` tries, and at least one; each goes out at most twice. */
  lemma TriesAreBounded(policy: Option<Policy>, req: Request, env: nat -> Weather)
    ensures var t := Run(policy, req, env);
      1 <= t.tries <= (if policy.Some? && policy.value.attempts > 1 then policy.value.attempts else 1) &&
      t.wires <= 2 * t.tries && |t.pauses| == t.tries - 1
  {
    OneAttempt(req, env(1));
    if !Once(policy, req) { LoopBounds(policy.value, req, env, 1); }
  }

  /**
    A request that is not idempotent is put on the wire at most once, across the retry loop, the
    replay on a new connection and the second driver, unless the policy asks for more.
   */
  lemma AtMostOnce(policy: Option<Policy>, req: Request, env: nat -> Weather)
    requires !req.idempotent && (policy.Some? ==> !policy.value.retryNonIdempotent)
    ensures Run(policy, req, env).wires <= 1
  {
    OneAttempt(req, env(1));
    if !Once(policy, req) { LoopBounds(policy.value, req, env, 1); }
  }

  /** A streaming body is never replayed, whatever the method and the policy. */
  lemma StreamsGoOutOnce(policy: Option<Policy>, req: Request, env: nat -> Weather)
    requires req.body.Streaming?
    ensures Run(policy, req, env).wires <= 1 && Run(policy, req, env).tries == 1
  {
    OneAttempt(req, env(1));
  }

  /** The promise depends on the two conditions: an idempotent request can go out twice in one try. */
  lemma IdempotentCanGoOutTwice()
    ensures var w := H1(true, Exchange(true, false, Err(UnexpectedEof)), None, Exchange(true, true, Ok(200)));
      Run(None, Request(true, Empty), n => w) == Trace(1, 2, [], Ok(200))
  {
  }

  // ------------------------------------------------------------------
  // When it stops
  // ------------------------------------------------------------------

  lemma {:induction false} LoopStops(policy: Policy, req: Request, env: nat -> Weather, attempt: nat)
    requires 1 <= attempt <= policy.attempts
    ensures var t := Loop(policy, req, env, attempt);
      t.tries >= 1 &&
      var last := attempt + t.tries - 1;
      (forall k :: attempt <= k < last ==> GoesOn(policy, req, env, k)) &&
      !GoesOn(policy, req, env, last) && t.result == Try(req, env(last)).result
    decreases policy.attempts - attempt
  {
    if GoesOn(policy, req, env, attempt) {
      LoopStops(policy, req, env, attempt + 1);
    }
  }

  /** The result is that of the first attempt that succeeds or may not be repeated, and no other is lost. */
  lemma FirstFinalAttemptWins(policy: Policy, req: Request, env: nat -> Weather)
    requires policy.attempts > 1 && !req.body.Streaming?
    ensures var t := Run(Some(policy), req, env);
      t.tries >= 1 &&
      (forall k :: 1 <= k < t.tries ==> GoesOn(policy, req, env, k)) &&
      !GoesOn(policy, req, env, t.tries) && t.result == Try(req, env(t.tries)).result
  {
    LoopStops(policy, req, env, 1);
  }

  // ------------------------------------------------------------------
  // The pauses
  // ------------------------------------------------------------------

  lemma {:induction false} PowerGrows(a: nat, b: nat)
    requires a <= b
    ensures Power(a) <= Power(b)
    decreases b
  {
    if a < b { PowerGrows(a, b - 1); }
  }

  lemma MulGrows(x: nat, a: nat, b: nat)
    requires a <= b
    ensures x * a <= x * b
  {
  }

  lemma BackoffGrows(policy: Policy, a: nat, b: nat)
    requires a <= b
    ensures Backoff(policy, a) <= Backoff(policy, b) <= policy.maxBackoff
  {
    var i := Min(if a >= 2 then a - 2 else 0, 16);
    var j := Min(if b >= 2 then b - 2 else 0, 16);
    PowerGrows(i, j);
    MulGrows(policy.baseBackoff, Power(i), Power(j));
  }

  function Pauser(policy: Policy): nat -> nat {
    attempt => Backoff(policy, attempt)
  }

  /** The pauses are the values of `f` from `n` on. */
  predicate Follow(f: nat -> nat, pauses: seq<nat>, n: nat) {
    forall i :: 0 <= i < |pauses| ==> pauses[i] == f(n + i)
  }

  lemma FollowCons(f: nat -> nat, pauses: seq<nat>, n: nat)
    requires Follow(f, pauses, n + 1)
    ensures Follow(f, [f(n)] + pauses, n)
  {
    var all := [f(n)] + pauses;
    forall i | 0 <= i < |all| ensures all[i] == f(n + i) {
      if i > 0 { assert pauses[i - 1] == f(n + 1 + (i - 1)); }
    }
  }

  lemma {:induction false} PausesAre(policy: Policy, req: Request, env: nat -> Weather, attempt: nat)
    requires 1 <= attempt <= policy.attempts
    ensures Follow(Pauser(policy), Loop(policy, req, env, attempt).pauses, attempt + 1)
    decreases policy.attempts - attempt
  {
    if GoesOn(policy, req, env, attempt) {
      PausesAre(policy, req, env, attempt + 1);
      FollowCons(Pauser(policy), Loop(policy, req, env, attempt + 1).pauses, attempt + 1);
    }
  }

  lemma FollowOrdered(f: nat -> nat, pauses: seq<nat>, n: nat, max: nat)
    requires Follow(f, pauses, n) && forall a: nat, b: nat :: a <= b ==> f(a) <= f(b) <= max
    ensures forall i, j :: 0 <= i <= j < |pauses| ==> pauses[i] <= pauses[j] <= max
  {
    forall i, j | 0 <= i <= j < |pauses| ensures pauses[i] <= pauses[j] <= max {
      assert f(n + i) <= f(n + j) <= max;
    }
  }

  /** The pauses never shrink and never pass the ceiling; the first is the base, within the ceiling. */
  lemma PausesGrowToTheCeiling(policy: Policy, req: Request, env: nat -> Weather)
    requires policy.attempts > 1 && !req.body.Streaming?
    ensures var pauses := Run(Some(policy), req, env).pauses;
      (forall i, j :: 0 <= i <= j < |pauses| ==> pauses[i] <= pauses[j] <= policy.maxBackoff) &&
      (pauses != [] ==> pauses[0] == Min(policy.baseBackoff, policy.maxBackoff))
  {
    PausesAre(policy, req, env, 1);
    var pauses := Run(Some(policy), req, env).pauses;
    forall a: nat, b: nat | a <= b ensures Pauser(policy)(a) <= Pauser(policy)(b) <= policy.maxBackoff {
      BackoffGrows(policy, a, b);
    }
    FollowOrdered(Pauser(policy), pauses, 2, policy.maxBackoff);
    FirstBackoff(policy);
    assert pauses != [] ==> pauses[0] == Pauser(policy)(2 + 0);
  }

  lemma FirstBackoff(policy: Policy)
    ensures Backoff(policy, 2) == Min(policy.baseBackoff, policy.maxBackoff)
  {
    assert Power(0) == 1;
    assert policy.baseBackoff * 1 == policy.baseBackoff;
  }
}
