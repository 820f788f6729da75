/**
  The main results about the HTTP/2 driver, each for every run from `Start`.
 */
module DriverTheorems {
  import opened StreamLife
  import opened DriverSpec
  import opened DriverLaws
  import opened DriverDemux

  // ------------------------------------------------------------------
  // No reply lost or duplicated
  // ------------------------------------------------------------------

  /**
    Every received request carries at most one reply. Its reply sender is alive
    exactly while it is queued or pending and unanswered, never both, and no
    sender survives the driver.
   */
  lemma RepliesAreAccountedFor(
    upgraded: bool, now: Instant, limit: nat, ps: seq<Pass>, env: Env, cfg: Config, id: RequestId)
    requires id < |Run(Start(upgraded, now, limit, cfg.limits), ps, env, cfg).mail|
    ensures var d := Run(Start(upgraded, now, limit, cfg.limits), ps, env, cfg);
            && |d.mail[id].replies| <= 1
            && (d.mail[id].replyOpen ==> d.mail[id].replies == [])
            && (d.mail[id].replyOpen ==> Waiting(d.deferred, id) != InFlight(d.pending, id))
            && (Waiting(d.deferred, id) ==> d.mail[id].replyOpen && !InFlight(d.pending, id))
            && (InFlight(d.pending, id) <==> d.mail[id].bodyOpen)
            && (!d.running ==> !d.mail[id].replyOpen && !d.mail[id].bodyOpen)
  {
    var d0 := Start(upgraded, now, limit, cfg.limits);
    StartHolds(upgraded, now, limit, cfg.limits);
    RunLaw(d0, ps, env, cfg);
    var d := Run(d0, ps, env, cfg);
    if Waiting(d.deferred, id) {
      var i :| 0 <= i < |d.deferred| && d.deferred[i].id == id;
      assert d.mail[id] == Unopened;
    }
  }

  // ------------------------------------------------------------------
  // First come, first opened
  // ------------------------------------------------------------------

  /**
    Streams open in the order their commands were received, whatever was
    deferred in between; queued commands all arrived after the opened ones; the
    queue is bounded; and commands are received only when nothing is queued or
    the stream limit is reached.
   */
  lemma OpeningOrder(upgraded: bool, now: Instant, limit: nat, ps: seq<Pass>, env: Env, cfg: Config)
    ensures var d0 := Start(upgraded, now, limit, cfg.limits);
            var d := Run(d0, ps, env, cfg);
            && (forall i, j :: 0 <= i < j < |d.openings| ==>
                  d.openings[i].id < d.openings[j].id && d.openings[i].sid < d.openings[j].sid)
            && (forall i, j :: 0 <= i < |d.openings| && 0 <= j < |d.deferred| ==> d.openings[i].id < d.deferred[j].id)
            && (forall i, j :: 0 <= i < j < |d.deferred| ==> d.deferred[i].id < d.deferred[j].id)
            && |d.deferred| <= MAX_DEFERRED
            && Legal(d0, RunSteps(d0, ps, env, cfg), env, cfg.limits)
            && d == Exec(d0, RunSteps(d0, ps, env, cfg), env, cfg.limits)
  {
    StartHolds(upgraded, now, limit, cfg.limits);
    RunLaw(Start(upgraded, now, limit, cfg.limits), ps, env, cfg);
  }

  /** A step that opens streams leaves at most `limit` of them pending. */
  lemma OpeningNeedsRoom(d: Driver, step: Step, env: Env, lim: Limits)
    requires Next(d, step, env, lim).openings != d.openings
    ensures var d' := Next(d, step, env, lim); d'.limit == d.limit && (d.limit == 0 || |d'.pending| <= d.limit)
  {
    if step.Receive? && !step.cmd.Shutdown? {
      HandleRoom(d.(mail := d.mail + [Unopened]), Ticket(|d.mail|, step.cmd), env, lim);
    } else if step.Retry? {
      RetryRoom(d, env, lim);
    }
  }

  lemma OpenRoom(d: Driver, t: Ticket, env: Env, lim: Limits)
    requires !t.cmd.Shutdown?
    ensures var d' := Open(d, t, env, lim);
            && d'.limit == d.limit
            && (d'.openings != d.openings ==> d'.pending.Keys == d.pending.Keys + {d.nextSid})
            && (d'.openings == d.openings ==> d'.pending == d.pending)
  {
  }

  lemma HandleRoom(d: Driver, t: Ticket, env: Env, lim: Limits)
    requires !t.cmd.Shutdown?
    ensures var d' := Handle(d, t, env, lim);
            && d'.limit == d.limit
            && (d'.openings != d.openings ==> !LimitReached(d) && |d'.pending| <= |d.pending| + 1)
            && (d'.openings == d.openings ==> d'.pending == d.pending)
  {
    OpenRoom(d, t, env, lim);
    var d' := Handle(d, t, env, lim);
    assert |d'.pending| == |d'.pending.Keys| && |d.pending| == |d.pending.Keys|;
  }

  lemma {:induction false} RetryRoom(d: Driver, env: Env, lim: Limits)
    ensures var d' := RetryDeferred(d, env, lim);
            && d'.limit == d.limit
            && (d'.openings == d.openings ==> d'.pending == d.pending)
            && (d'.openings != d.openings ==> d.limit == 0 || |d'.pending| <= d.limit)
            && d.openings <= d'.openings
    decreases |d.deferred|
  {
    if d.deferred != [] && !LimitReached(d) && !d.deferred[0].cmd.Shutdown? {
      var t := d.deferred[0];
      var rest := d.(deferred := d.deferred[1..]);
      HandleRoom(rest, t, env, lim);
      var d1 := Handle(rest, t, env, lim);
      assert d.openings <= d1.openings;
      RetryRoom(d1, env, lim);
    }
  }

  /** Once the peer said GOAWAY, nothing opens for the rest of the run. */
  lemma {:induction false} NothingOpensAfterGoAway(d: Driver, steps: seq<Step>, env: Env, lim: Limits)
    requires d.goaway
    ensures Exec(d, steps, env, lim).goaway
    ensures Exec(d, steps, env, lim).openings == d.openings
  {
    if steps != [] {
      var n := |steps| - 1;
      NothingOpensAfterGoAway(d, steps[..n], env, lim);
      GoAwayStep(Exec(d, steps[..n], env, lim), steps[n], env, lim);
    }
  }

  lemma GoAwayStep(d: Driver, step: Step, env: Env, lim: Limits)
    requires d.goaway
    ensures Next(d, step, env, lim).goaway && Next(d, step, env, lim).openings == d.openings
  {
    match step
    case Retry => GoAwayRetry(d, env, lim);
    case _ =>
  }

  lemma {:induction false} GoAwayRetry(d: Driver, env: Env, lim: Limits)
    requires d.goaway
    ensures RetryDeferred(d, env, lim).goaway && RetryDeferred(d, env, lim).openings == d.openings
    decreases |d.deferred|
  {
    if d.deferred != [] && !LimitReached(d) && !d.deferred[0].cmd.Shutdown? {
      GoAwayRetry(Handle(d.(deferred := d.deferred[1..]), d.deferred[0], env, lim), env, lim);
    }
  }

  // ------------------------------------------------------------------
  // What a caller receives
  // ------------------------------------------------------------------

  /**
    In every run, every stream the driver opened has the mailbox that the
    closed form of `StreamLife` assigns to the stimuli addressed to it since the
    step that opened it, with the deadline it was opened with; no other stream,
    command or caller has any influence on it.
   */
  lemma EveryStreamTellsItsOwnStory(upgraded: bool, now: Instant, limit: nat, ps: seq<Pass>, env: Env, cfg: Config, i: nat)
    requires i < |Run(Start(upgraded, now, limit, cfg.limits), ps, env, cfg).openings|
    ensures var d0 := Start(upgraded, now, limit, cfg.limits);
            Told(d0, RunSteps(d0, ps, env, cfg), Run(d0, ps, env, cfg).openings[i], env, cfg.limits)
  {
    var d0 := Start(upgraded, now, limit, cfg.limits);
    StartHolds(upgraded, now, limit, cfg.limits);
    RunLaw(d0, ps, env, cfg);
    if upgraded {
      assert View(d0, 1, 0) == Born(0, d0.pending[1].deadline);
    }
    StoryLaw(d0, RunSteps(d0, ps, env, cfg), env, cfg.limits);
  }

  /** What a caller got is the truth about its stream since step `k` opened it. */
  ghost predicate TruthSince(d0: Driver, steps: seq<Step>, o: Opening, k: nat, env: Env, lim: Limits) {
    && BornAt(d0, steps, o, k, env, lim)
    && Truthful(Box(Exec(d0, steps, env, lim).mail, o.id), FirstDeadline(d0, steps, o, k, env, lim),
                Project(steps[k..], o.sid), lim)
  }

  /**
    For every stream of every run: at most one reply and at most `max_body`
    bytes reach the caller; a streaming body that closes without a fault was
    ended by the peer and holds all of its DATA since the opening; and a stopped
    stream left its caller without a reply only if the peer ended it before
    sending a head.
   */
  lemma CallersAreToldTheTruth(
    upgraded: bool, now: Instant, limit: nat, ps: seq<Pass>, env: Env, cfg: Config, i: nat)
    requires i < |Run(Start(upgraded, now, limit, cfg.limits), ps, env, cfg).openings|
    ensures var d0 := Start(upgraded, now, limit, cfg.limits);
            var o := Run(d0, ps, env, cfg).openings[i];
            exists k: nat :: TruthSince(d0, RunSteps(d0, ps, env, cfg), o, k, env, cfg.limits)
  {
    var d0, lim := Start(upgraded, now, limit, cfg.limits), cfg.limits;
    var o := Run(d0, ps, env, cfg).openings[i];
    var steps := RunSteps(d0, ps, env, cfg);
    EveryStreamTellsItsOwnStory(upgraded, now, limit, ps, env, cfg, i);
    var k: nat :| ToldSince(d0, steps, o, k, env, lim);
    EveryMailboxIsTruthful(o.id, FirstDeadline(d0, steps, o, k, env, lim), Project(steps[k..], o.sid), lim);
    assert TruthSince(d0, steps, o, k, env, lim);
  }
}
