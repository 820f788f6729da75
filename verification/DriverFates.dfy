/**
  What becomes of every request the HTTP/2 driver receives: for every run, each is in
  exactly one of five situations, and none of them loses a reply unnoticed.
 */
module DriverFates {
  import opened Basics
  import opened StreamLife
  import opened Liveness
  import opened DriverSpec
  import opened DriverLaws
  import opened DriverDemux

  // ------------------------------------------------------------------
  // A request without a stream is queued or answered
  // ------------------------------------------------------------------

  ghost predicate EverOpened(d: Driver, id: RequestId) {
    exists i :: 0 <= i < |d.openings| && d.openings[i].id == id
  }

  /** The request got a stream, waits for one, or has its reply. */
  ghost predicate Served(d: Driver, id: RequestId) {
    id < |d.mail| && (EverOpened(d, id) || Waiting(d.deferred, id) || |d.mail[id].replies| == 1)
  }

  /** Nothing a request has got is taken back, except perhaps its place in the queue. */
  ghost predicate Kept(d: Driver, d': Driver) {
    && |d.mail| <= |d'.mail| && d.openings <= d'.openings
    && forall id :: 0 <= id < |d.mail| && |d.mail[id].replies| == 1 ==> |d'.mail[id].replies| == 1
  }

  lemma KeptServes(d: Driver, d': Driver, id: RequestId)
    requires Kept(d, d') && Served(d, id)
    requires Waiting(d.deferred, id) ==> Served(d', id)
    ensures Served(d', id)
  {
    if EverOpened(d, id) {
      var i :| 0 <= i < |d.openings| && d.openings[i].id == id;
      assert d'.openings[i].id == id;
    }
  }

  lemma WaitingAt(queue: seq<Ticket>, i: nat)
    requires i < |queue|
    ensures Waiting(queue, queue[i].id)
  {
  }

  /** Handling a request opens it, queues it or answers it. */
  lemma HandleServes(d: Driver, t: Ticket, env: Env, lim: Limits)
    requires t.id < |d.mail| && d.mail[t.id] == Unopened && !t.cmd.Shutdown?
    ensures Served(Handle(d, t, env, lim), t.id)
  {
    var d' := Handle(d, t, env, lim);
    if d'.openings != d.openings {
      var b, dl := HandleShape(d, t, env, lim);
      assert d'.openings[|d.openings|].id == t.id;
    } else if d'.deferred != d.deferred {
      WaitingAt(d'.deferred, |d.deferred|);
    }
  }

  lemma HandleKept(d: Driver, t: Ticket, env: Env, lim: Limits)
    requires t.id < |d.mail| && d.mail[t.id] == Unopened && !t.cmd.Shutdown?
    ensures Kept(d, Handle(d, t, env, lim)) && d.deferred <= Handle(d, t, env, lim).deferred
  {
    var b, dl := HandleShape(d, t, env, lim);
  }

  lemma PrefixWaits(a: seq<Ticket>, b: seq<Ticket>, id: RequestId)
    requires a <= b && Waiting(a, id)
    ensures Waiting(b, id)
  {
    var i :| 0 <= i < |a| && a[i].id == id;
    assert b[i].id == id;
  }

  lemma TakeServes(d: Driver, cmd: Cmd, env: Env, lim: Limits, id: RequestId)
    requires Inv(d) && id < |Take(d, cmd, env, lim).mail| && (id < |d.mail| ==> Served(d, id))
    ensures Served(Take(d, cmd, env, lim), id)
  {
    if !cmd.Shutdown? {
      var d1 := d.(mail := d.mail + [Unopened]);
      var t := Ticket(|d.mail|, cmd);
      HandleServes(d1, t, env, lim);
      HandleKept(d1, t, env, lim);
      if id < |d.mail| {
        var d' := Take(d, cmd, env, lim);
        if Waiting(d.deferred, id) { PrefixWaits(d.deferred, d'.deferred, id); }
        KeptServes(d1, d', id);
      }
    }
  }

  lemma RetryOneServes(d: Driver, env: Env, lim: Limits, id: RequestId)
    requires Inv(d) && d.deferred != [] && !LimitReached(d) && Served(d, id)
    ensures Served(RetryOne(d, env, lim), id)
  {
    var rest, t := d.(deferred := d.deferred[1..]), d.deferred[0];
    var d' := RetryOne(d, env, lim);
    HandleServes(rest, t, env, lim);
    HandleKept(rest, t, env, lim);
    if Waiting(d.deferred, id) && id != t.id {
      var i :| 0 <= i < |d.deferred| && d.deferred[i].id == id;
      WaitingAt(rest.deferred, i - 1);
      PrefixWaits(rest.deferred, d'.deferred, id);
    }
    KeptServes(d, d', id);
  }

  lemma {:induction false} RetryServes(d: Driver, env: Env, lim: Limits, id: RequestId)
    requires Inv(d) && Served(d, id)
    ensures Served(RetryDeferred(d, env, lim), id)
    decreases |d.deferred|
  {
    if d.deferred != [] && !LimitReached(d) {
      RetryOneServes(d, env, lim, id);
      RetryOneKeeps(d, env, lim);
      RetryServes(RetryOne(d, env, lim), env, lim, id);
      assert RetryDeferred(d, env, lim) == RetryDeferred(RetryOne(d, env, lim), env, lim);
    }
  }

  lemma RetryOneMail(d: Driver, env: Env, lim: Limits)
    requires d.deferred != [] && !d.deferred[0].cmd.Shutdown?
    ensures |RetryOne(d, env, lim).mail| == |d.mail|
  {
  }

  lemma {:induction false} RetryMail(d: Driver, env: Env, lim: Limits)
    requires Inv(d)
    ensures |RetryDeferred(d, env, lim).mail| == |d.mail|
    decreases |d.deferred|
  {
    if d.deferred != [] && !LimitReached(d) {
      RetryOneKeeps(d, env, lim);
      RetryOneMail(d, env, lim);
      RetryMail(RetryOne(d, env, lim), env, lim);
      assert RetryDeferred(d, env, lim) == RetryDeferred(RetryOne(d, env, lim), env, lim);
    }
  }

  lemma KillKept(d: Driver, sids: set<StreamId>, e: Error)
    requires Inv(d)
    ensures Kept(d, KillAll(d, sids, e))
  {
  }

  lemma TouchKept(d: Driver, sid: StreamId, x: Stimulus, lim: Limits)
    requires Inv(d) && sid in d.pending
    ensures Kept(d, Touch(d, sid, x, lim)) && Touch(d, sid, x, lim).deferred == d.deferred
  {
    var e := d.pending[sid];
    ReactKept(e, d.mail[e.id], x, lim);
  }

  lemma ReactKept(e: Entry, b: Mailbox, x: Stimulus, lim: Limits)
    requires BoxLaw(b)
    ensures |b.replies| == 1 ==> |React(Live(e, b), x, lim).box.replies| == 1
  {
  }

  lemma DispatchKept(d: Driver, ev: Event, now: Instant, lim: Limits)
    requires Inv(d)
    ensures Kept(d, DispatchEvent(d, ev, now, lim)) && DispatchEvent(d, ev, now, lim).deferred == d.deferred
    ensures |DispatchEvent(d, ev, now, lim).mail| == |d.mail|
  {
    match ev
    case OtherEv =>
    case GoAwayEv(code, last) => GoAwayKept(d, code, last, now, lim);
    case _ =>
      if ev.sid in d.pending {
        TouchKept(d, ev.sid, EventStimulus(ev, now, ev.sid).value, lim);
      }
  }

  lemma GoAwayKept(d: Driver, code: nat, last: StreamId, now: Instant, lim: Limits)
    requires Inv(d)
    ensures var d' := DispatchEvent(d, GoAwayEv(code, last), now, lim);
            Kept(d, d') && d'.deferred == d.deferred && |d'.mail| == |d.mail|
  {
    KillKept(d.(goaway := true, accepting := false), SidsAbove(d, last), Peer(code));
  }

  /** A step that neither commands nor cleans up keeps replies, openings and the queue. */
  lemma OtherStepKept(d: Driver, step: Step, env: Env, lim: Limits)
    requires Inv(d) && !step.Receive? && !step.Retry? && !step.Cleanup?
    ensures var d' := Next(d, step, env, lim); Kept(d, d') && d'.deferred == d.deferred && |d'.mail| == |d.mail|
  {
    match step
    case Dispatch(ev, now) => DispatchKept(d, ev, now, lim);
    case Expire(now) => KillKept(d, ExpiredSids(d, now), TimedOut);
    case Fail(e) => KillKept(d.(accepting := false), d.pending.Keys, e);
    case _ =>
  }

  /** Cleanup answers what is pending; what is queued it only hangs up on. */
  lemma CleanupKept(d: Driver, env: Env, lim: Limits)
    requires Inv(d)
    ensures Kept(d, Next(d, Cleanup, env, lim)) && |Next(d, Cleanup, env, lim).mail| == |d.mail|
  {
    var d1 := d.(running := false);
    KillKept(d1, d1.pending.Keys, Canceled);
  }

  lemma StepServes(d: Driver, step: Step, env: Env, lim: Limits, id: RequestId)
    requires Inv(d) && id < |Next(d, step, env, lim).mail| && (id < |d.mail| ==> Served(d, id))
    ensures Served(Next(d, step, env, lim), id) || (step.Cleanup? && Waiting(d.deferred, id))
  {
    var d' := Next(d, step, env, lim);
    if step.Receive? {
      TakeServes(d, step.cmd, env, lim, id);
    } else if step.Retry? {
      RetryMail(d, env, lim);
      RetryServes(d, env, lim, id);
    } else if step.Cleanup? {
      CleanupKept(d, env, lim);
      if !Waiting(d.deferred, id) { KeptServes(d, d', id); }
    } else {
      OtherStepKept(d, step, env, lim);
      KeptServes(d, d', id);
    }
  }

  /** The request was still queued when the driver cleaned up at step `j`. */
  ghost predicate DroppedAt(d0: Driver, steps: seq<Step>, id: RequestId, j: nat, env: Env, lim: Limits) {
    j < |steps| && steps[j] == Cleanup && Waiting(Exec(d0, steps[..j], env, lim).deferred, id)
  }

  ghost predicate Dropped(d0: Driver, steps: seq<Step>, id: RequestId, env: Env, lim: Limits) {
    exists j: nat :: DroppedAt(d0, steps, id, j, env, lim)
  }

  lemma DroppedStays(d0: Driver, steps: seq<Step>, step: Step, id: RequestId, env: Env, lim: Limits)
    requires Dropped(d0, steps, id, env, lim)
    ensures Dropped(d0, steps + [step], id, env, lim)
  {
    var j: nat :| DroppedAt(d0, steps, id, j, env, lim);
    assert (steps + [step])[..j] == steps[..j];
    assert DroppedAt(d0, steps + [step], id, j, env, lim);
  }

  lemma OneMoreStep(d0: Driver, before: seq<Step>, step: Step, env: Env, lim: Limits, id: RequestId)
    requires Inv(Exec(d0, before, env, lim)) && id < |Exec(d0, before + [step], env, lim).mail|
    requires id < |Exec(d0, before, env, lim).mail| ==>
               Served(Exec(d0, before, env, lim), id) || Dropped(d0, before, id, env, lim)
    ensures Served(Exec(d0, before + [step], env, lim), id) || Dropped(d0, before + [step], id, env, lim)
  {
    var steps, n := before + [step], |before|;
    assert steps[..n] == before;
    var d := Exec(d0, before, env, lim);
    if Dropped(d0, before, id, env, lim) {
      DroppedStays(d0, before, step, id, env, lim);
    } else {
      StepServes(d, step, env, lim, id);
      if !Served(Exec(d0, steps, env, lim), id) {
        assert DroppedAt(d0, steps, id, n, env, lim);
      }
    }
  }

  /** No request falls through: each was opened, is queued, has its reply, or was dropped by the cleanup. */
  lemma {:induction false} NobodyFallsThrough(d0: Driver, steps: seq<Step>, env: Env, lim: Limits, id: RequestId)
    requires Inv(d0) && Legal(d0, steps, env, lim) && id < |Exec(d0, steps, env, lim).mail|
    requires forall i :: 0 <= i < |d0.mail| ==> Served(d0, i)
    ensures Served(Exec(d0, steps, env, lim), id) || Dropped(d0, steps, id, env, lim)
  {
    if steps != [] {
      var before, step := steps[..|steps| - 1], steps[|steps| - 1];
      assert steps == before + [step];
      LegalSplit(d0, before, [step], env, lim);
      ExecKeeps(d0, before, env, lim);
      var d := Exec(d0, before, env, lim);
      if id < |d.mail| {
        NobodyFallsThrough(d0, before, env, lim, id);
      }
      OneMoreStep(d0, before, step, env, lim, id);
    }
  }

  // ------------------------------------------------------------------
  // A request that is queued at the end is hung up for good
  // ------------------------------------------------------------------

  /** Nobody works on the request any more: it never had a stream and never got a reply. */
  ghost predicate HungUp(d: Driver, id: RequestId) {
    && id < |d.mail| && d.mail[id].replies == [] && !d.mail[id].replyOpen
    && !Waiting(d.deferred, id) && !InFlight(d.pending, id) && !EverOpened(d, id)
  }

  lemma CleanupHangsUp(d: Driver, env: Env, lim: Limits, id: RequestId)
    requires Inv(d) && Waiting(d.deferred, id)
    ensures HungUp(Next(d, Cleanup, env, lim), id)
  {
    var i :| 0 <= i < |d.deferred| && d.deferred[i].id == id;
    assert d.deferred[i] in d.deferred;
    assert forall j :: 0 <= j < |d.openings| ==> d.openings[j].id < id;
    var killed := KillAll(d.(running := false), d.pending.Keys, Canceled);
    assert id !in IdsOf(d.pending, d.pending.Keys);
    assert killed.mail[id] == Unopened;
  }

  /** What a step may do without touching the request. */
  ghost predicate Spares(d: Driver, d': Driver, id: RequestId) {
    && id < |d.mail| <= |d'.mail| && d'.mail[id] == d.mail[id]
    && (Waiting(d'.deferred, id) ==> Waiting(d.deferred, id))
    && (InFlight(d'.pending, id) ==> InFlight(d.pending, id))
    && (EverOpened(d', id) ==> EverOpened(d, id))
  }

  lemma KillSpares(d: Driver, sids: set<StreamId>, e: Error, id: RequestId)
    requires id < |d.mail| && !InFlight(d.pending, id)
    ensures Spares(d, KillAll(d, sids, e), id)
  {
  }

  lemma DropSpares(d: Driver, id: RequestId)
    requires id < |d.mail| && !Waiting(d.deferred, id)
    ensures Spares(d, DropDeferred(d), id)
  {
    assert forall i :: 0 <= i < |d.deferred| ==> d.deferred[i].id != id;
  }

  lemma TouchSpares(d: Driver, sid: StreamId, x: Stimulus, lim: Limits, id: RequestId)
    requires sid in d.pending && id < |d.mail| && !InFlight(d.pending, id)
    ensures Spares(d, Touch(d, sid, x, lim), id)
  {
    var e := d.pending[sid];
    assert e.id != id;
    ReactId(e, Box(d.mail, e.id), x, lim);
  }

  lemma HandleSpares(d: Driver, t: Ticket, env: Env, lim: Limits, id: RequestId)
    requires t.id < |d.mail| && d.mail[t.id] == Unopened && !t.cmd.Shutdown? && id < |d.mail| && id != t.id
    ensures Spares(d, Handle(d, t, env, lim), id)
  {
    var b, dl := HandleShape(d, t, env, lim);
    HandleQueue(d, t, env, lim);
    var d' := Handle(d, t, env, lim);
    if InFlight(d'.pending, id) {
      var s :| s in d'.pending && d'.pending[s].id == id;
      assert s in d.pending && d.pending[s].id == id;
    }
    if EverOpened(d', id) {
      var i :| 0 <= i < |d'.openings| && d'.openings[i].id == id;
      assert d.openings[i].id == id;
    }
  }

  lemma HandleQueue(d: Driver, t: Ticket, env: Env, lim: Limits)
    requires !t.cmd.Shutdown?
    ensures Handle(d, t, env, lim).deferred == d.deferred || Handle(d, t, env, lim).deferred == d.deferred + [t]
  {
  }

  lemma SparedStaysDown(d: Driver, d': Driver, id: RequestId)
    requires HungUp(d, id) && Spares(d, d', id)
    ensures HungUp(d', id)
  {
  }

  lemma TakeLeaves(d: Driver, cmd: Cmd, env: Env, lim: Limits, id: RequestId)
    requires Inv(d) && HungUp(d, id)
    ensures HungUp(Take(d, cmd, env, lim), id)
  {
    if !cmd.Shutdown? {
      var d1 := d.(mail := d.mail + [Unopened]);
      HandleSpares(d1, Ticket(|d.mail|, cmd), env, lim, id);
      SparedStaysDown(d1, Take(d, cmd, env, lim), id);
    }
  }

  lemma RetryOneLeaves(d: Driver, env: Env, lim: Limits, id: RequestId)
    requires Inv(d) && d.deferred != [] && !LimitReached(d) && HungUp(d, id)
    ensures HungUp(RetryOne(d, env, lim), id)
  {
    var rest, t := d.(deferred := d.deferred[1..]), d.deferred[0];
    WaitingAt(d.deferred, 0);
    assert forall i :: 0 <= i < |rest.deferred| ==> rest.deferred[i] == d.deferred[i + 1];
    HandleSpares(rest, t, env, lim, id);
    SparedStaysDown(rest, RetryOne(d, env, lim), id);
  }

  lemma {:induction false} RetryLeaves(d: Driver, env: Env, lim: Limits, id: RequestId)
    requires Inv(d) && HungUp(d, id)
    ensures HungUp(RetryDeferred(d, env, lim), id)
    decreases |d.deferred|
  {
    if d.deferred != [] && !LimitReached(d) {
      RetryOneLeaves(d, env, lim, id);
      RetryOneKeeps(d, env, lim);
      RetryLeaves(RetryOne(d, env, lim), env, lim, id);
      assert RetryDeferred(d, env, lim) == RetryDeferred(RetryOne(d, env, lim), env, lim);
    }
  }

  lemma DispatchLeaves(d: Driver, ev: Event, now: Instant, lim: Limits, id: RequestId)
    requires HungUp(d, id)
    ensures HungUp(DispatchEvent(d, ev, now, lim), id)
  {
    match ev
    case OtherEv =>
    case GoAwayEv(code, last) =>
      KillSpares(d.(goaway := true, accepting := false), SidsAbove(d, last), Peer(code), id);
    case _ =>
      if ev.sid in d.pending {
        TouchSpares(d, ev.sid, EventStimulus(ev, now, ev.sid).value, lim, id);
      }
  }

  lemma CleanupLeaves(d: Driver, env: Env, lim: Limits, id: RequestId)
    requires HungUp(d, id)
    ensures HungUp(Next(d, Cleanup, env, lim), id)
  {
    var d1 := d.(running := false);
    KillSpares(d1, d.pending.Keys, Canceled, id);
    DropSpares(KillAll(d1, d.pending.Keys, Canceled), id);
  }

  lemma StepLeaves(d: Driver, step: Step, env: Env, lim: Limits, id: RequestId)
    requires Inv(d) && HungUp(d, id)
    ensures HungUp(Next(d, step, env, lim), id)
  {
    match step
    case Receive(cmd) => TakeLeaves(d, cmd, env, lim, id);
    case Retry => RetryLeaves(d, env, lim, id);
    case Dispatch(ev, now) => DispatchLeaves(d, ev, now, lim, id);
    case Expire(now) => KillSpares(d, ExpiredSids(d, now), TimedOut, id);
    case Fail(e) => KillSpares(d.(accepting := false), d.pending.Keys, e, id);
    case Cleanup => CleanupLeaves(d, env, lim, id);
    case _ =>
  }

  /** Whatever follows, a request that was queued at a cleanup has no stream and no reply. */
  lemma {:induction false} DroppedIsHungUp(d0: Driver, steps: seq<Step>, id: RequestId, j: nat, env: Env, lim: Limits)
    requires Inv(d0) && Legal(d0, steps, env, lim) && DroppedAt(d0, steps, id, j, env, lim)
    ensures HungUp(Exec(d0, steps, env, lim), id)
  {
    var n := |steps| - 1;
    var before := steps[..n];
    assert steps == before + [steps[n]];
    LegalSplit(d0, before, [steps[n]], env, lim);
    ExecKeeps(d0, before, env, lim);
    if j < n {
      assert before[..j] == steps[..j];
      DroppedIsHungUp(d0, before, id, j, env, lim);
      StepLeaves(Exec(d0, before, env, lim), steps[n], env, lim, id);
    } else {
      CleanupHangsUp(Exec(d0, before, env, lim), env, lim, id);
    }
  }

  // ------------------------------------------------------------------
  // Streams in flight were opened
  // ------------------------------------------------------------------

  ghost predicate PendingOpened(d: Driver) {
    forall sid :: sid in d.pending ==> Opening(sid, d.pending[sid].id) in d.openings
  }

  lemma HandleOpened(d: Driver, t: Ticket, env: Env, lim: Limits)
    requires PendingOpened(d) && t.id < |d.mail| && d.mail[t.id] == Unopened && !t.cmd.Shutdown?
    ensures PendingOpened(Handle(d, t, env, lim))
  {
    var b, dl := HandleShape(d, t, env, lim);
  }

  lemma {:induction false} RetryOpened(d: Driver, env: Env, lim: Limits)
    requires Inv(d) && PendingOpened(d)
    ensures PendingOpened(RetryDeferred(d, env, lim))
    decreases |d.deferred|
  {
    if d.deferred != [] && !LimitReached(d) {
      HandleOpened(d.(deferred := d.deferred[1..]), d.deferred[0], env, lim);
      RetryOneKeeps(d, env, lim);
      RetryOpened(RetryOne(d, env, lim), env, lim);
      assert RetryDeferred(d, env, lim) == RetryDeferred(RetryOne(d, env, lim), env, lim);
    }
  }

  lemma StepOpened(d: Driver, step: Step, env: Env, lim: Limits)
    requires Inv(d) && PendingOpened(d)
    ensures PendingOpened(Next(d, step, env, lim))
  {
    if step.Receive? && !step.cmd.Shutdown? {
      HandleOpened(d.(mail := d.mail + [Unopened]), Ticket(|d.mail|, step.cmd), env, lim);
    } else if step.Retry? {
      RetryOpened(d, env, lim);
    } else if step.Dispatch? {
      DispatchOpened(d, step.ev, step.now, lim);
    }
  }

  lemma DispatchOpened(d: Driver, ev: Event, now: Instant, lim: Limits)
    requires Inv(d) && PendingOpened(d)
    ensures PendingOpened(DispatchEvent(d, ev, now, lim))
  {
    match ev
    case OtherEv =>
    case GoAwayEv(code, last) =>
    case _ =>
      if ev.sid in d.pending {
        TouchOpened(d, ev.sid, EventStimulus(ev, now, ev.sid).value, lim);
      }
  }

  lemma TouchOpened(d: Driver, sid: StreamId, x: Stimulus, lim: Limits)
    requires PendingOpened(d) && sid in d.pending
    ensures PendingOpened(Touch(d, sid, x, lim))
  {
    var e := d.pending[sid];
    ReactId(e, Box(d.mail, e.id), x, lim);
  }

  lemma ReactId(e: Entry, b: Mailbox, x: Stimulus, lim: Limits)
    ensures var s := React(Live(e, b), x, lim); s.Live? ==> s.entry.id == e.id
  {
  }

  lemma {:induction false} RunOpened(d0: Driver, steps: seq<Step>, env: Env, lim: Limits)
    requires Inv(d0) && Legal(d0, steps, env, lim) && PendingOpened(d0)
    ensures PendingOpened(Exec(d0, steps, env, lim))
  {
    if steps != [] {
      var n := |steps| - 1;
      assert steps == steps[..n] + [steps[n]];
      LegalSplit(d0, steps[..n], [steps[n]], env, lim);
      ExecKeeps(d0, steps[..n], env, lim);
      RunOpened(d0, steps[..n], env, lim);
      StepOpened(Exec(d0, steps[..n], env, lim), steps[n], env, lim);
    }
  }

  // ------------------------------------------------------------------
  // The five fates
  // ------------------------------------------------------------------

  ghost predicate Queued(d: Driver, id: RequestId) {
    Waiting(d.deferred, id)
  }

  ghost predicate Unanswered(d: Driver, id: RequestId) {
    InFlight(d.pending, id) && Box(d.mail, id).replies == []
  }

  ghost predicate Replied(d: Driver, id: RequestId) {
    |Box(d.mail, id).replies| == 1
  }

  /** The peer ended the response before any head. */
  ghost predicate HeadlessEnd(start: Option<Instant>, xs: seq<Stimulus>, lim: Limits) {
    exists j :: 0 <= j < |xs| && Lives(start, xs[..j], lim) && FirstHead(xs[..j]).None? && PeerEnds(xs[..j], xs[j], lim)
  }

  ghost predicate HeadlessSince(d0: Driver, steps: seq<Step>, o: Opening, k: nat, env: Env, lim: Limits) {
    ToldSince(d0, steps, o, k, env, lim) && HeadlessEnd(FirstDeadline(d0, steps, o, k, env, lim), Project(steps[k..], o.sid), lim)
  }

  /** The request's stream was opened, and the peer ended it before any head. */
  ghost predicate EndedHeadless(d0: Driver, steps: seq<Step>, id: RequestId, env: Env, lim: Limits) {
    exists o: Opening, k: nat :: o.id == id && o in Exec(d0, steps, env, lim).openings && HeadlessSince(d0, steps, o, k, env, lim)
  }

  /** The driver has ended, and the request was in the queue when it did. */
  ghost predicate LeftBehind(d0: Driver, steps: seq<Step>, id: RequestId, env: Env, lim: Limits) {
    !Exec(d0, steps, env, lim).running && Dropped(d0, steps, id, env, lim)
  }

  ghost predicate ExactlyOne(a: bool, b: bool, c: bool, d: bool, e: bool) {
    && (a || b || c || d || e)
    && !(a && b) && !(a && c) && !(a && d) && !(a && e) && !(b && c) && !(b && d) && !(b && e)
    && !(c && d) && !(c && e) && !(d && e)
  }

  /** What holds of every state a run reaches, gathered for one request. */
  ghost predicate Ready(d0: Driver, steps: seq<Step>, env: Env, lim: Limits) {
    var d := Exec(d0, steps, env, lim);
    && Inv(d) && PendingOpened(d) && AllOwned(d) && (d.running || Finished(d))
    && forall i :: 0 <= i < |d.openings| ==> Told(d0, steps, d.openings[i], env, lim)
  }

  lemma OneOpening(d: Driver, o: Opening, sid: StreamId)
    requires Inv(d) && PendingOpened(d) && o in d.openings && sid in d.pending && d.pending[sid].id == o.id
    ensures sid == o.sid
  {
  }

  /** A stream that is over with no reply was ended by the peer before a head. */
  lemma OverMeansHeadless(d0: Driver, steps: seq<Step>, o: Opening, k: nat, env: Env, lim: Limits)
    requires ToldSince(d0, steps, o, k, env, lim)
    ensures var d := Exec(d0, steps, env, lim);
            o.sid !in d.pending && Box(d.mail, o.id).replies == [] <==> HeadlessSince(d0, steps, o, k, env, lim)
  {
    ReplyLaw(o.id, FirstDeadline(d0, steps, o, k, env, lim), Project(steps[k..], o.sid), lim);
  }

  lemma HeadlessMeans(d0: Driver, steps: seq<Step>, id: RequestId, env: Env, lim: Limits)
    requires Ready(d0, steps, env, lim) && EndedHeadless(d0, steps, id, env, lim)
    ensures var d := Exec(d0, steps, env, lim);
            EverOpened(d, id) && !InFlight(d.pending, id) && Box(d.mail, id).replies == []
  {
    var d := Exec(d0, steps, env, lim);
    var o: Opening, k: nat :| o.id == id && o in d.openings && HeadlessSince(d0, steps, o, k, env, lim);
    OverMeansHeadless(d0, steps, o, k, env, lim);
    if InFlight(d.pending, id) {
      var sid :| sid in d.pending && d.pending[sid].id == id;
      OneOpening(d, o, sid);
    }
  }

  lemma OpenedFate(d0: Driver, steps: seq<Step>, id: RequestId, env: Env, lim: Limits)
    requires Ready(d0, steps, env, lim)
    requires id < |Exec(d0, steps, env, lim).mail| && EverOpened(Exec(d0, steps, env, lim), id)
    ensures var d := Exec(d0, steps, env, lim);
            Unanswered(d, id) || Replied(d, id) || EndedHeadless(d0, steps, id, env, lim)
  {
    var d := Exec(d0, steps, env, lim);
    var i :| 0 <= i < |d.openings| && d.openings[i].id == id;
    var o := d.openings[i];
    var k: nat :| ToldSince(d0, steps, o, k, env, lim);
    OverMeansHeadless(d0, steps, o, k, env, lim);
    assert Owned(d, o.sid, id);
    if o.sid in d.pending {
      assert d.pending[o.sid].id == id;
    }
  }

  lemma FatesExclude(d0: Driver, steps: seq<Step>, id: RequestId, env: Env, lim: Limits)
    requires Ready(d0, steps, env, lim) && id < |Exec(d0, steps, env, lim).mail|
    ensures var d := Exec(d0, steps, env, lim);
            && (Queued(d, id) ==> !InFlight(d.pending, id) && d.mail[id].replies == [] && !EverOpened(d, id) && d.running)
            && (InFlight(d.pending, id) ==> EverOpened(d, id))
  {
    var d := Exec(d0, steps, env, lim);
    if Queued(d, id) {
      var i :| 0 <= i < |d.deferred| && d.deferred[i].id == id;
      assert d.mail[id] == Unopened;
      assert forall j :: 0 <= j < |d.openings| ==> d.openings[j].id < d.deferred[i].id;
    }
    if InFlight(d.pending, id) {
      var sid :| sid in d.pending && d.pending[sid].id == id;
      var j :| 0 <= j < |d.openings| && d.openings[j] == Opening(sid, id);
      assert d.openings[j].id == id;
    }
  }

  ghost predicate FateLaw(d0: Driver, steps: seq<Step>, id: RequestId, env: Env, lim: Limits) {
    var d := Exec(d0, steps, env, lim);
    ExactlyOne(Queued(d, id), Unanswered(d, id), Replied(d, id),
               EndedHeadless(d0, steps, id, env, lim), LeftBehind(d0, steps, id, env, lim))
  }

  lemma ReadyDecides(d0: Driver, steps: seq<Step>, id: RequestId, env: Env, lim: Limits)
    requires Ready(d0, steps, env, lim) && id < |Exec(d0, steps, env, lim).mail|
    requires Served(Exec(d0, steps, env, lim), id) || Dropped(d0, steps, id, env, lim)
    requires Dropped(d0, steps, id, env, lim) ==>
               HungUp(Exec(d0, steps, env, lim), id) && !Exec(d0, steps, env, lim).running
    ensures FateLaw(d0, steps, id, env, lim)
  {
    var d := Exec(d0, steps, env, lim);
    FatesExclude(d0, steps, id, env, lim);
    if EndedHeadless(d0, steps, id, env, lim) { HeadlessMeans(d0, steps, id, env, lim); }
    if EverOpened(d, id) { OpenedFate(d0, steps, id, env, lim); }
    assert BoxLaw(d.mail[id]);
  }

  // ------------------------------------------------------------------
  // Every request of every run
  // ------------------------------------------------------------------

  lemma {:induction false} RetryStaysDown(d: Driver, env: Env, lim: Limits)
    requires !d.running
    ensures !RetryDeferred(d, env, lim).running
    decreases |d.deferred|
  {
    if d.deferred != [] && !LimitReached(d) && !d.deferred[0].cmd.Shutdown? {
      RetryStaysDown(Handle(d.(deferred := d.deferred[1..]), d.deferred[0], env, lim), env, lim);
    }
  }

  lemma StaysDown(d: Driver, step: Step, env: Env, lim: Limits)
    requires !d.running || step == Cleanup
    ensures !Next(d, step, env, lim).running
  {
    match step
    case Retry => RetryStaysDown(d, env, lim);
    case _ =>
  }

  lemma {:induction false} DownAfterCleanup(d0: Driver, steps: seq<Step>, j: nat, env: Env, lim: Limits)
    requires j < |steps| && steps[j] == Cleanup
    ensures !Exec(d0, steps, env, lim).running
  {
    var n := |steps| - 1;
    if j < n {
      DownAfterCleanup(d0, steps[..n], j, env, lim);
    }
    StaysDown(Exec(d0, steps[..n], env, lim), steps[n], env, lim);
  }

  lemma StartServes(upgraded: bool, now: Instant, limit: nat, lim: Limits)
    ensures var d := Start(upgraded, now, limit, lim);
            && (forall i :: 0 <= i < |d.mail| ==> Served(d, i))
            && PendingOpened(d)
            && (forall i :: 0 <= i < |d.openings| ==> JustBorn(d, d.openings[i]))
  {
    var d := Start(upgraded, now, limit, lim);
    if upgraded {
      assert d.openings[0].id == 0;
      assert View(d, 1, 0) == Born(0, d.pending[1].deadline);
    }
  }

  lemma RunIsReady(upgraded: bool, now: Instant, limit: nat, ps: seq<Pass>, env: Env, cfg: Config)
    ensures var d0 := Start(upgraded, now, limit, cfg.limits);
            Ready(d0, RunSteps(d0, ps, env, cfg), env, cfg.limits)
  {
    var d0 := Start(upgraded, now, limit, cfg.limits);
    StartHolds(upgraded, now, limit, cfg.limits);
    StartServes(upgraded, now, limit, cfg.limits);
    RunLaw(d0, ps, env, cfg);
    RunOpened(d0, RunSteps(d0, ps, env, cfg), env, cfg.limits);
    StoryLaw(d0, RunSteps(d0, ps, env, cfg), env, cfg.limits);
  }

  /**
    Every request a run received has exactly one of five fates: it waits in the
    queue; its stream is open and it has no reply yet; it has its one reply; its
    stream was ended by the peer before a head; or it was still queued when the
    driver ended.
   */
  lemma EveryRequestHasOneFate(
    upgraded: bool, now: Instant, limit: nat, ps: seq<Pass>, env: Env, cfg: Config, id: RequestId)
    requires id < |Run(Start(upgraded, now, limit, cfg.limits), ps, env, cfg).mail|
    ensures var d0 := Start(upgraded, now, limit, cfg.limits);
            && Run(d0, ps, env, cfg) == Exec(d0, RunSteps(d0, ps, env, cfg), env, cfg.limits)
            && FateLaw(d0, RunSteps(d0, ps, env, cfg), id, env, cfg.limits)
  {
    var d0, lim := Start(upgraded, now, limit, cfg.limits), cfg.limits;
    var steps := RunSteps(d0, ps, env, cfg);
    StartHolds(upgraded, now, limit, lim);
    StartServes(upgraded, now, limit, lim);
    RunLaw(d0, ps, env, cfg);
    RunIsReady(upgraded, now, limit, ps, env, cfg);
    NobodyFallsThrough(d0, steps, env, lim, id);
    if Dropped(d0, steps, id, env, lim) {
      var j: nat :| DroppedAt(d0, steps, id, j, env, lim);
      DownAfterCleanup(d0, steps, j, env, lim);
      DroppedIsHungUp(d0, steps, id, j, env, lim);
    }
    ReadyDecides(d0, steps, id, env, lim);
  }

  /**
    When the driver has ended, the requests without a reply are exactly those whose
    stream the peer ended before a head, and those that were still queued.
   */
  lemma UnansweredAtTheEndExactly(
    upgraded: bool, now: Instant, limit: nat, ps: seq<Pass>, env: Env, cfg: Config, id: RequestId)
    requires id < |Run(Start(upgraded, now, limit, cfg.limits), ps, env, cfg).mail|
    requires !Run(Start(upgraded, now, limit, cfg.limits), ps, env, cfg).running
    ensures var d0 := Start(upgraded, now, limit, cfg.limits);
            var steps := RunSteps(d0, ps, env, cfg);
            Run(d0, ps, env, cfg).mail[id].replies == []
            <==> EndedHeadless(d0, steps, id, env, cfg.limits) || Dropped(d0, steps, id, env, cfg.limits)
  {
    var d0, lim := Start(upgraded, now, limit, cfg.limits), cfg.limits;
    var steps := RunSteps(d0, ps, env, cfg);
    EveryRequestHasOneFate(upgraded, now, limit, ps, env, cfg, id);
    RunIsReady(upgraded, now, limit, ps, env, cfg);
    EndedDecides(d0, steps, id, env, lim);
  }

  lemma EndedDecides(d0: Driver, steps: seq<Step>, id: RequestId, env: Env, lim: Limits)
    requires Ready(d0, steps, env, lim) && FateLaw(d0, steps, id, env, lim)
    requires !Exec(d0, steps, env, lim).running && id < |Exec(d0, steps, env, lim).mail|
    ensures Exec(d0, steps, env, lim).mail[id].replies == []
            <==> EndedHeadless(d0, steps, id, env, lim) || Dropped(d0, steps, id, env, lim)
  {
    var d := Exec(d0, steps, env, lim);
    assert d.deferred == [] && d.pending == map[];
    assert BoxLaw(d.mail[id]);
  }

  // ------------------------------------------------------------------
  // A run that leaves a request behind
  // ------------------------------------------------------------------

  const Obliging: Env := (i: nat) => Attempt(Accept, 0)
  const Modest := Config(Limits(0, None), LiveConfig(None, None, None, None))

  /** Two requests under a limit of one, and then a shutdown. */
  const Hurried := Pass([Request(None, true, None), Request(None, true, None), Shutdown],
                        Elapsed, PollErr(Eof), [], {}, 0, false, 0, false)

  lemma SecondIsQueued()
    ensures var d := Start(false, 0, 1, Modest.limits);
            var d1 := Take(d, Request(None, true, None), Obliging, Modest.limits);
            var d2 := Take(d1, Request(None, true, None), Obliging, Modest.limits);
            && d2.mail == [Opened, Unopened] && d2.deferred == [Ticket(1, Request(None, true, None))]
            && d2.pending == map[1 := Entry(0, 0, None)] && d2.running
  {
    var d := Start(false, 0, 1, Modest.limits);
    var d1 := Take(d, Request(None, true, None), Obliging, Modest.limits);
    assert d1.mail == [Opened] && d1.pending == map[1 := Entry(0, 0, None)];
    assert LimitReached(d1);
  }

  lemma EndsUnheard(d: Driver)
    requires d.mail == [Opened, Unopened] && d.deferred == [Ticket(1, Request(None, true, None))]
    requires d.pending == map[1 := Entry(0, 0, None)]
    ensures var d' := Next(d, Cleanup, Obliging, Modest.limits);
            !d'.running && |d'.mail| == 2 && d'.mail[0].replies == [Failed(Canceled)] && d'.mail[1].replies == []
  {
    assert IdsOf(d.pending, d.pending.Keys) == {0} by {
      assert d.pending[1].id == 0;
    }
    assert d.deferred[0] in d.deferred;
  }

  lemma StepTo(d0: Driver, steps: seq<Step>, step: Step, d: Driver, d': Driver, env: Env, lim: Limits)
    requires Exec(d0, steps, env, lim) == d && Next(d, step, env, lim) == d'
    ensures Exec(d0, steps + [step], env, lim) == d'
  {
    assert (steps + [step])[..|steps|] == steps;
  }

  lemma HurriedSteps(d: Driver)
    requires d == Start(false, 0, 1, Modest.limits)
    ensures TurnSteps(d, Hurried, Obliging, Modest)
         == [Retry] + [Receive(Hurried.cmds[0]), Receive(Hurried.cmds[1]), Receive(Shutdown)] + [Cleanup]
  {
    var cmds := Hurried.cmds;
    ExecOne(d, Retry, Obliging, Modest.limits);
    assert cmds[1..][1..] == [Shutdown] && cmds[1..][0] == cmds[1];
    assert CmdSteps([Shutdown]) == [Receive(Shutdown)];
    assert CmdSteps(cmds[1..]) == [Receive(cmds[1])] + CmdSteps(cmds[1..][1..]);
    var head := [Retry] + [Receive(cmds[0]), Receive(cmds[1]), Receive(Shutdown)];
    assert [Retry] + CmdSteps(cmds) == head;
    assert head[..3] + [Receive(Shutdown)] == head;
    var before := Exec(d, head[..3], Obliging, Modest.limits);
    StepTo(d, head[..3], Receive(Shutdown), before, before.(running := false), Obliging, Modest.limits);
  }

  lemma HurriedRun(d0: Driver, d1: Driver, d2: Driver)
    requires d0 == Start(false, 0, 1, Modest.limits)
    requires d1 == Take(d0, Hurried.cmds[0], Obliging, Modest.limits)
    requires d2 == Take(d1, Hurried.cmds[1], Obliging, Modest.limits)
    ensures Exec(d0, TurnSteps(d0, Hurried, Obliging, Modest), Obliging, Modest.limits)
         == Next(d2.(running := false), Cleanup, Obliging, Modest.limits)
  {
    var lim, r := Modest.limits, Hurried.cmds[0];
    HurriedSteps(d0);
    var s1, s2, s3 := [] + [Retry], [] + [Retry] + [Receive(r)], [] + [Retry] + [Receive(r)] + [Receive(r)];
    StepTo(d0, [], Retry, d0, d0, Obliging, lim);
    StepTo(d0, s1, Receive(r), d0, d1, Obliging, lim);
    StepTo(d0, s2, Receive(r), d1, d2, Obliging, lim);
    StepTo(d0, s3, Receive(Shutdown), d2, d2.(running := false), Obliging, lim);
    var s4 := s3 + [Receive(Shutdown)];
    StepTo(d0, s4, Cleanup, d2.(running := false), Next(d2.(running := false), Cleanup, Obliging, lim), Obliging, lim);
    assert s4 + [Cleanup] == [Retry] + [Receive(r), Receive(r), Receive(Shutdown)] + [Cleanup];
  }

  /** The first request is told that the driver ends; the second is told nothing. */
  lemma QueuedRequestIsLeftBehind()
    ensures var d := Run(Start(false, 0, 1, Modest.limits), [Hurried], Obliging, Modest);
            && !d.running && |d.mail| == 2
            && d.mail[0].replies == [Failed(Canceled)] && d.mail[1].replies == []
  {
    var d0, lim, r := Start(false, 0, 1, Modest.limits), Modest.limits, Hurried.cmds[0];
    var d1 := Take(d0, r, Obliging, lim);
    var d2 := Take(d1, r, Obliging, lim);
    SecondIsQueued();
    HurriedRun(d0, d1, d2);
    EndsUnheard(d2.(running := false));
    assert [Hurried][..0] == [];
    assert Run(d0, [Hurried], Obliging, Modest) == Turn(Run(d0, [], Obliging, Modest), Hurried, Obliging, Modest);
  }
}
