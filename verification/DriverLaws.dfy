/**
  What every run of the HTTP/2 driver keeps. The theorems at the end of the
  module are about all runs from `Start`: any commands, any events, any clock,
  any answers of the connection.
 */
module DriverLaws {
  import opened Basics
  import opened StreamLife
  import opened Liveness
  import opened DriverSpec

  // ------------------------------------------------------------------
  // The invariant
  // ------------------------------------------------------------------

  ghost predicate Waiting(queue: seq<Ticket>, id: RequestId) {
    exists i :: 0 <= i < |queue| && queue[i].id == id
  }

  ghost predicate InFlight(pending: map<StreamId, Entry>, id: RequestId) {
    exists sid :: sid in pending && pending[sid].id == id
  }

  predicate BoxLaw(b: Mailbox) {
    |b.replies| <= 1 && (b.replyOpen ==> b.replies == [])
  }

  /** A channel whose sender is alive belongs to a queued or pending request, or to one in `hand`. */
  ghost predicate MailLaw(mail: seq<Mailbox>, pending: map<StreamId, Entry>, queue: seq<Ticket>, hand: set<RequestId>) {
    forall id :: 0 <= id < |mail| ==>
      && BoxLaw(mail[id])
      && (mail[id].replyOpen ==> id in hand || Waiting(queue, id) || InFlight(pending, id))
      && (mail[id].bodyOpen ==> InFlight(pending, id))
  }

  ghost predicate PendingLaw(pending: map<StreamId, Entry>, mail: seq<Mailbox>, nextSid: nat) {
    && (forall sid :: sid in pending ==>
          sid < nextSid && pending[sid].id < |mail| && mail[pending[sid].id].bodyOpen)
    && (forall s, t :: s in pending && t in pending && pending[s].id == pending[t].id ==> s == t)
  }

  ghost predicate QueueLaw(queue: seq<Ticket>, mail: seq<Mailbox>) {
    && |queue| <= MAX_DEFERRED
    && (forall i :: 0 <= i < |queue| ==>
          !queue[i].cmd.Shutdown? && queue[i].id < |mail| && mail[queue[i].id] == Unopened)
    && (forall i, j :: 0 <= i < j < |queue| ==> queue[i].id < queue[j].id)
  }

  /** Streams were opened in order of arrival, and everything queued arrived later. */
  ghost predicate OrderLaw(openings: seq<Opening>, queue: seq<Ticket>, arrived: nat, nextSid: nat) {
    && (forall i :: 0 <= i < |openings| ==> openings[i].sid < nextSid && openings[i].id < arrived)
    && (forall i, j :: 0 <= i < j < |openings| ==>
          openings[i].id < openings[j].id && openings[i].sid < openings[j].sid)
    && (forall i, j :: 0 <= i < |openings| && 0 <= j < |queue| ==> openings[i].id < queue[j].id)
  }

  ghost predicate Holds(d: Driver, hand: set<RequestId>) {
    && MailLaw(d.mail, d.pending, d.deferred, hand)
    && PendingLaw(d.pending, d.mail, d.nextSid)
    && QueueLaw(d.deferred, d.mail)
    && OrderLaw(d.openings, d.deferred, |d.mail|, d.nextSid)
  }

  ghost predicate Inv(d: Driver) {
    Holds(d, {})
  }

  /** Where the loop may receive: nothing is queued unless the stream limit is reached. */
  ghost predicate Settled(d: Driver) {
    d.deferred == [] || LimitReached(d)
  }

  // ------------------------------------------------------------------
  // Commands
  // ------------------------------------------------------------------

  lemma AnswerKeeps(d: Driver, id: RequestId, e: Error)
    requires Holds(d, {id}) && id < |d.mail| && d.mail[id] == Unopened && !Waiting(d.deferred, id)
    ensures Inv(Answer(d, id, e))
  {
  }

  lemma OpenedMail(mail: seq<Mailbox>, pending: map<StreamId, Entry>, queue: seq<Ticket>, sid: StreamId, e: Entry)
    requires MailLaw(mail, pending, queue, {e.id}) && e.id < |mail| && sid !in pending
    ensures MailLaw(mail[e.id := Opened], pending[sid := e], queue, {})
  {
    var pending' := pending[sid := e];
    assert pending'[sid].id == e.id;
    forall id | InFlight(pending, id) ensures InFlight(pending', id) {
      var s :| s in pending && pending[s].id == id;
      assert pending'[s].id == id;
    }
  }

  lemma OpenedKeeps(d: Driver, t: Ticket, dl: Option<Instant>, d': Driver)
    requires Holds(d, {t.id}) && t.id < |d.mail| && d.mail[t.id] == Unopened
    requires forall i :: 0 <= i < |d.openings| ==> d.openings[i].id < t.id
    requires forall i :: 0 <= i < |d.deferred| ==> t.id < d.deferred[i].id
    requires d'.pending == d.pending[d.nextSid := Entry(t.id, 0, dl)] && d'.mail == d.mail[t.id := Opened]
    requires d'.nextSid == d.nextSid + 2 && d'.deferred == d.deferred
    requires d'.openings == d.openings + [Opening(d.nextSid, t.id)]
    ensures Inv(d')
  {
    OpenedMail(d.mail, d.pending, d.deferred, d.nextSid, Entry(t.id, 0, dl));
    assert !InFlight(d.pending, t.id);
  }

  lemma RefusedKeeps(d: Driver, id: RequestId, d': Driver)
    requires Holds(d, {id}) && id < |d.mail| && d.mail[id] == Unopened
    requires forall i :: 0 <= i < |d.deferred| ==> id < d.deferred[i].id
    requires exists e :: d'.mail == d.mail[id := Hang(SendReply(Unopened, Failed(e)))]
    requires d'.pending == d.pending && d'.deferred == d.deferred && d'.openings == d.openings
    requires d.nextSid <= d'.nextSid
    ensures Inv(d')
  {
    var e :| d'.mail == d.mail[id := Hang(SendReply(Unopened, Failed(e)))];
    AnswerKeeps(d, id, e);
  }

  lemma OpenKeeps(d: Driver, t: Ticket, env: Env, lim: Limits)
    requires Holds(d, {t.id}) && t.id < |d.mail| && d.mail[t.id] == Unopened && !t.cmd.Shutdown?
    requires forall i :: 0 <= i < |d.openings| ==> d.openings[i].id < t.id
    requires forall i :: 0 <= i < |d.deferred| ==> t.id < d.deferred[i].id
    ensures Inv(Open(d, t, env, lim))
    ensures Open(d, t, env, lim).deferred == d.deferred
  {
    var a := env(d.attempts);
    var no := Refusal(t.cmd, a.outcome);
    var d' := Open(d, t, env, lim);
    if a.outcome.RefuseOpen? || d.nextSid > MAX_STREAM_ID || no.Some? {
      RefusedKeeps(d, t.id, d');
    } else {
      OpenedKeeps(d, t, DeadlineFrom(t.cmd, a.now, lim), d');
    }
  }

  lemma QueuedKeeps(d: Driver, t: Ticket)
    requires Holds(d, {t.id}) && t.id < |d.mail| && d.mail[t.id] == Unopened && !t.cmd.Shutdown?
    requires forall i :: 0 <= i < |d.openings| ==> d.openings[i].id < t.id
    requires forall i :: 0 <= i < |d.deferred| ==> d.deferred[i].id < t.id
    requires |d.deferred| < MAX_DEFERRED
    ensures Inv(d.(deferred := d.deferred + [t]))
  {
    var queue' := d.deferred + [t];
    assert queue'[|d.deferred|].id == t.id;
    forall id | Waiting(d.deferred, id) ensures Waiting(queue', id) {
      var k :| 0 <= k < |d.deferred| && d.deferred[k].id == id;
      assert queue'[k].id == id;
    }
  }

  /** Above a reached limit the request goes to the back of the queue; below it, it opens first. */
  lemma HandleKeeps(d: Driver, t: Ticket, env: Env, lim: Limits)
    requires Holds(d, {t.id}) && t.id < |d.mail| && d.mail[t.id] == Unopened && !t.cmd.Shutdown?
    requires forall i :: 0 <= i < |d.openings| ==> d.openings[i].id < t.id
    requires if LimitReached(d) then forall i :: 0 <= i < |d.deferred| ==> d.deferred[i].id < t.id
             else forall i :: 0 <= i < |d.deferred| ==> t.id < d.deferred[i].id
    ensures Inv(Handle(d, t, env, lim))
    ensures !LimitReached(d) ==> Handle(d, t, env, lim).deferred == d.deferred
  {
    assert !Waiting(d.deferred, t.id);
    if d.goaway {
      AnswerKeeps(d, t.id, Canceled);
    } else if !LimitReached(d) {
      OpenKeeps(d, t, env, lim);
    } else if |d.deferred| < MAX_DEFERRED {
      QueuedKeeps(d, t);
    } else {
      AnswerKeeps(d, t.id, Refused);
    }
  }

  lemma TakeKeeps(d: Driver, cmd: Cmd, env: Env, lim: Limits)
    requires Inv(d) && Settled(d)
    ensures Inv(Take(d, cmd, env, lim)) && Settled(Take(d, cmd, env, lim))
  {
    if !cmd.Shutdown? {
      HandleKeeps(d.(mail := d.mail + [Unopened]), Ticket(|d.mail|, cmd), env, lim);
    }
  }

  /** Taking the head of the queue into the hand. */
  lemma PopKeeps(d: Driver)
    requires Inv(d) && d.deferred != []
    ensures Holds(d.(deferred := d.deferred[1..]), {d.deferred[0].id})
  {
    forall id | Waiting(d.deferred, id) && id != d.deferred[0].id ensures Waiting(d.deferred[1..], id) {
      var k :| 0 <= k < |d.deferred| && d.deferred[k].id == id;
      assert d.deferred[1..][k - 1].id == id;
    }
  }

  /** Serving the head of the queue while there is room. */
  function RetryOne(d: Driver, env: Env, lim: Limits): Driver
    requires d.deferred != [] && !d.deferred[0].cmd.Shutdown?
  {
    Handle(d.(deferred := d.deferred[1..]), d.deferred[0], env, lim)
  }

  lemma RetryOneKeeps(d: Driver, env: Env, lim: Limits)
    requires Inv(d) && d.deferred != [] && !LimitReached(d)
    ensures Inv(RetryOne(d, env, lim))
    ensures RetryOne(d, env, lim).deferred == d.deferred[1..]
    ensures RetryOne(d, env, lim).running == d.running
  {
    PopKeeps(d);
    HandleKeeps(d.(deferred := d.deferred[1..]), d.deferred[0], env, lim);
  }

  /** Retrying never queues a request again, so it ends settled. */
  lemma {:induction false} RetryKeeps(d: Driver, env: Env, lim: Limits)
    requires Inv(d)
    ensures Inv(RetryDeferred(d, env, lim)) && Settled(RetryDeferred(d, env, lim))
    ensures RetryDeferred(d, env, lim).running == d.running
    decreases |d.deferred|
  {
    if d.deferred != [] && !LimitReached(d) {
      RetryOneKeeps(d, env, lim);
      RetryKeeps(RetryOne(d, env, lim), env, lim);
      assert RetryDeferred(d, env, lim) == RetryDeferred(RetryOne(d, env, lim), env, lim);
    }
  }

  // ------------------------------------------------------------------
  // Events, clock and failures
  // ------------------------------------------------------------------

  lemma ReactBox(e: Entry, b: Mailbox, x: Stimulus, lim: Limits)
    requires BoxLaw(b) && b.bodyOpen
    ensures var s := React(Live(e, b), x, lim);
            && BoxLaw(s.box)
            && (s.Live? ==> s.entry.id == e.id && s.box.bodyOpen && (s.box.replyOpen ==> b.replyOpen))
            && (s.Over? ==> !s.box.bodyOpen && !s.box.replyOpen)
  {
  }

  /** One pending stream changes its entry and mailbox, or leaves with its channels closed. */
  lemma EntryKeeps(d: Driver, sid: StreamId, s: Stream)
    requires Inv(d) && sid in d.pending && BoxLaw(s.box)
    requires s.Live? ==> s.entry.id == d.pending[sid].id && s.box.bodyOpen
    requires s.Over? ==> !s.box.bodyOpen && !s.box.replyOpen
    ensures var id := d.pending[sid].id;
            var pending' := if s.Live? then d.pending[sid := s.entry] else d.pending - {sid};
            MailLaw(d.mail[id := s.box], pending', d.deferred, {})
  {
    var id := d.pending[sid].id;
    var pending' := if s.Live? then d.pending[sid := s.entry] else d.pending - {sid};
    forall i | InFlight(d.pending, i) && (i != id || s.Live?) ensures InFlight(pending', i) {
      var t :| t in d.pending && d.pending[t].id == i;
      assert pending'[t].id == i;
    }
  }

  lemma EntryPending(d: Driver, sid: StreamId, s: Stream)
    requires Inv(d) && sid in d.pending
    requires s.Live? ==> s.entry.id == d.pending[sid].id && s.box.bodyOpen
    ensures var id := d.pending[sid].id;
            var pending' := if s.Live? then d.pending[sid := s.entry] else d.pending - {sid};
            PendingLaw(pending', d.mail[id := s.box], d.nextSid) && QueueLaw(d.deferred, d.mail[id := s.box])
  {
  }

  lemma TouchKeeps(d: Driver, sid: StreamId, x: Stimulus, lim: Limits)
    requires Inv(d) && sid in d.pending
    ensures Inv(Touch(d, sid, x, lim))
    ensures Touch(d, sid, x, lim).deferred == d.deferred
  {
    var e := d.pending[sid];
    var s := React(Live(e, d.mail[e.id]), x, lim);
    var d' := Touch(d, sid, x, lim);
    assert d'.mail == d.mail[e.id := s.box]
        && d'.pending == (if s.Live? then d.pending[sid := s.entry] else d.pending - {sid})
        && d'.deferred == d.deferred && d'.openings == d.openings && d'.nextSid == d.nextSid;
    ReactBox(e, d.mail[e.id], x, lim);
    EntryKeeps(d, sid, s);
    EntryPending(d, sid, s);
  }

  lemma KillMail(d: Driver, sids: set<StreamId>, e: Error)
    requires Inv(d)
    ensures var d' := KillAll(d, sids, e); MailLaw(d'.mail, d'.pending, d'.deferred, {})
  {
    var d' := KillAll(d, sids, e);
    forall id | InFlight(d.pending, id) && id !in IdsOf(d.pending, sids) ensures InFlight(d'.pending, id) {
      var s :| s in d.pending && d.pending[s].id == id;
      assert d'.pending[s].id == id;
    }
  }

  lemma KillPending(d: Driver, sids: set<StreamId>, e: Error)
    requires Inv(d)
    ensures var d' := KillAll(d, sids, e); PendingLaw(d'.pending, d'.mail, d'.nextSid)
  {
  }

  lemma KillQueue(d: Driver, sids: set<StreamId>, e: Error)
    requires Inv(d)
    ensures var d' := KillAll(d, sids, e); QueueLaw(d'.deferred, d'.mail)
  {
  }

  lemma KillKeeps(d: Driver, sids: set<StreamId>, e: Error)
    requires Inv(d)
    ensures Inv(KillAll(d, sids, e))
    ensures KillAll(d, sids, e).deferred == d.deferred
  {
    KillMail(d, sids, e);
    KillPending(d, sids, e);
    KillQueue(d, sids, e);
  }

  lemma DropKeeps(d: Driver)
    requires Inv(d)
    ensures Inv(DropDeferred(d))
  {
    forall id | Waiting(d.deferred, id) ensures id in set t | t in d.deferred :: t.id {
      var k :| 0 <= k < |d.deferred| && d.deferred[k].id == id;
      assert d.deferred[k] in d.deferred;
    }
    var d' := DropDeferred(d);
    forall id: RequestId | InFlight(d.pending, id) ensures d'.mail[id] == d.mail[id] {
      var sid :| sid in d.pending && d.pending[sid].id == id;
    }
  }

  lemma DispatchKeeps(d: Driver, ev: Event, now: Instant, lim: Limits)
    requires Inv(d)
    ensures Inv(DispatchEvent(d, ev, now, lim))
  {
    match ev
    case OtherEv =>
    case GoAwayEv(code, last) =>
      KillKeeps(d.(goaway := true, accepting := false), SidsAbove(d, last), Peer(code));
    case _ =>
      if ev.sid in d.pending {
        TouchKeeps(d, ev.sid, EventStimulus(ev, now, ev.sid).value, lim);
      }
  }

  /** Every step keeps the invariant, provided commands are received only when settled. */
  lemma NextKeeps(d: Driver, step: Step, env: Env, lim: Limits)
    requires Inv(d) && (step.Receive? ==> Settled(d))
    ensures Inv(Next(d, step, env, lim))
  {
    match step
    case Receive(cmd) => TakeKeeps(d, cmd, env, lim);
    case Retry => RetryKeeps(d, env, lim);
    case Dispatch(ev, now) => DispatchKeeps(d, ev, now, lim);
    case Expire(now) => KillKeeps(d, ExpiredSids(d, now), TimedOut);
    case Fail(e) => KillKeeps(d.(accepting := false), d.pending.Keys, e);
    case Cleanup =>
      KillKeeps(d.(running := false), d.pending.Keys, Canceled);
      DropKeeps(KillAll(d.(running := false), d.pending.Keys, Canceled));
    case _ =>
  }

  // ------------------------------------------------------------------
  // Lists of steps
  // ------------------------------------------------------------------

  /** Commands are received only in settled states. */
  ghost predicate Legal(d: Driver, steps: seq<Step>, env: Env, lim: Limits) {
    forall i :: 0 <= i < |steps| && steps[i].Receive? ==> Settled(Exec(d, steps[..i], env, lim))
  }

  lemma {:induction false} ExecSplit(d: Driver, a: seq<Step>, b: seq<Step>, env: Env, lim: Limits)
    ensures Exec(d, a + b, env, lim) == Exec(Exec(d, a, env, lim), b, env, lim)
  {
    if b == [] {
      assert a + b == a;
    } else {
      assert (a + b)[..|a + b| - 1] == a + b[..|b| - 1];
      ExecSplit(d, a, b[..|b| - 1], env, lim);
    }
  }

  lemma ExecOne(d: Driver, step: Step, env: Env, lim: Limits)
    ensures Exec(d, [step], env, lim) == Next(d, step, env, lim)
  {
    var steps := [step];
    assert steps[..0] == [];
    assert Exec(d, steps, env, lim) == Next(Exec(d, steps[..0], env, lim), steps[0], env, lim);
  }

  lemma LegalSplit(d: Driver, a: seq<Step>, b: seq<Step>, env: Env, lim: Limits)
    ensures Legal(d, a + b, env, lim) <==> Legal(d, a, env, lim) && Legal(Exec(d, a, env, lim), b, env, lim)
  {
    forall i | 0 <= i < |a| ensures (a + b)[..i] == a[..i] && (a + b)[i] == a[i] {}
    forall i | 0 <= i < |b|
      ensures Exec(d, (a + b)[..|a| + i], env, lim) == Exec(Exec(d, a, env, lim), b[..i], env, lim)
    {
      assert (a + b)[..|a| + i] == a + b[..i];
      ExecSplit(d, a, b[..i], env, lim);
    }
    if Legal(d, a + b, env, lim) {
      forall i | 0 <= i < |b| && b[i].Receive? ensures Settled(Exec(Exec(d, a, env, lim), b[..i], env, lim)) {
        assert (a + b)[|a| + i].Receive?;
      }
      forall i | 0 <= i < |a| && a[i].Receive? ensures Settled(Exec(d, a[..i], env, lim)) {
        assert (a + b)[i].Receive?;
      }
    }
  }

  lemma {:induction false} ExecKeeps(d: Driver, steps: seq<Step>, env: Env, lim: Limits)
    requires Inv(d) && Legal(d, steps, env, lim)
    ensures Inv(Exec(d, steps, env, lim))
  {
    if steps != [] {
      var n := |steps| - 1;
      assert steps == steps[..n] + [steps[n]];
      LegalSplit(d, steps[..n], [steps[n]], env, lim);
      ExecKeeps(d, steps[..n], env, lim);
      NextKeeps(Exec(d, steps[..n], env, lim), steps[n], env, lim);
    }
  }

  // ------------------------------------------------------------------
  // The driver loop
  // ------------------------------------------------------------------

  /** Nothing is open, queued or in flight. */
  ghost predicate Finished(d: Driver) {
    d.pending == map[] && d.deferred == []
  }

  lemma {:induction false} CmdsLegal(d: Driver, cmds: seq<Cmd>, env: Env, lim: Limits)
    requires Inv(d) && Settled(d)
    ensures Legal(d, CmdSteps(cmds), env, lim)
    ensures Settled(Exec(d, CmdSteps(cmds), env, lim))
    decreases cmds
  {
    if cmds == [] {
    } else {
      var first := Receive(cmds[0]);
      var d1 := Next(d, first, env, lim);
      ExecOne(d, first, env, lim);
      assert Legal(d, [first], env, lim) by { assert [first][..0] == []; }
      TakeKeeps(d, cmds[0], env, lim);
      if !cmds[0].Shutdown? {
        CmdsLegal(d1, cmds[1..], env, lim);
        LegalSplit(d, [first], CmdSteps(cmds[1..]), env, lim);
        ExecSplit(d, [first], CmdSteps(cmds[1..]), env, lim);
      }
    }
  }

  ghost predicate NoReceive(steps: seq<Step>) {
    forall i :: 0 <= i < |steps| ==> !steps[i].Receive?
  }

  lemma NoReceiveIsLegal(d: Driver, steps: seq<Step>, env: Env, lim: Limits)
    requires NoReceive(steps)
    ensures Legal(d, steps, env, lim)
  {
  }

  lemma NoReceiveConcat(a: seq<Step>, b: seq<Step>)
    requires NoReceive(a) && NoReceive(b)
    ensures NoReceive(a + b)
  {
  }

  /** A list that ends with the cleanup finishes everything. */
  lemma CleanupFinishes(d: Driver, steps: seq<Step>, env: Env, lim: Limits)
    requires steps != [] && steps[|steps| - 1] == Cleanup
    ensures Finished(Exec(d, steps, env, lim)) && !Exec(d, steps, env, lim).running
  {
    var d1 := Exec(d, steps[..|steps| - 1], env, lim);
    assert d1.pending - d1.pending.Keys == map[];
  }

  lemma ServeReceivesNothing(p: Pass)
    requires p.poll.PollOk?
    ensures NoReceive(ServeSteps(p))
  {
    var polled := [Polled(p.poll.limit, if p.poll.progress then Some(p.poll.at) else None)];
    NoReceiveConcat(polled, DispatchSteps(p.arrivals));
    NoReceiveConcat(AbsorbSteps(p), [UploadsDone(p.done), Expire(p.clock), Retry]);
  }

  lemma PollReceivesNothing(d: Driver, p: Pass, hasWork: bool, env: Env, cfg: Config)
    ensures NoReceive(PollSteps(d, p, hasWork, env, cfg))
  {
    if p.poll.PollOk? {
      ServeReceivesNothing(p);
      var served := ServeSteps(p);
      var d1 := Exec(d, served, env, cfg.limits);
      var v := Judge(cfg.live, d1.heart, p.liveAt, p.settingsPending, hasWork);
      var tail := if !d1.running then [Cleanup] else if p.closed then [Fail(Eof), Cleanup] else LiveSteps(v);
      assert NoReceive(tail);
      NoReceiveConcat(served, tail);
    }
  }

  lemma PollLegal(d: Driver, p: Pass, hasWork: bool, env: Env, cfg: Config)
    ensures Legal(d, PollSteps(d, p, hasWork, env, cfg), env, cfg.limits)
  {
    PollReceivesNothing(d, p, hasWork, env, cfg);
    NoReceiveIsLegal(d, PollSteps(d, p, hasWork, env, cfg), env, cfg.limits);
  }

  lemma PollEnds(d: Driver, p: Pass, hasWork: bool, env: Env, cfg: Config)
    ensures var d' := Exec(d, PollSteps(d, p, hasWork, env, cfg), env, cfg.limits);
            d'.running || Finished(d')
  {
    var steps := PollSteps(d, p, hasWork, env, cfg);
    if steps[|steps| - 1] == Cleanup {
      CleanupFinishes(d, steps, env, cfg.limits);
    } else {
      var served := ServeSteps(p);
      assert steps[..|steps| - 1] == served;
    }
  }

  lemma HeadLaw(d: Driver, cmds: seq<Cmd>, env: Env, lim: Limits)
    requires Inv(d) && d.running
    ensures Exec(d, [Retry], env, lim).running
    ensures Legal(d, [Retry] + CmdSteps(cmds), env, lim)
    ensures Settled(Exec(d, [Retry] + CmdSteps(cmds), env, lim))
  {
    var d1 := Exec(d, [Retry], env, lim);
    ExecOne(d, Retry, env, lim);
    RetryKeeps(d, env, lim);
    NoReceiveIsLegal(d, [Retry], env, lim);
    CmdsLegal(d1, cmds, env, lim);
    LegalSplit(d, [Retry], CmdSteps(cmds), env, lim);
    ExecSplit(d, [Retry], CmdSteps(cmds), env, lim);
  }

  lemma TurnLaw(d: Driver, p: Pass, env: Env, cfg: Config)
    requires Inv(d) && d.running
    ensures Legal(d, TurnSteps(d, p, env, cfg), env, cfg.limits)
    ensures Inv(Turn(d, p, env, cfg))
    ensures Turn(d, p, env, cfg).running || Finished(Turn(d, p, env, cfg))
  {
    var lim := cfg.limits;
    var head := [Retry] + CmdSteps(p.cmds);
    HeadLaw(d, p.cmds, env, lim);
    var d2 := Exec(d, head, env, lim);
    var tail := TailSteps(d2, p, env, cfg);
    TailLaw(d2, p, env, cfg);
    ExecSplit(d, head, tail, env, lim);
    LegalSplit(d, head, tail, env, lim);
    ExecKeeps(d, head + tail, env, lim);
  }

  lemma TailLaw(d: Driver, p: Pass, env: Env, cfg: Config)
    requires Settled(d)
    ensures Legal(d, TailSteps(d, p, env, cfg), env, cfg.limits)
    ensures var d' := Exec(d, TailSteps(d, p, env, cfg), env, cfg.limits); d'.running || Finished(d')
  {
    var tail := TailSteps(d, p, env, cfg);
    if !d.running {
      CleanupFinishes(d, tail, env, cfg.limits);
    } else if HasWork(d, p) {
      PollLegal(d, p, true, env, cfg);
      PollEnds(d, p, true, env, cfg);
    } else {
      match p.waited
      case GotCmd(cmd) =>
        assert tail[..0] == [];
        if cmd.Shutdown? {
          CleanupFinishes(d, tail, env, cfg.limits);
        } else {
          ExecOne(d, Receive(cmd), env, cfg.limits);
          assert tail == [Receive(cmd)];
        }
      case Elapsed =>
        PollLegal(d, p, false, env, cfg);
        PollEnds(d, p, false, env, cfg);
      case Disconnected =>
        CleanupFinishes(d, tail, env, cfg.limits);
    }
  }

  /** The steps of a whole run. */
  ghost function RunSteps(d: Driver, ps: seq<Pass>, env: Env, cfg: Config): seq<Step> {
    if ps == [] then []
    else
      var before := Run(d, ps[..|ps| - 1], env, cfg);
      RunSteps(d, ps[..|ps| - 1], env, cfg)
      + if before.running then TurnSteps(before, ps[|ps| - 1], env, cfg) else []
  }

  lemma {:induction false} RunLaw(d: Driver, ps: seq<Pass>, env: Env, cfg: Config)
    requires Inv(d) && d.running
    ensures Run(d, ps, env, cfg) == Exec(d, RunSteps(d, ps, env, cfg), env, cfg.limits)
    ensures Legal(d, RunSteps(d, ps, env, cfg), env, cfg.limits)
    ensures Inv(Run(d, ps, env, cfg))
    ensures Run(d, ps, env, cfg).running || Finished(Run(d, ps, env, cfg))
  {
    if ps != [] {
      var n := |ps| - 1;
      RunLaw(d, ps[..n], env, cfg);
      var before := Run(d, ps[..n], env, cfg);
      var done := RunSteps(d, ps[..n], env, cfg);
      var more := if before.running then TurnSteps(before, ps[n], env, cfg) else [];
      if before.running {
        TurnLaw(before, ps[n], env, cfg);
      }
      ExecSplit(d, done, more, env, cfg.limits);
      LegalSplit(d, done, more, env, cfg.limits);
    }
  }

  lemma StartHolds(upgraded: bool, now: Instant, limit: nat, lim: Limits)
    ensures Inv(Start(upgraded, now, limit, lim)) && Start(upgraded, now, limit, lim).running
  {
    var d := Start(upgraded, now, limit, lim);
    if upgraded {
      assert d.pending[1].id == 0;
    }
  }
}
