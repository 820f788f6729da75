/**
  Demultiplexing: although one driver serves every stream from one loop, the
  mailbox of each request depends only on what happened to its own stream.
  Every run, seen from one stream, is the run of the one-stream machine of
  `StreamLife` on the stimuli addressed to it.
 */
module DriverDemux {
  import opened Basics
  import opened StreamLife
  import opened DriverSpec
  import opened DriverLaws

  /** The stream as the driver holds it. */
  function View(d: Driver, sid: StreamId, id: RequestId): Stream {
    if sid in d.pending then Live(d.pending[sid], Box(d.mail, id)) else Over(Box(d.mail, id))
  }

  /** Stream `sid` was opened for request `id`. */
  ghost predicate Owned(d: Driver, sid: StreamId, id: RequestId) {
    && sid < d.nextSid && id < |d.mail|
    && (sid in d.pending ==> d.pending[sid].id == id)
    && (sid !in d.pending ==> !d.mail[id].bodyOpen && !d.mail[id].replyOpen)
  }

  /** What a step is to stream `sid`. */
  function StepStimulus(step: Step, sid: StreamId): Option<Stimulus> {
    match step
    case Dispatch(ev, now) => EventStimulus(ev, now, sid)
    case Expire(now) => Some(Clock(now))
    case Fail(e) => Some(Abort(e))
    case Cleanup => Some(Abort(Canceled))
    case _ => None
  }

  /** What a list of steps is to stream `sid`. */
  function Project(steps: seq<Step>, sid: StreamId): seq<Stimulus> {
    if steps == [] then []
    else
      var x := StepStimulus(steps[|steps| - 1], sid);
      Project(steps[..|steps| - 1], sid) + if x.Some? then [x.value] else []
  }

  // ------------------------------------------------------------------
  // Commands leave the streams there are alone
  // ------------------------------------------------------------------

  ghost predicate JustBorn(d: Driver, o: Opening) {
    && o.sid < d.nextSid && o.id < |d.mail| && o.sid in d.pending
    && View(d, o.sid, o.id) == Born(o.id, d.pending[o.sid].deadline)
  }

  /** Existing streams and mailboxes are unchanged; added openings are new streams. */
  ghost predicate Grows(d: Driver, d': Driver) {
    && d.nextSid <= d'.nextSid && |d.mail| <= |d'.mail|
    && (forall sid :: sid < d.nextSid ==>
          (sid in d.pending <==> sid in d'.pending) && (sid in d.pending ==> d'.pending[sid] == d.pending[sid]))
    && (forall id :: 0 <= id < |d.mail| && d.mail[id] != Unopened ==> d'.mail[id] == d.mail[id])
    && d.openings <= d'.openings
    && (forall i :: |d.openings| <= i < |d'.openings| ==> JustBorn(d', d'.openings[i]))
  }

  lemma GrowsTrans(a: Driver, b: Driver, c: Driver)
    requires Grows(a, b) && Grows(b, c)
    ensures Grows(a, c)
  {
    forall i | |a.openings| <= i < |b.openings| ensures JustBorn(c, b.openings[i]) {
      var o := b.openings[i];
      assert JustBorn(b, o);
      assert View(c, o.sid, o.id) == View(b, o.sid, o.id);
    }
  }

  /** A request opens one stream or none. */
  lemma HandleShape(d: Driver, t: Ticket, env: Env, lim: Limits) returns (b: Mailbox, dl: Option<Instant>)
    requires t.id < |d.mail| && d.mail[t.id] == Unopened && !t.cmd.Shutdown?
    ensures var d' := Handle(d, t, env, lim);
            && d.nextSid <= d'.nextSid
            && if d'.openings == d.openings then d'.pending == d.pending && d'.mail == d.mail[t.id := b]
               else && d'.openings == d.openings + [Opening(d.nextSid, t.id)]
                    && d'.mail == d.mail[t.id := Opened] && d.nextSid < d'.nextSid
                    && d'.pending == d.pending[d.nextSid := Entry(t.id, 0, dl)]
                    && d'.uploads == (if t.cmd.RequestStream? then d.uploads + {d.nextSid} else d.uploads)
  {
    var d' := Handle(d, t, env, lim);
    b := d'.mail[t.id];
    dl := DeadlineFrom(t.cmd, env(d.attempts).now, lim);
  }

  lemma HandleGrows(d: Driver, t: Ticket, env: Env, lim: Limits)
    requires PendingLaw(d.pending, d.mail, d.nextSid)
    requires t.id < |d.mail| && d.mail[t.id] == Unopened && !t.cmd.Shutdown?
    ensures Grows(d, Handle(d, t, env, lim))
  {
    var d' := Handle(d, t, env, lim);
    var b, dl := HandleShape(d, t, env, lim);
    if d'.openings != d.openings {
      assert View(d', d.nextSid, t.id) == Born(t.id, dl);
    }
  }

  lemma TakeGrows(d: Driver, cmd: Cmd, env: Env, lim: Limits)
    requires Inv(d)
    ensures Grows(d, Take(d, cmd, env, lim))
  {
    if !cmd.Shutdown? {
      var d1 := d.(mail := d.mail + [Unopened]);
      HandleGrows(d1, Ticket(|d.mail|, cmd), env, lim);
      GrowsTrans(d, d1, Take(d, cmd, env, lim));
    }
  }

  lemma RetryOneGrows(d: Driver, env: Env, lim: Limits)
    requires Inv(d) && d.deferred != []
    ensures Grows(d, RetryOne(d, env, lim))
  {
    HandleGrows(d.(deferred := d.deferred[1..]), d.deferred[0], env, lim);
  }

  lemma {:induction false} RetryGrows(d: Driver, env: Env, lim: Limits)
    requires Inv(d)
    ensures Grows(d, RetryDeferred(d, env, lim))
    decreases |d.deferred|
  {
    if d.deferred != [] && !LimitReached(d) {
      RetryOneKeeps(d, env, lim);
      RetryOneGrows(d, env, lim);
      var d1 := RetryOne(d, env, lim);
      RetryGrows(d1, env, lim);
      GrowsTrans(d, d1, RetryDeferred(d1, env, lim));
      assert RetryDeferred(d, env, lim) == RetryDeferred(d1, env, lim);
    }
  }

  lemma GrowsView(d: Driver, d': Driver, sid: StreamId, id: RequestId)
    requires Inv(d) && Grows(d, d') && Owned(d, sid, id)
    ensures View(d', sid, id) == View(d, sid, id) && Owned(d', sid, id)
  {
  }

  // ------------------------------------------------------------------
  // Other steps react stream by stream
  // ------------------------------------------------------------------

  function ReactMaybe(s: Stream, x: Option<Stimulus>, lim: Limits): Stream {
    if x.Some? then React(s, x.value, lim) else s
  }

  lemma KillView(d: Driver, sids: set<StreamId>, e: Error, sid: StreamId, id: RequestId, lim: Limits)
    requires Inv(d) && Owned(d, sid, id)
    ensures var d' := KillAll(d, sids, e);
            && Owned(d', sid, id)
            && View(d', sid, id) == if sid in sids then React(View(d, sid, id), Abort(e), lim) else View(d, sid, id)
  {
    if sid in d.pending {
      assert id in IdsOf(d.pending, sids) <==> sid in sids;
    } else {
      assert id !in IdsOf(d.pending, sids);
    }
  }

  lemma TouchView(d: Driver, at: StreamId, x: Stimulus, sid: StreamId, id: RequestId, lim: Limits)
    requires Inv(d) && Owned(d, sid, id) && at in d.pending
    ensures var d' := Touch(d, at, x, lim);
            && Owned(d', sid, id)
            && View(d', sid, id) == if sid == at then React(View(d, sid, id), x, lim) else View(d, sid, id)
  {
    var e := d.pending[at];
    ReactBox(e, d.mail[e.id], x, lim);
  }

  lemma DispatchView(d: Driver, ev: Event, now: Instant, sid: StreamId, id: RequestId, lim: Limits)
    requires Inv(d) && Owned(d, sid, id)
    ensures var d' := DispatchEvent(d, ev, now, lim);
            Owned(d', sid, id) && View(d', sid, id) == ReactMaybe(View(d, sid, id), EventStimulus(ev, now, sid), lim)
  {
    match ev
    case OtherEv =>
    case GoAwayEv(code, last) =>
      KillView(d.(goaway := true, accepting := false), SidsAbove(d, last), Peer(code), sid, id, lim);
    case _ =>
      if ev.sid in d.pending {
        TouchView(d, ev.sid, EventStimulus(ev, now, ev.sid).value, sid, id, lim);
      }
  }

  lemma CleanupView(d: Driver, sid: StreamId, id: RequestId, env: Env, lim: Limits)
    requires Inv(d) && Owned(d, sid, id)
    ensures var d' := Next(d, Cleanup, env, lim);
            Owned(d', sid, id) && View(d', sid, id) == React(View(d, sid, id), Abort(Canceled), lim)
  {
    var d1 := d.(running := false);
    var d2 := KillAll(d1, d1.pending.Keys, Canceled);
    KillView(d1, d1.pending.Keys, Canceled, sid, id, lim);
    KillKeeps(d1, d1.pending.Keys, Canceled);
    var d3 := DropDeferred(d2);
    forall t | t in d2.deferred ensures t.id != id {
      var i :| 0 <= i < |d2.deferred| && d2.deferred[i] == t;
      assert d2.mail[t.id] == Unopened;
    }
    assert d3.mail[id] == d2.mail[id];
  }

  lemma ExpireView(d: Driver, now: Instant, sid: StreamId, id: RequestId, lim: Limits)
    requires Inv(d) && Owned(d, sid, id)
    ensures var d' := ExpireAll(d, now);
            Owned(d', sid, id) && View(d', sid, id) == React(View(d, sid, id), Clock(now), lim)
  {
    KillView(d, ExpiredSids(d, now), TimedOut, sid, id, lim);
  }

  lemma StepView(d: Driver, step: Step, sid: StreamId, id: RequestId, env: Env, lim: Limits)
    requires Inv(d) && Owned(d, sid, id)
    ensures var d' := Next(d, step, env, lim);
            Owned(d', sid, id) && View(d', sid, id) == ReactMaybe(View(d, sid, id), StepStimulus(step, sid), lim)
  {
    match step
    case Receive(cmd) =>
      TakeGrows(d, cmd, env, lim);
      GrowsView(d, Next(d, step, env, lim), sid, id);
    case Retry =>
      RetryGrows(d, env, lim);
      GrowsView(d, Next(d, step, env, lim), sid, id);
    case Dispatch(ev, now) => DispatchView(d, ev, now, sid, id, lim);
    case Expire(now) => ExpireView(d, now, sid, id, lim);
    case Fail(e) => KillView(d.(accepting := false), d.pending.Keys, e, sid, id, lim);
    case Cleanup => CleanupView(d, sid, id, env, lim);
    case _ =>
  }

  // ------------------------------------------------------------------
  // Whole runs
  // ------------------------------------------------------------------

  /** Step `k` of the run is the one that opened stream `o.sid` for request `o.id`. */
  ghost predicate BornAt(d: Driver, steps: seq<Step>, o: Opening, k: nat, env: Env, lim: Limits) {
    && OpensAt(d, steps, o, k, env, lim)
    && JustBorn(Exec(d, steps[..k], env, lim), o)
  }

  /** The opening appears after `k` steps and not before. */
  ghost predicate OpensAt(d: Driver, steps: seq<Step>, o: Opening, k: nat, env: Env, lim: Limits) {
    && k <= |steps|
    && o in Exec(d, steps[..k], env, lim).openings
    && (k > 0 ==> o !in Exec(d, steps[..k - 1], env, lim).openings)
  }

  /** The deadline a stream was opened with. */
  function FirstDeadline(d: Driver, steps: seq<Step>, o: Opening, k: nat, env: Env, lim: Limits): Option<Instant>
    requires k <= |steps|
  {
    var born := Exec(d, steps[..k], env, lim);
    if o.sid in born.pending then born.pending[o.sid].deadline else None
  }

  /** The stream is what its own stimuli since its opening at step `k` make of it. */
  ghost predicate ToldSince(d: Driver, steps: seq<Step>, o: Opening, k: nat, env: Env, lim: Limits) {
    && BornAt(d, steps, o, k, env, lim)
    && View(Exec(d, steps, env, lim), o.sid, o.id)
       == ReactAll(Born(o.id, FirstDeadline(d, steps, o, k, env, lim)), Project(steps[k..], o.sid), lim)
  }

  /** The story of one stream, told from its opening. */
  ghost predicate Told(d: Driver, steps: seq<Step>, o: Opening, env: Env, lim: Limits) {
    exists k: nat :: ToldSince(d, steps, o, k, env, lim)
  }

  ghost predicate AllOwned(d: Driver) {
    forall i :: 0 <= i < |d.openings| ==> Owned(d, d.openings[i].sid, d.openings[i].id)
  }

  lemma ProjectSnoc(steps: seq<Step>, step: Step, sid: StreamId)
    ensures Project(steps + [step], sid) ==
            Project(steps, sid) + if StepStimulus(step, sid).Some? then [StepStimulus(step, sid).value] else []
  {
    assert (steps + [step])[..|steps|] == steps;
  }

  /** An opening stays where it was when the run goes on. */
  lemma BornAtGoesOn(d: Driver, steps: seq<Step>, step: Step, o: Opening, k: nat, env: Env, lim: Limits)
    requires BornAt(d, steps, o, k, env, lim)
    ensures BornAt(d, steps + [step], o, k, env, lim)
    ensures FirstDeadline(d, steps + [step], o, k, env, lim) == FirstDeadline(d, steps, o, k, env, lim)
  {
    assert (steps + [step])[..k] == steps[..k];
    if k > 0 { assert (steps + [step])[..k - 1] == steps[..k - 1]; }
  }

  lemma ReactOnce(s: Stream, xs: seq<Stimulus>, x: Option<Stimulus>, lim: Limits)
    ensures ReactAll(s, xs + (if x.Some? then [x.value] else []), lim) == ReactMaybe(ReactAll(s, xs, lim), x, lim)
  {
    if x.Some? {
      assert (xs + [x.value])[..|xs|] == xs;
    } else {
      assert xs + [] == xs;
    }
  }

  lemma ToldGoesOn(d: Driver, steps: seq<Step>, step: Step, o: Opening, k: nat, env: Env, lim: Limits)
    requires Inv(Exec(d, steps, env, lim)) && Owned(Exec(d, steps, env, lim), o.sid, o.id)
    requires ToldSince(d, steps, o, k, env, lim)
    ensures ToldSince(d, steps + [step], o, k, env, lim)
    ensures Owned(Exec(d, steps + [step], env, lim), o.sid, o.id)
  {
    var d1 := Exec(d, steps, env, lim);
    assert Exec(d, steps + [step], env, lim) == Next(d1, step, env, lim) by {
      assert (steps + [step])[..|steps|] == steps;
    }
    BornAtGoesOn(d, steps, step, o, k, env, lim);
    StepView(d1, step, o.sid, o.id, env, lim);
    assert (steps + [step])[k..] == steps[k..] + [step];
    ProjectSnoc(steps[k..], step, o.sid);
    ReactOnce(Born(o.id, FirstDeadline(d, steps, o, k, env, lim)), Project(steps[k..], o.sid),
              StepStimulus(step, o.sid), lim);
  }

  /** Only commands open streams, and what they open is new. */
  lemma StepOpens(d: Driver, step: Step, env: Env, lim: Limits)
    requires Inv(d)
    ensures var d' := Next(d, step, env, lim);
            && d.openings <= d'.openings
            && forall i :: |d.openings| <= i < |d'.openings| ==> JustBorn(d', d'.openings[i])
  {
    if step.Receive? {
      TakeGrows(d, step.cmd, env, lim);
    } else if step.Retry? {
      RetryGrows(d, env, lim);
    }
  }

  lemma OpeningsDiffer(d: Driver, i: nat, n: nat)
    requires Inv(d) && n <= i < |d.openings|
    ensures d.openings[i] !in d.openings[..n]
  {
  }

  /** One step after a story law: old openings go on, new ones begin. */
  lemma StoryStep(d: Driver, before: seq<Step>, step: Step, i: nat, env: Env, lim: Limits)
    requires var d1 := Exec(d, before, env, lim);
             && Inv(d1) && AllOwned(d1)
             && forall j :: 0 <= j < |d1.openings| ==> Told(d, before, d1.openings[j], env, lim)
    requires Inv(Exec(d, before + [step], env, lim)) && i < |Exec(d, before + [step], env, lim).openings|
    ensures var d2 := Exec(d, before + [step], env, lim);
            Told(d, before + [step], d2.openings[i], env, lim) && Owned(d2, d2.openings[i].sid, d2.openings[i].id)
  {
    var steps := before + [step];
    assert steps[..|before|] == before;
    var d1, d2 := Exec(d, before, env, lim), Exec(d, steps, env, lim);
    var o := d2.openings[i];
    StepOpens(d1, step, env, lim);
    if i < |d1.openings| {
      assert o == d1.openings[i];
      var k: nat :| ToldSince(d, before, o, k, env, lim);
      ToldGoesOn(d, before, step, o, k, env, lim);
    } else {
      assert d2.openings[..|d1.openings|] == d1.openings;
      OpeningsDiffer(d2, i, |d1.openings|);
      BornIsTold(d, steps, o, env, lim);
    }
  }

  lemma {:induction false} StoryLaw(d: Driver, steps: seq<Step>, env: Env, lim: Limits)
    requires Inv(d) && Legal(d, steps, env, lim)
    requires forall i :: 0 <= i < |d.openings| ==> JustBorn(d, d.openings[i])
    ensures AllOwned(Exec(d, steps, env, lim))
    ensures forall i :: 0 <= i < |Exec(d, steps, env, lim).openings|
              ==> Told(d, steps, Exec(d, steps, env, lim).openings[i], env, lim)
  {
    if steps == [] {
      forall i | 0 <= i < |d.openings| ensures Told(d, steps, d.openings[i], env, lim) {
        BornIsTold(d, steps, d.openings[i], env, lim);
      }
    } else {
      var n := |steps| - 1;
      var before, step := steps[..n], steps[n];
      assert steps == before + [step];
      LegalSplit(d, before, [step], env, lim);
      StoryLaw(d, before, env, lim);
      ExecKeeps(d, before, env, lim);
      ExecKeeps(d, steps, env, lim);
      var d2 := Exec(d, steps, env, lim);
      forall i | 0 <= i < |d2.openings|
        ensures Told(d, steps, d2.openings[i], env, lim) && Owned(d2, d2.openings[i].sid, d2.openings[i].id)
      {
        StoryStep(d, before, step, i, env, lim);
      }
    }
  }

  lemma BornIsTold(d: Driver, steps: seq<Step>, o: Opening, env: Env, lim: Limits)
    requires JustBorn(Exec(d, steps, env, lim), o) && o in Exec(d, steps, env, lim).openings
    requires steps != [] ==> o !in Exec(d, steps[..|steps| - 1], env, lim).openings
    ensures Told(d, steps, o, env, lim)
  {
    var n := |steps|;
    assert steps[..n] == steps && steps[n..] == [];
    assert ToldSince(d, steps, o, n, env, lim);
  }

  // ------------------------------------------------------------------
  // The opening is one step of the run
  // ------------------------------------------------------------------

  lemma {:induction false} OpeningsStay(d: Driver, steps: seq<Step>, k: nat, env: Env, lim: Limits)
    requires Inv(d) && Legal(d, steps, env, lim) && k <= |steps|
    ensures Exec(d, steps[..k], env, lim).openings <= Exec(d, steps, env, lim).openings
  {
    if k == |steps| {
      assert steps[..k] == steps;
    } else {
      var n := |steps| - 1;
      assert steps == steps[..n] + [steps[n]];
      LegalSplit(d, steps[..n], [steps[n]], env, lim);
      assert steps[..n][..k] == steps[..k];
      OpeningsStay(d, steps[..n], k, env, lim);
      ExecKeeps(d, steps[..n], env, lim);
      StepOpens(Exec(d, steps[..n], env, lim), steps[n], env, lim);
    }
  }

  /** What was opened before step `j` is still on the list before step `k`. */
  lemma OpenedEarlier(d: Driver, steps: seq<Step>, o: Opening, j: nat, k: nat, env: Env, lim: Limits)
    requires Inv(d) && Legal(d, steps, env, lim) && j <= k <= |steps|
    requires o in Exec(d, steps[..j], env, lim).openings
    ensures o in Exec(d, steps[..k], env, lim).openings
  {
    var before := steps[..k];
    assert steps == before + steps[k..];
    LegalSplit(d, before, steps[k..], env, lim);
    assert before[..j] == steps[..j];
    OpeningsStay(d, before, j, env, lim);
  }

  /** A stream is opened by one step only, so its story has one beginning. */
  lemma BirthIsUnique(d: Driver, steps: seq<Step>, o: Opening, j: nat, k: nat, env: Env, lim: Limits)
    requires Inv(d) && Legal(d, steps, env, lim) && j < k <= |steps|
    requires o in Exec(d, steps[..j], env, lim).openings
    ensures !OpensAt(d, steps, o, k, env, lim)
  {
    OpenedEarlier(d, steps, o, j, k - 1, env, lim);
  }
}
