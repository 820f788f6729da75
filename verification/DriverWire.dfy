/**
  The streams a client has in use on the wire, next to the table the driver
  counts (`stream_limit_reached`, src/courierust_client/h2.rs). A stream is in
  use, as section 5.1.2 of RFC 9113 counts it, from its HEADERS until both
  halves have ended or either side has reset it.
 */
module DriverWire {
  import opened Basics
  import opened StreamLife
  import opened Liveness
  import opened DriverSpec
  import opened DriverLaws

  datatype Wire = Wire(
    local: set<StreamId>,       // our half has not ended
    remote: set<StreamId>,      // the peer's half has not ended
    orphans: set<StreamId>,     // the peer's half goes on, but the driver forgot the stream
    sent: nat)                  // requests put on the wire

  /** Which of our halves end during each poll: flow control decides. */
  type Flushes = nat -> set<StreamId>

  function InUse(w: Wire): set<StreamId> {
    w.local + w.remote
  }

  function RemoteEnds(w: Wire, sid: StreamId): Wire {
    w.(remote := w.remote - {sid}, orphans := w.orphans - {sid})
  }

  /** RST_STREAM in either direction. */
  function Gone(w: Wire, sids: set<StreamId>): Wire {
    w.(local := w.local - sids, remote := w.remote - sids, orphans := w.orphans - sids)
  }

  /** Whether HEADERS carry END_STREAM. */
  predicate Bodiless(cmd: Cmd) {
    cmd.Request? && cmd.body.None? && cmd.endStream
  }

  /** Whether handling a request puts HEADERS on the wire, even if the request is then refused. */
  predicate SendsHead(d: Driver, env: Env) {
    && !d.goaway && !LimitReached(d) && d.nextSid <= MAX_STREAM_ID
    && !env(d.attempts).outcome.RefuseOpen? && !env(d.attempts).outcome.RefuseHeaders?
  }

  function WireHandle(w: Wire, d: Driver, t: Ticket, env: Env): Wire {
    if !SendsHead(d, env) then w
    else
      var sid := d.nextSid;
      w.(local := if Bodiless(t.cmd) then w.local else w.local + {sid},
         remote := w.remote + {sid},
         orphans := if Refusal(t.cmd, env(d.attempts).outcome).Some? then w.orphans + {sid} else w.orphans,
         sent := w.sent + 1)
  }

  function WireTake(w: Wire, d: Driver, cmd: Cmd, env: Env): Wire {
    if cmd.Shutdown? then w else WireHandle(w, d.(mail := d.mail + [Unopened]), Ticket(|d.mail|, cmd), env)
  }

  function WireRetry(w: Wire, d: Driver, env: Env, lim: Limits): Wire
    decreases |d.deferred|
  {
    if d.deferred == [] || LimitReached(d) || d.deferred[0].cmd.Shutdown? then w
    else
      var t, rest := d.deferred[0], d.(deferred := d.deferred[1..]);
      WireRetry(WireHandle(w, rest, t, env), Handle(rest, t, env, lim), env, lim)
  }

  function WireDispatch(w: Wire, d: Driver, ev: Event, lim: Limits): Wire {
    match ev
    case HeadersEv(sid, head, end) =>
      if end then RemoteEnds(w, sid)
      else if sid in d.pending && head.None? then w.(orphans := w.orphans + {sid})
      else w
    case DataEv(sid, _, end) =>
      if Overflows(d, ev, lim) then Gone(w, {sid}) else if end then RemoteEnds(w, sid) else w
    case TrailersEv(sid, _) => RemoteEnds(w, sid)
    case RstEv(sid, _) => Gone(w, {sid})
    case StreamErrorEv(sid, _) => Gone(w, {sid})
    case GoAwayEv(_, last) => Gone(w, set sid | sid in InUse(w) && sid > last)
    case OtherEv => w
  }

  function WireNext(w: Wire, d: Driver, step: Step, flushed: set<StreamId>, env: Env, lim: Limits): Wire {
    match step
    case Receive(cmd) => WireTake(w, d, cmd, env)
    case Retry => WireRetry(w, d, env, lim)
    case Polled(_, _) => w.(local := w.local - flushed)
    case Dispatch(ev, _) => WireDispatch(w, d, ev, lim)
    case Expire(now) => Gone(w, ExpiredSids(d, now))
    case Fail(_) => Wire({}, {}, {}, w.sent)
    case Cleanup => Wire({}, {}, {}, w.sent)
    case _ => w
  }

  function WireExec(w: Wire, d: Driver, steps: seq<Step>, flushes: Flushes, env: Env, lim: Limits): Wire {
    if steps == [] then w
    else
      var n := |steps| - 1;
      WireNext(WireExec(w, d, steps[..n], flushes, env, lim), Exec(d, steps[..n], env, lim), steps[n], flushes(n), env, lim)
  }

  function WireStart(upgraded: bool): Wire {
    if upgraded then Wire({}, {1}, {}, 1) else Wire({}, {}, {}, 0)
  }

  // ------------------------------------------------------------------
  // The table against the wire
  // ------------------------------------------------------------------

  /** The table holds the streams whose response goes on, except the forgotten ones. */
  ghost predicate Agrees(w: Wire, table: set<StreamId>, nextSid: nat) {
    && w.remote == table + w.orphans
    && w.orphans !! table
    && (forall sid :: sid in w.local ==> sid < nextSid)
    && (forall sid :: sid in w.remote ==> sid < nextSid)
  }

  ghost predicate WireLaw(w: Wire, d: Driver) {
    Agrees(w, d.pending.Keys, d.nextSid)
  }

  /** What handling a command does to the table. */
  ghost predicate TableAfter(d: Driver, t: Ticket, env: Env, d': Driver) {
    if !SendsHead(d, env) then d'.pending == d.pending && d'.nextSid >= d.nextSid
    else
      && d'.nextSid == d.nextSid + 2
      && d'.pending.Keys ==
         if Refusal(t.cmd, env(d.attempts).outcome).Some? then d.pending.Keys else d.pending.Keys + {d.nextSid}
  }

  lemma OpenTable(d: Driver, t: Ticket, env: Env, lim: Limits)
    requires !t.cmd.Shutdown? && !d.goaway && !LimitReached(d)
    ensures TableAfter(d, t, env, Open(d, t, env, lim))
  {
  }

  lemma HandleTable(d: Driver, t: Ticket, env: Env, lim: Limits)
    requires !t.cmd.Shutdown?
    ensures TableAfter(d, t, env, Handle(d, t, env, lim))
  {
    if !d.goaway && !LimitReached(d) { OpenTable(d, t, env, lim); }
  }

  lemma HandleWire(w: Wire, d: Driver, t: Ticket, env: Env, lim: Limits)
    requires WireLaw(w, d) && !t.cmd.Shutdown?
    ensures WireLaw(WireHandle(w, d, t, env), Handle(d, t, env, lim))
  {
    HandleTable(d, t, env, lim);
  }

  /** Handling a command puts at most one new stream on the wire. */
  lemma HandleUses(w: Wire, d: Driver, t: Ticket, env: Env)
    requires WireLaw(w, d)
    ensures var w' := WireHandle(w, d, t, env);
            && w.sent <= w'.sent <= w.sent + 1
            && |InUse(w')| == |InUse(w)| + (w'.sent - w.sent)
  {
    var w' := WireHandle(w, d, t, env);
    if w'.sent > w.sent {
      assert InUse(w') == InUse(w) + {d.nextSid};
      assert d.nextSid !in InUse(w);
    }
  }

  /** The first command of the queue is handled, and the retry goes on from there. */
  lemma RetryFirst(w: Wire, d: Driver, env: Env, lim: Limits) returns (w1: Wire, d1: Driver)
    requires WireLaw(w, d) && d.deferred != [] && !LimitReached(d) && !d.deferred[0].cmd.Shutdown?
    ensures |d1.deferred| < |d.deferred| && WireLaw(w1, d1)
    ensures RetryDeferred(d, env, lim) == RetryDeferred(d1, env, lim)
    ensures WireRetry(w, d, env, lim) == WireRetry(w1, d1, env, lim)
    ensures w.sent <= w1.sent && |InUse(w1)| == |InUse(w)| + (w1.sent - w.sent)
  {
    var t, rest := d.deferred[0], d.(deferred := d.deferred[1..]);
    HandleWire(w, rest, t, env, lim);
    HandleUses(w, rest, t, env);
    w1, d1 := WireHandle(w, rest, t, env), RetryOne(d, env, lim);
    RetryGoesOn(w, d, env, lim);
  }

  lemma RetryGoesOn(w: Wire, d: Driver, env: Env, lim: Limits)
    requires d.deferred != [] && !LimitReached(d) && !d.deferred[0].cmd.Shutdown?
    ensures var d1 := RetryOne(d, env, lim);
            var w1 := WireHandle(w, d.(deferred := d.deferred[1..]), d.deferred[0], env);
            && |d1.deferred| < |d.deferred|
            && RetryDeferred(d, env, lim) == RetryDeferred(d1, env, lim)
            && WireRetry(w, d, env, lim) == WireRetry(w1, d1, env, lim)
  {
  }

  /** A retry keeps the law, and each request it puts on the wire is one more stream in use. */
  lemma {:induction false} RetryWire(w: Wire, d: Driver, env: Env, lim: Limits)
    requires WireLaw(w, d)
    ensures WireLaw(WireRetry(w, d, env, lim), RetryDeferred(d, env, lim))
    ensures w.sent <= WireRetry(w, d, env, lim).sent
    ensures |InUse(WireRetry(w, d, env, lim))| == |InUse(w)| + (WireRetry(w, d, env, lim).sent - w.sent)
    decreases |d.deferred|
  {
    if d.deferred != [] && !LimitReached(d) && !d.deferred[0].cmd.Shutdown? {
      var w1, d1 := RetryFirst(w, d, env, lim);
      RetryWire(w1, d1, env, lim);
    }
  }

  /** Whether an event for a pending stream leaves it pending. */
  predicate Survives(d: Driver, ev: Event, lim: Limits) {
    (ev.HeadersEv? && ev.head.Some? && !ev.end) || (ev.DataEv? && !ev.end && !Overflows(d, ev, lim))
  }

  lemma ReactSurvives(d: Driver, ev: Event, now: Instant, lim: Limits)
    requires !ev.OtherEv? && !ev.GoAwayEv? && ev.sid in d.pending
    ensures var e := d.pending[ev.sid];
            React(Live(e, Box(d.mail, e.id)), EventStimulus(ev, now, ev.sid).value, lim).Live? <==> Survives(d, ev, lim)
  {
  }

  lemma TouchTable(d: Driver, sid: StreamId, x: Stimulus, lim: Limits)
    requires sid in d.pending
    ensures var e := d.pending[sid];
            Touch(d, sid, x, lim).pending.Keys ==
              if React(Live(e, Box(d.mail, e.id)), x, lim).Live? then d.pending.Keys else d.pending.Keys - {sid}
  {
  }

  lemma DispatchTable(d: Driver, ev: Event, now: Instant, lim: Limits)
    requires !ev.OtherEv? && !ev.GoAwayEv?
    ensures var d' := DispatchEvent(d, ev, now, lim);
            && d'.nextSid == d.nextSid
            && d'.pending.Keys == if Survives(d, ev, lim) then d.pending.Keys else d.pending.Keys - {ev.sid}
  {
    if ev.sid in d.pending {
      ReactSurvives(d, ev, now, lim);
      TouchTable(d, ev.sid, EventStimulus(ev, now, ev.sid).value, lim);
    }
  }

  lemma DispatchWire(w: Wire, d: Driver, ev: Event, now: Instant, lim: Limits)
    requires WireLaw(w, d)
    ensures WireLaw(WireDispatch(w, d, ev, lim), DispatchEvent(d, ev, now, lim))
  {
    match ev
    case OtherEv =>
    case GoAwayEv(code, last) =>
      assert DispatchEvent(d, ev, now, lim).pending == d.pending - SidsAbove(d, last);
    case _ => DispatchTable(d, ev, now, lim);
  }

  lemma NextWire(w: Wire, d: Driver, step: Step, flushed: set<StreamId>, env: Env, lim: Limits)
    requires WireLaw(w, d)
    ensures WireLaw(WireNext(w, d, step, flushed, env, lim), Next(d, step, env, lim))
  {
    match step
    case Receive(cmd) => ReceiveWire(w, d, cmd, env, lim);
    case Retry => RetryWire(w, d, env, lim);
    case Dispatch(ev, now) => DispatchWire(w, d, ev, now, lim);
    case Expire(now) => ExpireWire(w, d, now);
    case Fail(e) => assert Next(d, step, env, lim).pending.Keys == {};
    case Cleanup => assert Next(d, step, env, lim).pending.Keys == {};
    case _ =>
  }

  lemma ReceiveWire(w: Wire, d: Driver, cmd: Cmd, env: Env, lim: Limits)
    requires WireLaw(w, d)
    ensures WireLaw(WireTake(w, d, cmd, env), Take(d, cmd, env, lim))
  {
    if !cmd.Shutdown? {
      HandleWire(w, d.(mail := d.mail + [Unopened]), Ticket(|d.mail|, cmd), env, lim);
    }
  }

  lemma ExpireWire(w: Wire, d: Driver, now: Instant)
    requires WireLaw(w, d)
    ensures WireLaw(Gone(w, ExpiredSids(d, now)), ExpireAll(d, now))
  {
    assert ExpireAll(d, now).pending == d.pending - ExpiredSids(d, now);
  }

  lemma {:induction false} ExecWire(w: Wire, d: Driver, steps: seq<Step>, flushes: Flushes, env: Env, lim: Limits)
    requires WireLaw(w, d)
    ensures WireLaw(WireExec(w, d, steps, flushes, env, lim), Exec(d, steps, env, lim))
  {
    if steps != [] {
      var n := |steps| - 1;
      ExecWire(w, d, steps[..n], flushes, env, lim);
      NextWire(WireExec(w, d, steps[..n], flushes, env, lim), Exec(d, steps[..n], env, lim), steps[n], flushes(n), env, lim);
    }
  }

  // ------------------------------------------------------------------
  // What the limit does not count
  // ------------------------------------------------------------------

  /**
    Streams in use that the table does not hold: our half is still going out,
    or the driver forgot the stream while the peer's half goes on.
   */
  function Lingering(w: Wire, d: Driver): set<StreamId> {
    w.local + w.orphans - d.pending.Keys
  }

  lemma CountInUse(w: Wire, d: Driver)
    requires WireLaw(w, d)
    ensures |InUse(w)| == |d.pending| + |Lingering(w, d)|
  {
    assert InUse(w) == d.pending.Keys + Lingering(w, d);
    assert |d.pending| == |d.pending.Keys|;
  }

  lemma TableCount(w: Wire, d: Driver)
    requires WireLaw(w, d)
    ensures d.pending.Keys <= InUse(w) && |InUse(w)| == |d.pending| + |Lingering(w, d)|
    ensures |d.pending| == |InUse(w)| <==> Lingering(w, d) == {}
  {
    CountInUse(w, d);
  }

  /**
    The driver takes its table for the client's count of concurrent streams.
    In every run, at every step, the two agree exactly when nothing lingers.
   */
  lemma TableIsTheCountExactly(
    upgraded: bool, now: Instant, limit: nat, steps: seq<Step>, flushes: Flushes, env: Env, lim: Limits)
    ensures var d0 := Start(upgraded, now, limit, lim);
            var d := Exec(d0, steps, env, lim);
            var w := WireExec(WireStart(upgraded), d0, steps, flushes, env, lim);
            && d.pending.Keys <= InUse(w)
            && |InUse(w)| == |d.pending| + |Lingering(w, d)|
            && (|d.pending| == |InUse(w)| <==> Lingering(w, d) == {})
  {
    var d0 := Start(upgraded, now, limit, lim);
    ExecWire(WireStart(upgraded), d0, steps, flushes, env, lim);
    TableCount(WireExec(WireStart(upgraded), d0, steps, flushes, env, lim), Exec(d0, steps, env, lim));
  }

  /**
    How many requests of a queue a retry puts on the wire: `held` streams are in
    the table, `sid` and `attempt` come next.
   */
  function HeadsIn(queue: seq<Ticket>, held: nat, limit: nat, sid: nat, attempt: nat, env: Env): nat
    decreases |queue|
  {
    if queue == [] || (limit != 0 && held >= limit) || queue[0].cmd.Shutdown? then 0
    else
      var o := env(attempt).outcome;
      if o.RefuseOpen? || sid > MAX_STREAM_ID then HeadsIn(queue[1..], held, limit, sid, attempt + 1, env)
      else
        var taken := if Refusal(queue[0].cmd, o).None? then held + 1 else held;
        (if o.RefuseHeaders? then 0 else 1) + HeadsIn(queue[1..], taken, limit, sid + 2, attempt + 1, env)
  }

  function QueueHeads(d: Driver, env: Env): nat {
    if d.goaway then 0 else HeadsIn(d.deferred, |d.pending|, d.limit, d.nextSid, d.attempts, env)
  }

  /** How many requests a step will put on the wire, from the state before it and the connection's answers. */
  function NewHeads(d: Driver, step: Step, env: Env): nat {
    match step
    case Receive(cmd) => if !cmd.Shutdown? && SendsHead(d, env) then 1 else 0
    case Retry => QueueHeads(d, env)
    case _ => 0
  }

  /** What opening leaves behind, in numbers. */
  lemma OpenCounts(d: Driver, t: Ticket, env: Env, lim: Limits)
    requires !t.cmd.Shutdown? && d.nextSid !in d.pending
    ensures var d', o := Open(d, t, env, lim), env(d.attempts).outcome;
            && d'.deferred == d.deferred && d'.limit == d.limit && d'.goaway == d.goaway && d'.attempts == d.attempts + 1
            && d'.nextSid == (if o.RefuseOpen? || d.nextSid > MAX_STREAM_ID then d.nextSid else d.nextSid + 2)
            && |d'.pending| == if !o.RefuseOpen? && d.nextSid <= MAX_STREAM_ID && Refusal(t.cmd, o).None?
                               then |d.pending| + 1 else |d.pending|
  {
  }

  lemma RetryOneHeads(w: Wire, d: Driver, env: Env, lim: Limits)
    requires WireLaw(w, d) && d.deferred != [] && !LimitReached(d) && !d.deferred[0].cmd.Shutdown?
    ensures var w1 := WireHandle(w, d.(deferred := d.deferred[1..]), d.deferred[0], env);
            w1.sent + QueueHeads(RetryOne(d, env, lim), env) == w.sent + QueueHeads(d, env)
  {
    var rest, t := d.(deferred := d.deferred[1..]), d.deferred[0];
    if d.goaway {
      assert RetryOne(d, env, lim) == Answer(rest, t.id, Canceled);
    } else {
      OpenCounts(rest, t, env, lim);
      assert RetryOne(d, env, lim) == Open(rest, t, env, lim);
      HeadsOne(d, Open(rest, t, env, lim), t, env);
    }
  }

  lemma HeadsOne(d: Driver, d': Driver, t: Ticket, env: Env)
    requires d.deferred != [] && d.deferred[0] == t && !t.cmd.Shutdown? && !LimitReached(d) && !d.goaway
    requires d'.deferred == d.deferred[1..] && d'.limit == d.limit && !d'.goaway && d'.attempts == d.attempts + 1
    requires var o := env(d.attempts).outcome;
             && d'.nextSid == (if o.RefuseOpen? || d.nextSid > MAX_STREAM_ID then d.nextSid else d.nextSid + 2)
             && |d'.pending| == if !o.RefuseOpen? && d.nextSid <= MAX_STREAM_ID && Refusal(t.cmd, o).None?
                                then |d.pending| + 1 else |d.pending|
    ensures QueueHeads(d, env) == QueueHeads(d', env) + if SendsHead(d, env) then 1 else 0
  {
  }

  lemma {:induction false} RetryHeads(w: Wire, d: Driver, env: Env, lim: Limits)
    requires WireLaw(w, d)
    ensures WireRetry(w, d, env, lim).sent == w.sent + QueueHeads(d, env)
    decreases |d.deferred|
  {
    if d.deferred != [] && !LimitReached(d) && !d.deferred[0].cmd.Shutdown? {
      RetryOneHeads(w, d, env, lim);
      RetryGoesOn(w, d, env, lim);
      HandleWire(w, d.(deferred := d.deferred[1..]), d.deferred[0], env, lim);
      RetryHeads(WireHandle(w, d.(deferred := d.deferred[1..]), d.deferred[0], env), RetryOne(d, env, lim), env, lim);
    }
  }

  /**
    After any step of any run that puts requests on the wire, the streams in use
    are within the peer's limit exactly when the pending streams, the lingering
    ones and the ones the step is about to open were within it together.
   */
  lemma LimitHoldsExactly(
    upgraded: bool, now: Instant, limit: nat, steps: seq<Step>, flushes: Flushes, step: Step, env: Env, lim: Limits)
    ensures var d0 := Start(upgraded, now, limit, lim);
            var d := Exec(d0, steps, env, lim);
            var w := WireExec(WireStart(upgraded), d0, steps, flushes, env, lim);
            var w' := WireNext(w, d, step, flushes(|steps|), env, lim);
            var more := NewHeads(d, step, env);
            && w'.sent == w.sent + more
            && (more > 0 ==> (|InUse(w')| <= d.limit <==> |d.pending| + |Lingering(w, d)| + more <= d.limit))
  {
    var d0 := Start(upgraded, now, limit, lim);
    var d := Exec(d0, steps, env, lim);
    var w := WireExec(WireStart(upgraded), d0, steps, flushes, env, lim);
    ExecWire(WireStart(upgraded), d0, steps, flushes, env, lim);
    CountInUse(w, d);
    SendingStep(w, d, step, flushes(|steps|), env, lim);
  }

  lemma SendingStep(w: Wire, d: Driver, step: Step, flushed: set<StreamId>, env: Env, lim: Limits)
    requires WireLaw(w, d)
    ensures var w', more := WireNext(w, d, step, flushed, env, lim), NewHeads(d, step, env);
            w'.sent == w.sent + more && (more > 0 ==> |InUse(w')| == |InUse(w)| + more)
  {
    match step
    case Receive(cmd) =>
      if !cmd.Shutdown? { HandleUses(w, d.(mail := d.mail + [Unopened]), Ticket(|d.mail|, cmd), env); }
    case Retry =>
      RetryWire(w, d, env, lim);
      RetryHeads(w, d, env, lim);
    case _ =>
  }

  // ------------------------------------------------------------------
  // A run past the limit
  // ------------------------------------------------------------------

  const Willing: Env := (i: nat) => Attempt(Accept, 0)
  const NoFlush: Flushes := (i: nat) => {}
  const Plain := Config(Limits(0, None), LiveConfig(None, None, None, None))

  /** A pass that takes one command and sees some events. */
  function OnePass(cmd: Cmd, arrivals: seq<Arrival>): Pass {
    Pass([cmd], Elapsed, PollOk(false, 0, 1), arrivals, {}, 0, false, 0, false)
  }

  const EarlyEnd := Arrival(HeadersEv(1, Some(200), true), 0)

  /** Steps that leave driver and wire as they are. */
  ghost predicate Still(d: Driver, step: Step) {
    match step
    case Retry => d.deferred == []
    case Polled(limit, rx) => limit == d.limit && rx.None?
    case UploadsDone(done) => done == {}
    case Expire(now) => forall sid :: sid in d.pending ==> d.pending[sid].deadline.None?
    case Beat(heart) => heart == d.heart
    case _ => false
  }

  lemma StillIsStill(w: Wire, d: Driver, step: Step)
    requires Still(d, step)
    ensures Next(d, step, Willing, Plain.limits) == d && WireNext(w, d, step, {}, Willing, Plain.limits) == w
  {
    if step.Expire? {
      assert ExpiredSids(d, step.now) == {};
      var d' := Next(d, step, Willing, Plain.limits);
      assert IdsOf(d.pending, {}) == {};
      assert d'.mail == d.mail && d'.pending == d.pending && d'.resets == d.resets;
      assert Gone(w, {}) == w;
    }
    if step.Polled? { assert w.local - {} == w.local; }
    if step.UploadsDone? { assert d.uploads - {} == d.uploads; }
  }

  /** The driver and the wire after some steps, while nothing is flushed. */
  ghost predicate Reaches(w: Wire, d: Driver, steps: seq<Step>, w': Wire, d': Driver) {
    Exec(d, steps, Willing, Plain.limits) == d' && WireExec(w, d, steps, NoFlush, Willing, Plain.limits) == w'
  }

  lemma ReachesNext(w: Wire, d: Driver, steps: seq<Step>, step: Step, w1: Wire, d1: Driver, w2: Wire, d2: Driver)
    requires Reaches(w, d, steps, w1, d1)
    requires Next(d1, step, Willing, Plain.limits) == d2 && WireNext(w1, d1, step, {}, Willing, Plain.limits) == w2
    ensures Reaches(w, d, steps + [step], w2, d2)
  {
    assert (steps + [step])[..|steps|] == steps;
  }

  lemma {:induction false} ReachesStill(w: Wire, d: Driver, steps: seq<Step>, more: seq<Step>, w1: Wire, d1: Driver)
    requires Reaches(w, d, steps, w1, d1) && forall i :: 0 <= i < |more| ==> Still(d1, more[i])
    ensures Reaches(w, d, steps + more, w1, d1)
  {
    if more == [] {
      assert steps + more == steps;
    } else {
      var n := |more| - 1;
      ReachesStill(w, d, steps, more[..n], w1, d1);
      StillIsStill(w1, d1, more[n]);
      ReachesNext(w, d, steps + more[..n], more[n], w1, d1, w1, d1);
      assert steps + more[..n] + [more[n]] == steps + more;
    }
  }

  /** A request at a driver with nothing pending. */
  lemma OneMore(w: Wire, d: Driver, cmd: Cmd)
    requires d.pending == map[] && !d.goaway && d.nextSid <= 3
    requires !cmd.Shutdown? && !Bodiless(cmd) && cmd.timeout.None?
    ensures var d' := Next(d, Receive(cmd), Willing, Plain.limits);
            && d'.pending == map[d.nextSid := Entry(|d.mail|, 0, None)] && d'.nextSid == d.nextSid + 2
            && d'.limit == d.limit && !d'.goaway && d'.deferred == d.deferred && d'.running == d.running
            && d'.heart == d.heart && |d'.mail| == |d.mail| + 1
            && WireNext(w, d, Receive(cmd), {}, Willing, Plain.limits)
               == Wire(w.local + {d.nextSid}, w.remote + {d.nextSid}, w.orphans, w.sent + 1)
  {
  }

  /** The response to the only pending request ends. */
  lemma ResponseEnds(w: Wire, d: Driver)
    requires d.pending.Keys == {1}
    ensures var step := Dispatch(EarlyEnd.ev, EarlyEnd.now);
            var d' := Next(d, step, Willing, Plain.limits);
            && d'.pending == map[] && d'.nextSid == d.nextSid && d'.limit == d.limit && d'.goaway == d.goaway
            && d'.deferred == d.deferred && d'.running == d.running && d'.heart == d.heart
            && WireNext(w, d, step, {}, Willing, Plain.limits) == RemoteEnds(w, 1)
  {
    DispatchTable(d, EarlyEnd.ev, 0, Plain.limits);
  }

  /** A driver that has nothing to wait for and no deadline to watch. */
  ghost predicate Calm(d: Driver) {
    && d.deferred == [] && d.limit == 1 && d.running && !d.goaway
    && forall sid :: sid in d.pending ==> d.pending[sid].deadline.None?
  }

  /** The steps of such a pass, given the states it goes through. */
  lemma PassSteps(w: Wire, d: Driver, cmd: Cmd, arrivals: seq<Arrival>, w1: Wire, d1: Driver, w2: Wire, d2: Driver)
    requires Calm(d) && Calm(d1) && Calm(d2) && !cmd.Shutdown?
    requires Next(d, Receive(cmd), Willing, Plain.limits) == d1
    requires WireNext(w, d, Receive(cmd), {}, Willing, Plain.limits) == w1
    requires Reaches(w1, d1, DispatchSteps(arrivals), w2, d2) && |arrivals| <= 1
    ensures Reaches(w, d, TurnSteps(d, OnePass(cmd, arrivals), Willing, Plain), w2, d2)
  {
    var p := OnePass(cmd, arrivals);
    var head := [Retry] + [Receive(cmd)];
    HeadSteps(w, d, cmd, w1, d1);
    ServeReaches(w1, d1, p, w2, d2);
    var tail := ServeSteps(p) + [Beat(d2.heart)];
    assert TailSteps(d1, p, Willing, Plain) == tail;
    ReachesJoin(w, d, head, w1, d1, tail, w2, d2);
    CmdsAre(cmd);
    assert TurnSteps(d, p, Willing, Plain) == head + tail;
  }

  lemma CmdsAre(cmd: Cmd)
    requires !cmd.Shutdown?
    ensures CmdSteps([cmd]) == [Receive(cmd)]
  {
    assert [cmd][1..] == [];
  }

  lemma HeadSteps(w: Wire, d: Driver, cmd: Cmd, w1: Wire, d1: Driver)
    requires Calm(d) && Next(d, Receive(cmd), Willing, Plain.limits) == d1
    requires WireNext(w, d, Receive(cmd), {}, Willing, Plain.limits) == w1
    ensures Reaches(w, d, [Retry] + [Receive(cmd)], w1, d1)
    ensures Exec(d, [Retry], Willing, Plain.limits) == d
  {
    ReachesStill(w, d, [], [Retry], w, d);
    assert [] + [Retry] == [Retry];
    ReachesNext(w, d, [Retry], Receive(cmd), w, d, w1, d1);
  }

  lemma {:induction false} ReachesJoin(
    w: Wire, d: Driver, steps: seq<Step>, w1: Wire, d1: Driver, more: seq<Step>, w2: Wire, d2: Driver)
    requires Reaches(w, d, steps, w1, d1) && Reaches(w1, d1, more, w2, d2)
    ensures Reaches(w, d, steps + more, w2, d2)
    decreases |more|
  {
    if more == [] {
      assert steps + more == steps;
    } else {
      var n := |more| - 1;
      var front := more[..n];
      var wf := WireExec(w1, d1, front, NoFlush, Willing, Plain.limits);
      var df := Exec(d1, front, Willing, Plain.limits);
      ReachesJoin(w, d, steps, w1, d1, front, wf, df);
      ReachesNext(w, d, steps + front, more[n], wf, df, w2, d2);
      assert steps + front + [more[n]] == steps + more;
    }
  }

  lemma ServeReaches(w: Wire, d: Driver, p: Pass, w2: Wire, d2: Driver)
    requires Calm(d) && Calm(d2) && p.poll == PollOk(false, 0, 1) && p.done == {}
    requires Reaches(w, d, DispatchSteps(p.arrivals), w2, d2)
    ensures Reaches(w, d, ServeSteps(p), w2, d2)
    ensures Reaches(w, d, ServeSteps(p) + [Beat(d2.heart)], w2, d2)
  {
    var polled := [Polled(1, None)];
    ReachesStill(w, d, [], polled, w, d);
    assert [] + polled == polled;
    ReachesJoin(w, d, polled, w, d, DispatchSteps(p.arrivals), w2, d2);
    var rest := [UploadsDone({}), Expire(p.clock), Retry];
    ReachesStill(w, d, polled + DispatchSteps(p.arrivals), rest, w2, d2);
    ReachesStill(w, d, ServeSteps(p), [Beat(d2.heart)], w2, d2);
  }

  /**
    Any request with a body, streamed or buffered, whose response ends while the
    body waits for a window lets the client exceed a limit of one: two passes of
    the loop, and two streams are in use.
   */
  lemma LimitCanBeExceeded(cmd: Cmd)
    requires !cmd.Shutdown? && !Bodiless(cmd) && cmd.timeout.None?
    ensures var d0 := Start(false, 0, 1, Plain.limits);
            var ps := [OnePass(cmd, [EarlyEnd]), OnePass(cmd, [])];
            var steps := RunSteps(d0, ps, Willing, Plain);
            && Run(d0, ps, Willing, Plain).limit == 1
            && InUse(WireExec(WireStart(false), d0, steps, NoFlush, Willing, Plain.limits)) == {1, 3}
  {
    var d0, w0 := Start(false, 0, 1, Plain.limits), WireStart(false);
    var p, q := OnePass(cmd, [EarlyEnd]), OnePass(cmd, []);
    var d2, w2 := FirstPass(cmd);
    var d3, w3 := SecondPass(cmd, w2, d2);
    TwoPasses(w0, d0, p, q, w2, d2, w3, d3);
  }

  lemma SecondPass(cmd: Cmd, w: Wire, d: Driver) returns (d1: Driver, w1: Wire)
    requires !cmd.Shutdown? && !Bodiless(cmd) && cmd.timeout.None?
    requires Calm(d) && d.pending == map[] && d.nextSid == 3 && w == Wire({1}, {}, {}, 1)
    ensures Reaches(w, d, TurnSteps(d, OnePass(cmd, []), Willing, Plain), w1, d1)
    ensures d1.limit == 1 && InUse(w1) == {1, 3}
  {
    OneMore(w, d, cmd);
    d1, w1 := Next(d, Receive(cmd), Willing, Plain.limits), WireNext(w, d, Receive(cmd), {}, Willing, Plain.limits);
    assert DispatchSteps([]) == [];
    PassSteps(w, d, cmd, [], w1, d1, w1, d1);
  }

  lemma FirstPass(cmd: Cmd) returns (d2: Driver, w2: Wire)
    requires !cmd.Shutdown? && !Bodiless(cmd) && cmd.timeout.None?
    ensures var d0 := Start(false, 0, 1, Plain.limits);
            Reaches(WireStart(false), d0, TurnSteps(d0, OnePass(cmd, [EarlyEnd]), Willing, Plain), w2, d2)
    ensures Calm(d2) && d2.pending == map[] && d2.nextSid == 3 && w2 == Wire({1}, {}, {}, 1)
  {
    var d0, w0 := Start(false, 0, 1, Plain.limits), WireStart(false);
    var d1, w1 := Next(d0, Receive(cmd), Willing, Plain.limits), WireNext(w0, d0, Receive(cmd), {}, Willing, Plain.limits);
    OneMore(w0, d0, cmd);
    ResponseEnds(w1, d1);
    var step := Dispatch(EarlyEnd.ev, EarlyEnd.now);
    d2, w2 := Next(d1, step, Willing, Plain.limits), WireNext(w1, d1, step, {}, Willing, Plain.limits);
    ReachesNext(w1, d1, [], step, w1, d1, w2, d2);
    assert [] + [step] == DispatchSteps([EarlyEnd]);
    PassSteps(w0, d0, cmd, [EarlyEnd], w1, d1, w2, d2);
  }

  lemma TwoPasses(w: Wire, d: Driver, p: Pass, q: Pass, w1: Wire, d1: Driver, w2: Wire, d2: Driver)
    requires d.running && d1.running
    requires Reaches(w, d, TurnSteps(d, p, Willing, Plain), w1, d1)
    requires Reaches(w1, d1, TurnSteps(d1, q, Willing, Plain), w2, d2)
    ensures Run(d, [p, q], Willing, Plain) == d2 && Reaches(w, d, RunSteps(d, [p, q], Willing, Plain), w2, d2)
  {
    assert [p, q][..1] == [p] && [p][..0] == [];
    assert Run(d, [p], Willing, Plain) == d1;
    assert RunSteps(d, [p], Willing, Plain) == [] + TurnSteps(d, p, Willing, Plain) == TurnSteps(d, p, Willing, Plain);
    ReachesJoin(w, d, TurnSteps(d, p, Willing, Plain), w1, d1, TurnSteps(d1, q, Willing, Plain), w2, d2);
  }
}
