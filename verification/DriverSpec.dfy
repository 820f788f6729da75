/**
  The HTTP/2 client driver as a machine of small steps
  (src/courierust_client/h2.rs). `Next` is one step; `TurnSteps` lists the
  steps one pass of the driver loop takes. The connection is an environment: it
  decides whether an attempt to open a stream succeeds, which events arrive and
  what stream limit the peer last announced.
 */
module DriverSpec {
  import opened Basics
  import opened StreamLife
  import opened Liveness

  /** `MAX_DEFERRED` */
  const MAX_DEFERRED: nat := 1024

  /** The largest client stream id. */
  const MAX_STREAM_ID: nat := 0x7fff_ffff

  datatype Cmd =
    | Request(body: Option<Bytes>, endStream: bool, timeout: Option<nat>)
    | RequestStream(timeout: Option<nat>)
    | Shutdown

  /** A received command and the number of its reply channel, in order of arrival. */
  datatype Ticket = Ticket(id: RequestId, cmd: Cmd)

  datatype Opening = Opening(sid: StreamId, id: RequestId)

  datatype Reset = Reset(sid: StreamId, why: Error)

  /** How the connection answers one attempt to open a stream. */
  datatype Outcome = Accept | RefuseOpen(e: Error) | RefuseHeaders(e: Error) | RefuseData(e: Error)
  datatype Attempt = Attempt(outcome: Outcome, now: Instant)

  /** The connection's answers, by attempt number. */
  type Env = nat -> Attempt

  datatype Event =
    | HeadersEv(sid: StreamId, head: Option<nat>, end: bool)
    | DataEv(sid: StreamId, data: Bytes, end: bool)
    | TrailersEv(sid: StreamId, fields: Fields)
    | RstEv(sid: StreamId, code: nat)
    | StreamErrorEv(sid: StreamId, code: nat)
    | GoAwayEv(code: nat, last: StreamId)
    | OtherEv

  datatype Config = Config(limits: Limits, live: LiveConfig)

  datatype Driver = Driver(
    limit: nat,                         // peer SETTINGS_MAX_CONCURRENT_STREAMS
    nextSid: nat,                       // next client stream id of the connection
    attempts: nat,                      // attempts to open made so far
    pending: map<StreamId, Entry>,
    deferred: seq<Ticket>,
    uploads: set<StreamId>,             // streams whose request body is still being fed
    goaway: bool,
    accepting: bool,
    running: bool,
    mail: seq<Mailbox>,                 // caller side of every received request
    openings: seq<Opening>,               // streams put on the wire, in order
    resets: set<Reset>,                 // RST_STREAM frames queued
    heart: Heart)

  datatype Step =
    | Receive(cmd: Cmd)
    | Retry
    | Polled(limit: nat, rx: Option<Instant>)
    | Dispatch(ev: Event, now: Instant)
    | UploadsDone(done: set<StreamId>)
    | Expire(now: Instant)
    | Fail(e: Error)
    | Retire
    | Beat(heart: Heart)
    | Cleanup

  // ------------------------------------------------------------------
  // Commands
  // ------------------------------------------------------------------

  /** `stream_limit_reached`: a limit of 0 means unlimited. */
  predicate LimitReached(d: Driver) {
    d.limit != 0 && |d.pending| >= d.limit
  }

  function Box(mail: seq<Mailbox>, id: RequestId): Mailbox {
    if id < |mail| then mail[id] else Unopened
  }

  function Put(mail: seq<Mailbox>, id: RequestId, b: Mailbox): seq<Mailbox> {
    if id < |mail| then mail[id := b] else mail
  }

  /** Answer a request that has no stream. */
  function Answer(d: Driver, id: RequestId, e: Error): Driver {
    d.(mail := Put(d.mail, id, Hang(SendReply(Box(d.mail, id), Failed(e)))))
  }

  function DeadlineFrom(cmd: Cmd, now: Instant, lim: Limits): Option<Instant>
    requires !cmd.Shutdown?
  {
    if cmd.timeout.Some? then Some(now + cmd.timeout.value)
    else if lim.readTimeout.Some? then Some(now + lim.readTimeout.value)
    else None
  }

  /** The error with which the connection refuses `cmd`, if it does. */
  function Refusal(cmd: Cmd, o: Outcome): Option<Error> {
    match o
    case Accept => None
    case RefuseOpen(e) => Some(e)
    case RefuseHeaders(e) => Some(e)
    case RefuseData(e) => if cmd.Request? && cmd.body.Some? then Some(e) else None
  }

  /** `send_headers` and `send_data` on the next stream id, and the table entry. */
  function SendRequest(d: Driver, t: Ticket, a: Attempt, lim: Limits): Driver
    requires !t.cmd.Shutdown?
  {
    var d1 := d.(nextSid := d.nextSid + 2);
    var no := Refusal(t.cmd, a.outcome);
    if no.Some? then Answer(d1, t.id, no.value)
    else d1.(
      pending := d.pending[d.nextSid := Entry(t.id, 0, DeadlineFrom(t.cmd, a.now, lim))],
      uploads := if t.cmd.RequestStream? then d.uploads + {d.nextSid} else d.uploads,
      mail := Put(d.mail, t.id, Opened),
      openings := d.openings + [Opening(d.nextSid, t.id)])
  }

  function Open(d: Driver, t: Ticket, env: Env, lim: Limits): Driver
    requires !t.cmd.Shutdown?
  {
    var a := env(d.attempts);
    var d1 := d.(attempts := d.attempts + 1);
    if a.outcome.RefuseOpen? then Answer(d1, t.id, a.outcome.e)
    else if d.nextSid > MAX_STREAM_ID then Answer(d1, t.id, Exhausted)
    else SendRequest(d1, t, a, lim)
  }

  /** `handle_cmd` for a request. */
  function Handle(d: Driver, t: Ticket, env: Env, lim: Limits): Driver
    requires !t.cmd.Shutdown?
  {
    if d.goaway then Answer(d, t.id, Canceled)
    else if LimitReached(d) then
      if |d.deferred| < MAX_DEFERRED then d.(deferred := d.deferred + [t]) else Answer(d, t.id, Refused)
    else Open(d, t, env, lim)
  }

  /** `handle_cmd` on a command fresh from the channel. */
  function Take(d: Driver, cmd: Cmd, env: Env, lim: Limits): Driver {
    if cmd.Shutdown? then d.(running := false)
    else Handle(d.(mail := d.mail + [Unopened]), Ticket(|d.mail|, cmd), env, lim)
  }

  /** `retry_deferred` */
  function RetryDeferred(d: Driver, env: Env, lim: Limits): Driver
    decreases |d.deferred|
  {
    if d.deferred == [] || LimitReached(d) then d
    else
      var t := d.deferred[0];
      var rest := d.(deferred := d.deferred[1..]);
      if t.cmd.Shutdown? then rest.(running := false)
      else RetryDeferred(Handle(rest, t, env, lim), env, lim)
  }

  // ------------------------------------------------------------------
  // Events, clock and failures
  // ------------------------------------------------------------------

  /** The stimulus an event is to stream `sid`. */
  function EventStimulus(ev: Event, now: Instant, sid: StreamId): Option<Stimulus> {
    match ev
    case HeadersEv(s, head, end) => if s == sid then Some(Headers(head, end, now)) else None
    case DataEv(s, data, end) => if s == sid then Some(Data(data, end, now)) else None
    case TrailersEv(s, fields) => if s == sid then Some(Trailers(fields)) else None
    case RstEv(s, code) => if s == sid then Some(Abort(Peer(code))) else None
    case StreamErrorEv(s, code) => if s == sid then Some(Abort(Peer(code))) else None
    case GoAwayEv(code, last) => if sid > last then Some(Abort(Peer(code))) else None
    case OtherEv => None
  }

  /** Apply a stimulus to one pending stream. */
  function Touch(d: Driver, sid: StreamId, x: Stimulus, lim: Limits): Driver
    requires sid in d.pending
  {
    var e := d.pending[sid];
    match React(Live(e, Box(d.mail, e.id)), x, lim)
    case Live(e', b) => d.(pending := d.pending[sid := e'], mail := Put(d.mail, e.id, b))
    case Over(b) => d.(pending := d.pending - {sid}, mail := Put(d.mail, e.id, b))
  }

  function IdsOf(pending: map<StreamId, Entry>, sids: set<StreamId>): set<RequestId> {
    set sid | sid in sids && sid in pending :: pending[sid].id
  }

  /** Fail the streams in `sids`, telling both channels of each. */
  function KillAll(d: Driver, sids: set<StreamId>, e: Error): Driver {
    var ids := IdsOf(d.pending, sids);
    d.(pending := d.pending - sids,
       mail := seq(|d.mail|, i requires 0 <= i < |d.mail| => if i in ids then Kill(d.mail[i], e) else d.mail[i]))
  }

  function ExpiredSids(d: Driver, now: Instant): set<StreamId> {
    set sid | sid in d.pending && Expired(d.pending[sid], now)
  }

  function SidsAbove(d: Driver, last: StreamId): set<StreamId> {
    set sid | sid in d.pending && sid > last
  }

  predicate Overflows(d: Driver, ev: Event, lim: Limits) {
    ev.DataEv? && ev.sid in d.pending && d.pending[ev.sid].bodyLen + |ev.data| > lim.maxBody
  }

  /** One iteration of `drain_events`. */
  function DispatchEvent(d: Driver, ev: Event, now: Instant, lim: Limits): Driver {
    match ev
    case OtherEv => d
    case GoAwayEv(code, last) =>
      KillAll(d.(goaway := true, accepting := false), SidsAbove(d, last), Peer(code))
    case _ =>
      if ev.sid !in d.pending then d
      else
        var d1 := Touch(d, ev.sid, EventStimulus(ev, now, ev.sid).value, lim);
        if Overflows(d, ev, lim) then d1.(resets := d.resets + {Reset(ev.sid, TooLarge)}) else d1
  }

  /** `check_timeouts` */
  function ExpireAll(d: Driver, now: Instant): Driver {
    var dead := ExpiredSids(d, now);
    KillAll(d, dead, TimedOut).(resets := d.resets + set sid | sid in dead :: Reset(sid, TimedOut))
  }

  /** The reply senders of deferred commands are dropped with the queue. */
  function DropDeferred(d: Driver): Driver {
    var ids := set t | t in d.deferred :: t.id;
    d.(deferred := [],
       mail := seq(|d.mail|, i requires 0 <= i < |d.mail| => if i in ids then Hang(d.mail[i]) else d.mail[i]))
  }

  function Next(d: Driver, step: Step, env: Env, lim: Limits): Driver {
    match step
    case Receive(cmd) => Take(d, cmd, env, lim)
    case Retry => RetryDeferred(d, env, lim)
    case Polled(limit, rx) =>
      d.(limit := limit, heart := if rx.Some? then d.heart.(lastRx := rx.value) else d.heart)
    case Dispatch(ev, now) => DispatchEvent(d, ev, now, lim)
    case UploadsDone(done) => d.(uploads := d.uploads - done)
    case Expire(now) => ExpireAll(d, now)
    case Fail(e) => KillAll(d.(accepting := false), d.pending.Keys, e)
    case Retire => d.(accepting := false)
    case Beat(heart) => d.(heart := heart)
    case Cleanup => DropDeferred(KillAll(d.(running := false), d.pending.Keys, Canceled))
  }

  function Exec(d: Driver, steps: seq<Step>, env: Env, lim: Limits): Driver {
    if steps == [] then d else Next(Exec(d, steps[..|steps| - 1], env, lim), steps[|steps| - 1], env, lim)
  }

  // ------------------------------------------------------------------
  // One pass of the driver loop
  // ------------------------------------------------------------------

  datatype Poll = PollOk(progress: bool, at: Instant, limit: nat) | PollErr(e: Error)
  datatype Waited = GotCmd(cmd: Cmd) | Elapsed | Disconnected
  datatype Arrival = Arrival(ev: Event, now: Instant)

  /** Everything the outside decides during one pass. */
  datatype Pass = Pass(
    cmds: seq<Cmd>,             // what `try_recv` yields
    waited: Waited,             // what `recv_timeout` yields, on an idle pass
    poll: Poll,
    arrivals: seq<Arrival>,
    done: set<StreamId>,        // request bodies that finished
    clock: Instant,             // `check_timeouts`
    closed: bool,
    liveAt: Instant,            // `apply_liveness`
    settingsPending: bool)

  /** The `try_recv` loop: it stops at a shutdown. */
  function CmdSteps(cmds: seq<Cmd>): seq<Step> {
    if cmds == [] then []
    else if cmds[0].Shutdown? then [Receive(Shutdown)]
    else [Receive(cmds[0])] + CmdSteps(cmds[1..])
  }

  function DispatchSteps(arrivals: seq<Arrival>): seq<Step> {
    seq(|arrivals|, i requires 0 <= i < |arrivals| => Dispatch(arrivals[i].ev, arrivals[i].now))
  }

  function LiveSteps(v: Verdict): seq<Step> {
    match v
    case Carry(heart) => [Beat(heart)]
    case SettingsDead => [Fail(SettingsTimeout), Cleanup]
    case Idle => [Retire, Cleanup]
    case PeerDead => [Fail(Eof), Cleanup]
  }

  /** A successful poll and the events it brought. */
  function AbsorbSteps(p: Pass): seq<Step>
    requires p.poll.PollOk?
  {
    [Polled(p.poll.limit, if p.poll.progress then Some(p.poll.at) else None)] + DispatchSteps(p.arrivals)
  }

  /** The steps from a successful poll to the second `retry_deferred`. */
  function ServeSteps(p: Pass): seq<Step>
    requires p.poll.PollOk?
  {
    AbsorbSteps(p) + [UploadsDone(p.done), Expire(p.clock), Retry]
  }

  /** The polling half of a pass. */
  function PollSteps(d: Driver, p: Pass, hasWork: bool, env: Env, cfg: Config): seq<Step> {
    if p.poll.PollErr? then [Fail(p.poll.e), Cleanup]
    else
      var served := ServeSteps(p);
      var d1 := Exec(d, served, env, cfg.limits);
      if !d1.running then served + [Cleanup]
      else if p.closed then served + [Fail(Eof), Cleanup]
      else served + LiveSteps(Judge(cfg.live, d1.heart, p.liveAt, p.settingsPending, hasWork))
  }

  predicate HasWork(d: Driver, p: Pass) {
    p.cmds != [] || d.deferred != [] || d.pending != map[] || d.uploads != {}
  }

  function WaitSteps(d: Driver, p: Pass, env: Env, cfg: Config): seq<Step> {
    match p.waited
    case GotCmd(cmd) => [Receive(cmd)] + if cmd.Shutdown? then [Cleanup] else []
    case Elapsed => PollSteps(d, p, false, env, cfg)
    case Disconnected => [Cleanup]
  }

  /** The pass after the commands are drained. */
  function TailSteps(d: Driver, p: Pass, env: Env, cfg: Config): seq<Step> {
    if !d.running then [Cleanup]
    else if HasWork(d, p) then PollSteps(d, p, true, env, cfg)
    else WaitSteps(d, p, env, cfg)
  }

  function TurnSteps(d: Driver, p: Pass, env: Env, cfg: Config): seq<Step> {
    if !Exec(d, [Retry], env, cfg.limits).running then [Retry, Cleanup]
    else
      var head := [Retry] + CmdSteps(p.cmds);
      head + TailSteps(Exec(d, head, env, cfg.limits), p, env, cfg)
  }

  /** One pass of the loop; a stopped driver stays stopped. */
  function Turn(d: Driver, p: Pass, env: Env, cfg: Config): Driver {
    if d.running then Exec(d, TurnSteps(d, p, env, cfg), env, cfg.limits) else d
  }

  function Run(d: Driver, ps: seq<Pass>, env: Env, cfg: Config): Driver {
    if ps == [] then d else Turn(Run(d, ps[..|ps| - 1], env, cfg), ps[|ps| - 1], env, cfg)
  }

  /** The driver at start; `upgraded` when stream 1 carries an h2c-upgraded request. */
  function Start(upgraded: bool, now: Instant, limit: nat, lim: Limits): Driver {
    var d := Driver(limit, 1, 0, map[], [], {}, false, true, true, [], [], {}, Heart(now, now, None));
    if !upgraded then d
    else d.(nextSid := 3, mail := [Opened], openings := [Opening(1, 0)],
            pending := map[1 := Entry(0, 0, if lim.readTimeout.Some? then Some(now + lim.readTimeout.value) else None)])
  }
}
