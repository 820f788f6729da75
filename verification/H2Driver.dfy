/**
  The driver thread's state and methods (src/courierust_client/h2.rs), written
  as the source writes them: fields updated in place, loops over the queue, the
  arrived events and the pending table. Each method is proved to perform the
  step of `DriverSpec` it stands for.
 */
module H2Driver {
  import opened Basics
  import opened StreamLife
  import opened Liveness
  import opened DriverSpec
  import opened DriverLaws

  lemma IdsOneMore(d: Driver, sids: set<StreamId>, sid: StreamId)
    requires Inv(d) && sid in d.pending && sid !in sids
    ensures d.pending[sid].id !in IdsOf(d.pending, sids)
    ensures IdsOf(d.pending, sids + {sid}) == IdsOf(d.pending, sids) + {d.pending[sid].id}
  {
    assert sid in sids + {sid};
  }

  /** Failing one more stream of a set. */
  lemma KillOneMore(d: Driver, sids: set<StreamId>, sid: StreamId, e: Error)
    requires Inv(d) && sid in d.pending && sid !in sids
    ensures var d1 := KillAll(d, sids, e);
            var id := d.pending[sid].id;
            && sid in d1.pending && d1.pending[sid] == d.pending[sid] && id < |d1.mail|
            && KillAll(d, sids + {sid}, e)
               == d1.(pending := d1.pending - {sid}, mail := d1.mail[id := Kill(d1.mail[id], e)])
  {
    var d1 := KillAll(d, sids, e);
    var d2 := KillAll(d, sids + {sid}, e);
    var id := d.pending[sid].id;
    IdsOneMore(d, sids, sid);
    assert d2.pending == d1.pending - {sid};
    MailOneMore(d, sids, sid, e);
  }

  lemma MailOneMore(d: Driver, sids: set<StreamId>, sid: StreamId, e: Error)
    requires sid in d.pending && d.pending[sid].id < |d.mail| && d.pending[sid].id !in IdsOf(d.pending, sids)
    requires IdsOf(d.pending, sids + {sid}) == IdsOf(d.pending, sids) + {d.pending[sid].id}
    ensures var mail, id := KillAll(d, sids, e).mail, d.pending[sid].id;
            KillAll(d, sids + {sid}, e).mail == mail[id := Kill(mail[id], e)]
  {
  }

  lemma KillNone(d: Driver, e: Error)
    ensures KillAll(d, {}, e) == d
  {
    assert KillAll(d, {}, e).mail == d.mail;
    assert KillAll(d, {}, e).pending == d.pending;
  }

  lemma ExecSnoc(d: Driver, steps: seq<Step>, step: Step, env: Env, lim: Limits)
    ensures Exec(d, steps + [step], env, lim) == Next(Exec(d, steps, env, lim), step, env, lim)
  {
    assert (steps + [step])[..|steps|] == steps;
  }

  lemma ExecThree(d: Driver, a: Step, b: Step, c: Step, env: Env, lim: Limits)
    ensures Exec(d, [a, b, c], env, lim) == Next(Next(Next(d, a, env, lim), b, env, lim), c, env, lim)
  {
    ExecOne(d, a, env, lim);
    ExecSnoc(d, [a], b, env, lim);
    assert [a] + [b] == [a, b];
    ExecSnoc(d, [a, b], c, env, lim);
    assert [a, b] + [c] == [a, b, c];
  }

  lemma DispatchOneMore(d: Driver, arrivals: seq<Arrival>, i: nat, env: Env, lim: Limits)
    requires i < |arrivals|
    ensures Exec(d, DispatchSteps(arrivals[..i + 1]), env, lim)
         == DispatchEvent(Exec(d, DispatchSteps(arrivals[..i]), env, lim), arrivals[i].ev, arrivals[i].now, lim)
  {
    var step := Dispatch(arrivals[i].ev, arrivals[i].now);
    ExecSnoc(d, DispatchSteps(arrivals[..i]), step, env, lim);
    assert DispatchSteps(arrivals[..i + 1]) == DispatchSteps(arrivals[..i]) + [step];
  }

  class ClientDriver {
    const env: Env
    const cfg: Config
    var limit: nat
    var nextSid: nat
    var attempts: nat
    var pending: map<StreamId, Entry>
    var deferred: seq<Ticket>
    var uploads: set<StreamId>
    var goaway: bool
    var accepting: bool
    var running: bool
    var mail: seq<Mailbox>
    var openings: seq<Opening>
    var resets: set<Reset>
    var heart: Heart

    ghost function State(): Driver
      reads this
    {
      Driver(limit, nextSid, attempts, pending, deferred, uploads, goaway, accepting, running,
             mail, openings, resets, heart)
    }

    constructor (env: Env, cfg: Config, upgraded: bool, now: Instant, limit: nat)
      ensures this.env == env && this.cfg == cfg
      ensures State() == Start(upgraded, now, limit, cfg.limits)
    {
      this.env, this.cfg := env, cfg;
      this.limit, attempts, deferred, uploads := limit, 0, [], {};
      goaway, accepting, running, resets := false, true, true, {};
      heart := Heart(now, now, None);
      if upgraded {
        nextSid, mail, openings := 3, [Opened], [Opening(1, 0)];
        var t := cfg.limits.readTimeout;
        pending := map[1 := Entry(0, 0, if t.Some? then Some(now + t.value) else None)];
      } else {
        nextSid, mail, openings, pending := 1, [], [], map[];
      }
    }

    /** `reply.send(Err(e))` on a request that has no stream; the sender is then dropped. */
    method Refuse(id: RequestId, e: Error)
      requires id < |mail|
      modifies this`mail
      ensures State() == Answer(old(State()), id, e)
    {
      mail := mail[id := Hang(SendReply(mail[id], Failed(e)))];
    }

    /** `open_request`, `send_headers`, `send_data` and the new table entry. */
    method OpenStream(t: Ticket)
      requires t.id < |mail| && !t.cmd.Shutdown? && mail[t.id] == Unopened
      modifies this
      ensures State() == Open(old(State()), t, env, cfg.limits)
    {
      var a := env(attempts);
      attempts := attempts + 1;
      if a.outcome.RefuseOpen? {
        Refuse(t.id, a.outcome.e);
        return;
      }
      if nextSid > MAX_STREAM_ID {
        Refuse(t.id, Exhausted);
        return;
      }
      PutOnWire(t, a);
    }

    /** `send_headers` and `send_data`, which may still refuse. */
    method PutOnWire(t: Ticket, a: Attempt)
      requires t.id < |mail| && !t.cmd.Shutdown?
      modifies this`nextSid, this`uploads, this`mail, this`openings, this`pending
      ensures State() == SendRequest(old(State()), t, a, cfg.limits)
    {
      var sid := nextSid;
      nextSid := nextSid + 2;
      var no := Refusal(t.cmd, a.outcome);
      if no.Some? {
        Refuse(t.id, no.value);
      } else {
        Register(t, sid, a.now);
      }
    }

    /** The table entries of a stream that is on the wire. */
    method Register(t: Ticket, sid: StreamId, now: Instant)
      requires t.id < |mail| && !t.cmd.Shutdown?
      modifies this`uploads, this`mail, this`openings, this`pending
      ensures uploads == old(uploads) + (if t.cmd.RequestStream? then {sid} else {})
      ensures mail == old(mail)[t.id := Opened] && openings == old(openings) + [Opening(sid, t.id)]
      ensures pending == old(pending)[sid := Entry(t.id, 0, DeadlineFrom(t.cmd, now, cfg.limits))]
    {
      if t.cmd.RequestStream? {
        uploads := uploads + {sid};
      }
      mail := mail[t.id := Opened];
      openings := openings + [Opening(sid, t.id)];
      pending := pending[sid := Entry(t.id, 0, DeadlineFrom(t.cmd, now, cfg.limits))];
    }

    /** `handle_cmd` for a request. */
    method HandleCmd(t: Ticket)
      requires t.id < |mail| && !t.cmd.Shutdown? && mail[t.id] == Unopened
      modifies this
      ensures State() == Handle(old(State()), t, env, cfg.limits)
    {
      if goaway {
        Refuse(t.id, Canceled);
      } else if limit != 0 && |pending| >= limit {
        if |deferred| < MAX_DEFERRED {
          deferred := deferred + [t];
        } else {
          Refuse(t.id, Refused);
        }
      } else {
        OpenStream(t);
      }
    }

    /** `handle_cmd` on a command taken from the channel; false means shut down. */
    method ReceiveCmd(cmd: Cmd) returns (ok: bool)
      modifies this
      ensures State() == Take(old(State()), cmd, env, cfg.limits)
      ensures ok == !cmd.Shutdown?
    {
      if cmd.Shutdown? {
        running := false;
        return false;
      }
      var id := |mail|;
      mail := mail + [Unopened];
      HandleCmd(Ticket(id, cmd));
      return true;
    }

    /** `retry_deferred` */
    method RetryQueue()
      requires Inv(State())
      modifies this
      ensures State() == Next(old(State()), Retry, env, cfg.limits)
      ensures Inv(State()) && running == old(running)
    {
      while deferred != []
        invariant Inv(State()) && running == old(running)
        invariant RetryDeferred(State(), env, cfg.limits) == RetryDeferred(old(State()), env, cfg.limits)
        decreases |deferred|
      {
        if limit != 0 && |pending| >= limit {
          return;
        }
        RetryFirst();
      }
    }

    /** Serve the head of the queue while there is room. */
    method RetryFirst()
      requires Inv(State()) && deferred != [] && !LimitReached(State())
      modifies this
      ensures Inv(State()) && running == old(running) && deferred == old(deferred)[1..]
      ensures RetryDeferred(State(), env, cfg.limits) == RetryDeferred(old(State()), env, cfg.limits)
    {
      var t := deferred[0];
      RetryOneKeeps(State(), env, cfg.limits);
      deferred := deferred[1..];
      HandleCmd(t);
      assert State() == RetryOne(old(State()), env, cfg.limits);
    }

    /** Drop one entry, telling both channels first. */
    method FailStream(sid: StreamId, e: Error)
      requires sid in pending && pending[sid].id < |mail|
      modifies this`pending, this`mail
      ensures var d, id := old(State()), old(pending[sid].id);
              State() == d.(pending := d.pending - {sid}, mail := d.mail[id := Kill(d.mail[id], e)])
    {
      var id := pending[sid].id;
      pending := pending - {sid};
      mail := mail[id := SendBody(mail[id], Fault(e))];
      mail := mail[id := Hang(SendReply(mail[id], Failed(e)))];
    }

    /** Fail a set of streams one by one, in any order. */
    method FailStreams(sids: set<StreamId>, e: Error)
      requires Inv(State()) && sids <= pending.Keys
      modifies this`pending, this`mail
      ensures State() == KillAll(old(State()), sids, e)
      ensures Inv(State())
    {
      FailEach(sids, e);
      KillKeeps(old(State()), sids, e);
    }

    method FailEach(sids: set<StreamId>, e: Error)
      requires Inv(State()) && sids <= pending.Keys
      modifies this`pending, this`mail
      ensures State() == KillAll(old(State()), sids, e)
    {
      ghost var d0 := State();
      KillNone(d0, e);
      var left := sids;
      while left != {}
        invariant left <= sids
        invariant State() == KillAll(d0, sids - left, e)
        decreases left
      {
        var sid :| sid in left;
        FailOneMore(d0, sids - left, sid, e);
        assert sids - (left - {sid}) == (sids - left) + {sid};
        left := left - {sid};
      }
      assert sids - {} == sids;
    }

    method FailOneMore(ghost d0: Driver, ghost done: set<StreamId>, sid: StreamId, e: Error)
      requires Inv(d0) && State() == KillAll(d0, done, e) && sid in d0.pending && sid !in done
      modifies this`pending, this`mail
      ensures State() == KillAll(d0, done + {sid}, e)
    {
      KillOneMore(d0, done, sid, e);
      FailStream(sid, e);
    }

    /** `fail_all` */
    method FailAll(e: Error)
      requires Inv(State())
      modifies this`pending, this`mail
      ensures State() == KillAll(old(State()), old(pending.Keys), e)
      ensures Inv(State())
    {
      FailStreams(pending.Keys, e);
    }

    /** `check_timeouts` */
    method CheckTimeouts(now: Instant)
      requires Inv(State())
      modifies this`pending, this`mail, this`resets
      ensures State() == Next(old(State()), Expire(now), env, cfg.limits)
      ensures Inv(State())
    {
      var timedOut := set sid | sid in pending && pending[sid].deadline.Some? && now >= pending[sid].deadline.value;
      assert timedOut == ExpiredSids(State(), now);
      if timedOut == {} {
        KillNone(State(), TimedOut);
        assert resets + (set sid | sid in timedOut :: Reset(sid, TimedOut)) == resets;
        return;
      }
      resets := resets + set sid | sid in timedOut :: Reset(sid, TimedOut);
      FailStreams(timedOut, TimedOut);
    }

    /** `Event::Headers` for a pending stream. */
    method OnHeaders(sid: StreamId, head: Option<nat>, end: bool, now: Instant)
      requires sid in pending && pending[sid].id < |mail|
      modifies this`pending, this`mail
      ensures State() == DispatchEvent(old(State()), HeadersEv(sid, head, end), now, cfg.limits)
    {
      var p := pending[sid];
      if head.None? {
        mail := mail[p.id := Hang(SendReply(mail[p.id], Failed(BadHead)))];
        pending := pending - {sid};
      } else if end {
        mail := mail[p.id := Hang(SendReply(mail[p.id], Head(head.value, false)))];
        pending := pending - {sid};
      } else {
        var withBody := mail[p.id].rxHeld;
        mail := mail[p.id := SendReply(mail[p.id], Head(head.value, withBody)).(rxHeld := false)];
        if cfg.limits.readTimeout.Some? {
          p := p.(deadline := Some(now + cfg.limits.readTimeout.value));
        }
        pending := pending[sid := p];
      }
    }

    /** `Event::Data` for a pending stream. */
    method OnData(sid: StreamId, data: Bytes, end: bool, now: Instant)
      requires sid in pending && pending[sid].id < |mail|
      modifies this`pending, this`mail, this`resets
      ensures State() == DispatchEvent(old(State()), DataEv(sid, data, end), now, cfg.limits)
    {
      var p := pending[sid];
      p := p.(bodyLen := p.bodyLen + |data|);
      if p.bodyLen > cfg.limits.maxBody {
        resets := resets + {Reset(sid, TooLarge)};
        FailStream(sid, TooLarge);
        return;
      }
      mail := mail[p.id := SendBody(mail[p.id], Chunk(data))];
      if cfg.limits.readTimeout.Some? {
        p := p.(deadline := Some(now + cfg.limits.readTimeout.value));
      }
      pending := pending[sid := p];
      if end {
        mail := mail[p.id := Hang(mail[p.id])];
        pending := pending - {sid};
        assert pending == old(pending) - {sid};
      }
    }

    /** `Event::Trailers` for a pending stream. */
    method OnTrailers(sid: StreamId, fields: Fields, now: Instant)
      requires sid in pending && pending[sid].id < |mail|
      modifies this`pending, this`mail
      ensures State() == DispatchEvent(old(State()), TrailersEv(sid, fields), now, cfg.limits)
    {
      var id := pending[sid].id;
      mail := mail[id := Hang(mail[id].(trailers := Some(fields)))];
      pending := pending - {sid};
    }

    /** `Event::Rst` and `Event::StreamError`. */
    method OnAbort(ev: Event, now: Instant)
      requires ev.RstEv? || ev.StreamErrorEv?
      requires ev.sid in pending ==> pending[ev.sid].id < |mail|
      modifies this`pending, this`mail
      ensures State() == DispatchEvent(old(State()), ev, now, cfg.limits)
    {
      if ev.sid in pending {
        FailStream(ev.sid, Peer(ev.code));
      }
    }

    /** `Event::GoAway` */
    method OnGoAway(code: nat, last: StreamId, now: Instant)
      requires Inv(State())
      modifies this`pending, this`mail, this`goaway, this`accepting
      ensures State() == DispatchEvent(old(State()), GoAwayEv(code, last), now, cfg.limits)
    {
      accepting := false;
      goaway := true;
      var dead := set sid | sid in pending && sid > last;
      assert dead == SidsAbove(old(State()), last);
      FailStreams(dead, Peer(code));
    }

    /** One iteration of `drain_events`. */
    method OnEvent(ev: Event, now: Instant)
      requires Inv(State())
      modifies this`pending, this`mail, this`resets, this`goaway, this`accepting
      ensures State() == DispatchEvent(old(State()), ev, now, cfg.limits)
    {
      match ev
      case OtherEv =>
      case GoAwayEv(code, last) => OnGoAway(code, last, now);
      case HeadersEv(sid, head, end) =>
        if sid in pending { OnHeaders(sid, head, end, now); }
      case DataEv(sid, data, end) =>
        if sid in pending { OnData(sid, data, end, now); }
      case TrailersEv(sid, fields) =>
        if sid in pending { OnTrailers(sid, fields, now); }
      case RstEv(_, _) => OnAbort(ev, now);
      case StreamErrorEv(_, _) => OnAbort(ev, now);
    }

    /** `drain_events` */
    method DrainEvents(arrivals: seq<Arrival>)
      requires Inv(State())
      modifies this`pending, this`mail, this`resets, this`goaway, this`accepting
      ensures State() == Exec(old(State()), DispatchSteps(arrivals), env, cfg.limits)
      ensures Inv(State())
    {
      for i := 0 to |arrivals|
        invariant Inv(State())
        invariant State() == Exec(old(State()), DispatchSteps(arrivals[..i]), env, cfg.limits)
      {
        DispatchOneMore(old(State()), arrivals, i, env, cfg.limits);
        DispatchKeeps(State(), arrivals[i].ev, arrivals[i].now, cfg.limits);
        OnEvent(arrivals[i].ev, arrivals[i].now);
      }
      assert arrivals[..|arrivals|] == arrivals;
    }

    /** `cleanup`, and the queue going out of scope with the thread. */
    method CleanUp()
      requires Inv(State())
      modifies this
      ensures State() == Next(old(State()), Cleanup, env, cfg.limits)
      ensures Inv(State()) && !running
    {
      NextKeeps(State(), Cleanup, env, cfg.limits);
      ghost var d1 := State().(running := false);
      running := false;
      FailAll(Canceled);
      assert State() == KillAll(d1, d1.pending.Keys, Canceled);
      DropQueue();
    }

    method DropQueue()
      modifies this`mail, this`deferred
      ensures State() == DropDeferred(old(State()))
    {
      var ids := set t | t in deferred :: t.id;
      var boxes := mail;
      mail := seq(|boxes|, i requires 0 <= i < |boxes| => if i in ids then Hang(boxes[i]) else boxes[i]);
      deferred := [];
    }

    /** The `try_recv` loop; false means shut down. */
    method DrainCommands(cmds: seq<Cmd>) returns (ok: bool)
      requires Inv(State()) && Settled(State())
      modifies this
      ensures State() == Exec(old(State()), CmdSteps(cmds), env, cfg.limits)
      ensures Inv(State()) && Settled(State())
      ensures old(running) ==> ok == running
    {
      for i := 0 to |cmds|
        invariant Inv(State()) && Settled(State()) && running == old(running)
        invariant Exec(State(), CmdSteps(cmds[i..]), env, cfg.limits)
               == Exec(old(State()), CmdSteps(cmds), env, cfg.limits)
      {
        var c := cmds[i];
        assert cmds[i..][0] == c && cmds[i..][1..] == cmds[i + 1..];
        TakeKeeps(State(), c, env, cfg.limits);
        ExecOne(State(), Receive(c), env, cfg.limits);
        ExecSplit(State(), [Receive(c)], CmdSteps(cmds[i + 1..]), env, cfg.limits);
        TakeRunning(State(), c, env, cfg.limits);
        ok := ReceiveCmd(c);
        if !ok {
          return false;
        }
      }
      return true;
    }

    /** The connection is gone: stop accepting and fail everything pending. */
    method Lose(e: Error)
      requires Inv(State())
      modifies this`accepting, this`pending, this`mail
      ensures State() == Next(old(State()), Fail(e), env, cfg.limits)
      ensures Inv(State())
    {
      accepting := false;
      FailAll(e);
    }

    /** `apply_liveness`; false means shut down. */
    method ApplyLiveness(now: Instant, settingsPending: bool, hasWork: bool) returns (ok: bool)
      requires Inv(State())
      modifies this`accepting, this`pending, this`mail, this`heart
      ensures var v := Judge(cfg.live, old(heart), now, settingsPending, hasWork);
              && ok == v.Carry?
              && State() == Next(old(State()), LiveSteps(v)[0], env, cfg.limits)
    {
      var live := cfg.live;
      if settingsPending && live.settingsTimeout.Some? && Since(now, heart.started) >= live.settingsTimeout.value {
        Lose(SettingsTimeout);
        return false;
      }
      if !hasWork && live.idleTimeout.Some? && Since(now, heart.lastRx) >= live.idleTimeout.value {
        accepting := false;
        return false;
      }
      if live.pingInterval.Some? {
        if Since(now, heart.lastRx) >= live.pingInterval.value {
          match heart.lastPing
          case None =>
            heart := heart.(lastPing := Some(now));
          case Some(sent) =>
            if heart.lastRx < sent {
              if live.pingTimeout.Some? && Since(now, sent) >= live.pingTimeout.value {
                Lose(Eof);
                return false;
              }
            } else {
              heart := heart.(lastPing := None);
            }
        } else {
          heart := heart.(lastPing := None);
        }
      }
      return true;
    }

    /** A successful poll and the events it brought. */
    method Absorb(p: Pass)
      requires Inv(State()) && p.poll.PollOk?
      modifies this
      ensures State() == Exec(old(State()), AbsorbSteps(p), env, cfg.limits)
      ensures Inv(State()) && running == old(running)
    {
      ghost var d0, lim := State(), cfg.limits;
      ghost var polled := Polled(p.poll.limit, if p.poll.progress then Some(p.poll.at) else None);
      ExecOne(d0, polled, env, lim);
      ExecSplit(d0, [polled], DispatchSteps(p.arrivals), env, lim);
      limit := p.poll.limit;
      if p.poll.progress {
        heart := heart.(lastRx := p.poll.at);
      }
      assert State() == Next(d0, polled, env, lim);
      DrainEvents(p.arrivals);
    }

    /** Forget the request bodies that are done. */
    method EndUploads(done: set<StreamId>)
      requires Inv(State())
      modifies this`uploads
      ensures State() == Next(old(State()), UploadsDone(done), env, cfg.limits)
      ensures Inv(State())
    {
      uploads := uploads - done;
    }

    /** Finished uploads, timeouts and the second `retry_deferred`. */
    method Settle(done: set<StreamId>, clock: Instant)
      requires Inv(State())
      modifies this
      ensures State() == Exec(old(State()), [UploadsDone(done), Expire(clock), Retry], env, cfg.limits)
      ensures Inv(State()) && running == old(running)
    {
      ExecThree(State(), UploadsDone(done), Expire(clock), Retry, env, cfg.limits);
      EndUploads(done);
      CheckTimeouts(clock);
      RetryQueue();
    }

    /** From a successful poll to the second `retry_deferred`. */
    method Serve(p: Pass)
      requires Inv(State()) && p.poll.PollOk?
      modifies this
      ensures State() == Exec(old(State()), ServeSteps(p), env, cfg.limits)
      ensures Inv(State()) && running == old(running)
    {
      ExecSplit(State(), AbsorbSteps(p), [UploadsDone(p.done), Expire(p.clock), Retry], env, cfg.limits);
      Absorb(p);
      Settle(p.done, p.clock);
    }

    /** Fail everything pending because the connection is gone, then clean up. */
    method GiveUp(e: Error, ghost d0: Driver, ghost done: seq<Step>)
      requires Inv(State()) && State() == Exec(d0, done, env, cfg.limits)
      modifies this
      ensures State() == Exec(d0, done + [Fail(e), Cleanup], env, cfg.limits)
      ensures Inv(State())
    {
      Lose(e);
      ExecSnoc(d0, done, Fail(e), env, cfg.limits);
      CleanUp();
      ExecSnoc(d0, done + [Fail(e)], Cleanup, env, cfg.limits);
      assert done + [Fail(e), Cleanup] == done + [Fail(e)] + [Cleanup];
    }

    /** `apply_liveness` at the end of a pass, and the exit it may cause. */
    method CheckLiveness(p: Pass, hasWork: bool)
      requires Inv(State())
      modifies this
      ensures State() == Exec(old(State()),
                LiveSteps(Judge(cfg.live, old(heart), p.liveAt, p.settingsPending, hasWork)), env, cfg.limits)
      ensures Inv(State())
    {
      ghost var d0, lim := State(), cfg.limits;
      ghost var steps := LiveSteps(Judge(cfg.live, heart, p.liveAt, p.settingsPending, hasWork));
      NextKeeps(d0, steps[0], env, lim);
      ExecOne(d0, steps[0], env, lim);
      ExecSnoc(d0, [steps[0]], Cleanup, env, lim);
      var ok := ApplyLiveness(p.liveAt, p.settingsPending, hasWork);
      if ok {
        assert steps == [steps[0]];
      } else {
        CleanUp();
        assert steps == [steps[0]] + [Cleanup];
      }
    }

    /** The polling half of a pass. */
    method PollHalf(p: Pass, hasWork: bool)
      requires Inv(State()) && running
      modifies this
      ensures State() == Exec(old(State()), PollSteps(old(State()), p, hasWork, env, cfg), env, cfg.limits)
      ensures Inv(State())
    {
      ghost var d0, lim := State(), cfg.limits;
      if p.poll.PollErr? {
        GiveUp(p.poll.e, d0, []);
        assert [] + [Fail(p.poll.e), Cleanup] == [Fail(p.poll.e), Cleanup];
        return;
      }
      Serve(p);
      ghost var d1, served := State(), ServeSteps(p);
      if p.closed {
        GiveUp(Eof, d0, served);
        return;
      }
      ExecSplit(d0, served, LiveSteps(Judge(cfg.live, heart, p.liveAt, p.settingsPending, hasWork)), env, lim);
      CheckLiveness(p, hasWork);
    }

    /** What an idle pass does with the outcome of `recv_timeout`. */
    method Wait(p: Pass)
      requires Inv(State()) && running && Settled(State())
      modifies this
      ensures State() == Exec(old(State()), WaitSteps(old(State()), p, env, cfg), env, cfg.limits)
      ensures Inv(State())
    {
      ghost var d0, lim := State(), cfg.limits;
      match p.waited
      case GotCmd(cmd) =>
        TakeKeeps(d0, cmd, env, lim);
        ExecOne(d0, Receive(cmd), env, lim);
        var ok := ReceiveCmd(cmd);
        if !ok {
          CleanUp();
          ExecSnoc(d0, [Receive(cmd)], Cleanup, env, lim);
        } else {
          assert WaitSteps(d0, p, env, cfg) == [Receive(cmd)];
        }
      case Elapsed =>
        PollHalf(p, false);
      case Disconnected =>
        CleanUp();
        ExecOne(d0, Cleanup, env, lim);
    }

    /** One pass of the driver loop. */
    method Pass(p: DriverSpec.Pass)
      requires Inv(State()) && running
      modifies this
      ensures State() == Turn(old(State()), p, env, cfg)
      ensures Inv(State())
    {
      ghost var d0, lim := State(), cfg.limits;
      HeadLaw(d0, p.cmds, env, lim);
      RetryKeeps(d0, env, lim);
      ExecOne(d0, Retry, env, lim);
      RetryQueue();
      ExecSplit(d0, [Retry], CmdSteps(p.cmds), env, lim);
      var ok := DrainCommands(p.cmds);
      ghost var head := [Retry] + CmdSteps(p.cmds);
      ghost var d2 := State();
      ExecSplit(d0, head, TailSteps(d2, p, env, cfg), env, lim);
      if !ok {
        CleanUp();
        ExecOne(d2, Cleanup, env, lim);
      } else if p.cmds != [] || deferred != [] || pending != map[] || uploads != {} {
        PollHalf(p, true);
      } else {
        Wait(p);
      }
    }

    /** The driver loop, for as long as the outside feeds it passes. */
    method Drive(ps: seq<DriverSpec.Pass>)
      requires Inv(State()) && running
      modifies this
      ensures State() == Run(old(State()), ps, env, cfg)
      ensures running || Finished(State())
    {
      for i := 0 to |ps|
        invariant State() == Run(old(State()), ps[..i], env, cfg)
        invariant Inv(State())
      {
        assert ps[..i + 1][..i] == ps[..i];
        if running {
          Pass(ps[i]);
        }
      }
      assert ps[..|ps|] == ps;
      RunLaw(old(State()), ps, env, cfg);
    }
  }

  lemma TakeRunning(d: Driver, cmd: Cmd, env: Env, lim: Limits)
    ensures Take(d, cmd, env, lim).running == (d.running && !cmd.Shutdown?)
  {
  }
}
