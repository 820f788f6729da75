/**
  Keepalive as a timed machine over whole runs of the driver loop
  (`apply_liveness`, src/courierust_client/h2.rs, with the progress flag of
  `poll_available`, src/courierust_h2/connection.rs).

  `poll_available` reports progress when a frame was read and also when staged
  bytes reached the transport, and the driver refreshes `last_rx` on either. So
  a peer is presumed dead only when nothing moved in either direction since a PING.
 */
module Keepalive {
  import opened Basics
  import opened StreamLife
  import opened Liveness

  /** One pass: the poll finished at `at`, `apply_liveness` looked at the clock at `now`. */
  datatype Tick = Tick(read: bool, wrote: bool, at: Instant, now: Instant, settingsPending: bool, hasWork: bool)

  predicate Progress(t: Tick) {
    t.read || t.wrote
  }

  function Beat(cfg: LiveConfig, h: Heart, t: Tick): Verdict {
    Judge(cfg, if Progress(t) then h.(lastRx := t.at) else h, t.now, t.settingsPending, t.hasWork)
  }

  /** The verdict after a run of passes. */
  function After(cfg: LiveConfig, h: Heart, ts: seq<Tick>): Verdict {
    if ts == [] then Carry(h)
    else
      match After(cfg, h, ts[..|ts| - 1])
      case Carry(h') => Beat(cfg, h', ts[|ts| - 1])
      case v => v
  }

  /** The clock does not go back. */
  ghost predicate Ordered(h: Heart, ts: seq<Tick>) {
    && (forall i :: 0 <= i < |ts| ==> h.lastRx <= ts[i].at <= ts[i].now)
    && (forall i, j :: 0 <= i < j < |ts| ==> ts[i].now <= ts[j].at)
  }

  /** Nothing moved in either direction during the passes after pass `i`. */
  ghost predicate StuckSince(ts: seq<Tick>, i: int) {
    0 <= i < |ts| && forall k :: i < k < |ts| ==> !Progress(ts[k])
  }

  /** When something last moved. */
  function LastHeard(h: Heart, ts: seq<Tick>): Instant {
    if ts == [] then h.lastRx
    else if Progress(ts[|ts| - 1]) then ts[|ts| - 1].at
    else LastHeard(h, ts[..|ts| - 1])
  }

  /** After the last pass of `ts` a PING sent during that pass is outstanding. */
  ghost predicate JustPinged(cfg: LiveConfig, h: Heart, ts: seq<Tick>) {
    ts != [] && After(cfg, h, ts).Carry? && After(cfg, h, ts).heart.lastPing == Some(ts[|ts| - 1].now)
  }

  /** Pass `i` sent a PING `interval` or more after the last thing that moved. */
  ghost predicate PingedAt(cfg: LiveConfig, h: Heart, ts: seq<Tick>, i: int) {
    && 0 <= i < |ts|
    && JustPinged(cfg, h, ts[..i + 1])
    && Reached(cfg.pingInterval, Since(ts[i].now, LastHeard(h, ts[..i + 1])))
  }

  /** Where an outstanding PING comes from. */
  ghost predicate PingFrom(cfg: LiveConfig, h: Heart, ts: seq<Tick>, h': Heart, i: int) {
    && PingedAt(cfg, h, ts, i)
    && h'.lastPing == Some(ts[i].now)
    && (h'.lastRx < ts[i].now ==> StuckSince(ts, i))
  }

  /** What the heart remembers of a run. */
  ghost predicate PingLaw(cfg: LiveConfig, h: Heart, ts: seq<Tick>, h': Heart) {
    && h'.started == h.started
    && h'.lastRx == LastHeard(h, ts)
    && (h'.lastPing.Some? ==> exists i :: PingFrom(cfg, h, ts, h', i))
  }

  /** What the heart remembers after a pass that carries on. */
  lemma BeatCarries(cfg: LiveConfig, h: Heart, t: Tick)
    requires Beat(cfg, h, t).Carry?
    ensures var h' := Beat(cfg, h, t).heart;
            && h'.started == h.started
            && h'.lastRx == (if Progress(t) then t.at else h.lastRx)
            && (h'.lastPing.Some? && cfg.pingInterval.Some? ==> Reached(cfg.pingInterval, Since(t.now, h'.lastRx)))
            && (h'.lastPing.Some? && h'.lastPing != Some(t.now) ==> h'.lastPing == h.lastPing)
            && (h.lastPing.None? && h'.lastPing.Some? ==> cfg.pingInterval.Some?)
  {
  }

  lemma AfterLast(cfg: LiveConfig, h: Heart, ts: seq<Tick>)
    requires ts != []
    ensures var v := After(cfg, h, ts[..|ts| - 1]);
            After(cfg, h, ts) == if v.Carry? then Beat(cfg, v.heart, ts[|ts| - 1]) else v
  {
  }

  lemma OrderedBefore(h: Heart, ts: seq<Tick>)
    requires ts != [] && Ordered(h, ts)
    ensures Ordered(h, ts[..|ts| - 1])
  {
  }

  /** An older PING is still the one outstanding after one more pass. */
  lemma OlderPing(cfg: LiveConfig, h: Heart, before: seq<Tick>, t: Tick, h1: Heart, h2: Heart, i: int)
    requires Ordered(h, before + [t]) && PingFrom(cfg, h, before, h1, i)
    requires h2.lastPing == h1.lastPing && h2.lastRx == (if Progress(t) then t.at else h1.lastRx)
    ensures PingFrom(cfg, h, before + [t], h2, i)
  {
    var ts := before + [t];
    assert ts[..i + 1] == before[..i + 1];
    assert ts[i].now <= ts[|before|].at;
  }

  lemma {:induction false} PingLawHolds(cfg: LiveConfig, h: Heart, ts: seq<Tick>)
    requires h.lastPing.None? && Ordered(h, ts)
    ensures After(cfg, h, ts).Carry? ==> PingLaw(cfg, h, ts, After(cfg, h, ts).heart)
  {
    if ts != [] && After(cfg, h, ts).Carry? {
      var n := |ts| - 1;
      var before, t := ts[..n], ts[n];
      assert ts == before + [t] && ts[..n + 1] == ts;
      OrderedBefore(h, ts);
      PingLawHolds(cfg, h, before);
      AfterLast(cfg, h, ts);
      var h1, h2 := After(cfg, h, before).heart, After(cfg, h, ts).heart;
      BeatCarries(cfg, h1, t);
      if h2.lastPing == Some(t.now) {
        assert PingFrom(cfg, h, ts, h2, n);
      } else if h2.lastPing.Some? {
        var i :| PingFrom(cfg, h, before, h1, i);
        OlderPing(cfg, h, before, t, h1, h2, i);
      }
    }
  }

  // ------------------------------------------------------------------
  // When the peer is given up
  // ------------------------------------------------------------------

  /** The last pass of `ts` ends the connection for want of SETTINGS or of anything to do. */
  ghost predicate OtherwiseDropped(cfg: LiveConfig, h: Heart, ts: seq<Tick>) {
    && ts != []
    && var t := ts[|ts| - 1];
       || (t.settingsPending && Reached(cfg.settingsTimeout, Since(t.now, h.started)))
       || (!t.hasWork && Reached(cfg.idleTimeout, Since(t.now, LastHeard(h, ts))))
  }

  /** The PING of pass `i` ran out of time at the last pass: nothing moved since. */
  ghost predicate RanOut(cfg: LiveConfig, h: Heart, ts: seq<Tick>, i: int) {
    && 0 <= i < |ts| - 1
    && PingedAt(cfg, h, ts, i)
    && LastHeard(h, ts[..i + 1]) < ts[i].now
    && StuckSince(ts, i)
    && Reached(cfg.pingTimeout, Since(ts[|ts| - 1].now, ts[i].now))
  }

  ghost predicate SomeRanOut(cfg: LiveConfig, h: Heart, ts: seq<Tick>) {
    exists i :: RanOut(cfg, h, ts, i)
  }

  /** When one pass gives the peer up. */
  lemma BeatGivesUp(cfg: LiveConfig, h: Heart, t: Tick)
    ensures var rx := if Progress(t) then t.at else h.lastRx;
            Beat(cfg, h, t).PeerDead? <==>
              && !(t.settingsPending && Reached(cfg.settingsTimeout, Since(t.now, h.started)))
              && !(!t.hasWork && Reached(cfg.idleTimeout, Since(t.now, rx)))
              && Reached(cfg.pingInterval, Since(t.now, rx))
              && h.lastPing.Some? && rx < h.lastPing.value
              && Reached(cfg.pingTimeout, Since(t.now, h.lastPing.value))
  {
  }

  lemma {:induction false} StuckHeard(h: Heart, ts: seq<Tick>, i: nat)
    requires StuckSince(ts, i)
    ensures LastHeard(h, ts) == LastHeard(h, ts[..i + 1])
  {
    var n := |ts| - 1;
    if i < n {
      assert ts[..n][..i + 1] == ts[..i + 1];
      StuckHeard(h, ts[..n], i);
    } else {
      assert ts[..i + 1] == ts;
    }
  }

  /** While nothing moves, a PING stays outstanding for as long as the run carries on. */
  lemma {:induction false} PingStays(cfg: LiveConfig, h: Heart, ts: seq<Tick>, i: nat)
    requires h.lastPing.None? && Ordered(h, ts) && PingedAt(cfg, h, ts, i)
    requires LastHeard(h, ts[..i + 1]) < ts[i].now && StuckSince(ts, i) && After(cfg, h, ts).Carry?
    ensures After(cfg, h, ts).heart.lastPing == Some(ts[i].now)
  {
    var n := |ts| - 1;
    if i < n {
      var before := ts[..n];
      assert before[..i + 1] == ts[..i + 1];
      OrderedBefore(h, ts);
      AfterLast(cfg, h, ts);
      PingStays(cfg, h, before, i);
      PingLawHolds(cfg, h, before);
      StuckHeard(h, before, i);
      StillOut(cfg, After(cfg, h, before).heart, ts[n], ts[i]);
    } else {
      assert ts[..i + 1] == ts;
    }
  }

  lemma StillOut(cfg: LiveConfig, h: Heart, t: Tick, sent: Tick)
    requires h.lastPing == Some(sent.now) && h.lastRx < sent.now <= t.now && !Progress(t)
    requires Reached(cfg.pingInterval, Since(sent.now, h.lastRx)) && Beat(cfg, h, t).Carry?
    ensures Beat(cfg, h, t).heart.lastPing == h.lastPing
  {
  }

  /** A pass gives the peer up only if a PING ran out of time. */
  lemma DeadMeansStuck(cfg: LiveConfig, h: Heart, ts: seq<Tick>)
    requires h.lastPing.None? && Ordered(h, ts)
    requires ts != [] && After(cfg, h, ts[..|ts| - 1]).Carry? && After(cfg, h, ts).PeerDead?
    ensures !OtherwiseDropped(cfg, h, ts) && SomeRanOut(cfg, h, ts)
  {
    var n := |ts| - 1;
    var before := ts[..n];
    OrderedBefore(h, ts);
    PingLawHolds(cfg, h, before);
    AfterLast(cfg, h, ts);
    var h1 := After(cfg, h, before).heart;
    BeatGivesUp(cfg, h1, ts[n]);
    var i :| PingFrom(cfg, h, before, h1, i);
    PingRunsOut(cfg, h, ts, h1, i);
    HeardThen(h, ts);
  }

  lemma HeardThen(h: Heart, ts: seq<Tick>)
    requires ts != []
    ensures LastHeard(h, ts) == if Progress(ts[|ts| - 1]) then ts[|ts| - 1].at else LastHeard(h, ts[..|ts| - 1])
  {
  }

  lemma PingRunsOut(cfg: LiveConfig, h: Heart, ts: seq<Tick>, h1: Heart, i: int)
    requires ts != [] && Ordered(h, ts) && PingFrom(cfg, h, ts[..|ts| - 1], h1, i)
    requires h1.lastRx == LastHeard(h, ts[..|ts| - 1])
    requires var t := ts[|ts| - 1]; (if Progress(t) then t.at else h1.lastRx) < h1.lastPing.value
    requires Reached(cfg.pingTimeout, Since(ts[|ts| - 1].now, h1.lastPing.value))
    ensures RanOut(cfg, h, ts, i)
  {
    var before := ts[..|ts| - 1];
    assert before[..i + 1] == ts[..i + 1] && before[i] == ts[i];
    assert ts[i].now <= ts[|ts| - 1].at;
    assert StuckSince(before, i);
    StuckHeard(h, before, i);
  }

  /** And a PING that ran out of time does give the peer up. */
  lemma StuckMeansDead(cfg: LiveConfig, h: Heart, ts: seq<Tick>, i: int)
    requires h.lastPing.None? && Ordered(h, ts)
    requires ts != [] && After(cfg, h, ts[..|ts| - 1]).Carry?
    requires !OtherwiseDropped(cfg, h, ts) && RanOut(cfg, h, ts, i)
    ensures After(cfg, h, ts).PeerDead?
  {
    var n := |ts| - 1;
    var before := ts[..n];
    assert before[..i + 1] == ts[..i + 1];
    OrderedBefore(h, ts);
    PingStays(cfg, h, before, i);
    PingLawHolds(cfg, h, before);
    StuckHeard(h, before, i);
    AfterLast(cfg, h, ts);
    BeatGivesUp(cfg, After(cfg, h, before).heart, ts[n]);
  }

  /** Pass `n` is the one that gives the peer up. */
  ghost predicate GivenUpAt(cfg: LiveConfig, h: Heart, ts: seq<Tick>, n: int) {
    && 0 <= n < |ts|
    && After(cfg, h, ts[..n]).Carry?
    && !OtherwiseDropped(cfg, h, ts[..n + 1])
    && SomeRanOut(cfg, h, ts[..n + 1])
  }

  /**
    A run presumes the peer dead exactly when some pass found a PING, sent after
    `interval` of silence and `pingTimeout` old, since which nothing was read and
    nothing was written, while neither the SETTINGS nor the idle deadline ended
    the connection first.
   */
  lemma {:induction false} GivenUpExactly(cfg: LiveConfig, h: Heart, ts: seq<Tick>)
    requires h.lastPing.None? && Ordered(h, ts)
    ensures After(cfg, h, ts).PeerDead? <==> exists n :: GivenUpAt(cfg, h, ts, n)
  {
    if ts != [] {
      var m := |ts| - 1;
      var before := ts[..m];
      assert ts[..m + 1] == ts;
      OrderedBefore(h, ts);
      GivenUpExactly(cfg, h, before);
      AfterLast(cfg, h, ts);
      if After(cfg, h, ts).PeerDead? {
        if After(cfg, h, before).Carry? {
          DeadMeansStuck(cfg, h, ts);
          assert GivenUpAt(cfg, h, ts, m);
        } else {
          var n :| GivenUpAt(cfg, h, before, n);
          GivenUpLater(cfg, h, ts, n);
        }
      }
      if n :| GivenUpAt(cfg, h, ts, n) {
        if n == m {
          var i :| RanOut(cfg, h, ts, i);
          StuckMeansDead(cfg, h, ts, i);
        } else {
          GivenUpLater(cfg, h, ts, n);
        }
      }
    }
  }

  lemma GivenUpLater(cfg: LiveConfig, h: Heart, ts: seq<Tick>, n: int)
    requires 0 <= n < |ts| - 1
    ensures GivenUpAt(cfg, h, ts, n) <==> GivenUpAt(cfg, h, ts[..|ts| - 1], n)
  {
    var before := ts[..|ts| - 1];
    assert before[..n] == ts[..n] && before[..n + 1] == ts[..n + 1];
  }

  // ------------------------------------------------------------------
  // Detection in bounded time, when nothing moves
  // ------------------------------------------------------------------

  /** Passes at most `d` apart, the first within `d` of the last progress, and no progress in any. */
  ghost predicate Silence(h: Heart, ts: seq<Tick>, d: nat) {
    && (forall i :: 0 <= i < |ts| ==> !Progress(ts[i]) && h.lastRx <= ts[i].now)
    && (ts != [] ==> ts[0].now <= h.lastRx + d)
    && (forall i, j :: 0 <= i < j < |ts| && j == i + 1 ==> ts[j].now <= ts[i].now + d)
  }

  /** How far a silent connection can have got without being dropped. */
  ghost predicate SilentBound(cfg: LiveConfig, r: Instant, h: Heart, last: Instant, d: nat)
    requires cfg.pingInterval.Some? && cfg.pingTimeout.Some?
  {
    var interval := cfg.pingInterval.value;
    && h.lastRx == r
    && (h.lastPing.Some? && h.lastPing.value <= r ==> last < r + interval)
    && (h.lastPing.None? ==> last <= r + interval + d)
    && (h.lastPing.Some? && h.lastPing.value > r ==>
          h.lastPing.value <= r + interval + 2 * d
          && (last == h.lastPing.value || last < h.lastPing.value + cfg.pingTimeout.value))
  }

  lemma SilentBeat(cfg: LiveConfig, r: Instant, h: Heart, last: Instant, t: Tick, d: nat)
    requires cfg.pingInterval.Some? && cfg.pingInterval.value > 0 && cfg.pingTimeout.Some?
    requires SilentBound(cfg, r, h, last, d) && !Progress(t) && r <= t.now <= last + d && Beat(cfg, h, t).Carry?
    ensures SilentBound(cfg, r, Beat(cfg, h, t).heart, t.now, d)
  {
  }

  lemma {:induction false} SilentProgress(cfg: LiveConfig, h: Heart, ts: seq<Tick>, d: nat)
    requires cfg.pingInterval.Some? && cfg.pingInterval.value > 0 && cfg.pingTimeout.Some?
    requires Silence(h, ts, d)
    requires h.lastPing.Some? ==> h.lastPing.value <= h.lastRx
    ensures After(cfg, h, ts).Carry? ==>
              SilentBound(cfg, h.lastRx, After(cfg, h, ts).heart, if ts == [] then h.lastRx else ts[|ts| - 1].now, d)
  {
    if ts != [] && After(cfg, h, ts).Carry? {
      var n := |ts| - 1;
      var before := ts[..n];
      SilentProgress(cfg, h, before, d);
      AfterLast(cfg, h, ts);
      var last := if n == 0 then h.lastRx else ts[n - 1].now;
      SilentBeat(cfg, h.lastRx, After(cfg, h, before).heart, last, ts[n], d);
    }
  }

  /**
    A connection on which nothing moves is dropped by the first pass later than
    this bound, and with requests under way it is because the peer is presumed dead.
   */
  lemma StuckConnectionIsDropped(cfg: LiveConfig, h: Heart, ts: seq<Tick>, d: nat)
    requires cfg.pingInterval.Some? && cfg.pingInterval.value > 0 && cfg.pingTimeout.Some?
    requires Silence(h, ts, d)
    requires h.lastPing.Some? ==> h.lastPing.value <= h.lastRx
    requires ts != [] && ts[|ts| - 1].now > h.lastRx + cfg.pingInterval.value + cfg.pingTimeout.value + 2 * d
    ensures !After(cfg, h, ts).Carry?
    ensures (forall i :: 0 <= i < |ts| ==> ts[i].hasWork && !ts[i].settingsPending) ==> After(cfg, h, ts).PeerDead?
  {
    SilentProgress(cfg, h, ts, d);
    if forall i :: 0 <= i < |ts| ==> ts[i].hasWork && !ts[i].settingsPending {
      BusyEndsDead(cfg, h, ts);
    }
  }

  lemma {:induction false} BusyEndsDead(cfg: LiveConfig, h: Heart, ts: seq<Tick>)
    requires forall i :: 0 <= i < |ts| ==> ts[i].hasWork && !ts[i].settingsPending
    ensures After(cfg, h, ts).Carry? || After(cfg, h, ts).PeerDead?
  {
    if ts != [] {
      BusyEndsDead(cfg, h, ts[..|ts| - 1]);
    }
  }

  // ------------------------------------------------------------------
  // A dead peer behind a willing transport
  // ------------------------------------------------------------------

  ghost predicate WroteBetween(ts: seq<Tick>, i: int, n: int) {
    exists k :: 0 <= i < k <= n < |ts| && ts[k].wrote
  }

  /** Some byte is taken after every PING, at the latest by the pass that finds its time run out. */
  ghost predicate PingsAreFlushed(cfg: LiveConfig, h: Heart, ts: seq<Tick>) {
    forall i, n :: PingOverdue(cfg, h, ts, i, n) ==> WroteBetween(ts, i, n)
  }

  /** At pass `n` the PING of pass `i` is as old as a PING may get. */
  ghost predicate PingOverdue(cfg: LiveConfig, h: Heart, ts: seq<Tick>, i: int, n: int) {
    && 0 <= i < n < |ts|
    && JustPinged(cfg, h, ts[..i + 1])
    && Reached(cfg.pingTimeout, Since(ts[n].now, ts[i].now))
  }

  /**
    If the transport takes every PING in time, no run whatever presumes the peer
    dead, even one in which the peer is silent throughout: flushing the PING counts
    as hearing from the peer.
   */
  lemma WillingTransportHidesDeath(cfg: LiveConfig, h: Heart, ts: seq<Tick>)
    requires h.lastPing.None? && Ordered(h, ts) && PingsAreFlushed(cfg, h, ts)
    ensures !After(cfg, h, ts).PeerDead?
  {
    GivenUpExactly(cfg, h, ts);
    if n :| GivenUpAt(cfg, h, ts, n) {
      GivenUpUnflushed(cfg, h, ts, n);
    }
  }

  lemma GivenUpUnflushed(cfg: LiveConfig, h: Heart, ts: seq<Tick>, n: int)
    requires GivenUpAt(cfg, h, ts, n)
    ensures !PingsAreFlushed(cfg, h, ts)
  {
    var i :| RanOut(cfg, h, ts[..n + 1], i);
    assert ts[..n + 1][..i + 1] == ts[..i + 1];
    assert PingOverdue(cfg, h, ts, i, n);
    forall k | i < k <= n ensures !ts[k].wrote {
      assert ts[..n + 1][k] == ts[k];
    }
    assert !WroteBetween(ts, i, n);
  }

  /**
    Default configuration, a peer that is silent after its SETTINGS ACK: still alive after one
    interval and twice the PING timeout.
   */
  lemma SilentPeerSurvives()
    ensures var cfg := LiveConfig(Some(10), Some(300), Some(30), Some(15));
            var h := Heart(0, 0, None);
            var ts := [Tick(false, false, 30, 30, false, true), Tick(false, true, 31, 31, false, true),
                       Tick(false, false, 60, 60, false, true)];
            Ordered(h, ts) && (forall i :: 0 <= i < |ts| ==> !ts[i].read) && After(cfg, h, ts).Carry?
  {
    var cfg := LiveConfig(Some(10), Some(300), Some(30), Some(15));
    var h := Heart(0, 0, None);
    var ts := [Tick(false, false, 30, 30, false, true), Tick(false, true, 31, 31, false, true),
               Tick(false, false, 60, 60, false, true)];
    assert ts[..0] == [] && ts[..1][..0] == [] && ts[..2][..1] == ts[..1] && ts[..3] == ts;
    assert After(cfg, h, ts[..1]) == Carry(Heart(0, 0, Some(30)));
    assert After(cfg, h, ts[..2]) == Carry(Heart(0, 31, None));
  }
}
