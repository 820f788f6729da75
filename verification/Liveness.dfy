/**
  Connection liveness of the HTTP/2 driver (`apply_liveness`,
  src/courierust_client/h2.rs): settings deadline, idle reaping and keepalive.
 */
module Liveness {
  import opened Basics
  import opened StreamLife

  datatype LiveConfig = LiveConfig(
    settingsTimeout: Option<nat>,
    idleTimeout: Option<nat>,
    pingInterval: Option<nat>,
    pingTimeout: Option<nat>)

  datatype Heart = Heart(started: Instant, lastRx: Instant, lastPing: Option<Instant>)

  datatype Verdict =
    | Carry(heart: Heart)     // keep going
    | SettingsDead            // the peer never acknowledged SETTINGS
    | Idle                    // nothing in flight for too long
    | PeerDead                // a PING went unanswered

  /** `Instant::duration_since`, which never goes below zero. */
  function Since(now: Instant, then_: Instant): nat {
    if now >= then_ then now - then_ else 0
  }

  predicate Reached(limit: Option<nat>, elapsed: nat) {
    limit.Some? && elapsed >= limit.value
  }

  function Judge(cfg: LiveConfig, h: Heart, now: Instant, settingsPending: bool, hasWork: bool): Verdict {
    if settingsPending && Reached(cfg.settingsTimeout, Since(now, h.started)) then SettingsDead
    else if !hasWork && Reached(cfg.idleTimeout, Since(now, h.lastRx)) then Idle
    else if cfg.pingInterval.None? then Carry(h)
    else if !Reached(cfg.pingInterval, Since(now, h.lastRx)) then Carry(h.(lastPing := None))
    else if h.lastPing.None? then Carry(h.(lastPing := Some(now)))
    else if h.lastRx >= h.lastPing.value then Carry(h.(lastPing := None))
    else if Reached(cfg.pingTimeout, Since(now, h.lastPing.value)) then PeerDead
    else Carry(h)
  }
}
