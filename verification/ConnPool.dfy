/**
  The per-authority pool of HTTP/2 connections (`get_h2_conn`, `send_h2_cmd`,
  `execute_h2c_upgrade`, src/courierust_client/mod.rs; `reserve`, `release`,
  `load`, src/courierust_client/h2.rs) as a protocol of callers that interleave
  at the pool lock. Connections are opened outside the lock; each step below is
  one critical section, or one thing that happens between two of them.
 */
module ConnPool {
  import opened Basics

  /** `H2_BODY_UNIT`, `H2_BODY_WEIGHT_CAP`, `H2_EWMA_DIVISOR` and `H2_EWMA_CAP_US` */
  const BODY_UNIT: nat := 65536
  const WEIGHT_CAP: nat := 256
  const EWMA_DIVISOR: nat := 1000
  const EWMA_CAP: nat := 10_000

  function Min(a: nat, b: nat): nat {
    if a <= b then a else b
  }

  /** `body_weight` */
  function BodyWeight(bytes: nat): nat {
    Min((bytes + BODY_UNIT - 1) / BODY_UNIT, WEIGHT_CAP)
  }

  datatype Conn = Conn(accepting: bool, reservations: nat, bodyLoad: nat, ewma: nat)

  function Reserve(c: Conn, bytes: nat): Conn {
    c.(reservations := c.reservations + 1, bodyLoad := c.bodyLoad + BodyWeight(bytes))
  }

  function SaturatingSub(a: nat, b: nat): nat {
    if a >= b then a - b else 0
  }

  function Release(c: Conn, bytes: nat): Conn {
    c.(reservations := SaturatingSub(c.reservations, 1), bodyLoad := SaturatingSub(c.bodyLoad, BodyWeight(bytes)))
  }

  function Load(c: Conn): nat {
    c.reservations + c.bodyLoad + Min(c.ewma, EWMA_CAP) / EWMA_DIVISOR
  }

  /** Where one request stands. `retried` is set once a dead driver was met. */
  datatype Caller =
    | Looking(bytes: nat, retried: bool)
    | Opening(bytes: nat, retried: bool)               // between counting the open and its outcome
    | Waiting(bytes: nat, retried: bool)               // on the condition variable
    | Landed(conn: nat, bytes: nat, retried: bool)     // opened, not yet reserved
    | Holding(conn: nat, bytes: nat, retried: bool)    // dispatched and not finished
    | Asking(bytes: nat)                               // h2c upgrade, before looking
    | Upgrading(bytes: nat)                            // h2c upgrade, own socket
    | Pooling(conn: nat, bytes: nat)                   // h2c upgrade, reserved and not yet offered to the pool
    | Riding(conn: nat, bytes: nat)                    // h2c upgrade, its request is stream 1 of the connection
    | Stranded(bytes: nat)                             // fell out of the loop with no connection
    | Finished

  datatype Pool = Pool(
    cap: nat,
    conns: seq<Conn>,            // every connection ever opened to the authority
    list: seq<nat>,              // the pooled ones
    opens: Option<nat>,          // the authority's entry in `pending_h2_opens`
    callers: seq<Caller>)

  datatype Step =
    | Arrive(bytes: nat)
    | ArriveUpgrade(bytes: nat)
    | Look(who: nat)
    | Land(who: nat, alive: bool)
    | OpenFails(who: nat)
    | Take(who: nat)                  // `conn.reserve` after landing
    | Wake(who: nat)
    | Finish(who: nat, sample: nat)
    | DriverGone(who: nat, sample: nat)
    | Die(conn: nat)                  // the driver flips `accepting`
    | Ask(who: nat)
    | Upgrade(who: nat, alive: bool)
    | Declined(who: nat)
    | OfferPool(who: nat)

  // ------------------------------------------------------------------
  // Choosing a connection
  // ------------------------------------------------------------------

  /** `list.retain(accepting)` */
  function Retained(conns: seq<Conn>, list: seq<nat>): seq<nat> {
    if list == [] then []
    else
      var rest := Retained(conns, list[..|list| - 1]);
      var i := list[|list| - 1];
      if i < |conns| && conns[i].accepting then rest + [i] else rest
  }

  /** The first idle connection of the list. */
  function FirstIdle(conns: seq<Conn>, list: seq<nat>): Option<nat> {
    if list == [] then None
    else if list[0] < |conns| && conns[list[0]].reservations == 0 then Some(list[0])
    else FirstIdle(conns, list[1..])
  }

  /** The first connection of least load. */
  function LeastLoaded(conns: seq<Conn>, list: seq<nat>): (best: nat)
    requires list != []
    requires forall i :: 0 <= i < |list| ==> list[i] < |conns|
    ensures best in list
    ensures forall i :: 0 <= i < |list| ==> Load(conns[best]) <= Load(conns[list[i]])
  {
    if |list| == 1 then list[0]
    else
      var best := LeastLoaded(conns, list[..|list| - 1]);
      var last := list[|list| - 1];
      if Load(conns[last]) < Load(conns[best]) then last else best
  }

  // ------------------------------------------------------------------
  // Steps
  // ------------------------------------------------------------------

  function Pending(p: Pool): nat {
    if p.opens.Some? then p.opens.value else 0
  }

  /** `decrement_pending_h2_open`: an entry that reaches zero is removed. */
  function Decrement(opens: Option<nat>): Option<nat> {
    if opens.None? then None
    else
      var n := SaturatingSub(opens.value, 1);
      if n == 0 then None else Some(n)
  }

  function Dispatch(p: Pool, who: nat, conn: nat, retried: bool): Pool
    requires who < |p.callers| && conn < |p.conns| && !p.callers[who].Finished?
  {
    var bytes := p.callers[who].bytes;
    p.(conns := p.conns[conn := Reserve(p.conns[conn], bytes)],
       callers := p.callers[who := Holding(conn, bytes, retried)])
  }

  /** The locked part of one turn of the `get_h2_conn` loop. */
  function LookStep(p: Pool, who: nat): Pool
    requires who < |p.callers| && p.callers[who].Looking?
    requires WellListed(p)
  {
    var c := p.callers[who];
    RetainedListed(p.conns, p.list);
    var list := Retained(p.conns, p.list);
    var p1 := p.(list := list);
    var idle := FirstIdle(p.conns, list);
    if idle.Some? then Dispatch(p1, who, idle.value, c.retried)
    else if list != [] && |list| >= p.cap then Dispatch(p1, who, LeastLoaded(p.conns, list), c.retried)
    else if |list| + Pending(p) < p.cap then
      p1.(opens := Some(Pending(p) + 1), callers := p.callers[who := Opening(c.bytes, c.retried)])
    else if Pending(p) > 0 then p1.(callers := p.callers[who := Waiting(c.bytes, c.retried)])
    else p1.(callers := p.callers[who := Stranded(c.bytes)])
  }

  /** The pooled half of `execute_h2c_upgrade`: reuse an idle connection, or any at the cap. */
  function AskStep(p: Pool, who: nat): Pool
    requires who < |p.callers| && p.callers[who].Asking?
    requires WellListed(p)
  {
    RetainedListed(p.conns, p.list);
    var list := Retained(p.conns, p.list);
    var p1 := p.(list := list);
    var idle := FirstIdle(p.conns, list);
    if idle.Some? then Dispatch(p1, who, idle.value, false)
    else if list != [] && |list| >= p.cap then Dispatch(p1, who, LeastLoaded(p.conns, list), false)
    else p1.(callers := p.callers[who := Upgrading(p.callers[who].bytes)])
  }

  /** Push a connection under the lock if the cap leaves room. */
  function Pooled(p: Pool, conn: nat): Pool {
    var list := Retained(p.conns, p.list);
    p.(list := if |list| < p.cap then list + [conn] else list)
  }

  function LandStep(p: Pool, who: nat, alive: bool): Pool
    requires who < |p.callers| && p.callers[who].Opening?
  {
    var c := p.callers[who];
    var conn := |p.conns|;
    var p1 := p.(conns := p.conns + [Conn(alive, 0, 0, 0)], opens := Decrement(p.opens));
    Pooled(p1, conn).(callers := p.callers[who := Landed(conn, c.bytes, c.retried)])
  }

  /** `note_service_us` without interference. */
  function Fold(ewma: nat, sample: nat): nat {
    if ewma == 0 then Min(sample, EWMA_CAP) else Min((ewma * 7 + sample) / 8, EWMA_CAP)
  }

  predicate Known(p: Pool, who: nat) {
    who < |p.callers|
  }

  ghost predicate WellListed(p: Pool) {
    forall i :: 0 <= i < |p.list| ==> p.list[i] < |p.conns|
  }

  lemma {:induction false} RetainedListed(conns: seq<Conn>, list: seq<nat>)
    ensures forall i :: 0 <= i < |Retained(conns, list)| ==>
              Retained(conns, list)[i] < |conns| && conns[Retained(conns, list)[i]].accepting
    ensures |Retained(conns, list)| <= |list|
    ensures FirstIdle(conns, Retained(conns, list)).Some? ==>
              FirstIdle(conns, Retained(conns, list)).value < |conns|
    ensures Retained(conns, list) != [] ==>
              LeastLoaded(conns, Retained(conns, list)) < |conns|
  {
    if list != [] { RetainedListed(conns, list[..|list| - 1]); }
    var kept := Retained(conns, list);
    IdleIsListed(conns, kept);
  }

  lemma {:induction false} IdleIsListed(conns: seq<Conn>, list: seq<nat>)
    ensures var r := FirstIdle(conns, list);
            r.Some? ==> r.value in list && r.value < |conns| && conns[r.value].reservations == 0
    ensures FirstIdle(conns, list).None? ==>
              forall i :: 0 <= i < |list| && list[i] < |conns| ==> conns[list[i]].reservations > 0
  {
    if list != [] && !(list[0] < |conns| && conns[list[0]].reservations == 0) {
      IdleIsListed(conns, list[1..]);
      if FirstIdle(conns, list).None? {
        forall i | 0 <= i < |list| && list[i] < |conns| ensures conns[list[i]].reservations > 0 {
          if i > 0 { assert list[i] == list[1..][i - 1]; }
        }
      }
    }
  }

  /** A step whose caller is not at that point leaves everything alone. */
  function Next(p: Pool, step: Step): Pool
    requires WellListed(p)
  {
    match step
    case Arrive(bytes) => p.(callers := p.callers + [Looking(bytes, false)])
    case ArriveUpgrade(bytes) => p.(callers := p.callers + [Asking(bytes)])
    case Look(who) => if Known(p, who) && p.callers[who].Looking? then LookStep(p, who) else p
    case Land(who, alive) => if Known(p, who) && p.callers[who].Opening? then LandStep(p, who, alive) else p
    case OpenFails(who) =>
      if Known(p, who) && p.callers[who].Opening?
      then p.(opens := Decrement(p.opens), callers := p.callers[who := Finished]) else p
    case Take(who) =>
      if Known(p, who) && p.callers[who].Landed? && p.callers[who].conn < |p.conns|
      then Dispatch(p, who, p.callers[who].conn, p.callers[who].retried) else p
    case Wake(who) =>
      if Known(p, who) && p.callers[who].Waiting?
      then p.(callers := p.callers[who := Looking(p.callers[who].bytes, p.callers[who].retried)]) else p
    case Finish(who, sample) =>
      if Known(p, who) && (p.callers[who].Holding? || p.callers[who].Riding?) && p.callers[who].conn < |p.conns| then
        var c := p.callers[who];
        var conn := p.conns[c.conn];
        var noted := if c.Holding? then conn.(ewma := Fold(conn.ewma, sample)) else conn;
        p.(conns := p.conns[c.conn := Release(noted, c.bytes)], callers := p.callers[who := Finished])
      else p
    case DriverGone(who, sample) =>
      if Known(p, who) && p.callers[who].Holding? && p.callers[who].conn < |p.conns| then
        var c := p.callers[who];
        var conn := p.conns[c.conn];
        if c.retried then
          p.(conns := p.conns[c.conn := Release(conn.(ewma := Fold(conn.ewma, sample)), c.bytes)],
             callers := p.callers[who := Finished])
        else
          p.(conns := p.conns[c.conn := Release(conn.(accepting := false), c.bytes)],
             callers := p.callers[who := Looking(c.bytes, true)])
      else p
    case Die(conn) => if conn < |p.conns| then p.(conns := p.conns[conn := p.conns[conn].(accepting := false)]) else p
    case Ask(who) => if Known(p, who) && p.callers[who].Asking? then AskStep(p, who) else p
    case Upgrade(who, alive) =>
      if Known(p, who) && p.callers[who].Upgrading? then
        var bytes := p.callers[who].bytes;
        p.(conns := p.conns + [Reserve(Conn(alive, 0, 0, 0), bytes)],
           callers := p.callers[who := Pooling(|p.conns|, bytes)])
      else p
    case Declined(who) =>
      if Known(p, who) && p.callers[who].Upgrading? then p.(callers := p.callers[who := Finished]) else p
    case OfferPool(who) =>
      if Known(p, who) && p.callers[who].Pooling? && p.callers[who].conn < |p.conns| then
        var c := p.callers[who];
        Pooled(p, c.conn).(callers := p.callers[who := Riding(c.conn, c.bytes)])
      else p
  }

  // ------------------------------------------------------------------
  // Counting
  // ------------------------------------------------------------------

  /** What the callers are counted for. */
  datatype Tally = Openers | HoldersOf(conn: nat) | WeightOn(conn: nat)

  predicate OnWire(c: Caller) {
    c.Holding? || c.Pooling? || c.Riding?
  }

  function Worth(c: Caller, q: Tally): nat {
    match q
    case Openers => if c.Opening? then 1 else 0
    case HoldersOf(k) => if OnWire(c) && c.conn == k then 1 else 0
    case WeightOn(k) => if OnWire(c) && c.conn == k then BodyWeight(c.bytes) else 0
  }

  function Count(callers: seq<Caller>, q: Tally): nat {
    if callers == [] then 0 else Count(callers[..|callers| - 1], q) + Worth(callers[|callers| - 1], q)
  }

  lemma {:induction false} CountUpdate(callers: seq<Caller>, i: nat, c: Caller, q: Tally)
    requires i < |callers|
    ensures Count(callers[i := c], q) + Worth(callers[i], q) == Count(callers, q) + Worth(c, q)
  {
    var n := |callers| - 1;
    if i == n {
      assert callers[i := c][..n] == callers[..n];
    } else {
      assert callers[i := c][..n] == callers[..n][i := c];
      CountUpdate(callers[..n], i, c, q);
    }
  }

  lemma {:induction false} CountAtLeast(callers: seq<Caller>, i: nat, q: Tally)
    requires i < |callers|
    ensures Worth(callers[i], q) <= Count(callers, q)
  {
    var n := |callers| - 1;
    if i < n {
      CountAtLeast(callers[..n], i, q);
    }
  }

  lemma {:induction false} CountZero(callers: seq<Caller>, q: Tally)
    ensures Count(callers, q) == 0 <==> forall i :: 0 <= i < |callers| ==> Worth(callers[i], q) == 0
  {
    if callers != [] {
      var n := |callers| - 1;
      CountZero(callers[..n], q);
      if forall i :: 0 <= i < n ==> Worth(callers[..n][i], q) == 0 {
        assert forall i :: 0 <= i < n ==> Worth(callers[i], q) == 0;
      } else {
        var i :| 0 <= i < n && Worth(callers[..n][i], q) != 0;
        assert Worth(callers[i], q) != 0;
      }
    }
  }

  // ------------------------------------------------------------------
  // The invariant
  // ------------------------------------------------------------------

  /** Each counter of a connection is the count of the callers that hold it. */
  ghost predicate Counted(conns: seq<Conn>, callers: seq<Caller>) {
    forall k :: 0 <= k < |conns| ==>
      && conns[k].reservations == Count(callers, HoldersOf(k))
      && conns[k].bodyLoad == Count(callers, WeightOn(k))
      && conns[k].ewma <= EWMA_CAP
  }

  ghost predicate WellPlaced(conns: seq<Conn>, callers: seq<Caller>) {
    forall i :: 0 <= i < |callers| ==>
      && !callers[i].Stranded?
      && ((OnWire(callers[i]) || callers[i].Landed?) ==> callers[i].conn < |conns|)
  }

  ghost predicate Inv(p: Pool) {
    && p.cap > 0 && |p.list| <= p.cap && WellListed(p)
    && (p.opens.Some? ==> p.opens.value > 0) && Pending(p) == Count(p.callers, Openers)
    && Counted(p.conns, p.callers) && WellPlaced(p.conns, p.callers)
  }

  /** One caller moves without touching a connection. */
  lemma MoveKeeps(conns: seq<Conn>, callers: seq<Caller>, who: nat, c: Caller)
    requires Counted(conns, callers) && WellPlaced(conns, callers) && who < |callers|
    requires !OnWire(callers[who]) && !OnWire(c) && !c.Stranded? && (c.Landed? ==> c.conn < |conns|)
    ensures Counted(conns, callers[who := c]) && WellPlaced(conns, callers[who := c])
    ensures Count(callers[who := c], Openers) + Worth(callers[who], Openers) == Count(callers, Openers) + Worth(c, Openers)
  {
    forall k | 0 <= k < |conns|
      ensures Count(callers[who := c], HoldersOf(k)) == Count(callers, HoldersOf(k))
           && Count(callers[who := c], WeightOn(k)) == Count(callers, WeightOn(k))
    {
      CountUpdate(callers, who, c, HoldersOf(k));
      CountUpdate(callers, who, c, WeightOn(k));
    }
    CountUpdate(callers, who, c, Openers);
  }

  /** One caller changes hold of one connection, whose counters follow. */
  lemma HoldKeeps(conns: seq<Conn>, callers: seq<Caller>, who: nat, c: Caller, at: nat, conn: Conn)
    requires Counted(conns, callers) && WellPlaced(conns, callers) && who < |callers| && at < |conns|
    requires !c.Stranded? && ((OnWire(c) || c.Landed?) ==> c.conn < |conns|)
    requires OnWire(callers[who]) ==> callers[who].conn == at
    requires OnWire(c) ==> c.conn == at
    requires conn.reservations + Worth(callers[who], HoldersOf(at)) == conns[at].reservations + Worth(c, HoldersOf(at))
    requires conn.bodyLoad + Worth(callers[who], WeightOn(at)) == conns[at].bodyLoad + Worth(c, WeightOn(at))
    requires conn.ewma <= EWMA_CAP
    ensures Counted(conns[at := conn], callers[who := c]) && WellPlaced(conns[at := conn], callers[who := c])
    ensures Count(callers[who := c], Openers) + Worth(callers[who], Openers) == Count(callers, Openers) + Worth(c, Openers)
  {
    forall k | 0 <= k < |conns|
      ensures Count(callers[who := c], HoldersOf(k)) + Worth(callers[who], HoldersOf(k))
           == Count(callers, HoldersOf(k)) + Worth(c, HoldersOf(k))
      ensures Count(callers[who := c], WeightOn(k)) + Worth(callers[who], WeightOn(k))
           == Count(callers, WeightOn(k)) + Worth(c, WeightOn(k))
    {
      CountUpdate(callers, who, c, HoldersOf(k));
      CountUpdate(callers, who, c, WeightOn(k));
    }
    CountUpdate(callers, who, c, Openers);
  }

  /** A connection nobody holds yet. */
  lemma NewConn(conns: seq<Conn>, callers: seq<Caller>, alive: bool)
    requires Counted(conns, callers) && WellPlaced(conns, callers)
    ensures Counted(conns + [Conn(alive, 0, 0, 0)], callers) && WellPlaced(conns + [Conn(alive, 0, 0, 0)], callers)
  {
    CountZero(callers, HoldersOf(|conns|));
    CountZero(callers, WeightOn(|conns|));
  }

  lemma DispatchKeeps(p: Pool, who: nat, conn: nat, retried: bool)
    requires Inv(p) && who < |p.callers| && conn < |p.conns|
    requires p.callers[who].Looking? || p.callers[who].Landed? || p.callers[who].Asking?
    ensures Inv(Dispatch(p, who, conn, retried))
  {
    var bytes := p.callers[who].bytes;
    HoldKeeps(p.conns, p.callers, who, Holding(conn, bytes, retried), conn, Reserve(p.conns[conn], bytes));
  }

  lemma LookKeeps(p: Pool, who: nat)
    requires Inv(p) && who < |p.callers| && p.callers[who].Looking?
    ensures Inv(LookStep(p, who))
  {
    var c := p.callers[who];
    RetainedListed(p.conns, p.list);
    var list := Retained(p.conns, p.list);
    var p1 := p.(list := list);
    var idle := FirstIdle(p.conns, list);
    if idle.Some? {
      DispatchKeeps(p1, who, idle.value, c.retried);
    } else if list != [] && |list| >= p.cap {
      DispatchKeeps(p1, who, LeastLoaded(p.conns, list), c.retried);
    } else {
      MoveKeeps(p.conns, p.callers, who, Opening(c.bytes, c.retried));
      MoveKeeps(p.conns, p.callers, who, Waiting(c.bytes, c.retried));
    }
  }

  lemma AskKeeps(p: Pool, who: nat)
    requires Inv(p) && who < |p.callers| && p.callers[who].Asking?
    ensures Inv(AskStep(p, who))
  {
    RetainedListed(p.conns, p.list);
    var list := Retained(p.conns, p.list);
    var p1 := p.(list := list);
    var idle := FirstIdle(p.conns, list);
    if idle.Some? {
      DispatchKeeps(p1, who, idle.value, false);
    } else if list != [] && |list| >= p.cap {
      DispatchKeeps(p1, who, LeastLoaded(p.conns, list), false);
    } else {
      MoveKeeps(p.conns, p.callers, who, Upgrading(p.callers[who].bytes));
    }
  }

  lemma PooledKeeps(p: Pool, conn: nat)
    requires Inv(p) && conn < |p.conns|
    ensures Inv(Pooled(p, conn))
  {
    RetainedListed(p.conns, p.list);
  }

  lemma LandKeeps(p: Pool, who: nat, alive: bool)
    requires Inv(p) && who < |p.callers| && p.callers[who].Opening?
    ensures Inv(LandStep(p, who, alive))
  {
    var c := p.callers[who];
    var conns' := p.conns + [Conn(alive, 0, 0, 0)];
    NewConn(p.conns, p.callers, alive);
    MoveKeeps(conns', p.callers, who, Landed(|p.conns|, c.bytes, c.retried));
    CountAtLeast(p.callers, who, Openers);
    RetainedListed(conns', p.list);
  }

  lemma UpgradeKeeps(p: Pool, who: nat, alive: bool)
    requires Inv(p) && who < |p.callers| && p.callers[who].Upgrading?
    ensures Inv(Next(p, Upgrade(who, alive)))
  {
    var bytes := p.callers[who].bytes;
    var at := |p.conns|;
    var more := p.conns + [Conn(alive, 0, 0, 0)];
    NewConn(p.conns, p.callers, alive);
    HoldKeeps(more, p.callers, who, Pooling(at, bytes), at, Reserve(more[at], bytes));
    assert more[at := Reserve(more[at], bytes)] == p.conns + [Reserve(Conn(alive, 0, 0, 0), bytes)];
  }

  /** The released amounts were really there: saturating subtraction never saturates. */
  lemma ReleaseIsExact(p: Pool, who: nat)
    requires Inv(p) && who < |p.callers| && OnWire(p.callers[who])
    ensures var c := p.callers[who];
            c.conn < |p.conns| && p.conns[c.conn].reservations >= 1 && p.conns[c.conn].bodyLoad >= BodyWeight(c.bytes)
  {
    var c := p.callers[who];
    CountAtLeast(p.callers, who, HoldersOf(c.conn));
    CountAtLeast(p.callers, who, WeightOn(c.conn));
  }

  lemma LeaveKeeps(p: Pool, who: nat, c': Caller, conn: Conn)
    requires Inv(p) && who < |p.callers| && OnWire(p.callers[who])
    requires c'.Finished? || c'.Looking?
    requires var c := p.callers[who];
             c.conn < |p.conns|
             && conn.reservations == p.conns[c.conn].reservations && conn.bodyLoad == p.conns[c.conn].bodyLoad
             && conn.ewma <= EWMA_CAP
    ensures var c := p.callers[who];
            Inv(p.(conns := p.conns[c.conn := Release(conn, c.bytes)], callers := p.callers[who := c']))
  {
    var c := p.callers[who];
    ReleaseIsExact(p, who);
    HoldKeeps(p.conns, p.callers, who, c', c.conn, Release(conn, c.bytes));
  }

  lemma OfferKeeps(p: Pool, who: nat)
    requires Inv(p) && who < |p.callers| && p.callers[who].Pooling?
    ensures Inv(Next(p, OfferPool(who)))
  {
    var c := p.callers[who];
    PooledKeeps(p, c.conn);
    ReleaseIsExact(p, who);
    HoldKeeps(p.conns, p.callers, who, Riding(c.conn, c.bytes), c.conn, p.conns[c.conn]);
    assert p.conns[c.conn := p.conns[c.conn]] == p.conns;
  }

  lemma ArriveKeeps(p: Pool, c: Caller)
    requires Inv(p) && (c.Looking? || c.Asking?)
    ensures Inv(p.(callers := p.callers + [c]))
  {
    assert (p.callers + [c])[..|p.callers|] == p.callers;
    forall q: Tally ensures Count(p.callers + [c], q) == Count(p.callers, q) + Worth(c, q) {}
  }

  lemma PlainStepKeeps(p: Pool, step: Step)
    requires Inv(p)
    requires step.Arrive? || step.ArriveUpgrade? || step.OpenFails? || step.Wake? || step.Declined? || step.Die?
    ensures Inv(Next(p, step))
  {
    match step
    case Arrive(bytes) => ArriveKeeps(p, Looking(bytes, false));
    case ArriveUpgrade(bytes) => ArriveKeeps(p, Asking(bytes));
    case OpenFails(who) =>
      if Known(p, who) && p.callers[who].Opening? {
        MoveKeeps(p.conns, p.callers, who, Finished);
        CountAtLeast(p.callers, who, Openers);
      }
    case Wake(who) =>
      if Known(p, who) && p.callers[who].Waiting? {
        MoveKeeps(p.conns, p.callers, who, Looking(p.callers[who].bytes, p.callers[who].retried));
      }
    case Declined(who) =>
      if Known(p, who) && p.callers[who].Upgrading? { MoveKeeps(p.conns, p.callers, who, Finished); }
    case _ =>
  }

  lemma StepKeeps(p: Pool, step: Step)
    requires Inv(p)
    ensures Inv(Next(p, step)) && Next(p, step).cap == p.cap
  {
    match step
    case Look(who) => if Known(p, who) && p.callers[who].Looking? { LookKeeps(p, who); }
    case Land(who, alive) => if Known(p, who) && p.callers[who].Opening? { LandKeeps(p, who, alive); }
    case Take(who) =>
      if Known(p, who) && p.callers[who].Landed? { DispatchKeeps(p, who, p.callers[who].conn, p.callers[who].retried); }
    case Finish(who, sample) => if Known(p, who) && OnWire(p.callers[who]) { FinishKeeps(p, who, sample); }
    case DriverGone(who, sample) => if Known(p, who) && OnWire(p.callers[who]) { GoneKeeps(p, who, sample); }
    case Ask(who) => if Known(p, who) && p.callers[who].Asking? { AskKeeps(p, who); }
    case Upgrade(who, alive) => if Known(p, who) && p.callers[who].Upgrading? { UpgradeKeeps(p, who, alive); }
    case OfferPool(who) => if Known(p, who) && p.callers[who].Pooling? { OfferKeeps(p, who); }
    case _ => PlainStepKeeps(p, step);
  }

  lemma FinishKeeps(p: Pool, who: nat, sample: nat)
    requires Inv(p) && who < |p.callers| && OnWire(p.callers[who])
    ensures Inv(Next(p, Finish(who, sample)))
  {
    var c := p.callers[who];
    if !c.Pooling? {
      var conn := p.conns[c.conn];
      LeaveKeeps(p, who, Finished, if c.Holding? then conn.(ewma := Fold(conn.ewma, sample)) else conn);
    }
  }

  lemma GoneKeeps(p: Pool, who: nat, sample: nat)
    requires Inv(p) && who < |p.callers| && OnWire(p.callers[who])
    ensures Inv(Next(p, DriverGone(who, sample)))
  {
    var c := p.callers[who];
    if c.Holding? {
      var conn := p.conns[c.conn];
      LeaveKeeps(p, who, Finished, conn.(ewma := Fold(conn.ewma, sample)));
      LeaveKeeps(p, who, Looking(c.bytes, true), conn.(accepting := false));
    }
  }

  // ------------------------------------------------------------------
  // All interleavings
  // ------------------------------------------------------------------

  function Empty(cap: nat): (p: Pool)
    ensures Inv(p)
  {
    Pool(if cap == 0 then 1 else cap, [], [], None, [])
  }

  /** The pool after an interleaving of steps. */
  ghost function Exec(p: Pool, steps: seq<Step>): (r: Pool)
    requires Inv(p)
    ensures Inv(r) && r.cap == p.cap
  {
    if steps == [] then p
    else
      var before := Exec(p, steps[..|steps| - 1]);
      StepKeeps(before, steps[|steps| - 1]);
      Next(before, steps[|steps| - 1])
  }

  /**
    For every interleaving: the pool never holds more than the cap; the pending
    counter is the number of callers whose open is in flight; each connection's
    counters are the number and the total weight of the requests on it, so it is
    idle exactly when no request is on it; and no caller falls out of the loop.
   */
  lemma PoolIsExact(cap: nat, steps: seq<Step>)
    ensures var p := Exec(Empty(cap), steps);
            && |p.list| <= p.cap == (if cap == 0 then 1 else cap)
            && Pending(p) == Count(p.callers, Openers)
            && (forall k :: 0 <= k < |p.conns| ==>
                  && p.conns[k].reservations == Count(p.callers, HoldersOf(k))
                  && p.conns[k].bodyLoad == Count(p.callers, WeightOn(k))
                  && (p.conns[k].reservations == 0 <==> forall i :: 0 <= i < |p.callers| && OnWire(p.callers[i]) ==> p.callers[i].conn != k))
            && (forall i :: 0 <= i < |p.callers| ==> !p.callers[i].Stranded?)
  {
    var p := Exec(Empty(cap), steps);
    forall k | 0 <= k < |p.conns|
      ensures p.conns[k].reservations == 0 <==> forall i :: 0 <= i < |p.callers| && OnWire(p.callers[i]) ==> p.callers[i].conn != k
    {
      CountZero(p.callers, HoldersOf(k));
      if forall i :: 0 <= i < |p.callers| && OnWire(p.callers[i]) ==> p.callers[i].conn != k {
        assert forall i :: 0 <= i < |p.callers| ==> Worth(p.callers[i], HoldersOf(k)) == 0;
      } else {
        var i :| 0 <= i < |p.callers| && OnWire(p.callers[i]) && p.callers[i].conn == k;
        assert Worth(p.callers[i], HoldersOf(k)) == 1;
      }
    }
  }

  /** An arrival of an h2c upgrade is the only step that can open past the count. */
  ghost predicate NoUpgrades(steps: seq<Step>) {
    forall i :: 0 <= i < |steps| ==> !steps[i].ArriveUpgrade?
  }

  ghost predicate PlainCallers(callers: seq<Caller>) {
    forall i :: 0 <= i < |callers| ==> !callers[i].Asking? && !callers[i].Upgrading? && !callers[i].Pooling?
  }

  lemma {:induction false} RetainedKeepsAll(conns: seq<Conn>, list: seq<nat>)
    ensures |Retained(conns, list)| <= |list|
  {
    if list != [] { RetainedKeepsAll(conns, list[..|list| - 1]); }
  }

  lemma PlainStep(p: Pool, step: Step)
    requires Inv(p) && PlainCallers(p.callers) && !step.ArriveUpgrade?
    ensures PlainCallers(Next(p, step).callers)
  {
    match step
    case Look(who) => if Known(p, who) && p.callers[who].Looking? { PlainLook(p, who); }
    case _ =>
  }

  lemma PlainLook(p: Pool, who: nat)
    requires WellListed(p) && PlainCallers(p.callers) && who < |p.callers| && p.callers[who].Looking?
    ensures PlainCallers(LookStep(p, who).callers)
  {
  }

  lemma TightStep(p: Pool, step: Step)
    requires Inv(p) && PlainCallers(p.callers) && !step.ArriveUpgrade?
    requires |p.list| + Pending(p) <= p.cap
    ensures var p' := Next(p, step); |p'.list| + Pending(p') <= p'.cap
  {
    RetainedKeepsAll(p.conns, p.list);
    match step
    case Land(who, alive) =>
      if Known(p, who) && p.callers[who].Opening? {
        CountAtLeast(p.callers, who, Openers);
        RetainedKeepsAll(p.conns + [Conn(alive, 0, 0, 0)], p.list);
      }
    case OpenFails(who) =>
      if Known(p, who) && p.callers[who].Opening? { CountAtLeast(p.callers, who, Openers); }
    case _ =>
  }

  /** With callers of `get_h2_conn` only, pooled plus opening connections stay within the cap. */
  lemma {:induction false} CapIsExact(cap: nat, steps: seq<Step>)
    requires NoUpgrades(steps)
    ensures var p := Exec(Empty(cap), steps); PlainCallers(p.callers) && |p.list| + Pending(p) <= p.cap
  {
    if steps != [] {
      var n := |steps| - 1;
      CapIsExact(cap, steps[..n]);
      PlainStep(Exec(Empty(cap), steps[..n]), steps[n]);
      TightStep(Exec(Empty(cap), steps[..n]), steps[n]);
    }
  }

  /**
    An upgraded connection is pooled without having been counted as opening: from within the cap,
    pooled plus opening stay there exactly when the offer finds room beside the opens, or no room at all.
   */
  lemma OfferRespectsTheCapExactly(p: Pool, who: nat)
    requires Inv(p) && who < |p.callers| && p.callers[who].Pooling? && |p.list| + Pending(p) <= p.cap
    ensures var p' := Next(p, OfferPool(who));
            var list := Retained(p.conns, p.list);
            |p'.list| + Pending(p') <= p'.cap <==> |list| + Pending(p) < p.cap || |list| >= p.cap
  {
    RetainedKeepsAll(p.conns, p.list);
  }

  lemma ExecThen(p: Pool, steps: seq<Step>, step: Step)
    requires Inv(p)
    ensures Exec(p, steps + [step]) == Next(Exec(p, steps), step)
  {
    assert (steps + [step])[..|steps|] == steps;
  }

  lemma OneArrives()
    ensures Exec(Empty(1), [] + [Arrive(0)]) == Pool(1, [], [], None, [Looking(0, false)])
  {
    ExecThen(Empty(1), [], Arrive(0));
    assert Exec(Empty(1), []) == Empty(1);
  }

  /** A caller of `get_h2_conn` is opening the one connection the cap allows. */
  lemma OneLooks(p: Pool)
    requires p == Pool(1, [], [], None, [Looking(0, false)]) && Inv(p)
    ensures Next(p, Look(0)) == Pool(1, [], [], Some(1), [Opening(0, false)])
  {
    assert Retained([], []) == [] && FirstIdle([], []) == None;
  }

  lemma OneOpens(steps: seq<Step>)
    requires Exec(Empty(1), steps) == Pool(1, [], [], None, [Looking(0, false)])
    ensures Exec(Empty(1), steps + [Look(0)]) == Pool(1, [], [], Some(1), [Opening(0, false)])
  {
    ExecThen(Empty(1), steps, Look(0));
    OneLooks(Exec(Empty(1), steps));
  }

  lemma OneAsks(p: Pool)
    requires p == Pool(1, [], [], Some(1), [Opening(0, false), Asking(0)]) && Inv(p)
    ensures Next(p, Ask(1)) == Pool(1, [], [], Some(1), [Opening(0, false), Upgrading(0)])
  {
    assert Retained([], []) == [] && FirstIdle([], []) == None;
  }

  lemma OneUpgrades(steps: seq<Step>)
    requires Exec(Empty(1), steps) == Pool(1, [], [], Some(1), [Opening(0, false)])
    ensures Exec(Empty(1), steps + [ArriveUpgrade(0)] + [Ask(1)])
         == Pool(1, [], [], Some(1), [Opening(0, false), Upgrading(0)])
  {
    ExecThen(Empty(1), steps, ArriveUpgrade(0));
    ExecThen(Empty(1), steps + [ArriveUpgrade(0)], Ask(1));
    OneAsks(Exec(Empty(1), steps + [ArriveUpgrade(0)]));
  }

  lemma Upgraded(p: Pool)
    requires p == Pool(1, [], [], Some(1), [Opening(0, false), Upgrading(0)]) && Inv(p)
    ensures Next(p, Upgrade(1, true))
         == Pool(1, [Reserve(Conn(true, 0, 0, 0), 0)], [], Some(1), [Opening(0, false), Pooling(0, 0)])
  {
  }

  lemma Offered(p: Pool)
    requires p == Pool(1, [Reserve(Conn(true, 0, 0, 0), 0)], [], Some(1), [Opening(0, false), Pooling(0, 0)]) && Inv(p)
    ensures var p' := Next(p, OfferPool(1)); p'.cap == 1 && p'.list == [0] && Pending(p') == 1
  {
    assert Retained(p.conns, []) == [];
  }

  lemma BothArrive(steps: seq<Step>)
    requires Exec(Empty(1), steps) == Pool(1, [], [], Some(1), [Opening(0, false), Upgrading(0)])
    ensures var p := Exec(Empty(1), steps + [Upgrade(1, true)] + [OfferPool(1)]);
            p.cap == 1 && p.list == [0] && Pending(p) == 1
  {
    ExecThen(Empty(1), steps, Upgrade(1, true));
    Upgraded(Exec(Empty(1), steps));
    ExecThen(Empty(1), steps + [Upgrade(1, true)], OfferPool(1));
    Offered(Exec(Empty(1), steps + [Upgrade(1, true)]));
  }

  /** With a cap of one, an open in flight and an upgrade end up as two. */
  lemma UpgradeCanCrowdTheCap() returns (steps: seq<Step>)
    ensures var p := Exec(Empty(1), steps); p.cap == 1 && |p.list| == 1 && Pending(p) == 1
  {
    OneArrives();
    steps := [] + [Arrive(0)];
    OneOpens(steps);
    steps := steps + [Look(0)];
    OneUpgrades(steps);
    steps := steps + [ArriveUpgrade(0)] + [Ask(1)];
    BothArrive(steps);
    steps := steps + [Upgrade(1, true)] + [OfferPool(1)];
  }

  /** While the cap is exact, every connection that lands finds room in the pool. */
  lemma LandedIsPooled(p: Pool, who: nat, alive: bool)
    requires Inv(p) && who < |p.callers| && p.callers[who].Opening? && |p.list| + Pending(p) <= p.cap
    ensures |p.conns| in LandStep(p, who, alive).list
  {
    CountAtLeast(p.callers, who, Openers);
    RetainedKeepsAll(p.conns + [Conn(alive, 0, 0, 0)], p.list);
    var list := LandStep(p, who, alive).list;
    assert list[|list| - 1] == |p.conns|;
  }

  /** What a caller leaves the lock with. */
  lemma LookOutcome(p: Pool, who: nat)
    requires Inv(p) && who < |p.callers| && p.callers[who].Looking?
    ensures var p' := LookStep(p, who);
            var c := p'.callers[who];
            var list := Retained(p.conns, p.list);
            match c
            case Holding(k, _, _) =>
              && k in list && k < |p.conns| && p.conns[k].accepting
              && (p.conns[k].reservations == 0
                  || (|list| >= p.cap && forall i :: 0 <= i < |list| && list[i] < |p.conns| ==>
                        p.conns[list[i]].reservations > 0 && Load(p.conns[k]) <= Load(p.conns[list[i]])))
            case Opening(_, _) => |list| + Pending(p) < p.cap
            case Waiting(_, _) => exists i :: 0 <= i < |p.callers| && p.callers[i].Opening?
            case _ => false
  {
    var list := Retained(p.conns, p.list);
    RetainedListed(p.conns, p.list);
    IdleIsListed(p.conns, list);
    var c := LookStep(p, who).callers[who];
    if c.Holding? {
      var i :| 0 <= i < |list| && list[i] == c.conn;
      assert p.conns[list[i]].accepting;
    }
    if c.Waiting? {
      CountZero(p.callers, Openers);
      var i :| 0 <= i < |p.callers| && Worth(p.callers[i], Openers) != 0;
    }
  }

  // ------------------------------------------------------------------
  // A look that is not atomic
  // ------------------------------------------------------------------

  /** The `accepting` flags are atomics the drivers drop without the lock; `died` are those found dropped. */
  function StillAccepting(list: seq<nat>, died: set<nat>): seq<nat> {
    if list == [] then []
    else
      var rest := StillAccepting(list[..|list| - 1], died);
      if list[|list| - 1] in died then rest else rest + [list[|list| - 1]]
  }

  /**
    Whether a look falls through to the code after the loop, when the scan for an idle
    connection reads the counters `seen` and finds `died` gone, and the later scan for the
    least loaded finds `later` gone.
   */
  predicate FallsThrough(p: Pool, seen: seq<Conn>, died: set<nat>, later: set<nat>) {
    var list := Retained(p.conns, p.list);
    && FirstIdle(seen, StillAccepting(list, died)).None?
    && !(StillAccepting(list, later) != [] && |list| >= p.cap)
    && |list| + Pending(p) >= p.cap
    && Pending(p) == 0
  }

  lemma {:induction false} StillEmpty(list: seq<nat>, died: set<nat>)
    ensures StillAccepting(list, died) == [] <==> forall i :: 0 <= i < |list| ==> list[i] in died
  {
    if list != [] {
      var n := |list| - 1;
      StillEmpty(list[..n], died);
      if forall i :: 0 <= i < n ==> list[..n][i] in died {
        assert forall i :: 0 <= i < n ==> list[i] in died;
      } else {
        var i :| 0 <= i < n && list[..n][i] !in died;
        assert list[i] !in died;
      }
    }
  }

  lemma {:induction false} NoneIdle(conns: seq<Conn>, list: seq<nat>)
    requires forall i :: 0 <= i < |list| ==> list[i] < |conns|
    ensures FirstIdle(conns, list).None? <==> forall i :: 0 <= i < |list| ==> conns[list[i]].reservations > 0
  {
    if list != [] {
      NoneIdle(conns, list[1..]);
      if forall i :: 0 <= i < |list| ==> conns[list[i]].reservations > 0 {
        assert forall i :: 0 <= i < |list[1..]| ==> list[1..][i] == list[i + 1];
      } else {
        var i :| 0 <= i < |list| && conns[list[i]].reservations == 0;
        assert i > 0 ==> list[1..][i - 1] == list[i];
      }
    }
  }

  lemma {:induction false} StillListed(list: seq<nat>, died: set<nat>)
    ensures forall k :: k in StillAccepting(list, died) <==> k in list && k !in died
  {
    if list != [] {
      var n := |list| - 1;
      StillListed(list[..n], died);
      assert list == list[..n] + [list[n]];
    }
  }

  lemma NoneIdleStill(conns: seq<Conn>, list: seq<nat>, died: set<nat>)
    requires forall i :: 0 <= i < |list| ==> list[i] < |conns|
    ensures FirstIdle(conns, StillAccepting(list, died)).None?
        <==> forall i :: 0 <= i < |list| ==> list[i] in died || conns[list[i]].reservations > 0
  {
    var live := StillAccepting(list, died);
    StillListed(list, died);
    assert forall i :: 0 <= i < |live| ==> live[i] in live;
    assert forall i :: 0 <= i < |list| ==> list[i] in list;
    NoneIdle(conns, live);
    if FirstIdle(conns, live).None? {
      forall i | 0 <= i < |list| ensures list[i] in died || conns[list[i]].reservations > 0 {
        if list[i] !in died {
          var j :| 0 <= j < |live| && live[j] == list[i];
        }
      }
    }
  }

  /**
    The fallback is reached exactly when the pool is full, nothing is being opened, and every
    pooled connection stops accepting during the look: one the scan for idle connections sees
    idle before it comes to it, a busy one at the latest before the scan for the least loaded does.
   */
  lemma FallbackExactly(p: Pool, seen: seq<Conn>, died: set<nat>, later: set<nat>)
    requires Inv(p) && died <= later && |seen| == |p.conns|
    ensures FallsThrough(p, seen, died, later) <==>
            var list := Retained(p.conns, p.list);
            && |list| >= p.cap && Pending(p) == 0
            && (forall i :: 0 <= i < |list| ==> list[i] in later)
            && (forall i :: 0 <= i < |list| && list[i] < |seen| ==> list[i] in died || seen[list[i]].reservations > 0)
  {
    var list := Retained(p.conns, p.list);
    RetainedListed(p.conns, p.list);
    NoneIdleStill(seen, list, died);
    StillEmpty(list, later);
  }

  // ------------------------------------------------------------------
  // The pool behind its lock
  // ------------------------------------------------------------------

  lemma LeastSnoc(conns: seq<Conn>, list: seq<nat>, i: nat)
    requires 0 < i < |list| && forall k :: 0 <= k < |list| ==> list[k] < |conns|
    ensures LeastLoaded(conns, list[..i + 1]) ==
            if Load(conns[list[i]]) < Load(conns[LeastLoaded(conns, list[..i])]) then list[i]
            else LeastLoaded(conns, list[..i])
  {
    assert list[..i + 1][..i] == list[..i];
  }

  /** `list.iter().find(is_idle)` */
  method FindIdle(conns: seq<Conn>, list: seq<nat>) returns (r: Option<nat>)
    ensures r == FirstIdle(conns, list)
  {
    for i := 0 to |list|
      invariant FirstIdle(conns, list[i..]) == FirstIdle(conns, list)
    {
      if list[i] < |conns| && conns[list[i]].reservations == 0 {
        return Some(list[i]);
      }
      assert list[i..][1..] == list[i + 1..];
    }
    return None;
  }

  /** `list.iter().min_by_key(load)` */
  method FindLeast(conns: seq<Conn>, list: seq<nat>) returns (best: nat)
    requires list != [] && forall i :: 0 <= i < |list| ==> list[i] < |conns|
    ensures best == LeastLoaded(conns, list)
  {
    best := list[0];
    for i := 1 to |list|
      invariant best < |conns| && best == LeastLoaded(conns, list[..i])
    {
      LeastSnoc(conns, list, i);
      if Load(conns[list[i]]) < Load(conns[best]) {
        best := list[i];
      }
    }
    assert list[..|list|] == list;
  }

  /** The pool's tables; each method is one critical section, or the code between two. */
  class SharedPool {
    const cap: nat
    var conns: seq<Conn>
    var list: seq<nat>
    var opens: Option<nat>
    var callers: seq<Caller>

    ghost function State(): Pool
      reads this
    {
      Pool(cap, conns, list, opens, callers)
    }

    constructor (maxConnections: nat)
      ensures State() == Empty(maxConnections)
    {
      cap := if maxConnections == 0 then 1 else maxConnections;
      conns, list, opens, callers := [], [], None, [];
    }

    /** `list.retain(|c| c.accepting)` */
    method Retain()
      modifies this`list
      ensures list == Retained(conns, old(list))
    {
      var kept: seq<nat> := [];
      for i := 0 to |list|
        invariant list == old(list)
        invariant kept == Retained(conns, list[..i])
      {
        assert list[..i + 1][..i] == list[..i];
        if list[i] < |conns| && conns[list[i]].accepting {
          kept := kept + [list[i]];
        }
      }
      assert list[..|list|] == list;
      list := kept;
    }

    method ReserveFor(who: nat, conn: nat, retried: bool)
      requires who < |callers| && conn < |conns| && !callers[who].Finished?
      modifies this`conns, this`callers
      ensures State() == Dispatch(old(State()), who, conn, retried)
    {
      var bytes := callers[who].bytes;
      conns := conns[conn := Reserve(conns[conn], bytes)];
      callers := callers[who := Holding(conn, bytes, retried)];
    }

    /** The locked part of one turn of the `get_h2_conn` loop. */
    method LookAround(who: nat)
      requires Inv(State()) && who < |callers| && callers[who].Looking?
      modifies this
      ensures State() == Next(old(State()), Look(who)) && Inv(State())
    {
      LookKeeps(State(), who);
      RetainedListed(conns, list);
      var c := callers[who];
      Retain();
      var idle := FindIdle(conns, list);
      if idle.Some? {
        ReserveFor(who, idle.value, c.retried);
        return;
      }
      if list != [] && |list| >= cap {
        var best := FindLeast(conns, list);
        ReserveFor(who, best, c.retried);
        return;
      }
      var pending := if opens.Some? then opens.value else 0;
      if |list| + pending < cap {
        opens := Some(pending + 1);
        callers := callers[who := Opening(c.bytes, c.retried)];
      } else if pending > 0 {
        callers := callers[who := Waiting(c.bytes, c.retried)];
      } else {
        // the code after the loop: no atomic look gets here
        assert false;
      }
    }

    /** `decrement_pending_h2_open` */
    method DecrementOpens()
      modifies this`opens
      ensures opens == Decrement(old(opens))
    {
      if opens.Some? {
        var n := SaturatingSub(opens.value, 1);
        opens := Some(n);
        if n == 0 {
          opens := None;
        }
      }
    }

    /** A connection opened outside the lock enters the pool. */
    method LandConn(who: nat, alive: bool)
      requires Inv(State()) && who < |callers| && callers[who].Opening?
      modifies this
      ensures State() == Next(old(State()), Land(who, alive)) && Inv(State())
    {
      LandKeeps(State(), who, alive);
      var c := callers[who];
      var conn := |conns|;
      conns := conns + [Conn(alive, 0, 0, 0)];
      Retain();
      DecrementOpens();
      if |list| < cap {
        list := list + [conn];
      }
      callers := callers[who := Landed(conn, c.bytes, c.retried)];
    }

    /** The open failed: the slot is given back. */
    method OpenFailed(who: nat)
      requires Inv(State()) && who < |callers| && callers[who].Opening?
      modifies this
      ensures State() == Next(old(State()), OpenFails(who)) && Inv(State())
    {
      StepKeeps(State(), OpenFails(who));
      DecrementOpens();
      callers := callers[who := Finished];
    }

    /** `send_h2_cmd` on a driver that is gone: release, then look once more. */
    method DriverIsGone(who: nat, sample: nat)
      requires Inv(State()) && who < |callers| && callers[who].Holding?
      modifies this
      ensures State() == Next(old(State()), DriverGone(who, sample)) && Inv(State())
    {
      GoneKeeps(State(), who, sample);
      var c := callers[who];
      var conn := conns[c.conn];
      if c.retried {
        conn := conn.(ewma := Fold(conn.ewma, sample));
        callers := callers[who := Finished];
      } else {
        conn := conn.(accepting := false);
        callers := callers[who := Looking(c.bytes, true)];
      }
      conns := conns[c.conn := Release(conn, c.bytes)];
    }
  }
}
