/**
  The producer-to-transport wake handle of a streaming body (`BodyWake`, the sends of
  `BodySender` and `drain`, src/courierust_body/mod.rs).

  Any number of producers and one transport take atomic steps in any order: a send pushes
  its chunk, then loads the flag, then clones the slot, then calls; an install stores the
  slot, then the flag; a clear takes them back in the other order. Memory is sequentially
  consistent.
 */
module BodyWake {
  import opened Basics

  type Chunk = nat
  type Callback = nat
  type Producer = nat

  /** How far a producer's send has come. */
  datatype Sending = Pushed | Armed | Calling(wake: Callback)

  datatype Transport = Resting | Installing | Clearing

  datatype State = State(
    sent: seq<Chunk>,
    received: seq<Chunk>,
    installed: bool,
    slot: Option<Callback>,
    transport: Transport,
    sends: map<Producer, Sending>,
    // History: whether the transport saw the channel empty since it installed, whether the
    // installed callback ran since the last chunk was pushed, and how often any callback ran.
    drained: bool,
    woken: bool,
    calls: nat)

  datatype Step =
    | Push(p: Producer, chunk: Chunk)
    | LoadFlag(p: Producer)
    | CloneSlot(p: Producer)
    | Call(p: Producer)
    | StoreSlot(wake: Callback)
    | StoreFlag
    | DropFlag
    | DropSlot
    | TryRecv

  const START := State([], [], false, None, Resting, map[], false, false, 0)

  function Queue(s: State): seq<Chunk> {
    if |s.received| <= |s.sent| then s.sent[|s.received|..] else []
  }

  /** One atomic step; a step that is not enabled changes nothing. */
  function Next(s: State, step: Step): State {
    match step
    case Push(p, chunk) =>
      if p in s.sends then s else s.(sent := s.sent + [chunk], sends := s.sends[p := Pushed], woken := false)
    case LoadFlag(p) =>
      if p !in s.sends || !s.sends[p].Pushed? then s
      else if s.installed then s.(sends := s.sends[p := Armed])
      else s.(sends := s.sends - {p})
    case CloneSlot(p) =>
      if p !in s.sends || !s.sends[p].Armed? then s
      else if s.slot.Some? then s.(sends := s.sends[p := Calling(s.slot.value)])
      else s.(sends := s.sends - {p})
    case Call(p) =>
      if p !in s.sends || !s.sends[p].Calling? then s
      else s.(sends := s.sends - {p}, woken := s.woken || s.slot == Some(s.sends[p].wake), calls := s.calls + 1)
    case StoreSlot(wake) =>
      if s.transport != Resting then s else s.(slot := Some(wake), transport := Installing, drained := false)
    case StoreFlag =>
      if s.transport != Installing then s else s.(installed := true, transport := Resting)
    case DropFlag =>
      if s.transport != Resting then s else s.(installed := false, transport := Clearing, drained := false)
    case DropSlot =>
      if s.transport != Clearing then s else s.(slot := None, transport := Resting)
    case TryRecv =>
      if s.transport != Resting then s
      else if Queue(s) == [] then s.(drained := s.installed)
      else s.(received := s.received + [Queue(s)[0]])
  }

  function Exec(s: State, steps: seq<Step>): State {
    if steps == [] then s else Next(Exec(s, steps[..|steps| - 1]), steps[|steps| - 1])
  }

  // ------------------------------------------------------------------
  // What every step keeps
  // ------------------------------------------------------------------

  /** Chunks come out in the order they went in. */
  predicate InOrder(s: State) {
    |s.received| <= |s.sent| && s.received == s.sent[..|s.received|]
  }

  /** The flag is up only when there is a callback, and a resting transport without it has none. */
  predicate FlagLaw(s: State) {
    (s.installed ==> s.slot.Some? && s.transport != Clearing) &&
    (s.transport == Resting && !s.installed ==> s.slot.None?) &&
    (s.transport == Installing ==> s.slot.Some?) &&
    (s.drained ==> s.installed && s.transport == Resting)
  }

  /** A send on its way to the callback that is installed now. */
  predicate OnItsWay(s: State, p: Producer) {
    p in s.sends && (s.sends[p].Calling? ==> s.slot == Some(s.sends[p].wake))
  }

  /** A chunk that came after the transport last looked is announced, or its producer is on the way. */
  ghost predicate WakeLaw(s: State) {
    s.drained && Queue(s) != [] && !s.woken ==> exists p :: OnItsWay(s, p)
  }

  ghost predicate Inv(s: State) {
    InOrder(s) && FlagLaw(s) && WakeLaw(s)
  }

  lemma OrderKept(s: State, step: Step)
    requires InOrder(s)
    ensures InOrder(Next(s, step))
  {
    if step.TryRecv? && s.transport == Resting && Queue(s) != [] {
      var n := |s.received|;
      assert s.sent[..n + 1] == s.sent[..n] + [s.sent[n]];
    }
  }

  lemma FlagKept(s: State, step: Step)
    requires FlagLaw(s)
    ensures FlagLaw(Next(s, step))
  {
  }

  lemma WakeKept(s: State, step: Step)
    requires Inv(s)
    ensures WakeLaw(Next(s, step))
  {
    var t := Next(s, step);
    if t.drained && Queue(t) != [] && !t.woken {
      if step.Push? && step.p !in s.sends {
        assert OnItsWay(t, step.p);
      } else {
        assert Queue(s) != [];
        var p :| OnItsWay(s, p);
        assert OnItsWay(t, p);
      }
    }
  }

  /** Every interleaving keeps the laws. */
  lemma {:induction false} EveryInterleavingKeeps(s: State, steps: seq<Step>)
    requires Inv(s)
    ensures Inv(Exec(s, steps))
  {
    if steps != [] {
      var before := Exec(s, steps[..|steps| - 1]);
      EveryInterleavingKeeps(s, steps[..|steps| - 1]);
      OrderKept(before, steps[|steps| - 1]);
      FlagKept(before, steps[|steps| - 1]);
      WakeKept(before, steps[|steps| - 1]);
    }
  }

  /**
    No wake-up is lost. Once the transport has installed its callback and drained the channel,
    and every send has finished, a chunk in the channel has been announced by that callback,
    in a call after the last chunk was pushed.
   */
  lemma NoWakeUpIsLost(steps: seq<Step>)
    ensures var s := Exec(START, steps);
      s.drained && s.sends == map[] && Queue(s) != [] ==> s.woken
  {
    EveryInterleavingKeeps(START, steps);
    var s := Exec(START, steps);
    if s.drained && Queue(s) != [] && !s.woken {
      var p :| OnItsWay(s, p);
      assert p in s.sends;
    }
  }

  /** A send that is on its way needs only its own three steps to run the installed callback. */
  lemma OnItsWayArrives(s: State, p: Producer)
    requires Inv(s) && s.drained && OnItsWay(s, p)
    ensures Exec(s, [LoadFlag(p), CloneSlot(p), Call(p)]).woken
  {
    var a := Next(s, LoadFlag(p));
    var b := Next(a, CloneSlot(p));
    ThreeSteps(s, LoadFlag(p), CloneSlot(p), Call(p));
    assert OnItsWay(a, p) && !a.sends[p].Pushed?;
    assert OnItsWay(b, p) && b.sends[p].Calling?;
  }

  lemma ThreeSteps(s: State, x: Step, y: Step, z: Step)
    ensures Exec(s, [x, y, z]) == Next(Next(Next(s, x), y), z)
  {
    assert [x, y, z][..2] == [x, y] && [x, y][..1] == [x] && [x][..0] == [];
    assert Exec(s, [x]) == Next(s, x);
    assert Exec(s, [x, y]) == Next(Next(s, x), y);
  }

  /** The drain is needed: a chunk pushed before the install is announced by nobody. */
  lemma InstallAloneIsNotEnough()
    ensures var s := Exec(START, [Push(0, 7), LoadFlag(0), StoreSlot(1), StoreFlag]);
      s.installed && s.sends == map[] && Queue(s) == [7] && s.calls == 0
  {
    ThreeSteps(START, Push(0, 7), LoadFlag(0), StoreSlot(1));
    var steps := [Push(0, 7), LoadFlag(0), StoreSlot(1), StoreFlag];
    assert steps[..3] == [Push(0, 7), LoadFlag(0), StoreSlot(1)];
    var a := Next(START, Push(0, 7));
    var b := Next(a, LoadFlag(0));
    assert a.sends == map[0 := Pushed];
    assert b.sends == map[];
    assert a.sent == [7] && Queue(b) == [7];
  }

  // ------------------------------------------------------------------
  // After a clear
  // ------------------------------------------------------------------

  /** Nothing is installed, and nothing is being installed or cleared. */
  predicate Quiet(s: State) {
    s.transport == Resting && !s.installed
  }

  predicate NoInstall(steps: seq<Step>) {
    forall i :: 0 <= i < |steps| ==> !steps[i].StoreSlot?
  }

  /** The sends that have the callback in hand. */
  function Callers(s: State): set<Producer> {
    set p | p in s.sends && s.sends[p].Calling?
  }

  /** As long as nothing is installed, only a send that had its callback in hand can run it. */
  ghost predicate Silence(s0: State, s: State) {
    && !s.installed && s.slot.None? && s.transport != Installing
    && Callers(s) <= Callers(s0)
    && s.calls + |Callers(s)| == s0.calls + |Callers(s0)|
  }

  lemma SilenceKept(s0: State, s: State, step: Step)
    requires Silence(s0, s) && !step.StoreSlot?
    ensures Silence(s0, Next(s, step))
  {
    var t := Next(s, step);
    if step.Call? && step.p in Callers(s) {
      assert Callers(t) == Callers(s) - {step.p};
    } else {
      assert Callers(t) == Callers(s);
    }
  }

  lemma {:induction false} SilenceLasts(s0: State, steps: seq<Step>)
    requires Quiet(s0) && s0.slot.None? && NoInstall(steps)
    ensures Silence(s0, Exec(s0, steps))
  {
    if steps != [] {
      var n := |steps| - 1;
      SilenceLasts(s0, steps[..n]);
      SilenceKept(s0, Exec(s0, steps[..n]), steps[n]);
    }
  }

  /**
    After a clear has returned, and until the next install, the callbacks that run are those of
    the sends that had already cloned theirs, each at most once: a send that begins after the
    clear wakes nothing, whatever the others do.
   */
  lemma QuietAfterClear(past: seq<Step>, steps: seq<Step>)
    requires Quiet(Exec(START, past)) && NoInstall(steps)
    ensures var s := Exec(START, past);
            var t := Exec(s, steps);
            Callers(t) <= Callers(s) && t.calls - s.calls == |Callers(s) - Callers(t)|
  {
    EveryInterleavingKeeps(START, past);
    var s := Exec(START, past);
    SilenceLasts(s, steps);
    var t := Exec(s, steps);
    assert Callers(s) == Callers(t) + (Callers(s) - Callers(t));
  }

  /** So a call can still come if and only if some send had cloned the callback. */
  lemma QuietAfterClearExactly(past: seq<Step>)
    requires Quiet(Exec(START, past))
    ensures var s := Exec(START, past);
      (exists steps :: NoInstall(steps) && Exec(s, steps).calls > s.calls) <==> Callers(s) != {}
  {
    var s := Exec(START, past);
    forall steps | NoInstall(steps) && Exec(s, steps).calls > s.calls
      ensures Callers(s) != {}
    {
      QuietAfterClear(past, steps);
    }
    if p :| p in Callers(s) {
      var steps := [Call(p)];
      assert steps[..0] == [];
      assert Exec(s, steps) == Next(s, Call(p));
      assert NoInstall(steps);
    }
  }

  lemma {:induction false} ExecSplit(s: State, a: seq<Step>, b: seq<Step>)
    ensures Exec(s, a + b) == Exec(Exec(s, a), b)
    decreases b
  {
    if b == [] {
      assert a + b == a;
    } else {
      var n := |b| - 1;
      ExecSplit(s, a, b[..n]);
      assert (a + b)[..|a + b| - 1] == a + b[..n];
    }
  }

  lemma SendGetsThere()
    ensures Exec(START, [StoreSlot(1), StoreFlag, Push(0, 7)]) ==
      State([7], [], true, Some(1), Resting, map[0 := Pushed], false, false, 0)
  {
    ThreeSteps(START, StoreSlot(1), StoreFlag, Push(0, 7));
  }

  lemma ClearComesIn(s: State)
    requires s == State([7], [], true, Some(1), Resting, map[0 := Pushed], false, false, 0)
    ensures Exec(s, [LoadFlag(0), CloneSlot(0), DropFlag]) ==
      State([7], [], false, Some(1), Clearing, map[0 := Calling(1)], false, false, 0)
  {
    ThreeSteps(s, LoadFlag(0), CloneSlot(0), DropFlag);
  }

  /** Such a late call does happen: the clear slips in between the clone and the call. */
  lemma ClearCanBeOvertaken()
    ensures var s := Exec(START,
        [StoreSlot(1), StoreFlag, Push(0, 7)] + [LoadFlag(0), CloneSlot(0), DropFlag] + [DropSlot]);
      Quiet(s) && s.sends == map[0 := Calling(1)]
  {
    var a, b := [StoreSlot(1), StoreFlag, Push(0, 7)], [LoadFlag(0), CloneSlot(0), DropFlag];
    SendGetsThere();
    ClearComesIn(Exec(START, a));
    ExecSplit(START, a, b);
    assert (a + b + [DropSlot])[..6] == a + b;
  }

  // ------------------------------------------------------------------
  // The handle itself
  // ------------------------------------------------------------------

  lemma TwoSteps(s: State, x: Step, y: Step)
    ensures Exec(s, [x, y]) == Next(Next(s, x), y)
  {
    assert [x, y][..1] == [x] && [x][..0] == [];
    assert Exec(s, [x]) == Next(s, x);
  }

  lemma FourSteps(s: State, w: Step, x: Step, y: Step, z: Step)
    ensures Exec(s, [w, x, y, z]) == Next(Next(Next(Next(s, w), x), y), z)
  {
    ThreeSteps(s, w, x, y);
    assert [w, x, y, z][..3] == [w, x, y];
  }

  /** A body's channel and wake handle. The whole operations below run without being interrupted. */
  class Handle {
    var sent: seq<Chunk>
    var received: seq<Chunk>
    var installed: bool
    var slot: Option<Callback>
    ghost var transport: Transport
    ghost var sends: map<Producer, Sending>
    ghost var drained: bool
    ghost var woken: bool
    ghost var calls: nat

    ghost function View(): State
      reads this
    {
      State(sent, received, installed, slot, transport, sends, drained, woken, calls)
    }

    constructor ()
      ensures View() == START
    {
      sent, received, installed, slot := [], [], false, None;
      transport, sends, drained, woken, calls := Resting, map[], false, false, 0;
    }

    /** `install`: the slot, then the flag */
    method Install(wake: Callback)
      requires transport == Resting
      modifies this
      ensures View() == Exec(old(View()), [StoreSlot(wake), StoreFlag]) && transport == Resting
    {
      TwoSteps(View(), StoreSlot(wake), StoreFlag);
      slot := Some(wake);
      drained := false;
      installed := true;
    }

    /** `clear`: the flag, then the slot */
    method Clear()
      requires transport == Resting
      modifies this
      ensures View() == Exec(old(View()), [DropFlag, DropSlot]) && Quiet(View())
    {
      TwoSteps(View(), DropFlag, DropSlot);
      installed := false;
      drained := false;
      slot := None;
    }

    /** `fire`: the callback to run, if any */
    method Fire(p: Producer) returns (wake: Option<Callback>)
      requires p in sends && sends[p] == Pushed && FlagLaw(View())
      modifies this
      ensures View() == Exec(old(View()), [LoadFlag(p), CloneSlot(p), Call(p)])
      ensures wake == if old(installed) then old(slot) else None
      ensures p !in sends && (old(installed) ==> woken)
    {
      ThreeSteps(View(), LoadFlag(p), CloneSlot(p), Call(p));
      ghost var before := sends;
      sends := sends - {p};
      if !installed { return None; }
      wake := slot;
      assert before[p := Armed][p := Calling(slot.value)] - {p} == before - {p};
      if wake.Some? {
        woken, calls := true, calls + 1;
      }
    }

    /** `send`: the chunk, then `fire` */
    method Send(p: Producer, chunk: Chunk) returns (wake: Option<Callback>)
      requires p !in sends && FlagLaw(View())
      modifies this
      ensures View() == Exec(old(View()), [Push(p, chunk), LoadFlag(p), CloneSlot(p), Call(p)])
      ensures sent == old(sent) + [chunk] && sends == old(sends)
      ensures wake == if old(installed) then old(slot) else None
    {
      FourSteps(View(), Push(p, chunk), LoadFlag(p), CloneSlot(p), Call(p));
      ghost var start := Next(View(), Push(p, chunk));
      ThreeSteps(start, LoadFlag(p), CloneSlot(p), Call(p));
      sent := sent + [chunk];
      sends := sends[p := Pushed];
      woken := false;
      wake := Fire(p);
    }

    /** `try_recv` on the transport's side */
    method TryReceive() returns (chunk: Option<Chunk>)
      requires transport == Resting && InOrder(View())
      modifies this
      ensures View() == Next(old(View()), TryRecv)
      ensures chunk == if Queue(old(View())) == [] then None else Some(Queue(old(View()))[0])
    {
      if |received| == |sent| {
        drained := installed;
        return None;
      }
      chunk := Some(sent[|received|]);
      received := received + [sent[|received|]];
    }
  }

  // ------------------------------------------------------------------
  // Collecting a body
  // ------------------------------------------------------------------

  datatype Piece = Data(bytes: seq<nat>) | Failed

  datatype Collected = Ok(bytes: seq<nat>) | Failure | Overflow

  function Joined(pieces: seq<Piece>): seq<nat> {
    if pieces == [] then []
    else Joined(pieces[..|pieces| - 1]) + if pieces[|pieces| - 1].Data? then pieces[|pieces| - 1].bytes else []
  }

  predicate AllData(pieces: seq<Piece>) {
    forall i :: 0 <= i < |pieces| ==> pieces[i].Data?
  }

  /** Everything before `i` arrived and fits, and `i` is the producer's error. */
  predicate FailsAt(pieces: seq<Piece>, max: nat, i: nat)
    requires i < |pieces|
  {
    pieces[i].Failed? && AllData(pieces[..i]) && |Joined(pieces[..i])| <= max
  }

  /** Everything before `i` arrived and fits, and with `i` it no longer does. */
  predicate OverflowsAt(pieces: seq<Piece>, max: nat, i: nat)
    requires i < |pieces|
  {
    AllData(pieces[..i + 1]) && |Joined(pieces[..i])| <= max < |Joined(pieces[..i + 1])|
  }

  lemma {:induction false} JoinedGrows(pieces: seq<Piece>, i: nat)
    requires i <= |pieces|
    ensures |Joined(pieces[..i])| <= |Joined(pieces)|
    decreases |pieces|
  {
    if i < |pieces| {
      var n := |pieces| - 1;
      JoinedGrows(pieces[..n], i);
      assert pieces[..n][..i] == pieces[..i];
    } else {
      assert pieces[..i] == pieces;
    }
  }

  /**
    `drain`: the whole body when it arrives whole and fits; otherwise the first thing that went
    wrong, and never more than `max` bytes held.
   */
  method Drain(pieces: seq<Piece>, max: nat) returns (r: Collected)
    ensures r.Ok? <==> AllData(pieces) && |Joined(pieces)| <= max
    ensures r.Ok? ==> r.bytes == Joined(pieces)
    ensures r.Failure? ==> exists i :: 0 <= i < |pieces| && FailsAt(pieces, max, i)
    ensures r.Overflow? ==> exists i :: 0 <= i < |pieces| && OverflowsAt(pieces, max, i)
  {
    var out: seq<nat> := [];
    for i := 0 to |pieces|
      invariant out == Joined(pieces[..i]) && AllData(pieces[..i]) && |out| <= max
    {
      var piece := pieces[i];
      if piece.Failed? {
        assert FailsAt(pieces, max, i);
        return Failure;
      }
      assert pieces[..i + 1][..i] == pieces[..i];
      if |piece.bytes| > max - |out| {
        assert Joined(pieces[..i + 1]) == out + piece.bytes;
        JoinedGrows(pieces, i + 1);
        assert OverflowsAt(pieces, max, i);
        return Overflow;
      }
      out := out + piece.bytes;
    }
    assert pieces[..|pieces|] == pieces;
    return Ok(out);
  }
}
