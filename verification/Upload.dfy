/**
  A streaming request body on its way to the connection
  (`drain_stream_bodies`, src/courierust_client/h2.rs): chunks the caller sends
  over a channel, offered one by one to a connection that may refuse any of
  them for lack of buffer space (Overflow) or because the stream is gone.
 */
module Upload {
  import opened Basics
  import opened StreamLife

  /** What a caller puts into the body channel. */
  datatype Item = Piece(data: Bytes) | Failure

  /** What the connection queued for this stream. */
  datatype Frame = Frame(data: Bytes, end: bool)

  /** `send_data` takes all of a chunk, or none of it. */
  datatype Answer = Taken | Overflow | Gone

  /** The connection's answers, by call number. */
  type Answers = nat -> Answer

  datatype Phase =
    | Feeding     // in the table of stream bodies
    | Closed      // END_STREAM was offered
    | Dropped     // the connection refused the stream

  datatype Body = Body(
    sent: seq<Item>,        // everything the caller ever sent
    hungUp: bool,           // the caller dropped its sender
    taken: nat,             // items received from the channel
    held: Option<Bytes>,    // `pending_chunk`
    wire: seq<Frame>,
    asked: nat,             // calls of `send_data`
    phase: Phase)

  const Fresh := Body([], false, 0, None, [], 0, Feeding)

  // ------------------------------------------------------------------
  // One drain
  // ------------------------------------------------------------------

  function Offer(b: Body, data: Bytes, answers: Answers): Body {
    var b1 := b.(asked := b.asked + 1);
    match answers(b.asked)
    case Taken => b1.(wire := b.wire + [Frame(data, false)])
    case Overflow => b1.(held := Some(data))
    case Gone => b1.(phase := Dropped)
  }

  /** The empty END_STREAM frame; its outcome is ignored. */
  function Finish(b: Body, answers: Answers): Body {
    b.(asked := b.asked + 1, phase := Closed,
       wire := if answers(b.asked).Taken? then b.wire + [Frame([], true)] else b.wire)
  }

  predicate Blocked(b: Body) {
    b.held.Some? || b.phase != Feeding
  }

  /** The receive loop. */
  function Pull(b: Body, answers: Answers): Body
    decreases |b.sent| - b.taken
  {
    if b.taken >= |b.sent| then if b.hungUp then Finish(b, answers) else b
    else
      var next := b.(taken := b.taken + 1);
      match b.sent[b.taken]
      case Failure => Finish(next, answers)
      case Piece(data) =>
        if data == [] then Pull(next, answers)
        else
          var offered := Offer(next, data, answers);
          if Blocked(offered) then offered else Pull(offered, answers)
  }

  function Drain(b: Body, answers: Answers): Body {
    if b.phase != Feeding then b
    else if b.held.None? then Pull(b, answers)
    else
      var offered := Offer(b.(held := None), b.held.value, answers);
      if Blocked(offered) then offered else Pull(offered, answers)
  }

  // ------------------------------------------------------------------
  // Runs: the caller and the driver in any order
  // ------------------------------------------------------------------

  datatype Op = Send(item: Item) | HangUp | DrainOp

  function Do(b: Body, op: Op, answers: Answers): Body {
    match op
    case Send(item) => if b.hungUp then b else b.(sent := b.sent + [item])
    case HangUp => b.(hungUp := true)
    case DrainOp => Drain(b, answers)
  }

  function DoAll(b: Body, ops: seq<Op>, answers: Answers): Body {
    if ops == [] then b else Do(DoAll(b, ops[..|ops| - 1], answers), ops[|ops| - 1], answers)
  }

  /** The non-empty chunks of a list of items. */
  function Chunks(items: seq<Item>): seq<Bytes> {
    if items == [] then []
    else
      var last := items[|items| - 1];
      Chunks(items[..|items| - 1]) + if last.Piece? && last.data != [] then [last.data] else []
  }

  function Payloads(wire: seq<Frame>): seq<Bytes> {
    seq(|wire|, i requires 0 <= i < |wire| => wire[i].data)
  }

  function HeldPart(b: Body): seq<Bytes> {
    if b.held.Some? then [b.held.value] else []
  }

  ghost predicate NoFailure(items: seq<Item>) {
    forall i :: 0 <= i < |items| ==> items[i].Piece?
  }

  ghost predicate NoEnd(wire: seq<Frame>) {
    forall i :: 0 <= i < |wire| ==> !wire[i].end
  }

  /** Nothing lost, nothing repeated, nothing reordered. */
  ghost predicate Exact(b: Body) {
    && b.taken <= |b.sent|
    && NoFailure(b.sent[..b.taken]) && NoEnd(b.wire)
    && Payloads(b.wire) + HeldPart(b) == Chunks(b.sent[..b.taken])
  }

  /** The channel came to its end before item `n`: a failure, or the sender hung up. */
  ghost predicate EndsAt(b: Body, n: nat) {
    && n <= |b.sent| && NoFailure(b.sent[..n])
    && (if n < |b.sent| then b.sent[n].Failure? && b.taken == n + 1 else b.hungUp && b.taken == n)
  }

  ghost predicate Delivered(b: Body, n: nat) {
    && EndsAt(b, n) && b.held.None?
    && ((Payloads(b.wire) == Chunks(b.sent[..n]) && NoEnd(b.wire))
        || (b.wire != [] && b.wire[|b.wire| - 1] == Frame([], true)
            && NoEnd(b.wire[..|b.wire| - 1]) && Payloads(b.wire[..|b.wire| - 1]) == Chunks(b.sent[..n])))
  }

  ghost predicate Law(b: Body) {
    match b.phase
    case Feeding => Exact(b)
    case Closed => exists n: nat :: Delivered(b, n)
    case Dropped => b.taken <= |b.sent| && NoEnd(b.wire) && Payloads(b.wire) <= Chunks(b.sent[..b.taken])
  }

  // ------------------------------------------------------------------
  // Proofs
  // ------------------------------------------------------------------

  lemma ChunksSnoc(items: seq<Item>, n: nat)
    requires n < |items|
    ensures Chunks(items[..n + 1]) ==
            Chunks(items[..n]) + if items[n].Piece? && items[n].data != [] then [items[n].data] else []
    ensures NoFailure(items[..n]) && items[n].Piece? ==> NoFailure(items[..n + 1])
  {
    assert items[..n + 1][..n] == items[..n];
  }

  lemma PayloadsSnoc(wire: seq<Frame>, f: Frame)
    ensures Payloads(wire + [f]) == Payloads(wire) + [f.data]
  {
  }

  /** Offering the next chunk keeps the account, whatever the connection answers. */
  lemma OfferKeeps(b: Body, data: Bytes, answers: Answers)
    requires b.phase.Feeding? && b.held.None? && b.taken <= |b.sent|
    requires NoFailure(b.sent[..b.taken]) && NoEnd(b.wire)
    requires Payloads(b.wire) + [data] == Chunks(b.sent[..b.taken])
    ensures Law(Offer(b, data, answers))
    ensures Offer(b, data, answers).sent == b.sent && Offer(b, data, answers).taken == b.taken
  {
    PayloadsSnoc(b.wire, Frame(data, false));
    assert Payloads(b.wire) <= Chunks(b.sent[..b.taken]);
  }

  lemma FinishKeeps(b: Body, n: nat, answers: Answers)
    requires EndsAt(b, n) && b.held.None? && NoEnd(b.wire) && Payloads(b.wire) == Chunks(b.sent[..n])
    ensures Law(Finish(b, answers))
  {
    var b' := Finish(b, answers);
    if answers(b.asked).Taken? {
      assert b'.wire[..|b'.wire| - 1] == b.wire;
    }
    assert Delivered(b', n);
  }

  lemma {:induction false} PullKeeps(b: Body, answers: Answers)
    requires b.phase.Feeding? && b.held.None? && Exact(b)
    ensures Law(Pull(b, answers))
    decreases |b.sent| - b.taken
  {
    assert Payloads(b.wire) + [] == Payloads(b.wire);
    if b.taken >= |b.sent| {
      if b.hungUp { FinishKeeps(b, |b.sent|, answers); }
    } else {
      var next := b.(taken := b.taken + 1);
      ChunksSnoc(b.sent, b.taken);
      match b.sent[b.taken]
      case Failure => FinishKeeps(next, b.taken, answers);
      case Piece(data) =>
        if data == [] {
          PullKeeps(next, answers);
        } else {
          OfferKeeps(next, data, answers);
          if !Blocked(Offer(next, data, answers)) {
            PullKeeps(Offer(next, data, answers), answers);
          }
        }
    }
  }

  lemma DrainKeeps(b: Body, answers: Answers)
    requires Law(b)
    ensures Law(Drain(b, answers))
  {
    if b.phase.Feeding? {
      if b.held.None? {
        PullKeeps(b, answers);
      } else {
        var b1 := b.(held := None);
        OfferKeeps(b1, b.held.value, answers);
        var offered := Offer(b1, b.held.value, answers);
        if !Blocked(offered) { PullKeeps(offered, answers); }
      }
    }
  }

  lemma SendKeeps(b: Body, item: Item)
    requires Law(b) && !b.hungUp
    ensures Law(b.(sent := b.sent + [item]))
  {
    var b' := b.(sent := b.sent + [item]);
    if b.phase.Closed? {
      var n: nat :| Delivered(b, n);
      assert b'.sent[..n] == b.sent[..n];
      assert Delivered(b', n);
    } else {
      assert b'.sent[..b.taken] == b.sent[..b.taken];
    }
  }

  /** The law holds in every run of a caller against every pattern of refusals. */
  lemma {:induction false} EveryRunKeepsTheLaw(ops: seq<Op>, answers: Answers)
    ensures Law(DoAll(Fresh, ops, answers))
  {
    if ops == [] {
      assert Payloads([]) == [];
    } else {
      var n := |ops| - 1;
      EveryRunKeepsTheLaw(ops[..n], answers);
      var b := DoAll(Fresh, ops[..n], answers);
      match ops[n]
      case Send(item) => if !b.hungUp { SendKeeps(b, item); }
      case HangUp =>
        if b.phase.Closed? {
          var k: nat :| Delivered(b, k);
          assert Delivered(b.(hungUp := true), k);
        }
      case DrainOp => DrainKeeps(b, answers);
    }
  }

  /** A list and one more element agree with their prefixes. */
  lemma {:induction false} ChunksArePrefix(items: seq<Item>, n: nat)
    requires n <= |items|
    ensures Chunks(items[..n]) <= Chunks(items)
    decreases |items|
  {
    if n < |items| {
      var m := |items| - 1;
      ChunksArePrefix(items[..m], n);
      assert items[..m][..n] == items[..n];
    } else {
      assert items[..n] == items;
    }
  }

  /**
    For every run: what the connection took, with the one chunk that may be
    held back, is a prefix of what the caller sent, in order; END_STREAM goes
    out at most once, after all of it; and a caller that sent no failure and
    whose body was closed had every chunk taken.
   */
  lemma UploadIsExact(ops: seq<Op>, answers: Answers)
    ensures var b := DoAll(Fresh, ops, answers);
            && (b.phase.Feeding? ==> Payloads(b.wire) + HeldPart(b) <= Chunks(b.sent))
            && (forall i :: 0 <= i < |b.wire| && b.wire[i].end ==> i == |b.wire| - 1 && b.wire[i].data == [] && b.phase.Closed?)
            && (b.phase.Closed? && NoFailure(b.sent) ==>
                  b.hungUp && Payloads(if NoEnd(b.wire) then b.wire else b.wire[..|b.wire| - 1]) == Chunks(b.sent))
            && (b.phase.Dropped? ==> Payloads(b.wire) <= Chunks(b.sent))
  {
    var b := DoAll(Fresh, ops, answers);
    EveryRunKeepsTheLaw(ops, answers);
    if b.phase.Closed? {
      var n: nat :| Delivered(b, n);
      CleanIsWhole(b, n);
    } else {
      ChunksArePrefix(b.sent, b.taken);
    }
  }

  lemma CleanIsWhole(b: Body, n: nat)
    requires Delivered(b, n)
    ensures forall i :: 0 <= i < |b.wire| && b.wire[i].end ==> i == |b.wire| - 1 && b.wire[i].data == []
    ensures NoFailure(b.sent) ==>
              b.hungUp && Payloads(if NoEnd(b.wire) then b.wire else b.wire[..|b.wire| - 1]) == Chunks(b.sent)
  {
    forall i | 0 <= i < |b.wire| && b.wire[i].end ensures i == |b.wire| - 1 && b.wire[i].data == [] {
      assert b.wire[..|b.wire| - 1] <= b.wire;
    }
    if NoFailure(b.sent) {
      assert n == |b.sent| && b.sent[..n] == b.sent;
    }
  }

  // ------------------------------------------------------------------
  // A body that fails
  // ------------------------------------------------------------------

  /** The frames before END_STREAM. */
  ghost function BodyFrames(wire: seq<Frame>): seq<Frame> {
    if wire != [] && wire[|wire| - 1].end then wire[..|wire| - 1] else wire
  }

  /** No non-empty chunk follows a failure. */
  ghost predicate FailureIsLast(items: seq<Item>) {
    forall i, j :: 0 <= i < j < |items| && items[i].Failure? && items[j].Piece? ==> items[j].data == []
  }

  ghost predicate NoChunkFrom(items: seq<Item>, n: nat) {
    forall j :: n <= j < |items| && items[j].Piece? ==> items[j].data == []
  }

  lemma {:induction false} ChunksStop(items: seq<Item>, n: nat)
    requires n <= |items|
    ensures Chunks(items) == Chunks(items[..n]) <==> NoChunkFrom(items, n)
    decreases |items|
  {
    if n < |items| {
      var m := |items| - 1;
      ChunksStop(items[..m], n);
      ChunksArePrefix(items[..m], n);
      assert items[..m][..n] == items[..n];
      assert NoChunkFrom(items, n) <==> NoChunkFrom(items[..m], n) && (items[m].Piece? ==> items[m].data == []);
    } else {
      assert items[..n] == items;
    }
  }

  /**
    END_STREAM follows a failure as it follows a finished body, so a closed
    stream may be truncated: in every run, the body on the wire is all the caller
    sent if and only if no chunk was sent after a failure.
   */
  lemma ClosedIsCompleteExactly(ops: seq<Op>, answers: Answers)
    ensures var b := DoAll(Fresh, ops, answers);
            b.phase.Closed? ==> (Payloads(BodyFrames(b.wire)) == Chunks(b.sent) <==> FailureIsLast(b.sent))
  {
    var b := DoAll(Fresh, ops, answers);
    EveryRunKeepsTheLaw(ops, answers);
    if b.phase.Closed? {
      var n: nat :| Delivered(b, n);
      assert Payloads(BodyFrames(b.wire)) == Chunks(b.sent[..n]);
      ChunksStop(b.sent, n);
      CutAtFailure(b, n);
    }
  }

  lemma CutAtFailure(b: Body, n: nat)
    requires EndsAt(b, n)
    ensures NoChunkFrom(b.sent, n) <==> FailureIsLast(b.sent)
  {
    if n < |b.sent| {
      assert forall i :: 0 <= i < n ==> b.sent[..n][i].Piece?;
      assert b.sent[n].Failure?;
    } else {
      assert b.sent[..n] == b.sent;
    }
  }

  const AllTaken: Answers := (i: nat) => Taken

  /** One chunk, a failure, one more chunk: END_STREAM goes out and the second chunk never does. */
  lemma TruncatedBodyIsClosed()
    ensures var b := DoAll(Fresh, [Send(Piece([1])), Send(Failure), Send(Piece([2])), DrainOp], AllTaken);
            && b.phase.Closed? && b.wire == [Frame([1], false), Frame([], true)]
            && Chunks(b.sent) == [[1], [2]]
  {
    var items := [Piece([1]), Failure, Piece([2])];
    ThreeSends(items[0], items[1], items[2], AllTaken);
    var b3 := Fresh.(sent := items);
    var b1 := Fresh.(sent := items, taken := 1, wire := [Frame([1], false)], asked := 1);
    assert Pull(b3, AllTaken) == Pull(b1, AllTaken);
    assert Pull(b1, AllTaken) == Finish(b1.(taken := 2), AllTaken);
    var sends := [Send(items[0]), Send(items[1]), Send(items[2])];
    DoThen(Fresh, sends, DrainOp, AllTaken);
    assert sends + [DrainOp] == [Send(Piece([1])), Send(Failure), Send(Piece([2])), DrainOp];
    ThreeChunks();
  }

  lemma ThreeChunks()
    ensures Chunks([Piece([1]), Failure, Piece([2])]) == [[1], [2]]
  {
    var items := [Piece([1]), Failure, Piece([2])];
    assert items[..2] == [Piece([1]), Failure] && items[..2][..1] == [Piece([1])] && items[..1][..0] == [];
    assert Chunks(items[..1]) == [[1]] && Chunks(items[..2]) == [[1]];
  }

  lemma DoThen(b: Body, ops: seq<Op>, op: Op, answers: Answers)
    ensures DoAll(b, ops + [op], answers) == Do(DoAll(b, ops, answers), op, answers)
  {
    assert (ops + [op])[..|ops|] == ops;
  }

  lemma ThreeSends(x: Item, y: Item, z: Item, answers: Answers)
    ensures DoAll(Fresh, [Send(x), Send(y), Send(z)], answers) == Fresh.(sent := [x, y, z])
  {
    DoThen(Fresh, [], Send(x), answers);
    DoThen(Fresh, [Send(x)], Send(y), answers);
    DoThen(Fresh, [Send(x), Send(y)], Send(z), answers);
    assert [] + [Send(x)] == [Send(x)] && [Send(x)] + [Send(y)] == [Send(x), Send(y)];
    assert [Send(x), Send(y)] + [Send(z)] == [Send(x), Send(y), Send(z)];
  }

  /** The same frames went out, and the stream is in the same phase. */
  ghost predicate SameOutcome(b: Body, c: Body) {
    b.wire == c.wire && b.phase == c.phase
  }

  /**
    A failed body is closed with END_STREAM, exactly as a finished one is: the
    frames on the wire are the same, so the peer cannot tell a truncated request
    from a complete one.
   */
  lemma {:induction false} FailureLooksComplete(b: Body, more: seq<Item>, answers: Answers)
    requires b.phase.Feeding? && b.taken <= |b.sent| && !b.hungUp && NoFailure(b.sent[b.taken..])
    ensures SameOutcome(Pull(b.(sent := b.sent + [Failure] + more), answers), Pull(b.(hungUp := true), answers))
    decreases |b.sent| - b.taken
  {
    var failed := b.(sent := b.sent + [Failure] + more);
    if b.taken < |b.sent| {
      var item := b.sent[b.taken];
      assert failed.sent[b.taken] == item && item == b.sent[b.taken..][0];
      var next := b.(taken := b.taken + 1);
      assert b.sent[b.taken..][1..] == b.sent[next.taken..];
      if item.data == [] {
        FailureLooksComplete(next, more, answers);
      } else {
        OfferAlike(next, failed.sent, item.data, answers);
        if !Blocked(Offer(next, item.data, answers)) {
          FailureLooksComplete(Offer(next, item.data, answers), more, answers);
        }
      }
    }
  }

  lemma OfferAlike(b: Body, sent: seq<Item>, data: Bytes, answers: Answers)
    ensures var o := Offer(b, data, answers);
            && Offer(b.(sent := sent), data, answers) == o.(sent := sent)
            && Offer(b.(hungUp := true), data, answers) == o.(hungUp := true)
            && o.sent == b.sent && o.taken == b.taken && o.hungUp == b.hungUp
  {
  }

  // ------------------------------------------------------------------
  // The driver's table entry
  // ------------------------------------------------------------------

  /** `StreamBody`, with the caller's channel and the connection's queue it works between. */
  class StreamBody {
    const answers: Answers
    var sent: seq<Item>
    var hungUp: bool
    var taken: nat
    var held: Option<Bytes>
    var wire: seq<Frame>
    var asked: nat
    var phase: Phase

    ghost function State(): Body
      reads this
    {
      Body(sent, hungUp, taken, held, wire, asked, phase)
    }

    constructor (answers: Answers)
      ensures this.answers == answers && State() == Fresh
    {
      this.answers := answers;
      sent, hungUp, taken, held, wire, asked, phase := [], false, 0, None, [], 0, Feeding;
    }

    /** `conn.send_data(sid, chunk, false)` */
    method SendData(data: Bytes)
      modifies this`wire, this`held, this`phase, this`asked
      ensures State() == Offer(old(State()), data, answers)
    {
      var answer := answers(asked);
      asked := asked + 1;
      match answer
      case Taken => wire := wire + [Frame(data, false)];
      case Overflow => held := Some(data);
      case Gone => phase := Dropped;
    }

    /** `conn.send_data(sid, Bytes::new(), true)` */
    method EndStream()
      modifies this`wire, this`phase, this`asked
      ensures State() == Finish(old(State()), answers)
    {
      if answers(asked).Taken? {
        wire := wire + [Frame([], true)];
      }
      asked := asked + 1;
      phase := Closed;
    }

    /** One pass of `drain_stream_bodies` over this stream. */
    method DrainBody()
      requires phase.Feeding?
      modifies this`wire, this`held, this`phase, this`asked, this`taken
      ensures State() == Drain(old(State()), answers)
    {
      if held.Some? {
        var chunk := held.value;
        held := None;
        SendData(chunk);
        if held.Some? || phase != Feeding {
          return;
        }
      }
      Receive();
    }

    /** The loop over the caller's channel. */
    method Receive()
      requires phase.Feeding? && held.None?
      modifies this`wire, this`held, this`phase, this`asked, this`taken
      ensures State() == Pull(old(State()), answers)
    {
      while true
        invariant phase.Feeding? && held.None? && sent == old(sent) && hungUp == old(hungUp)
        invariant Pull(State(), answers) == Pull(old(State()), answers)
        decreases |sent| - taken
      {
        if taken >= |sent| {
          if hungUp {
            EndStream();
          }
          return;
        }
        var item := sent[taken];
        taken := taken + 1;
        match item
        case Failure =>
          EndStream();
          return;
        case Piece(data) =>
          if data != [] {
            SendData(data);
            if held.Some? || phase != Feeding {
              return;
            }
          }
      }
    }
  }
}
