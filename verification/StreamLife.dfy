/**
  The life of one response stream inside the HTTP/2 client driver
  (src/courierust_client/h2.rs): what the caller's two channels carry after any
  sequence of things the connection, the clock or the driver did to the stream.

  `React` is the step the driver takes; `Picture` is the closed form, defined
  from the whole history without running the driver. The theorem of the module
  is that they agree on every history.
 */
module StreamLife {
  import opened Basics

  type Byte = b: int | 0 <= b < 256
  type Bytes = seq<Byte>
  type StreamId = nat
  type RequestId = nat
  type Instant = nat
  type Fields = seq<(string, string)>

  datatype Error =
    | Canceled              // "connection received GOAWAY", "connection closed"
    | Refused               // REFUSED_STREAM: too many deferred commands
    | TimedOut
    | TooLarge              // response body over `max_body`
    | Eof
    | BadHead               // `build_response` failed
    | SettingsTimeout
    | Exhausted             // no stream id left
    | Peer(code: nat)       // RST_STREAM, stream error, GOAWAY, transport error

  /** The two configuration values a stream depends on. */
  datatype Limits = Limits(maxBody: nat, readTimeout: Option<nat>)

  /** What a caller finds on its reply channel. */
  datatype Reply =
    | Head(status: nat, streaming: bool)   // streaming: the body channel comes with it
    | Failed(error: Error)

  datatype BodyMsg = Chunk(data: Bytes) | Fault(error: Error)

  /**
    The caller's side of one request: every message ever put on its reply and
    body channels, and whether the driver still holds the sending ends.
    `rxHeld` says the driver still holds the body receiver.
   */
  datatype Mailbox = Mailbox(
    replies: seq<Reply>,
    replyOpen: bool,
    rxHeld: bool,
    body: seq<BodyMsg>,
    bodyOpen: bool,
    trailers: Option<Fields>)

  /** The driver's `Pending` entry; its channel ends live in the mailbox. */
  datatype Entry = Entry(id: RequestId, bodyLen: nat, deadline: Option<Instant>)

  datatype Stream = Live(entry: Entry, box: Mailbox) | Over(box: Mailbox)

  /** Everything that can happen to a stream that awaits its response. */
  datatype Stimulus =
    | Headers(head: Option<nat>, end: bool, at: Instant)   // head is None when `build_response` fails
    | Data(data: Bytes, end: bool, at: Instant)
    | Trailers(fields: Fields)
    | Abort(error: Error)      // reset, stream error, GOAWAY past this id, transport failure
    | Clock(now: Instant)

  /** A reply channel nobody has answered and no stream yet. */
  const Unopened := Mailbox([], true, false, [], false, None)

  /** The mailbox when the stream has just been opened. */
  const Opened := Mailbox([], true, true, [], true, None)

  // ------------------------------------------------------------------
  // The driver's step
  // ------------------------------------------------------------------

  function SendReply(b: Mailbox, r: Reply): Mailbox {
    if b.replyOpen then b.(replies := b.replies + [r], replyOpen := false) else b
  }

  function SendBody(b: Mailbox, m: BodyMsg): Mailbox {
    if b.bodyOpen then b.(body := b.body + [m]) else b
  }

  /** Dropping the entry drops both senders. */
  function Hang(b: Mailbox): Mailbox {
    b.(replyOpen := false, bodyOpen := false)
  }

  /** Both channels are told before they are dropped. */
  function Kill(b: Mailbox, e: Error): Mailbox {
    Hang(SendReply(SendBody(b, Fault(e)), Failed(e)))
  }

  function Refresh(e: Entry, at: Instant, lim: Limits): Entry {
    if lim.readTimeout.Some? then e.(deadline := Some(at + lim.readTimeout.value)) else e
  }

  predicate Expired(e: Entry, now: Instant) {
    e.deadline.Some? && now >= e.deadline.value
  }

  function React(s: Stream, x: Stimulus, lim: Limits): Stream {
    match s
    case Over(_) => s
    case Live(e, b) =>
      match x
      case Headers(None, _, _) => Over(Hang(SendReply(b, Failed(BadHead))))
      case Headers(Some(status), true, _) => Over(Hang(SendReply(b, Head(status, false))))
      case Headers(Some(status), false, at) =>
        Live(Refresh(e, at, lim), SendReply(b, Head(status, b.rxHeld)).(rxHeld := false))
      case Data(data, end, at) =>
        var len := e.bodyLen + |data|;
        if len > lim.maxBody then Over(Kill(b, TooLarge))
        else if end then Over(Hang(SendBody(b, Chunk(data))))
        else Live(Refresh(e.(bodyLen := len), at, lim), SendBody(b, Chunk(data)))
      case Trailers(fields) => Over(Hang(b.(trailers := Some(fields))))
      case Abort(err) => Over(Kill(b, err))
      case Clock(now) => if Expired(e, now) then Over(Kill(b, TimedOut)) else s
  }

  function ReactAll(s: Stream, xs: seq<Stimulus>, lim: Limits): Stream {
    if xs == [] then s else React(ReactAll(s, xs[..|xs| - 1], lim), xs[|xs| - 1], lim)
  }

  // ------------------------------------------------------------------
  // The closed form
  // ------------------------------------------------------------------

  /** The DATA payloads of a history, in order. */
  function Payload(xs: seq<Stimulus>): seq<BodyMsg> {
    if xs == [] then []
    else
      var rest := Payload(xs[..|xs| - 1]);
      var x := xs[|xs| - 1];
      if x.Data? then rest + [Chunk(x.data)] else rest
  }

  function Size(ms: seq<BodyMsg>): nat {
    if ms == [] then 0
    else
      var m := ms[|ms| - 1];
      Size(ms[..|ms| - 1]) + if m.Chunk? then |m.data| else 0
  }

  /** The first readable head of a history. */
  function FirstHead(xs: seq<Stimulus>): Option<nat> {
    if xs == [] then None
    else
      var before := FirstHead(xs[..|xs| - 1]);
      var x := xs[|xs| - 1];
      if before.Some? then before else if x.Headers? then x.head else None
  }

  /** The deadline in force after a history: the last refresh wins. */
  function DeadlineAfter(start: Option<Instant>, xs: seq<Stimulus>, lim: Limits): Option<Instant> {
    if xs == [] then start
    else
      var x := xs[|xs| - 1];
      if (x.Headers? || x.Data?) && lim.readTimeout.Some? then Some(x.at + lim.readTimeout.value)
      else DeadlineAfter(start, xs[..|xs| - 1], lim)
  }

  /** Whether `x` ends a stream that lived through `before`. */
  predicate Cuts(start: Option<Instant>, before: seq<Stimulus>, x: Stimulus, lim: Limits) {
    match x
    case Headers(head, end, _) => head.None? || end
    case Data(data, end, _) => end || Size(Payload(before)) + |data| > lim.maxBody
    case Trailers(_) => true
    case Abort(_) => true
    case Clock(now) =>
      var d := DeadlineAfter(start, before, lim);
      d.Some? && now >= d.value
  }

  /** No stimulus of `xs` ends the stream. */
  ghost predicate Lives(start: Option<Instant>, xs: seq<Stimulus>, lim: Limits) {
    forall k :: 0 <= k < |xs| ==> !Cuts(start, xs[..k], xs[k], lim)
  }

  /** The mailbox of a stream that is alive after `xs`. */
  function LiveBox(xs: seq<Stimulus>): Mailbox {
    var h := FirstHead(xs);
    Mailbox(if h.Some? then [Head(h.value, true)] else [], h.None?, h.None?, Payload(xs), true, None)
  }

  /** The last word on each channel when `x` ends a stream that lived through `before`. */
  function LastBox(before: seq<Stimulus>, x: Stimulus, lim: Limits): Mailbox
    requires !x.Headers? || x.head.None? || x.end
  {
    var h := FirstHead(before);
    var told := (r: Reply) => if h.Some? then [Head(h.value, true)] else [r];
    var end := Mailbox(LiveBox(before).replies, false, h.None?, Payload(before), false, None);
    match x
    case Headers(None, _, _) => end.(replies := told(Failed(BadHead)))
    case Headers(Some(status), _, _) => end.(replies := told(Head(status, false)))
    case Data(data, _, _) =>
      if Size(Payload(before)) + |data| > lim.maxBody
      then end.(replies := told(Failed(TooLarge)), body := Payload(before) + [Fault(TooLarge)])
      else end.(body := Payload(before) + [Chunk(data)])
    case Trailers(fields) => end.(trailers := Some(fields))
    case Abort(err) => end.(replies := told(Failed(err)), body := Payload(before) + [Fault(err)])
    case Clock(_) => end.(replies := told(Failed(TimedOut)), body := Payload(before) + [Fault(TimedOut)])
  }

  /** A stream as the driver creates it. */
  function Born(id: RequestId, deadline: Option<Instant>): Stream {
    Live(Entry(id, 0, deadline), Opened)
  }

  // ------------------------------------------------------------------
  // The driver's step against the closed form
  // ------------------------------------------------------------------

  /** One more stimulus extends each ingredient of the closed form. */
  lemma Extend(start: Option<Instant>, before: seq<Stimulus>, x: Stimulus, lim: Limits)
    ensures Payload(before + [x]) == if x.Data? then Payload(before) + [Chunk(x.data)] else Payload(before)
    ensures Size(Payload(before + [x])) == Size(Payload(before)) + if x.Data? then |x.data| else 0
    ensures FirstHead(before + [x]) ==
            if FirstHead(before).Some? then FirstHead(before) else if x.Headers? then x.head else None
    ensures DeadlineAfter(start, before + [x], lim) ==
            if (x.Headers? || x.Data?) && lim.readTimeout.Some? then Some(x.at + lim.readTimeout.value)
            else DeadlineAfter(start, before, lim)
  {
    assert (before + [x])[..|before|] == before;
    if x.Data? {
      assert (Payload(before) + [Chunk(x.data)])[..|Payload(before)|] == Payload(before);
    }
  }

  /** The stream the closed form describes after `xs`. */
  function LivePicture(id: RequestId, start: Option<Instant>, xs: seq<Stimulus>, lim: Limits): Stream {
    Live(Entry(id, Size(Payload(xs)), DeadlineAfter(start, xs, lim)), LiveBox(xs))
  }

  lemma LiveStep(id: RequestId, start: Option<Instant>, before: seq<Stimulus>, x: Stimulus, lim: Limits)
    requires !Cuts(start, before, x, lim)
    ensures React(LivePicture(id, start, before, lim), x, lim) == LivePicture(id, start, before + [x], lim)
  {
    match x
    case Headers(_, _, _) => LiveHeaders(id, start, before, x, lim);
    case Data(_, _, _) => LiveData(id, start, before, x, lim);
    case Clock(_) => LiveClock(id, start, before, x, lim);
  }

  lemma LiveClock(id: RequestId, start: Option<Instant>, before: seq<Stimulus>, x: Stimulus, lim: Limits)
    requires x.Clock? && !Cuts(start, before, x, lim)
    ensures React(LivePicture(id, start, before, lim), x, lim) == LivePicture(id, start, before + [x], lim)
  {
    Extend(start, before, x, lim);
  }

  lemma LiveData(id: RequestId, start: Option<Instant>, before: seq<Stimulus>, x: Stimulus, lim: Limits)
    requires x.Data? && !Cuts(start, before, x, lim)
    ensures React(LivePicture(id, start, before, lim), x, lim) == LivePicture(id, start, before + [x], lim)
  {
    Extend(start, before, x, lim);
  }

  lemma LiveHeaders(id: RequestId, start: Option<Instant>, before: seq<Stimulus>, x: Stimulus, lim: Limits)
    requires x.Headers? && x.head.Some? && !x.end
    ensures React(LivePicture(id, start, before, lim), x, lim) == LivePicture(id, start, before + [x], lim)
  {
    Extend(start, before, x, lim);
    var b := SendReply(LiveBox(before), Head(x.head.value, FirstHead(before).None?)).(rxHeld := false);
    assert b == LiveBox(before + [x]);
  }

  lemma {:induction false} LiveAgrees(id: RequestId, start: Option<Instant>, xs: seq<Stimulus>, lim: Limits)
    requires Lives(start, xs, lim)
    ensures ReactAll(Born(id, start), xs, lim) == LivePicture(id, start, xs, lim)
    ensures Size(Payload(xs)) <= lim.maxBody
  {
    if xs != [] {
      var n := |xs| - 1;
      var before, x := xs[..n], xs[n];
      LivesPrefix(start, xs, n, lim);
      LiveAgrees(id, start, before, lim);
      LiveStep(id, start, before, x, lim);
      Extend(start, before, x, lim);
      assert xs == before + [x];
    }
  }

  lemma LivesPrefix(start: Option<Instant>, xs: seq<Stimulus>, n: nat, lim: Limits)
    requires n <= |xs|
    ensures Lives(start, xs[..n], lim) <==> forall k :: 0 <= k < n ==> !Cuts(start, xs[..k], xs[k], lim)
  {
    forall k | 0 <= k < n
      ensures Cuts(start, xs[..n][..k], xs[..n][k], lim) == Cuts(start, xs[..k], xs[k], lim)
    {
      assert xs[..n][..k] == xs[..k];
    }
    if forall k :: 0 <= k < n ==> !Cuts(start, xs[..k], xs[k], lim) {
      assert forall k :: 0 <= k < n ==> !Cuts(start, xs[..n][..k], xs[..n][k], lim);
    } else {
      var k :| 0 <= k < n && Cuts(start, xs[..k], xs[k], lim);
      assert Cuts(start, xs[..n][..k], xs[..n][k], lim);
    }
  }

  lemma {:induction false} OverStays(s: Stream, xs: seq<Stimulus>, lim: Limits)
    requires s.Over?
    ensures ReactAll(s, xs, lim) == s
  {
    if xs != [] { OverStays(s, xs[..|xs| - 1], lim); }
  }

  lemma {:induction false} ReactAllSplit(s: Stream, xs: seq<Stimulus>, ys: seq<Stimulus>, lim: Limits)
    ensures ReactAll(s, xs + ys, lim) == ReactAll(ReactAll(s, xs, lim), ys, lim)
  {
    if ys == [] {
      assert xs + ys == xs;
    } else {
      assert (xs + ys)[..|xs + ys| - 1] == xs + ys[..|ys| - 1];
      ReactAllSplit(s, xs, ys[..|ys| - 1], lim);
    }
  }

  /**
    The stream as a function of its whole history: alive exactly when nothing
    cut it, and otherwise frozen at what the first cut left on the channels.
   */
  lemma {:induction false} HistoryDecides(id: RequestId, start: Option<Instant>, xs: seq<Stimulus>, lim: Limits)
    ensures Lives(start, xs, lim) <==> ReactAll(Born(id, start), xs, lim).Live?
    ensures Lives(start, xs, lim) ==> ReactAll(Born(id, start), xs, lim).box == LiveBox(xs)
    ensures forall k :: 0 <= k < |xs| && Lives(start, xs[..k], lim) && Cuts(start, xs[..k], xs[k], lim)
              ==> ReactAll(Born(id, start), xs, lim) == Over(LastBox(xs[..k], xs[k], lim))
  {
    if Lives(start, xs, lim) {
      LiveAgrees(id, start, xs, lim);
    } else {
      var k := FirstCut(start, xs, lim);
      CutDecides(id, start, xs, k, lim);
    }
    forall k | 0 <= k < |xs| && Lives(start, xs[..k], lim) && Cuts(start, xs[..k], xs[k], lim)
      ensures ReactAll(Born(id, start), xs, lim) == Over(LastBox(xs[..k], xs[k], lim))
    {
      CutDecides(id, start, xs, k, lim);
    }
  }

  lemma FirstCut(start: Option<Instant>, xs: seq<Stimulus>, lim: Limits) returns (k: nat)
    requires !Lives(start, xs, lim)
    ensures k < |xs| && Lives(start, xs[..k], lim) && Cuts(start, xs[..k], xs[k], lim)
  {
    var cut :| 0 <= cut < |xs| && Cuts(start, xs[..cut], xs[cut], lim);
    k := 0;
    while !Cuts(start, xs[..k], xs[k], lim)
      invariant k <= cut
      decreases cut - k
      invariant forall j :: 0 <= j < k ==> !Cuts(start, xs[..j], xs[j], lim)
    {
      k := k + 1;
    }
    LivesPrefix(start, xs, k, lim);
  }

  /** What the cut itself leaves on the channels. */
  lemma CutStep(id: RequestId, start: Option<Instant>, before: seq<Stimulus>, x: Stimulus, lim: Limits)
    requires Cuts(start, before, x, lim)
    ensures React(LivePicture(id, start, before, lim), x, lim) == Over(LastBox(before, x, lim))
  {
    if x.Headers? {
      CutHeaders(id, start, before, x, lim);
    } else if x.Data? {
      CutData(id, start, before, x, lim);
    }
  }

  lemma CutHeaders(id: RequestId, start: Option<Instant>, before: seq<Stimulus>, x: Stimulus, lim: Limits)
    requires x.Headers? && Cuts(start, before, x, lim)
    ensures React(LivePicture(id, start, before, lim), x, lim) == Over(LastBox(before, x, lim))
  {
  }

  lemma CutData(id: RequestId, start: Option<Instant>, before: seq<Stimulus>, x: Stimulus, lim: Limits)
    requires x.Data? && Cuts(start, before, x, lim)
    ensures React(LivePicture(id, start, before, lim), x, lim) == Over(LastBox(before, x, lim))
  {
  }

  lemma CutDecides(id: RequestId, start: Option<Instant>, xs: seq<Stimulus>, k: nat, lim: Limits)
    requires k < |xs| && Lives(start, xs[..k], lim) && Cuts(start, xs[..k], xs[k], lim)
    ensures ReactAll(Born(id, start), xs, lim) == Over(LastBox(xs[..k], xs[k], lim))
  {
    LiveAgrees(id, start, xs[..k], lim);
    CutStep(id, start, xs[..k], xs[k], lim);
    ReactAllSplit(Born(id, start), xs[..k], [xs[k]], lim);
    ReactOne(LivePicture(id, start, xs[..k], lim), xs[k], lim);
    var cut := Over(LastBox(xs[..k], xs[k], lim));
    assert xs == (xs[..k] + [xs[k]]) + xs[k + 1..];
    ReactAllSplit(Born(id, start), xs[..k] + [xs[k]], xs[k + 1..], lim);
    OverStays(cut, xs[k + 1..], lim);
  }

  lemma ReactOne(s: Stream, x: Stimulus, lim: Limits)
    ensures ReactAll(s, [x], lim) == React(s, x, lim)
  {
    assert [x][..0] == [];
  }

  // ------------------------------------------------------------------
  // What a caller may conclude
  // ------------------------------------------------------------------

  ghost predicate FaultFree(ms: seq<BodyMsg>) {
    forall i :: 0 <= i < |ms| ==> ms[i].Chunk?
  }

  /** The peer finished the response with this stimulus, inside the body limit. */
  predicate PeerEnds(before: seq<Stimulus>, x: Stimulus, lim: Limits) {
    || (x.Data? && x.end && Size(Payload(before)) + |x.data| <= lim.maxBody)
    || x.Trailers?
  }

  /** Every HEADERS of a history after the first one is one the connection reports as trailers. */
  ghost predicate OneHead(xs: seq<Stimulus>) {
    forall i, j :: 0 <= i < j < |xs| && xs[i].Headers? ==> !xs[j].Headers?
  }

  lemma {:induction false} PayloadIsFaultFree(xs: seq<Stimulus>)
    ensures FaultFree(Payload(xs))
  {
    if xs != [] { PayloadIsFaultFree(xs[..|xs| - 1]); }
  }

  lemma {:induction false} HeadSeen(xs: seq<Stimulus>)
    ensures FirstHead(xs).Some? ==> exists i :: 0 <= i < |xs| && xs[i].Headers?
  {
    if xs != [] {
      var n := |xs| - 1;
      HeadSeen(xs[..n]);
      if FirstHead(xs[..n]).Some? {
        var i :| 0 <= i < n && xs[..n][i].Headers?;
        assert xs[i].Headers?;
      } else if FirstHead(xs).Some? {
        assert xs[n].Headers?;
      }
    }
  }

  /**
    At most one reply for every history. An ended stream leaves its caller
    without one exactly when the peer ended the response before any head.
   */
  lemma ReplyLaw(id: RequestId, start: Option<Instant>, xs: seq<Stimulus>, lim: Limits)
    ensures |ReactAll(Born(id, start), xs, lim).box.replies| <= 1
    ensures var s := ReactAll(Born(id, start), xs, lim);
            s.Over? && s.box.replies == [] <==>
            exists k :: 0 <= k < |xs| && Lives(start, xs[..k], lim) && FirstHead(xs[..k]).None? && PeerEnds(xs[..k], xs[k], lim)
  {
    HistoryDecides(id, start, xs, lim);
    if !Lives(start, xs, lim) {
      var k := FirstCut(start, xs, lim);
      forall j | 0 <= j < |xs| && Lives(start, xs[..j], lim) && Cuts(start, xs[..j], xs[j], lim)
        ensures j == k
      {
        CutIsUnique(start, xs, j, k, lim);
      }
    }
  }

  lemma CutIsUnique(start: Option<Instant>, xs: seq<Stimulus>, j: nat, k: nat, lim: Limits)
    requires j < |xs| && Lives(start, xs[..j], lim) && Cuts(start, xs[..j], xs[j], lim)
    requires k < |xs| && Lives(start, xs[..k], lim) && Cuts(start, xs[..k], xs[k], lim)
    ensures j == k
  {
    LivesPrefix(start, xs, j, lim);
    LivesPrefix(start, xs, k, lim);
  }

  /** The caller was handed the body channel. */
  ghost predicate Streams(replies: seq<Reply>) {
    exists r :: r in replies && r.Head? && r.streaming
  }

  /** The history a cleanly closed body must have: a head, then the peer's own end. */
  ghost predicate EndedAfterHead(start: Option<Instant>, xs: seq<Stimulus>, k: int, lim: Limits) {
    0 <= k < |xs| && Lives(start, xs[..k], lim) && FirstHead(xs[..k]).Some? && PeerEnds(xs[..k], xs[k], lim)
  }

  /** What a cut leaves to a caller that was handed the body channel. */
  lemma CutBody(start: Option<Instant>, before: seq<Stimulus>, x: Stimulus, lim: Limits)
    requires Cuts(start, before, x, lim) && !x.Headers?
    ensures FaultFree(LastBox(before, x, lim).body) <==> PeerEnds(before, x, lim)
  {
    PayloadIsFaultFree(before);
    var body := LastBox(before, x, lim).body;
    if !PeerEnds(before, x, lim) {
      assert body[|body| - 1].Fault?;
    }
  }

  lemma CutReplies(start: Option<Instant>, before: seq<Stimulus>, x: Stimulus, lim: Limits)
    requires Cuts(start, before, x, lim)
    ensures Streams(LastBox(before, x, lim).replies) <==> FirstHead(before).Some?
  {
    if FirstHead(before).Some? {
      assert Head(FirstHead(before).value, true) in LastBox(before, x, lim).replies;
    }
  }

  lemma NoSecondHead(xs: seq<Stimulus>, k: nat)
    requires k < |xs| && OneHead(xs) && FirstHead(xs[..k]).Some?
    ensures !xs[k].Headers?
  {
    HeadSeen(xs[..k]);
    var i :| 0 <= i < k && xs[..k][i].Headers?;
    assert xs[i].Headers?;
  }

  lemma PeerEndsCuts(start: Option<Instant>, before: seq<Stimulus>, x: Stimulus, lim: Limits)
    requires PeerEnds(before, x, lim)
    ensures Cuts(start, before, x, lim) && LastBox(before, x, lim).body == Payload(before + [x])
  {
    assert (before + [x])[..|before|] == before;
  }

  /**
    No truncated body looks complete: a body channel the caller was handed
    closes without a fault exactly when the peer ended the response, and then
    it carries every DATA payload of the response in order.
   */
  lemma CleanCloseMeansComplete(id: RequestId, start: Option<Instant>, xs: seq<Stimulus>, lim: Limits)
    requires OneHead(xs)
    ensures var s := ReactAll(Born(id, start), xs, lim);
            s.Over? && FaultFree(s.box.body) && Streams(s.box.replies) <==> exists k :: EndedAfterHead(start, xs, k, lim)
    ensures forall k :: 0 <= k < |xs| && Lives(start, xs[..k], lim) && PeerEnds(xs[..k], xs[k], lim)
              ==> ReactAll(Born(id, start), xs, lim).box.body == Payload(xs[..k + 1])
  {
    var s := ReactAll(Born(id, start), xs, lim);
    forall k | 0 <= k < |xs| && Lives(start, xs[..k], lim) && PeerEnds(xs[..k], xs[k], lim)
      ensures s.box.body == Payload(xs[..k + 1])
    {
      EndedBody(id, start, xs, k, lim);
    }
    if Lives(start, xs, lim) {
      LiveAgrees(id, start, xs, lim);
      NoEndWhileAlive(start, xs, lim);
    } else {
      var k := FirstCut(start, xs, lim);
      CutDecides(id, start, xs, k, lim);
      CutReplies(start, xs[..k], xs[k], lim);
      EndIsTheCut(start, xs, k, lim);
      if FirstHead(xs[..k]).Some? {
        NoSecondHead(xs, k);
        CutBody(start, xs[..k], xs[k], lim);
      }
    }
  }

  lemma EndedBody(id: RequestId, start: Option<Instant>, xs: seq<Stimulus>, k: nat, lim: Limits)
    requires k < |xs| && Lives(start, xs[..k], lim) && PeerEnds(xs[..k], xs[k], lim)
    ensures ReactAll(Born(id, start), xs, lim).box.body == Payload(xs[..k + 1])
  {
    PeerEndsCuts(start, xs[..k], xs[k], lim);
    CutDecides(id, start, xs, k, lim);
    assert xs[..k] + [xs[k]] == xs[..k + 1];
  }

  lemma NoEndWhileAlive(start: Option<Instant>, xs: seq<Stimulus>, lim: Limits)
    requires Lives(start, xs, lim)
    ensures forall k :: !EndedAfterHead(start, xs, k, lim)
  {
    forall k ensures !EndedAfterHead(start, xs, k, lim) {
      if EndedAfterHead(start, xs, k, lim) { PeerEndsCuts(start, xs[..k], xs[k], lim); }
    }
  }

  /** Only the stimulus that cut the stream can have been the peer's end. */
  lemma EndIsTheCut(start: Option<Instant>, xs: seq<Stimulus>, k: nat, lim: Limits)
    requires k < |xs| && Lives(start, xs[..k], lim) && Cuts(start, xs[..k], xs[k], lim)
    ensures (exists j :: EndedAfterHead(start, xs, j, lim)) <==> EndedAfterHead(start, xs, k, lim)
  {
    if j :| EndedAfterHead(start, xs, j, lim) {
      PeerEndsCuts(start, xs[..j], xs[j], lim);
      CutIsUnique(start, xs, j, k, lim);
    }
  }

  lemma {:induction false} SizeWithFault(ms: seq<BodyMsg>, e: Error)
    ensures Size(ms + [Fault(e)]) == Size(ms)
    ensures forall data: Bytes :: Size(ms + [Chunk(data)]) == Size(ms) + |data|
  {
    assert (ms + [Fault(e)])[..|ms|] == ms;
    forall data: Bytes ensures Size(ms + [Chunk(data)]) == Size(ms) + |data| {
      assert (ms + [Chunk(data)])[..|ms|] == ms;
    }
  }

  /** However the stream goes, a caller never receives more than `max_body` bytes. */
  lemma BodyIsBounded(id: RequestId, start: Option<Instant>, xs: seq<Stimulus>, lim: Limits)
    ensures Size(ReactAll(Born(id, start), xs, lim).box.body) <= lim.maxBody
  {
    HistoryDecides(id, start, xs, lim);
    if Lives(start, xs, lim) {
      LiveAgrees(id, start, xs, lim);
    } else {
      var k := FirstCut(start, xs, lim);
      LiveAgrees(id, start, xs[..k], lim);
      forall e: Error ensures Size(Payload(xs[..k]) + [Fault(e)]) == Size(Payload(xs[..k])) {
        SizeWithFault(Payload(xs[..k]), e);
      }
      SizeWithFault(Payload(xs[..k]), Eof);
    }
  }

  /** What may be concluded from a mailbox, given the history `xs` of its stream. */
  ghost predicate Truthful(b: Mailbox, start: Option<Instant>, xs: seq<Stimulus>, lim: Limits) {
    && |b.replies| <= 1
    && Size(b.body) <= lim.maxBody
    && (!b.bodyOpen && b.replies == [] ==>
          exists k :: 0 <= k < |xs| && Lives(start, xs[..k], lim)
            && FirstHead(xs[..k]).None? && PeerEnds(xs[..k], xs[k], lim))
    && (OneHead(xs) && !b.bodyOpen && FaultFree(b.body) && Streams(b.replies) ==>
          exists k :: 0 <= k < |xs| && Lives(start, xs[..k], lim)
            && PeerEnds(xs[..k], xs[k], lim) && b.body == Payload(xs[..k + 1]))
  }

  lemma EveryMailboxIsTruthful(id: RequestId, start: Option<Instant>, xs: seq<Stimulus>, lim: Limits)
    ensures Truthful(ReactAll(Born(id, start), xs, lim).box, start, xs, lim)
  {
    BodyIsBounded(id, start, xs, lim);
    ReplyLaw(id, start, xs, lim);
    LiveMeansOpen(id, start, xs, lim);
    CompleteBody(id, start, xs, lim);
  }

  lemma CompleteBody(id: RequestId, start: Option<Instant>, xs: seq<Stimulus>, lim: Limits)
    ensures var b := ReactAll(Born(id, start), xs, lim).box;
            OneHead(xs) && !b.bodyOpen && FaultFree(b.body) && Streams(b.replies) ==>
              exists k :: 0 <= k < |xs| && Lives(start, xs[..k], lim)
                && PeerEnds(xs[..k], xs[k], lim) && b.body == Payload(xs[..k + 1])
  {
    var s := ReactAll(Born(id, start), xs, lim);
    LiveMeansOpen(id, start, xs, lim);
    if OneHead(xs) && !s.box.bodyOpen && FaultFree(s.box.body) && Streams(s.box.replies) {
      CleanCloseMeansComplete(id, start, xs, lim);
      var k :| EndedAfterHead(start, xs, k, lim);
      assert s.box.body == Payload(xs[..k + 1]);
    }
  }

  lemma LiveMeansOpen(id: RequestId, start: Option<Instant>, xs: seq<Stimulus>, lim: Limits)
    ensures ReactAll(Born(id, start), xs, lim).Live? ==> ReactAll(Born(id, start), xs, lim).box.bodyOpen
  {
    HistoryDecides(id, start, xs, lim);
  }

  /**
    The connection only checks that a stream may receive, so a peer can send
    END_STREAM on DATA before any HEADERS: that caller is never answered.
   */
  lemma SilentStreamExists()
    ensures var s := ReactAll(Born(0, None), [Data([], true, 0)], Limits(0, None));
            s.Over? && s.box.replies == [] && !s.box.replyOpen
  {
    var xs := [Data([], true, 0)];
    assert xs[..0] == [];
    assert ReactAll(Born(0, None), xs, Limits(0, None)) == React(Born(0, None), xs[0], Limits(0, None));
  }
}
