/**
  Dot-segment removal for redirect targets (`remove_dot_segments`,
  `merge_paths`, src/courierust_client/mod.rs) against the buffer-rewriting
  algorithm of section 5.2.4 of RFC 3986.
 */
module DotSegments {
  import opened Basics

  // ------------------------------------------------------------------
  // Paths and segments
  // ------------------------------------------------------------------

  /** The position of the first slash, or the length. */
  function FirstSlash(s: string): (i: nat)
    ensures i <= |s|
  {
    if s == "" || s[0] == '/' then 0 else 1 + FirstSlash(s[1..])
  }

  /** `Vec::join("/")` */
  function Join(segs: seq<string>): string {
    if segs == [] then "" else if |segs| == 1 then segs[0] else segs[0] + "/" + Join(segs[1..])
  }

  /** Every segment with its slash in front. */
  function Path(segs: seq<string>): string {
    if segs == [] then "" else "/" + segs[0] + Path(segs[1..])
  }

  predicate Rooted(s: string) {
    s != "" && s[0] == '/'
  }

  predicate EndsWithSlash(s: string) {
    s != "" && s[|s| - 1] == '/'
  }

  predicate IsDot(seg: string) {
    seg == "." || seg == ".."
  }

  ghost predicate SlashFree(seg: string) {
    forall k :: 0 <= k < |seg| ==> seg[k] != '/'
  }

  ghost predicate AllSlashFree(segs: seq<string>) {
    forall i :: 0 <= i < |segs| ==> SlashFree(segs[i])
  }

  /** The segments of a rooted path: everything after the empty one before the root slash. */
  function Segments(path: string): (r: seq<string>)
  {
    Split(path, '/')[1..]
  }

  // ------------------------------------------------------------------
  // The code: a stack of segments
  // ------------------------------------------------------------------

  function Push(stack: seq<string>, seg: string): seq<string> {
    if seg == "." then stack
    else if seg == ".." then if stack == [] then [] else stack[..|stack| - 1]
    else stack + [seg]
  }

  function Stack(stack: seq<string>, segs: seq<string>): seq<string>
    decreases segs
  {
    if segs == [] then stack else Stack(Push(stack, segs[0]), segs[1..])
  }

  predicate DirectoryShaped(path: string) {
    EndsWith(path, "/") || EndsWith(path, "/.") || EndsWith(path, "/..")
  }

  function Finish(out: seq<string>, shaped: bool): string {
    var result := "/" + Join(out);
    if shaped && !EndsWithSlash(result) then result + "/" else result
  }

  function Removed(path: string): string {
    var segs := if Rooted(path) then Segments(path) else Split(path, '/');
    Finish(Stack([], segs), DirectoryShaped(path))
  }

  /** `remove_dot_segments` */
  method RemoveDotSegments(path: string) returns (result: string)
    ensures result == Removed(path)
  {
    var segments := Split(path, '/');
    if path != "" && path[0] == '/' {
      segments := segments[1..];
    }
    var out: seq<string> := [];
    for i := 0 to |segments|
      invariant Stack(out, segments[i..]) == Stack([], segments)
    {
      var segment := segments[i];
      assert segments[i..][1..] == segments[i + 1..];
      if segment == "." {
      } else if segment == ".." {
        if out != [] {
          out := out[..|out| - 1];
        }
      } else {
        out := out + [segment];
      }
    }
    result := "/" + Join(out);
    if DirectoryShaped(path) && result[|result| - 1] != '/' {
      result := result + "/";
    }
  }

  /** `merge_paths` */
  function MergePaths(base: string, reference: string): string {
    var i := LastSlash(base);
    if i < |base| then base[..i + 1] + reference else "/" + reference
  }

  // ------------------------------------------------------------------
  // The standard: rewriting an input buffer into an output buffer
  // ------------------------------------------------------------------

  /** Remove the last segment and its preceding slash, if any. */
  function DropLast(output: string): string {
    var i := LastSlash(output);
    if i < |output| then output[..i] else ""
  }

  /** The length of the first segment, with its initial slash if there is one. */
  function FirstSegment(input: string): (n: nat)
    requires input != ""
    ensures 0 < n <= |input|
  {
    1 + FirstSlash(input[1..])
  }

  /** Steps A to E of section 5.2.4. */
  function Rfc(input: string, output: string): string
    decreases |input|
  {
    if input == "" then output
    else if StartsWith(input, "../") then Rfc(input[3..], output)
    else if StartsWith(input, "./") then Rfc(input[2..], output)
    else if StartsWith(input, "/./") then Rfc(input[2..], output)
    else if input == "/." then Rfc("/", output)
    else if StartsWith(input, "/../") then Rfc(input[3..], DropLast(output))
    else if input == "/.." then Rfc("/", DropLast(output))
    else if input == "." || input == ".." then output
    else
      var n := FirstSegment(input);
      Rfc(input[n..], output + input[..n])
  }

  // ------------------------------------------------------------------
  // Splitting and joining
  // ------------------------------------------------------------------

  lemma {:induction false} SplitIsSlashFree(s: string)
    ensures AllSlashFree(Split(s, '/'))
  {
    if s != "" { SplitIsSlashFree(s[1..]); }
  }

  lemma {:induction false} SplitGlues(s: string)
    ensures s == Split(s, '/')[0] + Path(Split(s, '/')[1..])
  {
    if s == "" {
      assert Path([]) == "";
    } else {
      var rest := Split(s[1..], '/');
      SplitGlues(s[1..]);
      assert s == [s[0]] + (rest[0] + Path(rest[1..]));
      if s[0] == '/' {
        assert ([""] + rest)[1..] == rest;
        assert Path(rest) == "/" + (rest[0] + Path(rest[1..]));
        assert "" + Path(rest) == Path(rest);
      } else {
        assert ([[s[0]] + rest[0]] + rest[1..])[1..] == rest[1..];
      }
    }
  }

  lemma {:induction false} SlashAt(seg: string, tail: string)
    requires SlashFree(seg) && (tail == "" || tail[0] == '/')
    ensures FirstSlash(seg + tail) == |seg|
    decreases |seg|
  {
    if seg == "" {
      assert seg + tail == tail;
    } else {
      SlashAt(seg[1..], tail);
      assert (seg + tail)[1..] == seg[1..] + tail;
    }
  }

  lemma {:induction false} SplitPath(seg: string, rest: seq<string>)
    requires SlashFree(seg) && AllSlashFree(rest)
    ensures Split(seg + Path(rest), '/') == [seg] + rest
    decreases |rest|, |seg|
  {
    var s := seg + Path(rest);
    if seg != "" {
      SplitPath(seg[1..], rest);
      assert s[1..] == seg[1..] + Path(rest);
      assert ([seg[1..]] + rest)[1..] == rest;
      assert [seg[0]] + seg[1..] == seg;
    } else if rest != [] {
      SplitPath(rest[0], rest[1..]);
      assert s[1..] == rest[0] + Path(rest[1..]);
      assert [rest[0]] + rest[1..] == rest;
    }
  }

  lemma RootedIsPath(path: string)
    requires Rooted(path)
    ensures Segments(path) != [] && path == Path(Segments(path)) && AllSlashFree(Segments(path))
  {
    SplitGlues(path);
    SplitIsSlashFree(path);
    assert "" + Path(Segments(path)) == Path(Segments(path));
  }

  lemma SegmentsOfPath(segs: seq<string>)
    requires segs != [] && AllSlashFree(segs)
    ensures Rooted(Path(segs)) && Segments(Path(segs)) == segs
  {
    SplitPath("", segs);
    assert "" + Path(segs) == Path(segs);
  }

  lemma {:induction false} PathConcat(a: seq<string>, b: seq<string>)
    ensures Path(a + b) == Path(a) + Path(b)
  {
    if a == [] {
      assert a + b == b;
    } else {
      PathConcat(a[1..], b);
      assert (a + b)[1..] == a[1..] + b;
    }
  }

  lemma {:induction false} JoinIsPath(segs: seq<string>)
    requires segs != []
    ensures "/" + Join(segs) == Path(segs)
  {
    if |segs| == 1 {
      assert segs[1..] == [];
    } else {
      JoinIsPath(segs[1..]);
    }
  }

  lemma PathSnoc(segs: seq<string>, seg: string)
    ensures Path(segs + [seg]) == Path(segs) + "/" + seg
  {
    PathConcat(segs, [seg]);
    assert [seg][1..] == [];
    assert Path([seg]) == "/" + seg;
  }

  lemma {:induction false} LastSlashOf(head: string, last: string)
    requires SlashFree(last)
    ensures LastSlash(head + "/" + last) == |head|
    decreases |last|
  {
    var p := head + "/" + last;
    if last == "" {
      assert p[|p| - 1] == '/';
    } else {
      var n := |last| - 1;
      assert p[..|p| - 1] == head + "/" + last[..n];
      assert p[|p| - 1] == last[n];
      LastSlashOf(head, last[..n]);
    }
  }

  lemma SuffixIsLast(head: string, last: string, x: string)
    requires SlashFree(last) && SlashFree(x)
    ensures EndsWith(head + "/" + last, "/" + x) <==> last == x
  {
    var p := head + "/" + last;
    LastSlashOf(head, last);
    assert p[|head| + 1..] == last;
    if EndsWith(p, "/" + x) {
      var at := |p| - |"/" + x|;
      assert p == p[..at] + ("/" + x) == p[..at] + "/" + x;
      LastSlashOf(p[..at], x);
      assert p[at + 1..] == x;
    }
    if last == x {
      assert p[|head|..] == "/" + x;
    }
  }

  /** What a path ends with is what its last segment is. */
  lemma PathEnds(segs: seq<string>, x: string)
    requires segs != [] && AllSlashFree(segs) && SlashFree(x)
    ensures EndsWith(Path(segs), "/" + x) <==> segs[|segs| - 1] == x
  {
    var n := |segs| - 1;
    PathSnoc(segs[..n], segs[n]);
    assert segs == segs[..n] + [segs[n]];
    SuffixIsLast(Path(segs[..n]), segs[n], x);
  }

  lemma PathEndsInSlash(segs: seq<string>)
    requires segs != [] && AllSlashFree(segs)
    ensures EndsWithSlash(Path(segs)) <==> segs[|segs| - 1] == ""
  {
    PathEnds(segs, "");
    assert "/" + "" == "/";
    var p := Path(segs);
    assert p[|p| - 1..] == [p[|p| - 1]];
  }

  // ------------------------------------------------------------------
  // The standard works on segments
  // ------------------------------------------------------------------

  /** Whether a rewriting rule for the segment `x` applies is decided by the first segment. */
  lemma RuleApplies(seg: string, tail: string, x: string)
    requires SlashFree(seg) && SlashFree(x) && (tail == "" || tail[0] == '/')
    ensures StartsWith("/" + seg + tail, "/" + x + "/") <==> seg == x && tail != ""
    ensures "/" + seg + tail == "/" + x <==> seg == x && tail == ""
  {
    var s := "/" + seg + tail;
    assert s[1..] == seg + tail;
    SlashAt(seg, tail);
    if StartsWith(s, "/" + x + "/") {
      var rest := s[|x| + 2..];
      assert s == "/" + x + "/" + rest;
      assert s[1..] == x + ("/" + rest);
      SlashAt(x, "/" + rest);
      assert seg == s[1..][..|x|] == x;
    }
    if s == "/" + x {
      assert s[1..] == x == x + "";
      SlashAt(x, "");
      assert seg == s[1..][..|x|] == x;
    }
    if seg == x && tail == "" {
      assert s == "/" + x;
    }
  }

  lemma DropLastSegment(stack: seq<string>)
    requires AllSlashFree(stack)
    ensures DropLast(Path(stack)) == Path(Push(stack, ".."))
  {
    if stack != [] {
      var n := |stack| - 1;
      assert stack == stack[..n] + [stack[n]];
      PathSnoc(stack[..n], stack[n]);
      LastSlashOf(Path(stack[..n]), stack[n]);
    }
  }

  /** The rewriting of section 5.2.4 is a stack machine with one extra push at the end. */
  function Expected(stack: seq<string>, segs: seq<string>): seq<string>
    requires segs != []
  {
    Stack(stack, segs) + if IsDot(segs[|segs| - 1]) then [""] else []
  }

  lemma LoneSlash(output: string)
    ensures Rfc("/", output) == output + "/"
  {
    assert FirstSegment("/") == 1;
    assert "/"[1..] == "" && "/"[..1] == "/";
    assert Rfc("", output + "/") == output + "/";
  }

  /** The rewriting rules, with the first segment of the input made visible. */
  lemma RfcRules(seg: string, tail: string, output: string)
    requires SlashFree(seg) && (tail == "" || tail[0] == '/')
    ensures seg == "." && tail != "" ==> Rfc("/" + seg + tail, output) == Rfc(tail, output)
    ensures seg == ".." && tail != "" ==> Rfc("/" + seg + tail, output) == Rfc(tail, DropLast(output))
    ensures seg == "." && tail == "" ==> Rfc("/" + seg + tail, output) == Rfc("/", output)
    ensures seg == ".." && tail == "" ==> Rfc("/" + seg + tail, output) == Rfc("/", DropLast(output))
    ensures !IsDot(seg) ==> Rfc("/" + seg + tail, output) == Rfc(tail, output + ("/" + seg))
  {
    var input := "/" + seg + tail;
    RootedStart(input);
    DotRules(seg, tail);
    if !IsDot(seg) {
      OtherRule(seg, tail, output);
    } else if tail != "" {
      assert seg == "." ==> input[2..] == tail;
      assert seg == ".." ==> input[3..] == tail;
    }
  }

  lemma DotRules(seg: string, tail: string)
    requires SlashFree(seg) && (tail == "" || tail[0] == '/')
    ensures var input := "/" + seg + tail;
      (StartsWith(input, "/./") <==> seg == "." && tail != "") &&
      (input == "/." <==> seg == "." && tail == "") &&
      (StartsWith(input, "/../") <==> seg == ".." && tail != "") &&
      (input == "/.." <==> seg == ".." && tail == "")
  {
    RuleApplies(seg, tail, ".");
    RuleApplies(seg, tail, "..");
    assert "/" + "." + "/" == "/./" && "/" + ".." + "/" == "/../";
    assert "/" + "." == "/." && "/" + ".." == "/..";
  }

  lemma RootedStart(input: string)
    requires Rooted(input)
    ensures !StartsWith(input, "../") && !StartsWith(input, "./") && input != "." && input != ".."
  {
    if |input| >= 3 { assert input[..3][0] == '/'; }
    if |input| >= 2 { assert input[..2][0] == '/'; }
  }

  lemma OtherRule(seg: string, tail: string, output: string)
    requires SlashFree(seg) && (tail == "" || tail[0] == '/') && !IsDot(seg)
    ensures Rfc("/" + seg + tail, output) == Rfc(tail, output + ("/" + seg))
  {
    var input := "/" + seg + tail;
    RootedStart(input);
    DotRules(seg, tail);
    SlashAt(seg, tail);
    assert input[1..] == seg + tail;
    var n := FirstSegment(input);
    assert input[n..] == tail && input[..n] == "/" + seg;
  }

  lemma PathCons(seg: string, rest: seq<string>)
    ensures Path([seg] + rest) == "/" + seg + Path(rest)
  {
    assert ([seg] + rest)[1..] == rest;
  }

  /** One rewriting step on a path whose first segment is `seg`. */
  lemma RfcStep(seg: string, rest: seq<string>, stack: seq<string>)
    requires SlashFree(seg) && AllSlashFree(rest) && AllSlashFree(stack)
    requires rest != []
    ensures Rfc(Path([seg] + rest), Path(stack)) == Rfc(Path(rest), Path(Push(stack, seg)))
  {
    PathCons(seg, rest);
    RfcRules(seg, Path(rest), Path(stack));
    if seg == ".." {
      DropLastSegment(stack);
    } else if seg != "." {
      PathSnoc(stack, seg);
      assert Path(stack) + "/" + seg == Path(stack) + ("/" + seg);
    }
  }

  lemma RfcLastDot(seg: string, stack: seq<string>)
    requires IsDot(seg) && AllSlashFree(stack)
    ensures Rfc("/" + seg + "", Path(stack)) == Path(Push(stack, seg) + [""])
  {
    var left := Push(stack, seg);
    RfcRules(seg, "", Path(stack));
    DropLastSegment(stack);
    LoneSlash(Path(left));
    PathSnoc(left, "");
    assert Path(left) + "/" + "" == Path(left) + "/";
  }

  lemma RfcLastOther(seg: string, stack: seq<string>)
    requires SlashFree(seg) && !IsDot(seg)
    ensures Rfc("/" + seg + "", Path(stack)) == Path(stack + [seg])
  {
    RfcRules(seg, "", Path(stack));
    PathSnoc(stack, seg);
    assert Path(stack) + "/" + seg == Path(stack) + ("/" + seg);
  }

  lemma RfcLast(seg: string, stack: seq<string>)
    requires SlashFree(seg) && AllSlashFree(stack)
    ensures Rfc(Path([seg]), Path(stack)) == Path(Expected(stack, [seg]))
  {
    PathCons(seg, []);
    assert [seg] + [] == [seg] && [seg][1..] == [];
    assert Stack(stack, [seg]) == Push(stack, seg);
    if IsDot(seg) {
      RfcLastDot(seg, stack);
    } else {
      RfcLastOther(seg, stack);
      assert stack + [seg] + [] == stack + [seg];
    }
  }

  lemma PushKeeps(stack: seq<string>, seg: string)
    requires AllSlashFree(stack) && SlashFree(seg)
    ensures AllSlashFree(Push(stack, seg))
  {
  }

  lemma {:induction false} RfcIsStack(segs: seq<string>, stack: seq<string>)
    requires segs != [] && AllSlashFree(segs) && AllSlashFree(stack)
    ensures Rfc(Path(segs), Path(stack)) == Path(Expected(stack, segs))
    decreases segs
  {
    var rest := segs[1..];
    assert segs == [segs[0]] + rest;
    if rest == [] {
      RfcLast(segs[0], stack);
    } else {
      RfcStep(segs[0], rest, stack);
      PushKeeps(stack, segs[0]);
      RfcIsStack(rest, Push(stack, segs[0]));
    }
  }

  // ------------------------------------------------------------------
  // What the stack holds
  // ------------------------------------------------------------------

  ghost predicate NoDots(segs: seq<string>) {
    forall i :: 0 <= i < |segs| ==> !IsDot(segs[i])
  }

  lemma {:induction false} StackIsClean(stack: seq<string>, segs: seq<string>)
    requires AllSlashFree(stack) && AllSlashFree(segs) && NoDots(stack)
    ensures AllSlashFree(Stack(stack, segs)) && NoDots(Stack(stack, segs))
    decreases segs
  {
    if segs != [] {
      StackIsClean(Push(stack, segs[0]), segs[1..]);
    }
  }

  lemma {:induction false} CleanStays(stack: seq<string>, segs: seq<string>)
    requires NoDots(segs)
    ensures Stack(stack, segs) == stack + segs
    decreases segs
  {
    if segs == [] {
      assert stack + segs == stack;
    } else {
      CleanStays(stack + [segs[0]], segs[1..]);
      assert stack + [segs[0]] + segs[1..] == stack + segs;
    }
  }

  lemma {:induction false} StackSnoc(stack: seq<string>, segs: seq<string>, seg: string)
    ensures Stack(stack, segs + [seg]) == Push(Stack(stack, segs), seg)
    decreases segs
  {
    if segs == [] {
      assert segs + [seg] == [seg];
      assert [seg][1..] == [];
    } else {
      StackSnoc(Push(stack, segs[0]), segs[1..], seg);
      assert (segs + [seg])[1..] == segs[1..] + [seg];
    }
  }

  /**
    Reading a path from its end: is the segment that survives, once `skip`
    more have been cancelled by `..`, an empty one?
   */
  predicate EmptySurvivor(segs: seq<string>, skip: nat)
    decreases |segs|
  {
    segs != [] &&
    var last, rest := segs[|segs| - 1], segs[..|segs| - 1];
    if last == "." then EmptySurvivor(rest, skip)
    else if last == ".." then EmptySurvivor(rest, skip + 1)
    else if skip > 0 then EmptySurvivor(rest, skip - 1)
    else last == ""
  }

  predicate EmptyAt(stack: seq<string>, skip: nat) {
    |stack| > skip && stack[|stack| - 1 - skip] == ""
  }

  lemma PopShifts(stack: seq<string>, skip: nat)
    ensures EmptyAt(Push(stack, ".."), skip) <==> EmptyAt(stack, skip + 1)
  {
  }

  lemma PushShifts(stack: seq<string>, seg: string, skip: nat)
    requires !IsDot(seg)
    ensures EmptyAt(Push(stack, seg), skip) <==> if skip > 0 then EmptyAt(stack, skip - 1) else seg == ""
  {
  }

  lemma {:induction false} SurvivorIsOnTop(segs: seq<string>, skip: nat)
    ensures EmptySurvivor(segs, skip) <==> EmptyAt(Stack([], segs), skip)
    decreases |segs|
  {
    if segs != [] {
      var last, rest := segs[|segs| - 1], segs[..|segs| - 1];
      assert segs == rest + [last];
      StackSnoc([], rest, last);
      if last == "." {
        SurvivorIsOnTop(rest, skip);
      } else if last == ".." {
        SurvivorIsOnTop(rest, skip + 1);
        PopShifts(Stack([], rest), skip);
      } else {
        if skip > 0 { SurvivorIsOnTop(rest, skip - 1); }
        PushShifts(Stack([], rest), last, skip);
      }
    }
  }

  // ------------------------------------------------------------------
  // The theorems
  // ------------------------------------------------------------------

  lemma ShapedByLast(path: string)
    requires Rooted(path)
    ensures Segments(path) != []
    ensures var last := Segments(path)[|Segments(path)| - 1]; DirectoryShaped(path) <==> last == "" || IsDot(last)
  {
    RootedIsPath(path);
    var segs := Segments(path);
    PathEnds(segs, "");
    PathEnds(segs, ".");
    PathEnds(segs, "..");
    assert "/" + "" == "/" && "/" + "." == "/." && "/" + ".." == "/..";
  }

  /** What the code makes of the stack it is left with. */
  function Written(out: seq<string>, dotLast: bool): string {
    if out == [] then "/"
    else if dotLast && out[|out| - 1] != "" then Path(out + [""])
    else Path(out)
  }

  lemma FinishIsWritten(out: seq<string>, last: string)
    requires AllSlashFree(out)
    requires !IsDot(last) ==> out != [] && out[|out| - 1] == last
    ensures Finish(out, last == "" || IsDot(last)) == Written(out, IsDot(last))
  {
    if out == [] {
      assert "/" + "" == "/";
    } else {
      JoinIsPath(out);
      PathEndsInSlash(out);
      PathSnoc(out, "");
      assert Path(out) + "/" + "" == Path(out) + "/";
    }
  }

  lemma LastIsPushed(segs: seq<string>)
    requires segs != [] && !IsDot(segs[|segs| - 1])
    ensures var out := Stack([], segs); out != [] && out[|out| - 1] == segs[|segs| - 1]
  {
    var n := |segs| - 1;
    assert segs == segs[..n] + [segs[n]];
    StackSnoc([], segs[..n], segs[n]);
  }

  /** The output of the code on a rooted path, segment by segment. */
  lemma RemovedShape(path: string)
    requires Rooted(path)
    ensures var segs := Segments(path);
      var out := Stack([], segs);
      segs != [] && AllSlashFree(out) && NoDots(out) &&
      Removed(path) == Written(out, IsDot(segs[|segs| - 1]))
  {
    RootedIsPath(path);
    var segs := Segments(path);
    var last := segs[|segs| - 1];
    StackIsClean([], segs);
    ShapedByLast(path);
    if !IsDot(last) { LastIsPushed(segs); }
    FinishIsWritten(Stack([], segs), last);
  }

  /** The standard's output on a rooted path. */
  lemma RfcShape(path: string)
    requires Rooted(path)
    ensures var segs := Segments(path);
      segs != [] && Rfc(path, "") == Path(Expected([], segs))
  {
    RootedIsPath(path);
    RfcIsStack(Segments(path), []);
  }

  /** The paths on which the code drops an empty segment: a final dot segment after an empty survivor. */
  predicate CollapsesEmpty(path: string) {
    var segs := Segments(path);
    segs != [] && IsDot(segs[|segs| - 1]) && EmptySurvivor(segs, 0)
  }

  /**
    The code follows section 5.2.4 exactly on the rooted paths that do not end in a
    dot segment behind an empty survivor; on the others it is one slash short.
   */
  lemma AgreesWithTheStandard(path: string)
    requires Rooted(path)
    ensures Removed(path) == Rfc(path, "") <==> !CollapsesEmpty(path)
    ensures CollapsesEmpty(path) ==> Removed(path) + "/" == Rfc(path, "")
  {
    RemovedShape(path);
    RfcShape(path);
    var segs := Segments(path);
    SurvivorIsOnTop(segs, 0);
    var dotLast := IsDot(segs[|segs| - 1]);
    if !dotLast { LastIsPushed(segs); }
    WrittenVersusExpected(Stack([], segs), dotLast);
  }

  lemma WrittenVersusExpected(out: seq<string>, dotLast: bool)
    requires !dotLast ==> out != []
    ensures var expected := Path(out + if dotLast then [""] else []);
      if dotLast && EmptyAt(out, 0) then Written(out, dotLast) + "/" == expected
      else Written(out, dotLast) == expected
  {
    PathSnoc(out, "");
    assert Path(out) + "/" + "" == Path(out) + "/";
    assert out + [] == out;
    if out == [] {
      assert Path(out) == "" && "" + "/" == "/";
    }
  }

  lemma StackOfExample()
    ensures Stack([], ["a", "", "."]) == ["a", ""]
    ensures Path(["a", "", "."]) == "/a//." && Path(["a", ""]) == "/a/"
  {
    StackSnoc([], ["a", ""], ".");
    CleanStays([], ["a", ""]);
    assert ["a", ""] + ["."] == ["a", "", "."];
    PathSnoc([], "a");
    assert [] + ["a"] == ["a"] && ["a"] + [""] == ["a", ""];
    PathSnoc(["a"], "");
    PathSnoc(["a", ""], ".");
  }

  /** `/a//.` names the directory `/a//`, and the code asks for `/a/`. */
  lemma EmptySegmentIsLost()
    ensures Removed("/a//.") == "/a/" && Rfc("/a//.", "") == "/a//"
  {
    StackOfExample();
    var segs := ["a", "", "."];
    assert AllSlashFree(segs);
    SegmentsOfPath(segs);
    RemovedShape("/a//.");
    RfcShape("/a//.");
    PathSnoc(["a", ""], "");
  }

  /** The result is a rooted path without dot segments, whatever the rooted input. */
  lemma NoDotSegmentIsLeft(path: string)
    requires Rooted(path)
    ensures Rooted(Removed(path)) && NoDots(Segments(Removed(path)))
  {
    RemovedShape(path);
    var segs := Segments(path);
    var out := Stack([], segs);
    if out == [] {
      assert [""][1..] == [];
      assert Path([""]) == "/";
      SegmentsOfPath([""]);
    } else if IsDot(segs[|segs| - 1]) && out[|out| - 1] != "" {
      SegmentsOfPath(out + [""]);
    } else {
      SegmentsOfPath(out);
    }
  }

  /** A path without dot segments is left alone, so removal is idempotent. */
  lemma CleanPathIsKept(path: string)
    requires Rooted(path) && NoDots(Segments(path))
    ensures Removed(path) == path
  {
    RemovedShape(path);
    RootedIsPath(path);
    CleanStays([], Segments(path));
    assert [] + Segments(path) == Segments(path);
  }

  lemma RemovalIsIdempotent(path: string)
    requires Rooted(path)
    ensures Removed(Removed(path)) == Removed(path)
  {
    NoDotSegmentIsLeft(path);
    CleanPathIsKept(Removed(path));
  }

  // ------------------------------------------------------------------
  // Resolving a reference path
  // ------------------------------------------------------------------

  /** The path a redirect asks for (`resolve_redirect`), before the query is put back. */
  function ResolvePath(base: string, reference: string): string {
    var path :=
      if reference == "" then base
      else if reference[0] == '/' then Removed(reference)
      else Removed(MergePaths(base, reference));
    if path == "" then "/" else path
  }

  lemma MergeIsRooted(base: string, reference: string)
    requires base == "" || Rooted(base)
    ensures Rooted(MergePaths(base, reference))
  {
  }

  /** A redirect with a path of its own always leads to a rooted path with no dot segment in it. */
  lemma ResolvedPathIsClean(base: string, reference: string)
    requires base == "" || Rooted(base)
    ensures Rooted(ResolvePath(base, reference))
    ensures reference != "" ==> NoDots(Segments(ResolvePath(base, reference)))
    ensures reference == "" && base != "" ==> ResolvePath(base, reference) == base
  {
    if reference != "" {
      if reference[0] == '/' {
        NoDotSegmentIsLeft(reference);
      } else {
        MergeIsRooted(base, reference);
        NoDotSegmentIsLeft(MergePaths(base, reference));
      }
    }
  }
}
