/**
  `multipart/form-data` bodies (src/courierust_client/multipart.rs): the encoder with
  its refusals, and a decoder that reads the wire format of section 5.1 of RFC 2046
  back. One character stands for one byte.
 */
module Multipart {
  import opened Basics

  datatype Part = Part(name: string, filename: Option<string>, contentType: Option<string>, body: string)

  datatype Error = BadBoundary | NoName | BadParameter | HoldsBoundary

  datatype Result = Ok(bytes: string) | Err(error: Error)

  const DASHES: string := "--"
  const CRLF: string := "\r\n"
  const BLANK: string := "\r\n\r\n"
  const END: string := "--\r\n"
  const NAME: string := "\r\nContent-Disposition: form-data; name=\""
  const FILENAME: string := "; filename=\""
  const TYPE: string := "\r\nContent-Type: "

  // ------------------------------------------------------------------
  // What is refused
  // ------------------------------------------------------------------

  predicate IsBchar(c: char) {
    '0' <= c <= '9' || 'a' <= c <= 'z' || 'A' <= c <= 'Z' || c in "'()+_,-./:=?"
  }

  /** `is_bchars` */
  predicate IsBchars(boundary: string) {
    1 <= |boundary| <= 70 && forall i :: 0 <= i < |boundary| ==> IsBchar(boundary[i])
  }

  /** `check_parameter` */
  predicate IsParameter(value: string) {
    forall i :: 0 <= i < |value| ==> value[i] != '\r' && value[i] != '\n' && value[i] != '\0'
  }

  predicate At(haystack: string, needle: string, k: nat) {
    k + |needle| <= |haystack| && haystack[k..k + |needle|] == needle
  }

  ghost predicate Holds(haystack: string, needle: string) {
    exists k: nat :: At(haystack, needle, k)
  }

  function Delimiter(boundary: string): string {
    CRLF + DASHES + boundary
  }

  /** The refusals of one part, in the order they are looked for. */
  ghost function Refusal(boundary: string, part: Part): Option<Error> {
    if part.name == "" then Some(NoName)
    else if !IsParameter(part.name) then Some(BadParameter)
    else if part.filename.Some? && !IsParameter(part.filename.value) then Some(BadParameter)
    else if part.contentType.Some? && !IsParameter(part.contentType.value) then Some(BadParameter)
    else if Holds(part.body, Delimiter(boundary)) then Some(HoldsBoundary)
    else None
  }

  ghost predicate Accepted(boundary: string, parts: seq<Part>) {
    IsBchars(boundary) && forall i :: 0 <= i < |parts| ==> Refusal(boundary, parts[i]).None?
  }

  // ------------------------------------------------------------------
  // The wire format
  // ------------------------------------------------------------------

  function EffectiveType(part: Part): string {
    match part.contentType
    case Some(contentType) => contentType
    case None => if part.filename.Some? then "application/octet-stream" else "text/plain"
  }

  function FileField(part: Part): string {
    if part.filename.Some? then FILENAME + part.filename.value + "\"" else ""
  }

  function Head(part: Part): string {
    NAME + part.name + "\"" + FileField(part) + TYPE + EffectiveType(part) + BLANK
  }

  function EncodePart(boundary: string, part: Part): string {
    DASHES + boundary + Head(part) + part.body + CRLF
  }

  function Encoded(boundary: string, parts: seq<Part>): string {
    if parts == [] then DASHES + boundary + END
    else EncodePart(boundary, parts[0]) + Encoded(boundary, parts[1..])
  }

  /** `contains` */
  method Contains(haystack: string, needle: string) returns (found: bool)
    requires needle != ""
    ensures found <==> Holds(haystack, needle)
  {
    var k := 0;
    while k + |needle| <= |haystack|
      invariant 0 <= k
      invariant forall j: nat :: j < k ==> !At(haystack, needle, j)
    {
      if haystack[k..k + |needle|] == needle {
        assert At(haystack, needle, k);
        return true;
      }
      k := k + 1;
    }
    return false;
  }

  /** The checks on one part of `encode`. */
  method Check(boundary: string, part: Part) returns (refusal: Option<Error>)
    ensures refusal == Refusal(boundary, part)
  {
    if part.name == "" { return Some(NoName); }
    if !IsParameter(part.name) { return Some(BadParameter); }
    if part.filename.Some? && !IsParameter(part.filename.value) { return Some(BadParameter); }
    if part.contentType.Some? && !IsParameter(part.contentType.value) { return Some(BadParameter); }
    var inside := Contains(part.body, Delimiter(boundary));
    if inside { return Some(HoldsBoundary); }
    return None;
  }

  lemma OneMorePart(boundary: string, parts: seq<Part>, i: nat, out: string)
    requires i < |parts|
    ensures out + Encoded(boundary, parts[i..])
         == out + EncodePart(boundary, parts[i]) + Encoded(boundary, parts[i + 1..])
  {
    assert parts[i..][1..] == parts[i + 1..];
    var a, b := EncodePart(boundary, parts[i]), Encoded(boundary, parts[i + 1..]);
    assert out + (a + b) == out + a + b;
  }

  lemma OneMoreAccepted(boundary: string, parts: seq<Part>, i: nat)
    requires i < |parts| && Accepted(boundary, parts[..i]) && Refusal(boundary, parts[i]).None?
    ensures Accepted(boundary, parts[..i + 1])
  {
    assert parts[..i + 1] == parts[..i] + [parts[i]];
  }

  lemma NothingLeft(boundary: string, parts: seq<Part>)
    ensures Encoded(boundary, parts[|parts|..]) == DASHES + boundary + END
    ensures parts[..|parts|] == parts && parts[0..] == parts
  {
  }

  /** `encode`: the whole body, or the first refusal. */
  method Encode(boundary: string, parts: seq<Part>) returns (r: Result)
    ensures r.Ok? <==> Accepted(boundary, parts)
    ensures r.Ok? ==> r.bytes == Encoded(boundary, parts)
    ensures r.Err? ==> (r.error == BadBoundary <==> !IsBchars(boundary))
    ensures r.Err? && r.error != BadBoundary ==>
      exists i :: 0 <= i < |parts| && Accepted(boundary, parts[..i]) && Refusal(boundary, parts[i]) == Some(r.error)
  {
    if !IsBchars(boundary) { return Err(BadBoundary); }
    NothingLeft(boundary, parts);
    var out := "";
    for i := 0 to |parts|
      invariant Accepted(boundary, parts[..i])
      invariant out + Encoded(boundary, parts[i..]) == Encoded(boundary, parts)
    {
      var part := parts[i];
      var refusal := Check(boundary, part);
      if refusal.Some? { return Err(refusal.value); }
      OneMorePart(boundary, parts, i, out);
      OneMoreAccepted(boundary, parts, i);
      out := out + EncodePart(boundary, part);
    }
    out := out + (DASHES + boundary + END);
    return Ok(out);
  }

  // ------------------------------------------------------------------
  // Reading it back
  // ------------------------------------------------------------------

  /** What a reader of the wire can know of a part. */
  datatype View = View(name: string, filename: Option<string>, contentType: string, body: string)

  datatype HeadView = HeadView(name: string, filename: Option<string>, contentType: string, rest: string)

  /** The position of the first `c`, or the length. */
  function Until(s: string, c: char): (i: nat)
    ensures i <= |s| && (i < |s| ==> s[i] == c) && c !in s[..i]
  {
    if s == "" || s[0] == c then 0
    else
      var i := 1 + Until(s[1..], c);
      assert s[..i] == [s[0]] + s[1..][..i - 1];
      i
  }

  /** The position of the first occurrence of `d`, or the length. */
  function Find(s: string, d: string): (i: nat)
    ensures i <= |s|
  {
    if s == "" || StartsWith(s, d) then 0 else 1 + Find(s[1..], d)
  }

  /** Text up to a quote, and what comes after the quote. */
  function Quoted(s: string): (r: Option<(string, string)>)
    ensures r.Some? ==> '\"' !in r.value.0 && |r.value.1| < |s|
  {
    var i := Until(s, '\"');
    if i == |s| then None else Some((s[..i], s[i + 1..]))
  }

  /** A header line's value up to its carriage return, then the blank line. */
  function TypeLine(s: string): (r: Option<(string, string)>)
    ensures r.Some? ==> |r.value.1| < |s|
  {
    if !StartsWith(s, TYPE) then None
    else
      var t := s[|TYPE|..];
      var i := Until(t, '\r');
      if StartsWith(t[i..], BLANK) then Some((t[..i], t[i + |BLANK|..])) else None
  }

  /** The rest of a header block, once the name is known. */
  function AfterName(name: string, after: string): (r: Option<HeadView>)
    ensures r.Some? ==> r.value.name == name && |r.value.rest| < |after|
    ensures r.Some? && r.value.filename.Some? ==> '\"' !in r.value.filename.value
  {
    if StartsWith(after, FILENAME) then
      match Quoted(after[|FILENAME|..])
      case None => None
      case Some((filename, line)) => AfterFields(name, Some(filename), line)
    else AfterFields(name, None, after)
  }

  function AfterFields(name: string, filename: Option<string>, line: string): (r: Option<HeadView>)
    ensures r.Some? ==> r.value.name == name && r.value.filename == filename && |r.value.rest| < |line|
  {
    match TypeLine(line)
    case None => None
    case Some((contentType, rest)) => Some(HeadView(name, filename, contentType, rest))
  }

  function DecodeHead(s: string): (r: Option<HeadView>)
    ensures r.Some? ==> |r.value.rest| < |s| && Unquoted(r.value.name, r.value.filename)
  {
    if !StartsWith(s, NAME) then None
    else
      match Quoted(s[|NAME|..])
      case None => None
      case Some((name, after)) => AfterName(name, after)
  }

  predicate Unquoted(name: string, filename: Option<string>) {
    '\"' !in name && (filename.Some? ==> '\"' !in filename.value)
  }

  /** One part, from its header block to the delimiter, and what follows the delimiter's line break. */
  function DecodePart(boundary: string, s: string): (r: Option<(View, string)>)
    ensures r.Some? ==> |r.value.1| < |s| && Unquoted(r.value.0.name, r.value.0.filename)
  {
    match DecodeHead(s)
    case None => None
    case Some(head) =>
      var k := Find(head.rest, Delimiter(boundary));
      if k + 2 > |head.rest| then None
      else Some((View(head.name, head.filename, head.contentType, head.rest[..k]), head.rest[k + 2..]))
  }

  /** Parts up to the closing delimiter. A reader never sees a quote in a name. */
  function Decode(boundary: string, s: string): (r: Option<seq<View>>)
    ensures r.Some? ==> forall i :: 0 <= i < |r.value| ==> Unquoted(r.value[i].name, r.value[i].filename)
    decreases |s|
  {
    if !StartsWith(s, DASHES + boundary) then None
    else
      var t := s[|DASHES + boundary|..];
      if t == END then Some([])
      else
        match DecodePart(boundary, t)
        case None => None
        case Some((view, more)) =>
          (match Decode(boundary, more)
           case None => None
           case Some(views) => Some([view] + views))
  }

  function Seen(part: Part): View {
    View(part.name, part.filename, EffectiveType(part), part.body)
  }

  function AllSeen(parts: seq<Part>): seq<View> {
    if parts == [] then [] else [Seen(parts[0])] + AllSeen(parts[1..])
  }

  // ------------------------------------------------------------------
  // The round trip
  // ------------------------------------------------------------------

  lemma Strip(prefix: string, x: string)
    ensures StartsWith(prefix + x, prefix) && (prefix + x)[|prefix|..] == x
  {
    assert (prefix + x)[..|prefix|] == prefix;
  }

  lemma {:induction false} UntilFinds(a: string, c: char, x: string)
    requires c !in a
    ensures Until(a + [c] + x, c) == |a|
  {
    var s := a + [c] + x;
    if a == "" {
      assert s[0] == c;
    } else {
      assert s[1..] == a[1..] + [c] + x;
      UntilFinds(a[1..], c, x);
    }
  }

  lemma QuotedReads(text: string, x: string)
    requires '\"' !in text
    ensures Quoted(text + "\"" + x) == Some((text, x))
  {
    UntilFinds(text, '\"', x);
    var s := text + "\"" + x;
    assert s[..|text|] == text && s[|text| + 1..] == x;
  }

  lemma ValueReads(value: string, blank: string, x: string)
    requires '\r' !in value && blank != "" && blank[0] == '\r'
    ensures var t := value + blank + x;
      Until(t, '\r') == |value| && t[..|value|] == value &&
      StartsWith(t[|value|..], blank) && t[|value| + |blank|..] == x
  {
    var t := value + blank + x;
    assert blank == ['\r'] + blank[1..];
    assert t == value + ['\r'] + (blank[1..] + x);
    UntilFinds(value, '\r', blank[1..] + x);
    assert t[|value|..] == blank + x;
    Strip(blank, x);
  }

  lemma TypeLineReads(contentType: string, x: string)
    requires '\r' !in contentType
    ensures TypeLine(TYPE + contentType + BLANK + x) == Some((contentType, x))
  {
    ValueReads(contentType, BLANK, x);
    Strip(TYPE, contentType + BLANK + x);
    assert TYPE + contentType + BLANK + x == TYPE + (contentType + BLANK + x);
  }

  predicate QuoteFree(part: Part) {
    Unquoted(part.name, part.filename)
  }

  lemma TypeIsClean(boundary: string, part: Part)
    requires Refusal(boundary, part).None?
    ensures '\r' !in EffectiveType(part)
  {
  }

  lemma NotAFile(x: string)
    ensures !StartsWith(TYPE + x, FILENAME)
  {
    if |TYPE + x| >= |FILENAME| {
      assert (TYPE + x)[..|FILENAME|][0] == '\r';
    }
  }

  lemma FileRead(name: string, file: string, line: string)
    requires '\"' !in file
    ensures AfterName(name, FILENAME + file + "\"" + line) == AfterFields(name, Some(file), line)
  {
    FileSplits(file, line);
    Strip(FILENAME, file + "\"" + line);
    QuotedReads(file, line);
  }

  lemma PlainRead(name: string, line: string)
    ensures AfterName(name, TYPE + line) == AfterFields(name, None, TYPE + line)
  {
    NotAFile(line);
  }

  lemma FieldsRead(part: Part, x: string)
    requires QuoteFree(part) && '\r' !in EffectiveType(part)
    ensures AfterName(part.name, FileField(part) + (TYPE + EffectiveType(part) + BLANK + x))
         == Some(HeadView(part.name, part.filename, EffectiveType(part), x))
  {
    TypeLineReads(EffectiveType(part), x);
    LineSplits(EffectiveType(part), x);
    if part.filename.Some? {
      FileRead(part.name, part.filename.value, TYPE + EffectiveType(part) + BLANK + x);
    } else {
      PlainRead(part.name, EffectiveType(part) + BLANK + x);
    }
  }

  lemma LineSplits(contentType: string, x: string)
    ensures TYPE + contentType + BLANK + x == TYPE + (contentType + BLANK + x)
    ensures "" + (TYPE + contentType + BLANK + x) == TYPE + contentType + BLANK + x
  {
  }

  /** The header block of an accepted, quote-free part reads back, whatever follows it. */
  lemma HeadReads(boundary: string, part: Part, x: string)
    requires Refusal(boundary, part).None? && QuoteFree(part)
    ensures DecodeHead(Head(part) + x) == Some(HeadView(part.name, part.filename, EffectiveType(part), x))
  {
    TypeIsClean(boundary, part);
    var after := FileField(part) + (TYPE + EffectiveType(part) + BLANK + x);
    HeadSplits(part, x);
    Strip(NAME, part.name + "\"" + after);
    QuotedReads(part.name, after);
    FieldsRead(part, x);
  }

  lemma FileSplits(file: string, line: string)
    ensures FILENAME + file + "\"" + line == FILENAME + (file + "\"" + line)
  {
  }

  lemma HeadSplits(part: Part, x: string)
    ensures Head(part) + x ==
      NAME + (part.name + "\"" + (FileField(part) + (TYPE + EffectiveType(part) + BLANK + x)))
  {
    Regroup(NAME, part.name, "\"", FileField(part), TYPE, EffectiveType(part), BLANK, x);
  }

  lemma Regroup(a: string, b: string, c: string, d: string, e: string, f: string, g: string, x: string)
    ensures a + b + c + d + e + f + g + x == a + (b + c + (d + (e + f + g + x)))
  {
    var tail := e + f + g + x;
    assert a + b + c + d + e + f + g + x == a + b + c + d + tail;
    assert b + c + (d + tail) == b + c + d + tail;
  }

  lemma {:induction false} FindFirst(s: string, d: string, n: nat)
    requires n <= |s| && (n < |s| ==> StartsWith(s[n..], d))
    requires forall k :: 0 <= k < n ==> !StartsWith(s[k..], d)
    ensures Find(s, d) == n
    decreases n
  {
    assert s[0..] == s;
    if n > 0 {
      assert s[1..][n - 1..] == s[n..];
      forall k | 0 <= k < n - 1 ensures !StartsWith(s[1..][k..], d) {
        assert s[1..][k..] == s[k + 1..];
      }
      FindFirst(s[1..], d, n - 1);
    }
  }

  /** The delimiter cannot overlap itself, because only its first byte is a carriage return. */
  lemma NoEarlierStart(body: string, d: string, x: string, k: nat)
    requires d != "" && d[0] == '\r' && forall i :: 1 <= i < |d| ==> d[i] != '\r'
    requires !Holds(body, d) && k < |body|
    ensures !StartsWith((body + d + x)[k..], d)
  {
    var s := body + d + x;
    assert !At(body, d, k);
    if k + |d| <= |body| {
      assert s[k..][..|d|] == body[k..k + |d|];
    } else if k + |d| <= |s| {
      assert s[k..][..|d|][|body| - k] == s[|body|] == '\r';
    }
  }

  lemma DelimiterShape(boundary: string)
    requires IsBchars(boundary)
    ensures var d := Delimiter(boundary);
      d != "" && d[0] == '\r' && forall i :: 1 <= i < |d| ==> d[i] != '\r'
  {
    var d := Delimiter(boundary);
    assert forall i :: 4 <= i < |d| ==> d[i] == boundary[i - 4];
  }

  lemma BodyEnds(boundary: string, body: string, x: string)
    requires IsBchars(boundary) && !Holds(body, Delimiter(boundary))
    ensures Find(body + Delimiter(boundary) + x, Delimiter(boundary)) == |body|
  {
    var d := Delimiter(boundary);
    var s := body + d + x;
    DelimiterShape(boundary);
    assert s[|body|..] == d + x;
    Strip(d, x);
    forall k | 0 <= k < |body| ensures !StartsWith(s[k..], d) {
      NoEarlierStart(body, d, x, k);
    }
    FindFirst(s, d, |body|);
  }

  /** What follows a body always begins with the delimiter's own dashes. */
  lemma {:induction false} StartsWithDashes(boundary: string, parts: seq<Part>) returns (x: string)
    ensures Encoded(boundary, parts) == DASHES + boundary + x
    ensures parts == [] ==> x == END
    ensures parts != [] ==> x == Head(parts[0]) + (parts[0].body + CRLF + Encoded(boundary, parts[1..]))
  {
    if parts == [] {
      x := END;
    } else {
      var h, b, more := Head(parts[0]), parts[0].body, Encoded(boundary, parts[1..]);
      x := h + (b + CRLF + more);
      Flatten(DASHES + boundary, h, b, CRLF, more);
    }
  }

  lemma Flatten(a: string, h: string, b: string, c: string, more: string)
    ensures a + h + b + c + more == a + (h + (b + c + more))
  {
    assert h + (b + c + more) == h + b + c + more;
  }

  lemma HeadIsNotEnd(part: Part, x: string)
    ensures Head(part) + x != END
  {
    HeadSplits(part, x);
    assert (Head(part) + x)[0] == '\r';
  }

  lemma JoinDelimiter(body: string, boundary: string, x: string)
    ensures body + CRLF + (DASHES + boundary + x) == body + Delimiter(boundary) + x
  {
    assert body + CRLF + (DASHES + boundary + x) == body + (CRLF + DASHES + boundary) + x;
  }

  ghost predicate AllQuoteFree(parts: seq<Part>) {
    forall i :: 0 <= i < |parts| ==> QuoteFree(parts[i])
  }

  lemma PartFromHead(boundary: string, s: string, head: HeadView, body: string, more: string)
    requires DecodeHead(s) == Some(head) && head.rest == body + CRLF + more
    requires Find(head.rest, Delimiter(boundary)) == |body|
    ensures DecodePart(boundary, s) == Some((View(head.name, head.filename, head.contentType, body), more))
  {
    assert head.rest[..|body|] == body && head.rest[|body| + 2..] == more;
  }

  lemma PartReads(boundary: string, part: Part, x: string)
    requires IsBchars(boundary) && Refusal(boundary, part).None? && QuoteFree(part)
    ensures var more := DASHES + boundary + x;
      DecodePart(boundary, Head(part) + (part.body + CRLF + more)) == Some((Seen(part), more))
  {
    var more := DASHES + boundary + x;
    var rest := part.body + CRLF + more;
    HeadReads(boundary, part, rest);
    JoinDelimiter(part.body, boundary, x);
    BodyEnds(boundary, part.body, x);
    PartFromHead(boundary, Head(part) + rest,
                 HeadView(part.name, part.filename, EffectiveType(part), rest), part.body, more);
  }

  lemma DecodeStep(boundary: string, part: Part, more: string, x: string)
    requires IsBchars(boundary) && Refusal(boundary, part).None? && QuoteFree(part)
    requires more == DASHES + boundary + x
    ensures var s := DASHES + boundary + (Head(part) + (part.body + CRLF + more));
      Decode(boundary, s) ==
        match Decode(boundary, more)
        case None => None
        case Some(views) => Some([Seen(part)] + views)
  {
    var t := Head(part) + (part.body + CRLF + more);
    Strip(DASHES + boundary, t);
    HeadIsNotEnd(part, part.body + CRLF + more);
    PartReads(boundary, part, x);
  }

  /** Every accepted form whose names and filenames hold no quote is read back part by part. */
  lemma {:induction false} FormRoundTrip(boundary: string, parts: seq<Part>)
    requires Accepted(boundary, parts) && AllQuoteFree(parts)
    ensures Decode(boundary, Encoded(boundary, parts)) == Some(AllSeen(parts))
  {
    var x := StartsWithDashes(boundary, parts);
    if parts == [] {
      Strip(DASHES + boundary, END);
    } else {
      var y := StartsWithDashes(boundary, parts[1..]);
      DecodeStep(boundary, parts[0], Encoded(boundary, parts[1..]), y);
      FormRoundTrip(boundary, parts[1..]);
    }
  }

  // ------------------------------------------------------------------
  // Quotes
  // ------------------------------------------------------------------

  lemma {:induction false} SeenAt(parts: seq<Part>, i: nat)
    requires i < |parts|
    ensures |AllSeen(parts)| == |parts| && AllSeen(parts)[i] == Seen(parts[i])
  {
    if |parts| > 1 { SeenAt(parts[1..], if i == 0 then 0 else i - 1); }
  }

  /** The exact condition: an accepted form is read back if and only if it holds no quote. */
  lemma ReadBackExactly(boundary: string, parts: seq<Part>)
    requires Accepted(boundary, parts)
    ensures Decode(boundary, Encoded(boundary, parts)) == Some(AllSeen(parts)) <==> AllQuoteFree(parts)
  {
    if AllQuoteFree(parts) {
      FormRoundTrip(boundary, parts);
    } else {
      var i :| 0 <= i < |parts| && !QuoteFree(parts[i]);
      SeenAt(parts, i);
    }
  }

  /** Two forms with no quote in them that encode alike are seen alike. */
  lemma EncodingIsInjective(boundary: string, a: seq<Part>, b: seq<Part>)
    requires Accepted(boundary, a) && AllQuoteFree(a) && Accepted(boundary, b) && AllQuoteFree(b)
    requires Encoded(boundary, a) == Encoded(boundary, b)
    ensures AllSeen(a) == AllSeen(b)
  {
    FormRoundTrip(boundary, a);
    FormRoundTrip(boundary, b);
  }

  /** A field whose name holds quotes is the same bytes as a file upload. */
  lemma QuotesForge(boundary: string, body: string)
    ensures var field := Part("a\"; filename=\"b", None, Some("text/plain"), body);
      var file := Part("a", Some("b"), Some("text/plain"), body);
      field != file && Seen(field) != Seen(file) && Encoded(boundary, [field]) == Encoded(boundary, [file])
  {
    var field := Part("a\"; filename=\"b", None, Some("text/plain"), body);
    var file := Part("a", Some("b"), Some("text/plain"), body);
    assert field.name == "a" + "\"" + FILENAME + "b";
    SameHead(NAME, "a", "\"", FILENAME, "b");
    assert field.name + "\"" + FileField(field) == file.name + "\"" + FileField(file);
    assert NAME + field.name + "\"" + FileField(field) == NAME + file.name + "\"" + FileField(file);
    assert Head(field) == Head(file);
    assert [field][1..] == [] && [file][1..] == [];
  }

  lemma SameHead(a: string, b: string, q: string, f: string, c: string)
    ensures a + (b + q + f + c) + q + "" == a + b + q + (f + c + q)
  {
  }

  // ------------------------------------------------------------------
  // Readers that look for the delimiter first
  // ------------------------------------------------------------------

  lemma {:induction false} SkipClean(a: string, s: string, d: string)
    requires d != "" && d[0] !in a
    ensures Find(a + s, d) == |a| + Find(s, d)
    decreases a
  {
    if a == "" {
      assert a + s == s;
    } else {
      assert (a + s)[0] == a[0] && a[0] in a;
      assert !StartsWith(a + s, d) by {
        if |a + s| >= |d| { assert (a + s)[..|d|][0] == a[0]; }
      }
      assert (a + s)[1..] == a[1..] + s;
      SkipClean(a[1..], s, d);
    }
  }

  /** A line break that is not followed by a dash is passed over, and the text after it too. */
  lemma SkipLine(tag: string, text: string, s: string, d: string)
    requires |d| >= 3 && d[0] == '\r' && d[2] == '-'
    requires |tag| >= 3 && tag[0] == '\r' && tag[2] != '-' && '\r' !in tag[1..] && '\r' !in text
    ensures Find(tag + text + s, d) == |tag| + |text| + Find(s, d)
  {
    var whole := tag + text + s;
    assert !StartsWith(whole, d) by {
      if |whole| >= |d| { assert whole[..|d|][2] == tag[2]; }
    }
    assert whole[1..] == tag[1..] + text + s;
    assert tag[1..] + text + s == (tag[1..] + text) + s;
    SkipClean(tag[1..] + text, s, d);
  }

  lemma FindSkips(c: char, s: string, d: string)
    requires !StartsWith([c] + s, d)
    ensures Find([c] + s, d) == 1 + Find(s, d)
  {
    assert ([c] + s)[1..] == s;
  }

  lemma NotHere(s: string, d: string, k: nat)
    requires k < |s| && k < |d| && s[k] != d[k]
    ensures !StartsWith(s, d)
  {
    if |s| >= |d| { assert s[..|d|][k] == s[k]; }
  }

  /** At the blank line, the delimiter begins exactly when the body begins with the dashes and the boundary. */
  lemma BlankScan(boundary: string, y: string)
    ensures Find(BLANK + y, Delimiter(boundary)) ==
      if StartsWith(y, DASHES + boundary) then 2 else |BLANK| + Find(y, Delimiter(boundary))
  {
    var d := Delimiter(boundary);
    var u := CRLF + y;
    assert BLANK + y == ['\r'] + (['\n'] + u) && u == ['\r'] + (['\n'] + y);
    NotHere(['\r'] + (['\n'] + u), d, 2);
    FindSkips('\r', ['\n'] + u, d);
    NotHere(['\n'] + u, d, 0);
    FindSkips('\n', u, d);
    BreakScan(boundary, y);
    if !StartsWith(y, DASHES + boundary) {
      FindSkips('\r', ['\n'] + y, d);
      NotHere(['\n'] + y, d, 0);
      FindSkips('\n', y, d);
    }
  }

  lemma BreakScan(boundary: string, y: string)
    ensures StartsWith(CRLF + y, Delimiter(boundary)) <==> StartsWith(y, DASHES + boundary)
  {
    var u, d, tail := CRLF + y, Delimiter(boundary), DASHES + boundary;
    assert d == CRLF + tail;
    if |y| >= |tail| {
      assert u[..|d|] == CRLF + y[..|tail|];
      assert u[..|d|][2..] == y[..|tail|] && d[2..] == tail;
    }
  }

  predicate IsTag(tag: string) {
    |tag| >= 3 && tag[0] == '\r' && tag[2] != '-' && '\r' !in tag[1..]
  }

  lemma TwoLines(a: string, x: string, b: string, y: string, s: string, d: string)
    requires |d| >= 3 && d[0] == '\r' && d[2] == '-'
    requires IsTag(a) && IsTag(b) && '\r' !in x && '\r' !in y
    ensures Find(a + x + (b + y + s), d) == |a| + |x| + |b| + |y| + Find(s, d)
  {
    SkipLine(a, x, b + y + s, d);
    SkipLine(b, y, s, d);
  }

  lemma HeadScan(boundary: string, part: Part, y: string)
    requires Refusal(boundary, part).None?
    ensures Find(Head(part) + y, Delimiter(boundary)) ==
      |Head(part)| - |BLANK| + Find(BLANK + y, Delimiter(boundary))
  {
    FieldsAreClean(boundary, part);
    HeadLines(part, y);
    Tags();
    LinesScan(Head(part) + y, NAME, part.name + "\"" + FileField(part), TYPE, EffectiveType(part), BLANK + y, boundary);
  }

  lemma Tags()
    ensures IsTag(NAME) && IsTag(TYPE)
  {
    NameTag();
    TypeTag();
  }

  lemma TypeTag()
    ensures IsTag(TYPE)
  {
    var rest := "\nContent-Type: ";
    assert forall i :: 0 <= i < |rest| ==> rest[i] != '\r';
    assert TYPE[1..] == rest;
  }

  lemma NameTag()
    ensures IsTag(NAME)
  {
    var rest := "\nContent-Disposition: form-data; name=\"";
    assert forall i :: 0 <= i < |rest| ==> rest[i] != '\r';
    assert NAME[1..] == rest;
  }

  lemma LinesScan(whole: string, a: string, x: string, b: string, y: string, s: string, boundary: string)
    requires IsTag(a) && IsTag(b) && '\r' !in x && '\r' !in y
    requires whole == a + x + (b + y + s)
    ensures Find(whole, Delimiter(boundary)) == |a| + |x| + |b| + |y| + Find(s, Delimiter(boundary))
  {
    TwoLines(a, x, b, y, s, Delimiter(boundary));
  }

  lemma FieldsAreClean(boundary: string, part: Part)
    requires Refusal(boundary, part).None?
    ensures '\r' !in part.name + "\"" + FileField(part) && '\r' !in EffectiveType(part)
  {
    TypeIsClean(boundary, part);
    if part.filename.Some? { assert '\r' !in part.filename.value; }
  }

  lemma HeadLines(part: Part, y: string)
    ensures var fields := part.name + "\"" + FileField(part);
      Head(part) + y == NAME + fields + (TYPE + EffectiveType(part) + (BLANK + y)) &&
      |Head(part)| == |NAME| + |fields| + |TYPE| + |EffectiveType(part)| + |BLANK|
  {
    Lines(NAME, part.name, "\"", FileField(part), TYPE, EffectiveType(part), BLANK, y);
  }

  lemma Lines(a: string, b: string, c: string, d: string, e: string, f: string, g: string, y: string)
    ensures a + b + c + d + e + f + g + y == a + (b + c + d) + (e + f + (g + y))
  {
    var fields, line := b + c + d, e + f + (g + y);
    assert a + b + c + d == a + fields;
    assert a + fields + e + f + g + y == a + fields + line;
  }

  /**
    A reader that looks for the delimiter before it reads the header block finds the end of
    every accepted part, except one whose body begins with the dashes and the boundary: there it
    stops inside the blank line.
   */
  lemma ScanFirstExactly(boundary: string, part: Part, x: string)
    requires IsBchars(boundary) && Refusal(boundary, part).None?
    ensures var d := Delimiter(boundary);
      Find(Head(part) + (part.body + d + x), d) == |Head(part)| + |part.body|
      <==> !StartsWith(part.body, DASHES + boundary)
  {
    var d := Delimiter(boundary);
    var y := part.body + d + x;
    HeadScan(boundary, part, y);
    BlankScan(boundary, y);
    BodyEnds(boundary, part.body, x);
    BodyStart(boundary, part.body, x);
  }

  /** An accepted part on which such a reader stops too early: its body is the dashes and the boundary. */
  lemma ScanFirstIsMisled(boundary: string, x: string)
    requires IsBchars(boundary)
    ensures var part := Part("a", None, None, DASHES + boundary);
      var d := Delimiter(boundary);
      Refusal(boundary, part).None? && Find(Head(part) + (part.body + d + x), d) != |Head(part)| + |part.body|
  {
    var part := Part("a", None, None, DASHES + boundary);
    assert |part.body| < |Delimiter(boundary)|;
    ScanFirstExactly(boundary, part, x);
  }

  lemma BodyStart(boundary: string, body: string, x: string)
    requires IsBchars(boundary)
    ensures StartsWith(body + Delimiter(boundary) + x, DASHES + boundary) <==> StartsWith(body, DASHES + boundary)
  {
    var p := DASHES + boundary;
    var y := body + Delimiter(boundary) + x;
    if |body| >= |p| {
      assert y[..|p|] == body[..|p|];
    } else {
      assert y[|body|] == '\r' && y[..|p|][|body|] == '\r';
      assert forall i :: 2 <= i < |p| ==> p[i] == boundary[i - 2];
    }
  }
}
