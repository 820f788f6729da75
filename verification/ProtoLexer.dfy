/**
  The tokenizer of the build script (build.rs), as a function from text to tokens and
  as the index loop it is, with a speller that writes tokens back. One character stands
  for one byte. The tokenizer looks at bytes and slices the text between them; a slice
  off a character boundary aborts the build, as it does in Rust.
 */
module ProtoLexer {
  import opened Basics
  import opened Utf8
  import opened ProtoDescriptor
  import opened ProtoParser

  const U32_LIMIT: nat := 0x1_0000_0000

  // ------------------------------------------------------------------
  // Reading a token
  // ------------------------------------------------------------------

  /** `char::is_whitespace` on a byte */
  predicate IsSpace(c: char) {
    9 as char <= c <= 13 as char || c == ' ' || c == 0x85 as char || c == 0xA0 as char
  }

  /** How many characters from the front satisfy `p`. */
  function Span(s: string, p: char -> bool): (k: nat)
    ensures k <= |s| && (k < |s| ==> !p(s[k]))
  {
    if s == "" || !p(s[0]) then 0 else 1 + Span(s[1..], p)
  }

  lemma {:induction false} SpanHolds(s: string, p: char -> bool)
    ensures forall i :: 0 <= i < Span(s, p) ==> p(s[i])
  {
    if s != "" && p(s[0]) {
      SpanHolds(s[1..], p);
      assert forall i :: 0 < i < Span(s, p) ==> s[i] == s[1..][i - 1];
    }
  }

  function DigitValue(c: char): nat
    requires IsDigit(c)
  {
    c as int - '0' as int
  }

  function Value(digits: string): nat
    requires forall i :: 0 <= i < |digits| ==> IsDigit(digits[i])
  {
    if digits == "" then 0
    else 10 * Value(digits[..|digits| - 1]) + DigitValue(digits[|digits| - 1])
  }

  /** The distance to the end of a block comment, or nothing. */
  function CommentEnd(s: string): (r: Option<nat>)
    ensures r.Some? ==> 2 <= r.value <= |s|
  {
    if |s| < 2 then None
    else if s[0] == '*' && s[1] == '/' then Some(2)
    else
      match CommentEnd(s[1..])
      case None => None
      case Some(k) => Some(k + 1)
  }

  function Punctuation(c: char): Option<Token> {
    if c == '=' then Some(Eq)
    else if c == '.' then Some(Dot)
    else if c == ';' then Some(Semicolon)
    else if c == '{' then Some(LBrace)
    else if c == '}' then Some(RBrace)
    else if c == '(' then Some(LParen)
    else if c == ')' then Some(RParen)
    else None
  }

  /** A token the tokenizer can make. */
  predicate Made(token: Token) {
    match token
    case Ident(text) => IsWord(text)
    case Num(value) => value < U32_LIMIT
    case Eof => false
    case _ => true
  }

  /** `&s[a..b]` */
  function Cut(s: string, a: nat, b: nat): Outcome<string>
    requires a <= b <= |s|
  {
    if Boundary(s, a) && Boundary(s, b) then Ok(s[a..b]) else Panic
  }

  function LexQuoted(s: string): (r: Outcome<(Option<Token>, nat)>)
    requires s != ""
    ensures r.Ok? ==> 0 < r.value.1 <= |s| && r.value.0.Some? && Made(r.value.0.value)
  {
    var quote := s[0];
    var k := Span(s[1..], c => c != quote);
    if k + 1 >= |s| then Err
    else
      var text :- Cut(s, 1, k + 1);
      Ok((Some(Quoted(text)), k + 2))
  }

  function LexNumber(s: string): (r: Outcome<(Option<Token>, nat)>)
    requires s != "" && IsDigit(s[0])
    ensures r.Ok? ==> 0 < r.value.1 <= |s| && r.value.0.Some? && Made(r.value.0.value)
  {
    var k := Span(s, IsDigit);
    SpanHolds(s, IsDigit);
    var digits :- Cut(s, 0, k);
    var value := Value(digits);
    if value >= U32_LIMIT then Err else Ok((Some(Num(value)), k))
  }

  function LexWord(s: string): (r: Outcome<(Option<Token>, nat)>)
    requires s != "" && IsWordChar(s[0]) && !IsDigit(s[0])
    ensures r.Ok? ==> 0 < r.value.1 <= |s| && r.value.0.Some? && Made(r.value.0.value)
  {
    var k := Span(s, IsWordChar);
    SpanHolds(s, IsWordChar);
    var word :- Cut(s, 0, k);
    Ok((Some(Ident(word)), k))
  }

  function LexComment(s: string): (r: Outcome<(Option<Token>, nat)>)
    requires |s| > 1
    ensures r.Ok? ==> 0 < r.value.1 <= |s| && r.value.0.None?
  {
    var rest :- Cut(s, 2, |s|);
    match CommentEnd(rest)
    case None => Err
    case Some(k) => Ok((None, 2 + k))
  }

  /** What is at the front: a token, or space and comments, and how long it is. */
  function LexOne(s: string): (r: Outcome<(Option<Token>, nat)>)
    requires s != ""
    ensures r.Ok? ==> 0 < r.value.1 <= |s| && (r.value.0.Some? ==> Made(r.value.0.value))
  {
    var c := s[0];
    if IsSpace(c) then Ok((None, 1))
    else if |s| > 1 && c == '/' && s[1] == '/' then Ok((None, Span(s, c => c != '\n')))
    else if |s| > 1 && c == '/' && s[1] == '*' then LexComment(s)
    else if Punctuation(c).Some? then Ok((Punctuation(c), 1))
    else if c == '\"' || c == '\'' then LexQuoted(s)
    else if IsDigit(c) then LexNumber(s)
    else if IsWordChar(c) then LexWord(s)
    else Err
  }

  function Prepend(tokens: seq<Token>, rest: Outcome<seq<Token>>): Outcome<seq<Token>> {
    match rest
    case Ok(more) => Ok(tokens + more)
    case _ => rest
  }

  function Listed(token: Option<Token>): seq<Token> {
    if token.Some? then [token.value] else []
  }

  /** What the parser may count on: an end marker at the end, and made tokens before it. */
  ghost predicate Lexed(tokens: seq<Token>) {
    tokens != [] && tokens[|tokens| - 1] == Eof && forall i :: 0 <= i < |tokens| - 1 ==> Made(tokens[i])
  }

  lemma LexedIsLive(tokens: seq<Token>)
    requires Lexed(tokens)
    ensures Live(tokens) && Words(tokens)
  {
  }

  /** `tokenize` */
  function Lex(s: string): (r: Outcome<seq<Token>>)
    ensures r.Ok? ==> Lexed(r.value)
    decreases |s|
  {
    if s == "" then Ok([Eof])
    else
      var (token, n) :- LexOne(s);
      Prepend(Listed(token), Lex(s[n..]))
  }

  // ------------------------------------------------------------------
  // No slice off a boundary
  // ------------------------------------------------------------------

  /** What reading one token of well-formed text may do: no abort, and well-formed text is left. */
  ghost predicate TokenSafe(s: string, r: Outcome<(Option<Token>, nat)>) {
    !r.Panic? && (r.Ok? ==> r.value.1 <= |s| && WellFormed(s[r.value.1..]))
  }

  lemma {:induction false} CommentEnds(s: string)
    ensures CommentEnd(s).Some? ==> s[CommentEnd(s).value - 1] == '/'
  {
    if |s| >= 2 && !(s[0] == '*' && s[1] == '/') { CommentEnds(s[1..]); }
  }

  lemma QuotedSafe(s: string)
    requires s != "" && WellFormed(s) && IsAscii(s[0])
    ensures TokenSafe(s, LexQuoted(s))
  {
    var quote := s[0];
    var k := Span(s[1..], c => c != quote);
    CutBehindAscii(s, 1);
    if k + 1 < |s| {
      assert s[1..][k] == s[k + 1] == quote;
      CutBehindAscii(s, k + 2);
    }
  }

  lemma NumberSafe(s: string)
    requires s != "" && WellFormed(s) && IsDigit(s[0])
    ensures TokenSafe(s, LexNumber(s))
  {
    SpanHolds(s, IsDigit);
    CutBehindAscii(s, Span(s, IsDigit));
  }

  lemma WordSafe(s: string)
    requires s != "" && WellFormed(s) && IsWordChar(s[0]) && !IsDigit(s[0])
    ensures TokenSafe(s, LexWord(s))
  {
    SpanHolds(s, IsWordChar);
    CutBehindAscii(s, Span(s, IsWordChar));
  }

  lemma CommentSafe(s: string)
    requires |s| > 1 && WellFormed(s) && IsAscii(s[1])
    ensures TokenSafe(s, LexComment(s))
  {
    CutBehindAscii(s, 2);
    CommentLeaves(s);
  }

  lemma CommentLeaves(s: string)
    requires |s| > 1 && WellFormed(s)
    ensures LexComment(s).Ok? ==> WellFormed(s[LexComment(s).value.1..])
  {
    var rest := s[2..|s|];
    CommentEnds(rest);
    if CommentEnd(rest).Some? {
      CutBehindAscii(s, 2 + CommentEnd(rest).value);
    }
  }

  lemma LineSafe(s: string)
    requires s != "" && WellFormed(s)
    ensures WellFormed(s[Span(s, c => c != '\n')..])
  {
    CutAtHead(s, Span(s, c => c != '\n'));
  }

  /**
    One token of well-formed text. Every slice starts and ends on a character
    boundary, and so does the next token; the bytes 0x85 and 0xA0, which read as
    spaces, are never met because they only occur inside characters.
   */
  lemma OneTokenIsSafe(s: string)
    requires s != "" && WellFormed(s)
    ensures TokenSafe(s, LexOne(s))
    ensures IsSpace(s[0]) ==> IsAscii(s[0])
  {
    StartsClean(s);
    var c := s[0];
    if IsSpace(c) || Punctuation(c).Some? {
      CutBehindAscii(s, 1);
    }
    if c == '/' { LineSafe(s); }
    if |s| > 1 && c == '/' && s[1] == '*' {
      CommentSafe(s);
    } else if c == '\"' || c == '\'' {
      QuotedSafe(s);
    } else if IsDigit(c) {
      NumberSafe(s);
    } else if IsWordChar(c) {
      WordSafe(s);
    }
  }

  /** No well-formed text aborts the tokenizer. */
  lemma {:induction false} TokenizerIsSafe(s: string)
    requires WellFormed(s)
    ensures !Lex(s).Panic?
    decreases |s|
  {
    if s != "" {
      OneTokenIsSafe(s);
      if LexOne(s).Ok? {
        TokenizerIsSafe(s[LexOne(s).value.1..]);
      }
    }
  }

  /** A tail byte behind a quote: the slice that would abort, on bytes that no `str` holds. */
  lemma SliceCanAbort()
    ensures Lex(['\"', 0x80 as char, '\"']).Panic? && !WellFormed(['\"', 0x80 as char, '\"'])
  {
    var s := ['\"', 0x80 as char, '\"'];
    var quote := '\"';
    assert s[1..][1..] == [quote];
    assert Span(s[1..][1..], c => c != quote) == 0;
    assert Span(s[1..], c => c != quote) == 1;
    assert LexOne(s) == Panic;
    assert CharLen(s) == 1 && CharLen(s[1..]) == 0;
  }

  // ------------------------------------------------------------------
  // The loop
  // ------------------------------------------------------------------

  /** The inner loops: advance while `p` holds. */
  method Scan(text: string, start: nat, p: char -> bool) returns (end: nat)
    requires start <= |text|
    ensures end == start + Span(text[start..], p)
  {
    end := start;
    while end < |text| && p(text[end])
      invariant start <= end <= |text|
      invariant end + Span(text[end..], p) == start + Span(text[start..], p)
    {
      assert text[end..][1..] == text[end + 1..];
      end := end + 1;
    }
  }

  method FindCommentEnd(text: string, start: nat) returns (end: Option<nat>)
    requires start <= |text|
    ensures end == match CommentEnd(text[start..]) { case None => None case Some(k) => Some(start + k) }
  {
    var i := start;
    while i + 2 <= |text|
      invariant start <= i <= |text|
      invariant CommentEnd(text[start..]) ==
        match CommentEnd(text[i..]) { case None => None case Some(k) => Some(i - start + k) }
    {
      if text[i] == '*' && text[i + 1] == '/' { return Some(i + 2); }
      assert text[i..][1..] == text[i + 1..];
      i := i + 1;
    }
    return None;
  }

  /** The same step, with the position counted from the start of the text. */
  function From(r: Outcome<(Option<Token>, nat)>, i: nat): Outcome<(Option<Token>, nat)> {
    match r
    case Ok((token, n)) => Ok((token, i + n))
    case Err => Err
    case Panic => Panic
  }

  lemma CutShifts(text: string, i: nat, a: nat, b: nat)
    requires i <= a <= b <= |text|
    ensures Cut(text, a, b) == Cut(text[i..], a - i, b - i)
  {
    assert text[i..][a - i..b - i] == text[a..b];
  }

  method QuotedAt(text: string, i: nat) returns (r: Outcome<(Option<Token>, nat)>)
    requires i < |text|
    ensures r == From(LexQuoted(text[i..]), i)
  {
    ghost var s := text[i..];
    assert s[1..] == text[i + 1..];
    var quote := text[i];
    var end := Scan(text, i + 1, c => c != quote);
    if end >= |text| { return Err; }
    CutShifts(text, i, i + 1, end);
    var quoted :- Cut(text, i + 1, end);
    return Ok((Some(Quoted(quoted)), end + 1));
  }

  method NumberAt(text: string, i: nat) returns (r: Outcome<(Option<Token>, nat)>)
    requires i < |text| && IsDigit(text[i])
    ensures r == From(LexNumber(text[i..]), i)
  {
    var end := Scan(text, i, IsDigit);
    CutShifts(text, i, i, end);
    SpanHolds(text[i..], IsDigit);
    var digits :- Cut(text, i, end);
    var value := Value(digits);
    if value >= U32_LIMIT { return Err; }
    return Ok((Some(Num(value)), end));
  }

  method WordAt(text: string, i: nat) returns (r: Outcome<(Option<Token>, nat)>)
    requires i < |text| && IsWordChar(text[i]) && !IsDigit(text[i])
    ensures r == From(LexWord(text[i..]), i)
  {
    var end := Scan(text, i, IsWordChar);
    CutShifts(text, i, i, end);
    var word :- Cut(text, i, end);
    return Ok((Some(Ident(word)), end));
  }

  method CommentAt(text: string, i: nat) returns (r: Outcome<(Option<Token>, nat)>)
    requires i + 1 < |text|
    ensures r == From(LexComment(text[i..]), i)
  {
    CutShifts(text, i, i + 2, |text|);
    var _ :- Cut(text, i + 2, |text|);
    assert text[i..][2..] == text[i + 2..] && text[i..][2..|text| - i] == text[i + 2..];
    var end := FindCommentEnd(text, i + 2);
    if end.None? { return Err; }
    return Ok((None, end.value));
  }

  /** One round of the loop: the token at `i`, if any, and where to go on. */
  method LexAt(text: string, i: nat) returns (r: Outcome<(Option<Token>, nat)>)
    requires i < |text|
    ensures r == From(LexOne(text[i..]), i)
  {
    ghost var s := text[i..];
    var c := text[i];
    if IsSpace(c) { return Ok((None, i + 1)); }
    if c == '/' && i + 1 < |text| && text[i + 1] == '/' {
      var end := Scan(text, i, c => c != '\n');
      return Ok((None, end));
    }
    if c == '/' && i + 1 < |text| && text[i + 1] == '*' {
      r := CommentAt(text, i);
      return;
    }
    if Punctuation(c).Some? { return Ok((Punctuation(c), i + 1)); }
    if c == '\"' || c == '\'' {
      r := QuotedAt(text, i);
    } else if IsDigit(c) {
      r := NumberAt(text, i);
    } else if IsWordChar(c) {
      r := WordAt(text, i);
    } else {
      return Err;
    }
  }

  lemma PrependTwice(a: seq<Token>, b: seq<Token>, rest: Outcome<seq<Token>>)
    ensures Prepend(a, Prepend(b, rest)) == Prepend(a + b, rest)
    ensures Prepend([], rest) == rest
  {
    if rest.Ok? {
      assert a + (b + rest.value) == a + b + rest.value;
      assert [] + rest.value == rest.value;
    }
  }

  lemma LexStep(s: string, tokens: seq<Token>)
    requires s != ""
    ensures LexOne(s).Ok? ==>
      var (token, n) := LexOne(s).value;
      Prepend(tokens, Lex(s)) == Prepend(tokens + Listed(token), Lex(s[n..]))
    ensures LexOne(s).Err? ==> Lex(s) == Err
    ensures LexOne(s).Panic? ==> Lex(s) == Panic
  {
    if LexOne(s).Ok? {
      var (token, n) := LexOne(s).value;
      PrependTwice(tokens, Listed(token), Lex(s[n..]));
    }
  }

  /** `tokenize`, as it runs */
  method Tokenize(text: string) returns (r: Outcome<seq<Token>>)
    ensures r == Lex(text)
  {
    var tokens: seq<Token> := [];
    var i := 0;
    assert text[0..] == text;
    PrependTwice([], [], Lex(text));
    while i < |text|
      invariant 0 <= i <= |text|
      invariant Lex(text) == Prepend(tokens, Lex(text[i..]))
      decreases |text| - i
    {
      LexStep(text[i..], tokens);
      var step :- LexAt(text, i);
      assert text[i..][step.1 - i..] == text[step.1..];
      tokens := tokens + Listed(step.0);
      i := step.1;
    }
    return Ok(tokens + [Eof]);
  }

  // ------------------------------------------------------------------
  // Spelling tokens
  // ------------------------------------------------------------------

  function Digits(n: nat): (s: string)
    ensures s != "" && forall i :: 0 <= i < |s| ==> IsDigit(s[i])
  {
    var last := [('0' as int + n % 10) as char];
    if n < 10 then last else Digits(n / 10) + last
  }

  lemma {:induction false} DigitsValue(n: nat)
    ensures Value(Digits(n)) == n
  {
    var s := Digits(n);
    var last := [('0' as int + n % 10) as char];
    if n < 10 {
      assert s[..0] == "";
    } else {
      DigitsValue(n / 10);
      assert s[..|s| - 1] == Digits(n / 10) && s[|s| - 1] == last[0];
    }
  }

  /** A token that can be written down. */
  predicate Spellable(token: Token) {
    Made(token) && (token.Quoted? ==> '\"' !in token.text && WellFormed(token.text))
  }

  function Spell(token: Token): string {
    match token
    case Ident(text) => text
    case Eq => "="
    case Dot => "."
    case Semicolon => ";"
    case LBrace => "{"
    case RBrace => "}"
    case LParen => "("
    case RParen => ")"
    case Quoted(text) => "\"" + text + "\""
    case Num(value) => Digits(value)
    case Eof => ""
  }

  function Join(spell: Token -> string, tokens: seq<Token>): string {
    if tokens == [] then "" else spell(tokens[0]) + (" " + Join(spell, tokens[1..]))
  }

  function SpellAll(tokens: seq<Token>): string {
    Join(Spell, tokens)
  }

  lemma {:induction false} SpanStops(a: string, x: string, p: char -> bool)
    requires (forall i :: 0 <= i < |a| ==> p(a[i])) && (x != "" ==> !p(x[0]))
    ensures Span(a + x, p) == |a| && (a + x)[..|a|] == a
    decreases a
  {
    if a == "" {
      assert a + x == x;
    } else {
      SpanStops(a[1..], x, p);
      assert (a + x)[1..] == a[1..] + x;
    }
  }

  lemma WordSpells(text: string, x: string)
    requires IsWord(text)
    ensures LexOne(text + (" " + x)) == Ok((Some(Ident(text)), |text|))
  {
    var s := text + (" " + x);
    assert s[0] == text[0];
    SpanStops(text, " " + x, IsWordChar);
    assert LexOne(s) == LexWord(s);
  }

  lemma NumberSpells(value: nat, x: string)
    requires value < U32_LIMIT
    ensures LexOne(Digits(value) + (" " + x)) == Ok((Some(Num(value)), |Digits(value)|))
  {
    var text := Digits(value);
    var s := text + (" " + x);
    assert s[0] == text[0];
    SpanStops(text, " " + x, IsDigit);
    DigitsValue(value);
    assert LexOne(s) == LexNumber(s);
  }

  /** Where the parts of a quoted text are. */
  ghost predicate QuotedAround(s: string, text: string) {
    |s| > |text| + 1 && s[0] == '\"' && s[|text| + 1] == '\"' && s[1..|text| + 1] == text
  }

  lemma QuotedLayout(text: string, x: string)
    ensures QuotedAround("\"" + text + "\"" + (" " + x), text)
  {
  }

  lemma QuotedSpells(text: string, x: string)
    requires '\"' !in text && Boundary(text, 0)
    ensures LexOne("\"" + text + "\"" + (" " + x)) == Ok((Some(Quoted(text)), |text| + 2))
  {
    QuotedLayout(text, x);
    QuotedReads("\"" + text + "\"" + (" " + x), text);
  }

  lemma QuotedReads(s: string, text: string)
    requires QuotedAround(s, text) && '\"' !in text && Boundary(text, 0)
    ensures LexOne(s) == Ok((Some(Quoted(text)), |text| + 2))
  {
    QuotedCut(s, text);
    QuotedSpan(s, text);
    assert LexOne(s) == LexQuoted(s);
  }

  lemma QuotedSpan(s: string, text: string)
    requires QuotedAround(s, text) && '\"' !in text
    ensures var quote := s[0]; Span(s[1..], c => c != quote) == |text|
  {
    var quote := s[0];
    var rest := s[|text| + 1..];
    assert s[1..] == text + rest;
    SpanStops(text, rest, c => c != quote);
  }

  lemma QuotedCut(s: string, text: string)
    requires QuotedAround(s, text) && Boundary(text, 0)
    ensures Cut(s, 1, |text| + 1) == Ok(text)
  {
    assert text != "" ==> s[1] == text[0];
  }

  lemma TokenSpells(token: Token, x: string)
    requires Spellable(token)
    ensures LexOne(Spell(token) + (" " + x)) == Ok((Some(token), |Spell(token)|))
  {
    var s := Spell(token) + (" " + x);
    assert Spell(token) != "" ==> s[0] == Spell(token)[0];
    match token
    case Ident(text) => WordSpells(text, x);
    case Num(value) => NumberSpells(value, x);
    case Quoted(text) => StartsClean(text); QuotedSpells(text, x);
    case _ =>
  }

  lemma SpaceSkipped(x: string)
    ensures Lex(" " + x) == Lex(x)
  {
    var s := " " + x;
    assert s[0] == ' ' && s[1..] == x;
    assert LexOne(s) == Ok((None, 1));
    PrependTwice([], [], Lex(x));
  }

  lemma SpellStep(token: Token, x: string)
    requires Spellable(token)
    ensures Lex(Spell(token) + (" " + x)) == Prepend([token], Lex(x))
  {
    var s := Spell(token) + (" " + x);
    TokenSpells(token, x);
    assert s != "";
    assert s[|Spell(token)|..] == " " + x;
    SpaceSkipped(x);
  }

  lemma TokenWellFormed(token: Token)
    requires Spellable(token)
    ensures WellFormed(Spell(token))
  {
    if token.Quoted? {
      AsciiWellFormed("\"");
      JoinWellFormed("\"", token.text);
      JoinWellFormed("\"" + token.text, "\"");
    } else {
      AsciiWellFormed(Spell(token));
    }
  }

  lemma {:induction false} SpellingIsWellFormed(tokens: seq<Token>)
    requires forall i :: 0 <= i < |tokens| ==> Spellable(tokens[i])
    ensures WellFormed(SpellAll(tokens))
  {
    if tokens != [] {
      TokenWellFormed(tokens[0]);
      SpellingIsWellFormed(tokens[1..]);
      AsciiWellFormed(" ");
      JoinWellFormed(" ", SpellAll(tokens[1..]));
      JoinWellFormed(Spell(tokens[0]), " " + SpellAll(tokens[1..]));
    }
  }

  /** A reader that takes one token off the front of any text takes a list of them. */
  lemma {:induction false} ReadsList(
    lex: string -> Outcome<seq<Token>>, spell: Token -> string, ok: Token -> bool, tokens: seq<Token>)
    requires lex("") == Ok([Eof])
    requires forall t, x :: ok(t) ==> lex(spell(t) + (" " + x)) == Prepend([t], lex(x))
    requires forall i :: 0 <= i < |tokens| ==> ok(tokens[i])
    ensures lex(Join(spell, tokens)) == Ok(tokens + [Eof])
  {
    if tokens == [] {
      assert tokens + [Eof] == [Eof];
    } else {
      ReadsList(lex, spell, ok, tokens[1..]);
      assert [tokens[0]] + (tokens[1..] + [Eof]) == tokens + [Eof];
    }
  }

  /** Tokens that are written down are read back. */
  lemma SpellingIsRead(tokens: seq<Token>)
    requires forall i :: 0 <= i < |tokens| ==> Spellable(tokens[i])
    ensures Lex(SpellAll(tokens)) == Ok(tokens + [Eof])
  {
    forall t, x | Spellable(t) ensures Lex(Spell(t) + (" " + x)) == Prepend([t], Lex(x)) {
      SpellStep(t, x);
    }
    ReadsList(Lex, Spell, Spellable, tokens);
  }

  // ------------------------------------------------------------------
  // From text to a file
  // ------------------------------------------------------------------

  /** The three bytes of a byte order mark. */
  const BOM: string := [0xEF as char, 0xBB as char, 0xBF as char]

  function StripBom(text: string): string {
    if |text| >= 3 && text[..3] == BOM then text[3..] else text
  }

  /** `parse_proto` */
  function ParseText(text: string): (r: Outcome<ProtoFile>)
    ensures r.Ok? ==> Lawful(r.value) && AllReferHere(r.value) && WordFile(r.value)
  {
    var tokens :- Lex(StripBom(text));
    LexedIsLive(tokens);
    Parse(tokens)
  }

  lemma StripKeepsWellFormed(text: string)
    requires WellFormed(text)
    ensures WellFormed(StripBom(text))
  {
    if |text| >= 3 && text[..3] == BOM {
      assert text[0] == BOM[0] && text[1] == BOM[1] && text[2] == BOM[2];
      assert CharLen(text) == 3;
    }
  }

  /** No text aborts the build: neither a slice off a boundary nor a token past the end. */
  lemma NoTextAborts(text: string)
    requires WellFormed(text)
    ensures !ParseText(text).Panic?
  {
    StripKeepsWellFormed(text);
    TokenizerIsSafe(StripBom(text));
    if Lex(StripBom(text)).Ok? {
      LexedIsLive(Lex(StripBom(text)).value);
    }
  }
}
