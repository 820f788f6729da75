/**
  The strict parser of the build script (build.rs), from tokens to a file.

  The functions below say what the parser makes of every token list. Removing from
  an empty list would abort the build; that is the outcome `Panic`, and part of what
  is proved is that it never comes about. Error texts are not modelled.
 */
module ProtoParser {
  import opened Basics
  import opened ProtoDescriptor

  datatype Token =
    | Ident(text: string)
    | Eq
    | Dot
    | Semicolon
    | LBrace
    | RBrace
    | LParen
    | RParen
    | Quoted(text: string)
    | Num(value: nat)
    | Eof

  datatype Outcome<T> = Ok(value: T) | Err | Panic {
    predicate IsFailure() {
      !Ok?
    }

    function PropagateFailure<U>(): Outcome<U>
      requires IsFailure()
    {
      if Err? then Err else Panic
    }

    function Extract(): T
      requires !IsFailure()
    {
      value
    }
  }

  /** A result and the tokens that are left. */
  type Step<T> = Outcome<(T, seq<Token>)>

  /** What the tokenizer hands over: one end marker, at the end. */
  ghost predicate Live(tokens: seq<Token>) {
    tokens != [] && tokens[|tokens| - 1] == Eof && forall i :: 0 <= i < |tokens| - 1 ==> tokens[i] != Eof
  }

  predicate IsWordChar(c: char) {
    c == '_' || 'a' <= c <= 'z' || 'A' <= c <= 'Z' || '0' <= c <= '9'
  }

  predicate IsDigit(c: char) {
    '0' <= c <= '9'
  }

  /** What the tokenizer takes for a name. */
  predicate IsWord(text: string) {
    text != "" && !IsDigit(text[0]) && forall i :: 0 <= i < |text| ==> IsWordChar(text[i])
  }

  ghost predicate Words(tokens: seq<Token>) {
    forall i :: 0 <= i < |tokens| && tokens[i].Ident? ==> IsWord(tokens[i].text)
  }

  ghost predicate WordField(f: FieldDef) {
    IsWord(f.name) && WordType(f.ty)
  }

  ghost predicate WordType(ty: FieldType) {
    ty.Message? || ty.RepeatedMessage? ==> IsWord(ty.name)
  }

  ghost predicate WordFields(fields: seq<FieldDef>) {
    forall i :: 0 <= i < |fields| ==> WordField(fields[i])
  }

  ghost predicate WordRpc(rpc: Rpc) {
    IsWord(rpc.name) && IsWord(rpc.request) && IsWord(rpc.response)
  }

  ghost predicate WordRpcs(rpcs: seq<Rpc>) {
    forall i :: 0 <= i < |rpcs| ==> WordRpc(rpcs[i])
  }

  ghost predicate WordMessage(m: MessageDef) {
    IsWord(m.name) && WordFields(m.fields)
  }

  ghost predicate WordService(s: Service) {
    IsWord(s.name) && WordRpcs(s.rpcs)
  }

  ghost predicate AllWords(parts: seq<string>) {
    forall i :: 0 <= i < |parts| ==> IsWord(parts[i])
  }

  ghost predicate WordPackage(package: Option<string>) {
    package.Some? ==> exists parts :: AllWords(parts) && package.value == JoinDots(parts)
  }

  /** A file whose names are all words. */
  ghost predicate WordFile(file: ProtoFile) {
    WordPackage(file.package) &&
    (forall i :: 0 <= i < |file.messages| ==> WordMessage(file.messages[i])) &&
    (forall i :: 0 <= i < |file.services| ==> WordService(file.services[i]))
  }

  /** A step that consumes something, does not panic on a live list, and leaves a live list. */
  ghost predicate Safe<T>(tokens: seq<Token>, r: Step<T>) {
    (r.Ok? ==> |r.value.1| < |tokens| && (Words(tokens) ==> Words(r.value.1))) &&
    (Live(tokens) ==> !r.Panic? && (r.Ok? ==> Live(r.value.1)))
  }

  // ------------------------------------------------------------------
  // Single tokens
  // ------------------------------------------------------------------

  /** `tokens.remove(0)` */
  function Take(tokens: seq<Token>): (r: Step<Token>)
    ensures r.Ok? ==> |r.value.1| < |tokens| && (Words(tokens) ==> Words([r.value.0]) && Words(r.value.1))
    ensures Live(tokens) ==> r.Ok? && (r.value.0 != Eof ==> Live(r.value.1))
  {
    if tokens == [] then Panic else Ok((tokens[0], tokens[1..]))
  }

  /** `expect` */
  function Expect(tokens: seq<Token>, expected: Token): (r: Step<()>)
    requires expected != Eof
    ensures Safe(tokens, r) && !r.Panic?
  {
    if tokens == [] || tokens[0] != expected then Err else Ok(((), tokens[1..]))
  }

  /** `expect_ident` */
  function ExpectIdent(tokens: seq<Token>): (r: Step<string>)
    ensures Safe(tokens, r) && (r.Ok? && Words(tokens) ==> IsWord(r.value.0))
  {
    if tokens == [] then Panic
    else match tokens[0] case Ident(text) => Ok((text, tokens[1..])) case _ => Err
  }

  /** `expect_u32` */
  function ExpectNumber(tokens: seq<Token>): (r: Step<nat>)
    ensures Safe(tokens, r)
  {
    if tokens == [] then Panic
    else match tokens[0] case Num(value) => Ok((value, tokens[1..])) case _ => Err
  }

  // ------------------------------------------------------------------
  // Messages
  // ------------------------------------------------------------------

  /** `scalar_of` */
  function ScalarOf(name: string): Option<Scalar> {
    if name == "string" then Some(StringType)
    else if name == "bytes" then Some(BytesType)
    else if name == "bool" then Some(BoolType)
    else if name == "int32" then Some(Int32Type)
    else if name == "int64" then Some(Int64Type)
    else if name == "uint32" then Some(UInt32Type)
    else if name == "uint64" then Some(UInt64Type)
    else if name == "sint32" then Some(SInt32Type)
    else if name == "sint64" then Some(SInt64Type)
    else if name == "fixed32" then Some(Fixed32Type)
    else if name == "fixed64" then Some(Fixed64Type)
    else if name == "float" then Some(FloatType)
    else if name == "double" then Some(DoubleType)
    else None
  }

  function TypeFor(name: string, repeated: bool): FieldType {
    match ScalarOf(name)
    case Some(scalar) => if repeated then Repeated(scalar) else Single(scalar)
    case None => if repeated then RepeatedMessage(name) else Message(name)
  }

  /** The types a field declaration can give: a message type has no scalar's name. */
  predicate Sayable(ty: FieldType) {
    match ty
    case Message(name) => ScalarOf(name).None? && name != "repeated"
    case RepeatedMessage(name) => ScalarOf(name).None?
    case _ => true
  }

  /** The methods a declaration can give: `stream` is a marker before it is a name. */
  predicate SayableRpc(rpc: Rpc) {
    rpc.response == "stream" ==> rpc.serverStreaming
  }

  predicate AllSayable(fields: seq<FieldDef>) {
    forall i :: 0 <= i < |fields| ==> Sayable(fields[i].ty)
  }

  predicate AllSayableRpcs(rpcs: seq<Rpc>) {
    forall i :: 0 <= i < |rpcs| ==> SayableRpc(rpcs[i])
  }

  const MAX_FIELD_NUMBER: nat := 0x2000_0000

  predicate Taken(fields: seq<FieldDef>, number: nat) {
    exists i :: 0 <= i < |fields| && fields[i].number == number
  }

  /** Whether the numbers of a message are in range and different. */
  ghost predicate NumbersOk(fields: seq<FieldDef>) {
    (forall i :: 0 <= i < |fields| ==> 0 < fields[i].number < MAX_FIELD_NUMBER) &&
    forall i, j :: 0 <= i < j < |fields| ==> fields[i].number != fields[j].number
  }

  /** `repeated` and the type it goes with, or the type itself. */
  function FieldHead(leading: string, tokens: seq<Token>): (r: Step<FieldType>)
    ensures r.Ok? ==> |r.value.1| <= |tokens| && (Words(tokens) ==> Words(r.value.1))
    ensures r.Ok? && Words(tokens) && IsWord(leading) ==> WordType(r.value.0)
    ensures r.Ok? ==> Sayable(r.value.0)
    ensures Live(tokens) ==> !r.Panic? && (r.Ok? ==> Live(r.value.1))
  {
    if leading == "repeated" then
      var (name, t1) :- ExpectIdent(tokens);
      Ok((TypeFor(name, true), t1))
    else Ok((TypeFor(leading, false), tokens))
  }

  /** A field, after its first word. */
  function ParseField(leading: string, fields: seq<FieldDef>, tokens: seq<Token>): (r: Step<FieldDef>)
    ensures Safe(tokens, r)
    ensures r.Ok? && NumbersOk(fields) ==> NumbersOk(fields + [r.value.0])
    ensures r.Ok? && Words(tokens) && IsWord(leading) ==> WordField(r.value.0)
    ensures r.Ok? ==> Sayable(r.value.0.ty)
  {
    var (ty, t1) :- FieldHead(leading, tokens);
    var (name, t2) :- ExpectIdent(t1);
    var (_, t3) :- Expect(t2, Eq);
    var (number, t4) :- ExpectNumber(t3);
    if number == 0 || number >= MAX_FIELD_NUMBER || Taken(fields, number) then Err
    else
      var (_, t5) :- Expect(t4, Semicolon);
      Ok((FieldDef(number, name, ty), t5))
  }

  /** The fields of a message, up to its closing brace. */
  function ParseFields(fields: seq<FieldDef>, tokens: seq<Token>): (r: Step<seq<FieldDef>>)
    ensures Safe(tokens, r)
    ensures r.Ok? && NumbersOk(fields) ==> NumbersOk(r.value.0)
    ensures r.Ok? && Words(tokens) && WordFields(fields) ==> WordFields(r.value.0)
    ensures r.Ok? && AllSayable(fields) ==> AllSayable(r.value.0)
    decreases |tokens|
  {
    var (token, rest) :- Take(tokens);
    match token
    case RBrace => Ok((fields, rest))
    case Ident(leading) =>
      var (field, t1) :- ParseField(leading, fields, rest);
      ParseFields(fields + [field], t1)
    case _ => Err
  }

  function ParseMessage(tokens: seq<Token>): (r: Step<MessageDef>)
    ensures Safe(tokens, r)
    ensures r.Ok? ==> LawfulMessage(r.value.0) && (Words(tokens) ==> WordMessage(r.value.0))
  {
    var (name, t1) :- ExpectIdent(tokens);
    var (_, t2) :- Expect(t1, LBrace);
    var (fields, t3) :- ParseFields([], t2);
    Ok((MessageDef(name, fields), t3))
  }

  // ------------------------------------------------------------------
  // Services
  // ------------------------------------------------------------------

  /** Whether the response is a stream. */
  function StreamMark(tokens: seq<Token>): (r: (bool, seq<Token>))
    ensures |r.1| <= |tokens| && (Live(tokens) ==> Live(r.1)) && (Words(tokens) ==> Words(r.1))
  {
    if tokens != [] && tokens[0] == Ident("stream") then (true, tokens[1..]) else (false, tokens)
  }

  /** What a method returns: a type, and whether it is a stream of them. */
  function ParseReturns(tokens: seq<Token>): (r: Step<(string, bool)>)
    ensures Safe(tokens, r)
    ensures r.Ok? ==> (r.value.0.0 == "stream" ==> r.value.0.1) && (Words(tokens) ==> IsWord(r.value.0.0))
  {
    var (streaming, t7) := StreamMark(tokens);
    var (response, t8) :- ExpectIdent(t7);
    var (_, t9) :- Expect(t8, RParen);
    var (_, t10) :- Expect(t9, Semicolon);
    Ok(((response, streaming), t10))
  }

  /** What a method takes. */
  function ParseRequest(tokens: seq<Token>): (r: Step<string>)
    ensures Safe(tokens, r)
    ensures r.Ok? && Words(tokens) ==> IsWord(r.value.0)
  {
    var (_, t2) :- Expect(tokens, LParen);
    var (request, t3) :- ExpectIdent(t2);
    var (_, t4) :- Expect(t3, RParen);
    Ok((request, t4))
  }

  /** A method, after the word `rpc`. */
  function ParseRpc(tokens: seq<Token>): (r: Step<Rpc>)
    ensures Safe(tokens, r)
    ensures r.Ok? && Words(tokens) ==> WordRpc(r.value.0)
    ensures r.Ok? ==> SayableRpc(r.value.0)
  {
    var (name, t1) :- ExpectIdent(tokens);
    var (request, t4) :- ParseRequest(t1);
    var (_, t5) :- Expect(t4, Ident("returns"));
    var (_, t6) :- Expect(t5, LParen);
    var (kind, t10) :- ParseReturns(t6);
    Ok((Rpc(name, request, kind.0, kind.1), t10))
  }

  function ParseRpcs(rpcs: seq<Rpc>, tokens: seq<Token>): (r: Step<seq<Rpc>>)
    ensures Safe(tokens, r)
    ensures r.Ok? && Words(tokens) && WordRpcs(rpcs) ==> WordRpcs(r.value.0)
    ensures r.Ok? && AllSayableRpcs(rpcs) ==> AllSayableRpcs(r.value.0)
    decreases |tokens|
  {
    var (token, rest) :- Take(tokens);
    if token == RBrace then Ok((rpcs, rest))
    else if token == Ident("rpc") then
      var (rpc, t1) :- ParseRpc(rest);
      ParseRpcs(rpcs + [rpc], t1)
    else Err
  }

  function ParseService(tokens: seq<Token>): (r: Step<Service>)
    ensures Safe(tokens, r)
    ensures r.Ok? && Words(tokens) ==> WordService(r.value.0)
    ensures r.Ok? ==> LawfulService(r.value.0)
  {
    var (name, t1) :- ExpectIdent(tokens);
    var (_, t2) :- Expect(t1, LBrace);
    var (rpcs, t3) :- ParseRpcs([], t2);
    Ok((Service(name, rpcs), t3))
  }

  // ------------------------------------------------------------------
  // The rest of a file
  // ------------------------------------------------------------------

  function ParseSyntax(tokens: seq<Token>): (r: Step<()>)
    ensures Safe(tokens, r)
  {
    var (_, t1) :- Expect(tokens, Eq);
    var (_, t2) :- Take(t1);
    Expect(t2, Semicolon)
  }

  function ParsePackage(parts: seq<string>, tokens: seq<Token>): (r: Step<seq<string>>)
    ensures Safe(tokens, r)
    ensures r.Ok? && Words(tokens) && AllWords(parts) ==> AllWords(r.value.0)
    decreases |tokens|
  {
    var (token, rest) :- Take(tokens);
    match token
    case Ident(text) => ParsePackage(parts + [text], rest)
    case Dot => ParsePackage(parts, rest)
    case Semicolon => Ok((parts, rest))
    case _ => Err
  }

  function JoinDots(parts: seq<string>): string {
    if parts == [] then "" else if |parts| == 1 then parts[0] else parts[0] + "." + JoinDots(parts[1..])
  }

  /** An import is always refused, in one way or another. */
  function ParseImport(tokens: seq<Token>): (r: Outcome<ProtoFile>)
    ensures !r.Ok? && (Live(tokens) ==> r.Err?)
  {
    var (token, rest) :- Take(tokens);
    if !token.Quoted? then Err
    else
      var (_, _) :- Take(rest);
      Err
  }

  function SkipOption(tokens: seq<Token>): (r: Step<()>)
    ensures Safe(tokens, r)
    decreases |tokens|
  {
    var (token, rest) :- Take(tokens);
    if token == Semicolon then Ok(((), rest))
    else if token == Eof then Err
    else SkipOption(rest)
  }

  /** The top-level loop of `parse_proto`. */
  function ParseItems(file: ProtoFile, tokens: seq<Token>): (r: Outcome<ProtoFile>)
    ensures Live(tokens) ==> !r.Panic?
    ensures r.Ok? && Lawful(file) ==> Lawful(r.value)
    ensures r.Ok? && Words(tokens) && WordFile(file) ==> WordFile(r.value)
    decreases |tokens|
  {
    if tokens == [] || tokens[0] == Eof then Ok(file)
    else
      var rest := tokens[1..];
      match tokens[0]
      case Semicolon => ParseItems(file, rest)
      case Ident(keyword) => ParseItem(keyword, file, rest)
      case _ => Err
  }

  function ParseItem(keyword: string, file: ProtoFile, rest: seq<Token>): (r: Outcome<ProtoFile>)
    ensures Live(rest) ==> !r.Panic?
    ensures r.Ok? && Lawful(file) ==> Lawful(r.value)
    ensures r.Ok? && Words(rest) && WordFile(file) ==> WordFile(r.value)
    decreases |rest|, 1
  {
    if keyword == "syntax" then
      var (_, t) :- ParseSyntax(rest);
      ParseItems(file, t)
    else if keyword == "package" then
      var (parts, t) :- ParsePackage([], rest);
      ParseItems(file.(package := Some(JoinDots(parts))), t)
    else if keyword == "message" then
      var (m, t) :- ParseMessage(rest);
      ParseItems(file.(messages := file.messages + [m]), t)
    else if keyword == "service" then
      var (s, t) :- ParseService(rest);
      ParseItems(file.(services := file.services + [s]), t)
    else if keyword == "import" then ParseImport(rest)
    else if keyword == "option" then
      var (_, t) :- SkipOption(rest);
      ParseItems(file, t)
    else Err
  }

  /** What every declaration the parser takes obeys. */
  ghost predicate LawfulMessage(m: MessageDef) {
    NumbersOk(m.fields) && AllSayable(m.fields)
  }

  ghost predicate LawfulService(s: Service) {
    AllSayableRpcs(s.rpcs)
  }

  ghost predicate Lawful(file: ProtoFile) {
    (forall i :: 0 <= i < |file.messages| ==> LawfulMessage(file.messages[i])) &&
    (forall i :: 0 <= i < |file.services| ==> LawfulService(file.services[i]))
  }

  predicate Declared(file: ProtoFile, name: string) {
    exists i :: 0 <= i < |file.messages| && file.messages[i].name == name
  }

  predicate RefersHere(file: ProtoFile, ty: FieldType) {
    ty.Message? || ty.RepeatedMessage? ==> Declared(file, ty.name)
  }

  predicate AllReferHere(file: ProtoFile) {
    forall i :: 0 <= i < |file.messages| ==>
      forall j :: 0 <= j < |file.messages[i].fields| ==> RefersHere(file, file.messages[i].fields[j].ty)
  }

  const EMPTY_FILE := ProtoFile(None, [], [])

  /** `parse_proto`, after the tokenizer. */
  function Parse(tokens: seq<Token>): (r: Outcome<ProtoFile>)
    ensures Live(tokens) ==> !r.Panic?
    ensures r.Ok? ==> Lawful(r.value) && AllReferHere(r.value)
    ensures r.Ok? && Words(tokens) ==> WordFile(r.value)
  {
    var file :- ParseItems(EMPTY_FILE, tokens);
    if AllReferHere(file) then Ok(file) else Err
  }
}
