/**
  Which files the build script's parser accepts (build.rs): a printer from files to
  text, the proof that every lawful file is read back from what is printed, and with
  it the exact set of files the parser can return.
 */
module ProtoPrint {
  import opened Basics
  import opened ProtoWire
  import opened ProtoDescriptor
  import opened ProtoParser
  import opened ProtoLexer
  import opened Utf8

  // ------------------------------------------------------------------
  // Printing
  // ------------------------------------------------------------------

  function NameOf(scalar: Scalar): string {
    match scalar
    case DoubleType => "double"
    case FloatType => "float"
    case Int64Type => "int64"
    case UInt64Type => "uint64"
    case Int32Type => "int32"
    case Fixed64Type => "fixed64"
    case Fixed32Type => "fixed32"
    case BoolType => "bool"
    case StringType => "string"
    case BytesType => "bytes"
    case UInt32Type => "uint32"
    case SInt32Type => "sint32"
    case SInt64Type => "sint64"
  }

  function TypeWord(ty: FieldType): string {
    if ty.Single? || ty.Repeated? then NameOf(ty.scalar) else ty.name
  }

  predicate IsRepeated(ty: FieldType) {
    ty.Repeated? || ty.RepeatedMessage?
  }

  function FieldTail(f: FieldDef, y: seq<Token>): seq<Token> {
    [Ident(f.name)] + ([Eq] + ([Num(f.number)] + ([Semicolon] + y)))
  }

  /** A field, and whatever tokens come after it. */
  function PrintField(f: FieldDef, y: seq<Token>): seq<Token> {
    var named := [Ident(TypeWord(f.ty))] + FieldTail(f, y);
    if IsRepeated(f.ty) then [Ident("repeated")] + named else named
  }

  function PrintFields(fields: seq<FieldDef>, y: seq<Token>): seq<Token> {
    if fields == [] then [RBrace] + y else PrintField(fields[0], PrintFields(fields[1..], y))
  }

  function PrintMessage(m: MessageDef, y: seq<Token>): seq<Token> {
    [Ident("message")] + ([Ident(m.name)] + ([LBrace] + PrintFields(m.fields, y)))
  }

  function PrintReturns(rpc: Rpc, y: seq<Token>): seq<Token> {
    [Ident(rpc.response)] + ([RParen] + ([Semicolon] + y))
  }

  function PrintRpc(rpc: Rpc, y: seq<Token>): seq<Token> {
    [Ident("rpc")]
    + RpcHead(rpc, if rpc.serverStreaming then [Ident("stream")] + PrintReturns(rpc, y) else PrintReturns(rpc, y))
  }

  /** One piece per element, and whatever tokens come after them. */
  function PrintAll<T>(piece: (T, seq<Token>) -> seq<Token>, xs: seq<T>, y: seq<Token>): seq<Token> {
    if xs == [] then y else piece(xs[0], PrintAll(piece, xs[1..], y))
  }

  function PrintService(s: Service, y: seq<Token>): seq<Token> {
    [Ident("service")] + ([Ident(s.name)] + ([LBrace] + PrintAll(PrintRpc, s.rpcs, [RBrace] + y)))
  }

  /** A dotted name in its parts; the empty name has none. */
  function SplitDots(p: string): seq<string> {
    if p == "" then [] else Split(p, '.')
  }

  function PrintParts(parts: seq<string>, y: seq<Token>): seq<Token> {
    if parts == [] then [Semicolon] + y
    else if |parts| == 1 then [Ident(parts[0])] + ([Semicolon] + y)
    else [Ident(parts[0])] + ([Dot] + PrintParts(parts[1..], y))
  }

  function PrintPackage(package: Option<string>, y: seq<Token>): seq<Token> {
    match package
    case None => y
    case Some(p) => [Ident("package")] + PrintParts(SplitDots(p), y)
  }

  function Print(file: ProtoFile): seq<Token> {
    PrintPackage(file.package, PrintAll(PrintMessage, file.messages, PrintAll(PrintService, file.services, [Eof])))
  }

  // ------------------------------------------------------------------
  // Reading what is printed
  // ------------------------------------------------------------------

  lemma Front(a: Token, y: seq<Token>)
    ensures ([a] + y)[0] == a && ([a] + y)[1..] == y
  {
  }

  lemma IdentParses(name: string, y: seq<Token>)
    ensures ExpectIdent([Ident(name)] + y) == Ok((name, y))
  {
    Front(Ident(name), y);
  }

  lemma TokenParses(token: Token, y: seq<Token>)
    requires token != Eof
    ensures Expect([token] + y, token) == Ok(((), y))
  {
    Front(token, y);
  }

  lemma WordIsType(ty: FieldType)
    requires Sayable(ty)
    ensures TypeFor(TypeWord(ty), IsRepeated(ty)) == ty
    ensures !IsRepeated(ty) ==> TypeWord(ty) != "repeated"
  {
  }

  lemma TailParses(f: FieldDef, y: seq<Token>)
    ensures var t := FieldTail(f, y);
      var t2, t3, t4 := [Eq] + ([Num(f.number)] + ([Semicolon] + y)), [Num(f.number)] + ([Semicolon] + y), [Semicolon] + y;
      ExpectIdent(t) == Ok((f.name, t2)) && Expect(t2, Eq) == Ok(((), t3)) &&
      ExpectNumber(t3) == Ok((f.number, t4)) && Expect(t4, Semicolon) == Ok(((), y))
  {
    var t2, t3, t4 := [Eq] + ([Num(f.number)] + ([Semicolon] + y)), [Num(f.number)] + ([Semicolon] + y), [Semicolon] + y;
    Front(Ident(f.name), t2);
    Front(Eq, t3);
    Front(Num(f.number), t4);
    Front(Semicolon, y);
  }

  lemma FieldInParts(leading: string, tokens: seq<Token>, t1: seq<Token>, t2: seq<Token>, t3: seq<Token>,
                     t4: seq<Token>, done: seq<FieldDef>, f: FieldDef, y: seq<Token>)
    requires FieldHead(leading, tokens) == Ok((f.ty, t1)) && ExpectIdent(t1) == Ok((f.name, t2))
    requires Expect(t2, Eq) == Ok(((), t3)) && ExpectNumber(t3) == Ok((f.number, t4))
    requires Expect(t4, Semicolon) == Ok(((), y))
    requires 0 < f.number < MAX_FIELD_NUMBER && !Taken(done, f.number)
    ensures ParseField(leading, done, tokens) == Ok((f, y))
  {
  }

  lemma TailFinishes(leading: string, tokens: seq<Token>, f: FieldDef, done: seq<FieldDef>, y: seq<Token>)
    requires FieldHead(leading, tokens) == Ok((f.ty, FieldTail(f, y)))
    requires 0 < f.number < MAX_FIELD_NUMBER && !Taken(done, f.number)
    ensures ParseField(leading, done, tokens) == Ok((f, y))
  {
    TailParses(f, y);
    FieldInParts(leading, tokens, FieldTail(f, y), [Eq] + ([Num(f.number)] + ([Semicolon] + y)),
                 [Num(f.number)] + ([Semicolon] + y), [Semicolon] + y, done, f, y);
  }

  lemma HeadParses(ty: FieldType, t: seq<Token>)
    requires Sayable(ty)
    ensures IsRepeated(ty) ==> FieldHead("repeated", [Ident(TypeWord(ty))] + t) == Ok((ty, t))
    ensures !IsRepeated(ty) ==> FieldHead(TypeWord(ty), t) == Ok((ty, t))
  {
    WordIsType(ty);
    IdentParses(TypeWord(ty), t);
  }

  /** A printed field is read back by the parser, after its first word. */
  lemma FieldParses(f: FieldDef, done: seq<FieldDef>, y: seq<Token>)
    requires Sayable(f.ty) && 0 < f.number < MAX_FIELD_NUMBER && !Taken(done, f.number)
    ensures var t := PrintField(f, y);
      t != [] && t[0].Ident? && ParseField(t[0].text, done, t[1..]) == Ok((f, y))
  {
    var tail := FieldTail(f, y);
    var named := [Ident(TypeWord(f.ty))] + tail;
    HeadParses(f.ty, tail);
    if IsRepeated(f.ty) {
      TailFinishes("repeated", named, f, done, y);
      Front(Ident("repeated"), named);
    } else {
      TailFinishes(TypeWord(f.ty), tail, f, done, y);
      Front(Ident(TypeWord(f.ty)), tail);
    }
  }

  lemma FieldsStep(done: seq<FieldDef>, tokens: seq<Token>, f: FieldDef, y: seq<Token>)
    requires tokens != [] && tokens[0].Ident? && ParseField(tokens[0].text, done, tokens[1..]) == Ok((f, y))
    ensures ParseFields(done, tokens) == ParseFields(done + [f], y)
  {
  }

  lemma FieldsNext(f: FieldDef, done: seq<FieldDef>, t: seq<Token>)
    requires Sayable(f.ty) && 0 < f.number < MAX_FIELD_NUMBER && !Taken(done, f.number)
    ensures ParseFields(done, PrintField(f, t)) == ParseFields(done + [f], t)
  {
    FieldParses(f, done, t);
    FieldsStep(done, PrintField(f, t), f, t);
  }

  lemma NotTaken(done: seq<FieldDef>, fields: seq<FieldDef>)
    requires fields != [] && NumbersOk(done + fields)
    ensures 0 < fields[0].number < MAX_FIELD_NUMBER && !Taken(done, fields[0].number)
  {
    var all := done + fields;
    assert all[|done|] == fields[0];
    assert forall i :: 0 <= i < |done| ==> all[i] == done[i];
  }

  predicate FitsAfter(f: FieldDef, done: seq<FieldDef>) {
    Sayable(f.ty) && 0 < f.number < MAX_FIELD_NUMBER && !Taken(done, f.number)
  }

  lemma {:induction false} FieldsRun<R>(
      run: (seq<FieldDef>, seq<Token>) -> R, fields: seq<FieldDef>, done: seq<FieldDef>, y: seq<Token>)
    requires forall d: seq<FieldDef>, f: FieldDef, t: seq<Token> ::
      FitsAfter(f, d) ==> run(d, PrintField(f, t)) == run(d + [f], t)
    requires AllSayable(fields) && NumbersOk(done + fields)
    ensures run(done, PrintFields(fields, y)) == run(done + fields, [RBrace] + y)
    decreases |fields|
  {
    if fields == [] {
      assert done + fields == done;
    } else {
      var f, rest := fields[0], fields[1..];
      NotTaken(done, fields);
      assert FitsAfter(f, done);
      assert done + [f] + rest == done + fields;
      FieldsRun(run, rest, done + [f], y);
    }
  }

  lemma FieldsParse(fields: seq<FieldDef>, y: seq<Token>)
    requires AllSayable(fields) && NumbersOk(fields)
    ensures ParseFields([], PrintFields(fields, y)) == Ok((fields, y))
  {
    forall d: seq<FieldDef>, f: FieldDef, t: seq<Token> | FitsAfter(f, d)
      ensures ParseFields(d, PrintField(f, t)) == ParseFields(d + [f], t)
    {
      FieldsNext(f, d, t);
    }
    assert [] + fields == fields;
    FieldsRun(ParseFields, fields, [], y);
    FieldsEnd(fields, y);
  }

  lemma FieldsEnd(fields: seq<FieldDef>, y: seq<Token>)
    ensures ParseFields(fields, [RBrace] + y) == Ok((fields, y))
  {
    Front(RBrace, y);
  }

  lemma MessageParses(m: MessageDef, y: seq<Token>)
    requires LawfulMessage(m)
    ensures var t := PrintMessage(m, y);
      t != [] && t[0] == Ident("message") && ParseMessage(t[1..]) == Ok((m, y))
  {
    var body := PrintFields(m.fields, y);
    FieldsParse(m.fields, y);
    Front(LBrace, body);
    Front(Ident(m.name), [LBrace] + body);
    Front(Ident("message"), [Ident(m.name)] + ([LBrace] + body));
  }

  lemma ReturnsParses(rpc: Rpc, y: seq<Token>)
    requires SayableRpc(rpc)
    ensures var r := PrintReturns(rpc, y);
      ParseReturns(if rpc.serverStreaming then [Ident("stream")] + r else r)
        == Ok(((rpc.response, rpc.serverStreaming), y))
  {
    var r := PrintReturns(rpc, y);
    Front(Ident(rpc.response), [RParen] + ([Semicolon] + y));
    Front(RParen, [Semicolon] + y);
    Front(Semicolon, y);
    if rpc.serverStreaming {
      Front(Ident("stream"), r);
    }
  }

  function RpcHead(rpc: Rpc, y: seq<Token>): seq<Token> {
    [Ident(rpc.name)] + RequestPart(rpc.request, [Ident("returns")] + ([LParen] + y))
  }

  function RequestPart(request: string, y: seq<Token>): seq<Token> {
    [LParen] + ([Ident(request)] + ([RParen] + y))
  }

  lemma RequestParses(request: string, y: seq<Token>)
    ensures ParseRequest(RequestPart(request, y)) == Ok((request, y))
  {
    Front(LParen, [Ident(request)] + ([RParen] + y));
    Front(Ident(request), [RParen] + y);
    Front(RParen, y);
  }

  lemma RpcInParts(
      tokens: seq<Token>, t1: seq<Token>, t4: seq<Token>, t5: seq<Token>, t6: seq<Token>, rpc: Rpc, y: seq<Token>)
    requires ExpectIdent(tokens) == Ok((rpc.name, t1)) && ParseRequest(t1) == Ok((rpc.request, t4))
    requires Expect(t4, Ident("returns")) == Ok(((), t5)) && Expect(t5, LParen) == Ok(((), t6))
    requires ParseReturns(t6) == Ok(((rpc.response, rpc.serverStreaming), y))
    ensures ParseRpc(tokens) == Ok((rpc, y))
  {
  }

  lemma RpcHeadParses(rpc: Rpc, t: seq<Token>, y: seq<Token>)
    requires ParseReturns(t) == Ok(((rpc.response, rpc.serverStreaming), y))
    ensures ParseRpc(RpcHead(rpc, t)) == Ok((rpc, y))
  {
    var t5 := [LParen] + t;
    var t4 := [Ident("returns")] + t5;
    var t1 := RequestPart(rpc.request, t4);
    IdentParses(rpc.name, t1);
    RequestParses(rpc.request, t4);
    TokenParses(Ident("returns"), t5);
    TokenParses(LParen, t);
    RpcInParts([Ident(rpc.name)] + t1, t1, t4, t5, t, rpc, y);
  }

  lemma RpcParses(rpc: Rpc, y: seq<Token>)
    requires SayableRpc(rpc)
    ensures var t := PrintRpc(rpc, y);
      t != [] && t[0] == Ident("rpc") && ParseRpc(t[1..]) == Ok((rpc, y))
  {
    var r := PrintReturns(rpc, y);
    var t := if rpc.serverStreaming then [Ident("stream")] + r else r;
    ReturnsParses(rpc, y);
    RpcHeadParses(rpc, t, y);
    Front(Ident("rpc"), RpcHead(rpc, t));
  }

  lemma RpcsStep(done: seq<Rpc>, tokens: seq<Token>, rpc: Rpc, y: seq<Token>)
    requires tokens != [] && tokens[0] == Ident("rpc") && ParseRpc(tokens[1..]) == Ok((rpc, y))
    ensures ParseRpcs(done, tokens) == ParseRpcs(done + [rpc], y)
  {
  }

  function PutAll<S, T>(put: (S, T) -> S, s: S, xs: seq<T>): S
    decreases xs
  {
    if xs == [] then s else PutAll(put, put(s, xs[0]), xs[1..])
  }

  /** If every printed piece is read in one step, a printed list is read element by element. */
  lemma {:induction false} ReadsAll<S(!new), T(!new), R>(
      run: (S, seq<Token>) -> R, piece: (T, seq<Token>) -> seq<Token>, put: (S, T) -> S, ok: T -> bool,
      s: S, xs: seq<T>, y: seq<Token>)
    requires forall s: S, x: T, t: seq<Token> :: ok(x) ==> run(s, piece(x, t)) == run(put(s, x), t)
    requires forall i :: 0 <= i < |xs| ==> ok(xs[i])
    ensures run(s, PrintAll(piece, xs, y)) == run(PutAll(put, s, xs), y)
    decreases xs
  {
    if xs != [] {
      assert ok(xs[0]);
      ReadsAll(run, piece, put, ok, put(s, xs[0]), xs[1..], y);
    }
  }

  function AddRpc(rpcs: seq<Rpc>, rpc: Rpc): seq<Rpc> {
    rpcs + [rpc]
  }

  lemma {:induction false} RpcsAdded(done: seq<Rpc>, rpcs: seq<Rpc>)
    ensures PutAll(AddRpc, done, rpcs) == done + rpcs
    decreases rpcs
  {
    if rpcs == [] {
      assert done + rpcs == done;
    } else {
      RpcsAdded(done + [rpcs[0]], rpcs[1..]);
      assert done + [rpcs[0]] + rpcs[1..] == done + rpcs;
    }
  }

  lemma RpcsParse(rpcs: seq<Rpc>, y: seq<Token>)
    requires AllSayableRpcs(rpcs)
    ensures ParseRpcs([], PrintAll(PrintRpc, rpcs, [RBrace] + y)) == Ok((rpcs, y))
  {
    forall done, rpc, t | SayableRpc(rpc) ensures ParseRpcs(done, PrintRpc(rpc, t)) == ParseRpcs(AddRpc(done, rpc), t) {
      RpcParses(rpc, t);
      RpcsStep(done, PrintRpc(rpc, t), rpc, t);
    }
    ReadsAll(ParseRpcs, PrintRpc, AddRpc, SayableRpc, [], rpcs, [RBrace] + y);
    RpcsAdded([], rpcs);
    assert [] + rpcs == rpcs;
    Front(RBrace, y);
  }

  lemma ServiceInParts(tokens: seq<Token>, t1: seq<Token>, t2: seq<Token>, s: Service, y: seq<Token>)
    requires ExpectIdent(tokens) == Ok((s.name, t1)) && Expect(t1, LBrace) == Ok(((), t2))
    requires ParseRpcs([], t2) == Ok((s.rpcs, y))
    ensures ParseService(tokens) == Ok((s, y))
  {
  }

  lemma ServiceParses(s: Service, y: seq<Token>)
    requires LawfulService(s)
    ensures var t := PrintService(s, y);
      t != [] && t[0] == Ident("service") && ParseService(t[1..]) == Ok((s, y))
  {
    var body := PrintAll(PrintRpc, s.rpcs, [RBrace] + y);
    RpcsParse(s.rpcs, y);
    TokenParses(LBrace, body);
    IdentParses(s.name, [LBrace] + body);
    ServiceInParts([Ident(s.name)] + ([LBrace] + body), [LBrace] + body, body, s, y);
    Front(Ident("service"), [Ident(s.name)] + ([LBrace] + body));
  }

  lemma MessageStep(file: ProtoFile, tokens: seq<Token>, m: MessageDef, y: seq<Token>)
    requires tokens != [] && tokens[0] == Ident("message") && ParseMessage(tokens[1..]) == Ok((m, y))
    ensures ParseItems(file, tokens) == ParseItems(file.(messages := file.messages + [m]), y)
  {
  }

  lemma ServiceStep(file: ProtoFile, tokens: seq<Token>, s: Service, y: seq<Token>)
    requires tokens != [] && tokens[0] == Ident("service") && ParseService(tokens[1..]) == Ok((s, y))
    ensures ParseItems(file, tokens) == ParseItems(file.(services := file.services + [s]), y)
  {
  }

  function AddMessage(file: ProtoFile, m: MessageDef): ProtoFile {
    file.(messages := file.messages + [m])
  }

  function AddService(file: ProtoFile, s: Service): ProtoFile {
    file.(services := file.services + [s])
  }

  lemma {:induction false} MessagesAdded(file: ProtoFile, messages: seq<MessageDef>)
    ensures PutAll(AddMessage, file, messages) == file.(messages := file.messages + messages)
    decreases messages
  {
    if messages == [] {
      assert file.messages + messages == file.messages;
    } else {
      MessagesAdded(AddMessage(file, messages[0]), messages[1..]);
      assert file.messages + [messages[0]] + messages[1..] == file.messages + messages;
    }
  }

  lemma {:induction false} ServicesAdded(file: ProtoFile, services: seq<Service>)
    ensures PutAll(AddService, file, services) == file.(services := file.services + services)
    decreases services
  {
    if services == [] {
      assert file.services + services == file.services;
    } else {
      ServicesAdded(AddService(file, services[0]), services[1..]);
      assert file.services + [services[0]] + services[1..] == file.services + services;
    }
  }

  lemma MessagesParse(messages: seq<MessageDef>, file: ProtoFile, y: seq<Token>)
    requires forall i :: 0 <= i < |messages| ==> LawfulMessage(messages[i])
    ensures ParseItems(file, PrintAll(PrintMessage, messages, y))
         == ParseItems(file.(messages := file.messages + messages), y)
  {
    forall f, m, t | LawfulMessage(m) ensures ParseItems(f, PrintMessage(m, t)) == ParseItems(AddMessage(f, m), t) {
      MessageParses(m, t);
      MessageStep(f, PrintMessage(m, t), m, t);
    }
    ReadsAll(ParseItems, PrintMessage, AddMessage, LawfulMessage, file, messages, y);
    MessagesAdded(file, messages);
  }

  lemma ServicesParse(services: seq<Service>, file: ProtoFile, y: seq<Token>)
    requires forall i :: 0 <= i < |services| ==> LawfulService(services[i])
    ensures ParseItems(file, PrintAll(PrintService, services, y))
         == ParseItems(file.(services := file.services + services), y)
  {
    forall f, s, t | LawfulService(s) ensures ParseItems(f, PrintService(s, t)) == ParseItems(AddService(f, s), t) {
      ServiceParses(s, t);
      ServiceStep(f, PrintService(s, t), s, t);
    }
    ReadsAll(ParseItems, PrintService, AddService, LawfulService, file, services, y);
    ServicesAdded(file, services);
  }

  lemma PackageStep(file: ProtoFile, tokens: seq<Token>, parts: seq<string>, y: seq<Token>)
    requires tokens != [] && tokens[0] == Ident("package") && ParsePackage([], tokens[1..]) == Ok((parts, y))
    ensures ParseItems(file, tokens) == ParseItems(file.(package := Some(JoinDots(parts))), y)
  {
  }

  lemma {:induction false} PartsRun<R>(
      run: (seq<string>, seq<Token>) -> R, parts: seq<string>, done: seq<string>, y: seq<Token>)
    requires forall d: seq<string>, p: string, t: seq<Token> :: run(d, [Ident(p)] + t) == run(d + [p], t)
    requires forall d: seq<string>, t: seq<Token> :: run(d, [Dot] + t) == run(d, t)
    ensures run(done, PrintParts(parts, y)) == run(done + parts, [Semicolon] + y)
    decreases |parts|
  {
    if parts == [] {
      assert done + parts == done;
    } else if |parts| == 1 {
      assert [parts[0]] == parts;
    } else {
      PartsRun(run, parts[1..], done + [parts[0]], y);
      assert done + [parts[0]] + parts[1..] == done + parts;
    }
  }

  lemma PartsParse(parts: seq<string>, y: seq<Token>)
    ensures ParsePackage([], PrintParts(parts, y)) == Ok((parts, y))
  {
    forall d: seq<string>, p: string, t: seq<Token>
      ensures ParsePackage(d, [Ident(p)] + t) == ParsePackage(d + [p], t)
    {
      Front(Ident(p), t);
    }
    forall d: seq<string>, t: seq<Token> ensures ParsePackage(d, [Dot] + t) == ParsePackage(d, t) {
      Front(Dot, t);
    }
    PartsRun(ParsePackage, parts, [], y);
    assert [] + parts == parts;
    Front(Semicolon, y);
  }

  lemma JoinFirst(a: string, parts: seq<string>)
    requires parts != []
    ensures JoinDots([a] + parts) == a + "." + JoinDots(parts)
  {
    assert ([a] + parts)[1..] == parts;
  }

  lemma JoinGrows(c: char, parts: seq<string>)
    requires parts != []
    ensures JoinDots([[c] + parts[0]] + parts[1..]) == [c] + JoinDots(parts)
  {
    var more := [[c] + parts[0]] + parts[1..];
    assert more[1..] == parts[1..];
    if |parts| > 1 {
      assert ([c] + parts[0]) + "." + JoinDots(parts[1..]) == [c] + (parts[0] + "." + JoinDots(parts[1..]));
    }
  }

  lemma {:induction false} CutJoins(p: string)
    ensures JoinDots(Split(p, '.')) == p
  {
    if p != "" {
      CutJoins(p[1..]);
      var rest := Split(p[1..], '.');
      if p[0] == '.' {
        JoinFirst("", rest);
        assert "" + "." + p[1..] == p;
      } else {
        JoinGrows(p[0], rest);
        assert [p[0]] + p[1..] == p;
      }
    }
  }

  lemma PackageParses(package: Option<string>, file: ProtoFile, y: seq<Token>)
    requires file.package.None?
    ensures ParseItems(file, PrintPackage(package, y)) == ParseItems(file.(package := package), y)
  {
    if package.Some? {
      var parts := SplitDots(package.value);
      PartsParse(parts, y);
      CutJoins(package.value);
      Front(Ident("package"), PrintParts(parts, y));
      PackageStep(file, [Ident("package")] + PrintParts(parts, y), parts, y);
    }
  }

  /** Every lawful file is read back from what is printed for it. */
  lemma PrintParses(file: ProtoFile)
    requires Lawful(file) && AllReferHere(file)
    ensures Parse(Print(file)) == Ok(file)
  {
    var y := PrintAll(PrintService, file.services, [Eof]);
    var f1 := EMPTY_FILE.(package := file.package);
    PackageParses(file.package, EMPTY_FILE, PrintAll(PrintMessage, file.messages, y));
    MessagesParse(file.messages, f1, y);
    var f2 := f1.(messages := [] + file.messages);
    ServicesParse(file.services, f2, [Eof]);
    assert [] + file.messages == file.messages && [] + file.services == file.services;
  }

  // ------------------------------------------------------------------
  // What is printed can be written down
  // ------------------------------------------------------------------

  /** Tokens that can be written down, and the end marker. */
  ghost predicate Writable(tokens: seq<Token>) {
    tokens != [] && tokens[|tokens| - 1] == Eof && forall i :: 0 <= i < |tokens| - 1 ==> Spellable(tokens[i])
  }

  lemma Cons(a: Token, y: seq<Token>)
    requires Spellable(a) && Writable(y)
    ensures Writable([a] + y)
  {
  }

  lemma FieldWritable(f: FieldDef, y: seq<Token>)
    requires WordField(f) && f.number < MAX_FIELD_NUMBER && Writable(y)
    ensures Writable(PrintField(f, y))
  {
    var t4 := [Semicolon] + y;
    Cons(Semicolon, y);
    Cons(Num(f.number), t4);
    Cons(Eq, [Num(f.number)] + t4);
    Cons(Ident(f.name), [Eq] + ([Num(f.number)] + t4));
    Cons(Ident(TypeWord(f.ty)), FieldTail(f, y));
    Cons(Ident("repeated"), [Ident(TypeWord(f.ty))] + FieldTail(f, y));
  }

  lemma {:induction false} FieldsWritable(fields: seq<FieldDef>, y: seq<Token>)
    requires WordFields(fields) && NumbersOk(fields) && Writable(y)
    ensures Writable(PrintFields(fields, y))
  {
    if fields == [] {
      Cons(RBrace, y);
    } else {
      FieldsWritable(fields[1..], y);
      FieldWritable(fields[0], PrintFields(fields[1..], y));
    }
  }

  lemma MessageWritable(m: MessageDef, y: seq<Token>)
    requires WordMessage(m) && LawfulMessage(m) && Writable(y)
    ensures Writable(PrintMessage(m, y))
  {
    FieldsWritable(m.fields, y);
    var body := PrintFields(m.fields, y);
    Cons(LBrace, body);
    Cons(Ident(m.name), [LBrace] + body);
    Cons(Ident("message"), [Ident(m.name)] + ([LBrace] + body));
  }

  lemma ReturnsWritable(rpc: Rpc, y: seq<Token>)
    requires IsWord(rpc.response) && Writable(y)
    ensures Writable(PrintReturns(rpc, y)) && Writable([Ident("stream")] + PrintReturns(rpc, y))
  {
    Cons(Semicolon, y);
    Cons(RParen, [Semicolon] + y);
    Cons(Ident(rpc.response), [RParen] + ([Semicolon] + y));
    Cons(Ident("stream"), PrintReturns(rpc, y));
  }

  lemma RpcWritable(rpc: Rpc, y: seq<Token>)
    requires WordRpc(rpc) && Writable(y)
    ensures Writable(PrintRpc(rpc, y))
  {
    ReturnsWritable(rpc, y);
    var r := PrintReturns(rpc, y);
    var t6 := if rpc.serverStreaming then [Ident("stream")] + r else r;
    var t4 := [Ident("returns")] + ([LParen] + t6);
    Cons(LParen, t6);
    Cons(Ident("returns"), [LParen] + t6);
    Cons(RParen, t4);
    Cons(Ident(rpc.request), [RParen] + t4);
    Cons(LParen, [Ident(rpc.request)] + ([RParen] + t4));
    Cons(Ident(rpc.name), RequestPart(rpc.request, t4));
    Cons(Ident("rpc"), RpcHead(rpc, t6));
  }

  lemma {:induction false} AllWritable<T(!new)>(
      piece: (T, seq<Token>) -> seq<Token>, ok: T -> bool, xs: seq<T>, y: seq<Token>)
    requires Writable(y) && forall x: T, t: seq<Token> :: ok(x) && Writable(t) ==> Writable(piece(x, t))
    requires forall i :: 0 <= i < |xs| ==> ok(xs[i])
    ensures Writable(PrintAll(piece, xs, y))
  {
    if xs != [] {
      AllWritable(piece, ok, xs[1..], y);
    }
  }

  lemma ServiceWritable(s: Service, y: seq<Token>)
    requires WordService(s) && Writable(y)
    ensures Writable(PrintService(s, y))
  {
    Cons(RBrace, y);
    forall rpc, t | WordRpc(rpc) && Writable(t) ensures Writable(PrintRpc(rpc, t)) { RpcWritable(rpc, t); }
    AllWritable(PrintRpc, WordRpc, s.rpcs, [RBrace] + y);
    var body := PrintAll(PrintRpc, s.rpcs, [RBrace] + y);
    Cons(LBrace, body);
    Cons(Ident(s.name), [LBrace] + body);
    Cons(Ident("service"), [Ident(s.name)] + ([LBrace] + body));
  }

  lemma {:induction false} PartsWritable(parts: seq<string>, y: seq<Token>)
    requires AllWords(parts) && Writable(y)
    ensures Writable(PrintParts(parts, y))
  {
    Cons(Semicolon, y);
    if |parts| == 1 {
      Cons(Ident(parts[0]), [Semicolon] + y);
    } else if |parts| > 1 {
      var rest := PrintParts(parts[1..], y);
      PartsWritable(parts[1..], y);
      Cons(Dot, rest);
      Cons(Ident(parts[0]), [Dot] + rest);
    }
  }

  lemma {:induction false} CutWord(a: string)
    requires Local(a)
    ensures Split(a, '.') == [a]
  {
    if a != "" {
      assert a[0] in a && a[0] != '.';
      assert Local(a[1..]);
      CutWord(a[1..]);
      assert [a[0]] + a[1..] == a;
      assert [a[1..]][1..] == [];
    }
  }

  lemma {:induction false} CutFirst(a: string, p: string)
    requires Local(a)
    ensures Split(a + "." + p, '.') == [a] + Split(p, '.')
  {
    var s := a + "." + p;
    if a == "" {
      assert s[1..] == p && s[0] == '.';
    } else {
      assert a[0] in a && a[0] != '.';
      assert Local(a[1..]);
      CutFirst(a[1..], p);
      assert s[1..] == a[1..] + "." + p;
      assert ([a[1..]] + Split(p, '.'))[1..] == Split(p, '.');
      assert [a[0]] + a[1..] == a;
    }
  }

  lemma {:induction false} CutOfJoin(parts: seq<string>)
    requires parts != [] && AllWords(parts)
    ensures Split(JoinDots(parts), '.') == parts
  {
    WordIsLocal(parts[0]);
    if |parts| == 1 {
      CutWord(parts[0]);
    } else {
      CutOfJoin(parts[1..]);
      CutFirst(parts[0], JoinDots(parts[1..]));
      assert [parts[0]] + parts[1..] == parts;
    }
  }

  lemma PackageWritable(package: Option<string>, y: seq<Token>)
    requires WordPackage(package) && Writable(y)
    ensures Writable(PrintPackage(package, y))
  {
    if package.Some? {
      var p := package.value;
      var parts :| AllWords(parts) && p == JoinDots(parts);
      if p != "" {
        assert parts != [];
        CutOfJoin(parts);
      }
      assert AllWords(SplitDots(p));
      PartsWritable(SplitDots(p), y);
      Cons(Ident("package"), PrintParts(SplitDots(p), y));
    }
  }

  lemma PrintWritable(file: ProtoFile)
    requires Lawful(file) && WordFile(file)
    ensures Writable(Print(file))
  {
    forall s, t | WordService(s) && Writable(t) ensures Writable(PrintService(s, t)) { ServiceWritable(s, t); }
    AllWritable(PrintService, WordService, file.services, [Eof]);
    var services := PrintAll(PrintService, file.services, [Eof]);
    forall m, t | GoodMessage(m) && Writable(t) ensures Writable(PrintMessage(m, t)) { MessageWritable(m, t); }
    AllWritable(PrintMessage, GoodMessage, file.messages, services);
    PackageWritable(file.package, PrintAll(PrintMessage, file.messages, services));
  }

  ghost predicate GoodMessage(m: MessageDef) {
    WordMessage(m) && LawfulMessage(m)
  }

  // ------------------------------------------------------------------
  // The files that can be read
  // ------------------------------------------------------------------

  function Text(file: ProtoFile): string
    requires Print(file) != []
  {
    SpellAll(Print(file)[..|Print(file)| - 1])
  }

  lemma {:induction false} SpellingIsAscii(tokens: seq<Token>)
    requires tokens != [] && Spellable(tokens[0]) && tokens[0].Ident?
    ensures StripBom(SpellAll(tokens)) == SpellAll(tokens)
  {
    var s := SpellAll(tokens);
    var text := tokens[0].text;
    assert s[0] == text[0];
    if |s| >= 3 {
      assert s[..3][0] == text[0];
    }
  }

  /** What is printed begins with a keyword, or is nothing but the end marker. */
  lemma PrintStarts(file: ProtoFile)
    ensures Print(file) != [] && (Print(file)[0].Ident? || Print(file) == [Eof])
  {
  }

  lemma TextLexes(file: ProtoFile)
    requires Writable(Print(file))
    ensures Lex(StripBom(Text(file))) == Ok(Print(file))
  {
    PrintStarts(file);
    var tokens := Print(file);
    var before := tokens[..|tokens| - 1];
    SpellingIsRead(before);
    assert before + [Eof] == tokens;
    if before != [] {
      SpellingIsAscii(before);
    }
  }

  lemma TextIsWellFormed(file: ProtoFile)
    requires Writable(Print(file))
    ensures WellFormed(Text(file))
  {
    SpellingIsWellFormed(Print(file)[..|Print(file)| - 1]);
  }

  lemma LexedThenParsed(text: string, tokens: seq<Token>, file: ProtoFile)
    requires Lex(StripBom(text)) == Ok(tokens) && Parse(tokens) == Ok(file)
    ensures ParseText(text) == Ok(file)
  {
  }

  /** Every lawful file with names that are words is read back from its own text. */
  lemma TextRoundTrip(file: ProtoFile)
    requires Lawful(file) && AllReferHere(file) && WordFile(file)
    ensures Print(file) != [] && WellFormed(Text(file)) && ParseText(Text(file)) == Ok(file)
  {
    PrintWritable(file);
    TextIsWellFormed(file);
    TextLexes(file);
    PrintParses(file);
    LexedThenParsed(Text(file), Print(file), file);
  }

  /**
    The files the build script can read, exactly: field numbers in range and different within
    each message, every message type declared in the file, no name that reads as something else,
    and every name a word.
   */
  lemma AcceptedExactly(file: ProtoFile)
    ensures (exists text :: WellFormed(text) && ParseText(text) == Ok(file))
        <==> Lawful(file) && AllReferHere(file) && WordFile(file)
  {
    if Lawful(file) && AllReferHere(file) && WordFile(file) {
      TextRoundTrip(file);
    }
  }

  lemma WordIsLocal(text: string)
    requires IsWord(text)
    ensures Local(text)
  {
  }

  lemma WordFileIsLocal(file: ProtoFile)
    requires WordFile(file)
    ensures LocalFile(file)
  {
    forall i | 0 <= i < |file.messages| ensures LocalMessage(file.messages[i]) {
      var fields := file.messages[i].fields;
      assert WordMessage(file.messages[i]);
      forall j | 0 <= j < |fields| ensures LocalField(fields[j]) {
        assert WordField(fields[j]);
        if fields[j].ty.Message? || fields[j].ty.RepeatedMessage? { WordIsLocal(fields[j].ty.name); }
      }
    }
    forall i | 0 <= i < |file.services| ensures LocalService(file.services[i]) {
      var rpcs := file.services[i].rpcs;
      assert WordService(file.services[i]);
      forall j | 0 <= j < |rpcs| ensures LocalRpc(rpcs[j]) {
        assert WordRpc(rpcs[j]);
        WordIsLocal(rpcs[j].request);
        WordIsLocal(rpcs[j].response);
      }
    }
  }

  /** Whatever text is accepted, the descriptor written for it describes that file and no other. */
  lemma DescriptorOfText(text: string, fileName: string, file: ProtoFile)
    requires ParseText(text) == Ok(file)
    ensures ReadDescriptor(WriteAll(FileRecord(fileName, file))) == Some((fileName, file))
  {
    WordFileIsLocal(file);
    DescriptorRoundTrip(fileName, file);
  }

  // ------------------------------------------------------------------
  // Where the descriptor points
  // ------------------------------------------------------------------

  predicate FieldMentions(field: FieldDef, name: string) {
    (field.ty.Message? || field.ty.RepeatedMessage?) && field.ty.name == name
  }

  ghost predicate FieldsMention(file: ProtoFile, name: string) {
    exists i, j :: 0 <= i < |file.messages| && 0 <= j < |file.messages[i].fields|
      && FieldMentions(file.messages[i].fields[j], name)
  }

  ghost predicate RpcsMention(file: ProtoFile, name: string) {
    exists i, j :: 0 <= i < |file.services| && 0 <= j < |file.services[i].rpcs|
      && (file.services[i].rpcs[j].request == name || file.services[i].rpcs[j].response == name)
  }

  /** Every message type a file mentions is one of its own. */
  ghost predicate SelfContained(file: ProtoFile) {
    forall name :: FieldsMention(file, name) || RpcsMention(file, name) ==> Declared(file, name)
  }

  lemma FieldsStayHome(file: ProtoFile, name: string)
    requires AllReferHere(file) && FieldsMention(file, name)
    ensures Declared(file, name)
  {
    var i, j :| 0 <= i < |file.messages| && 0 <= j < |file.messages[i].fields|
      && FieldMentions(file.messages[i].fields[j], name);
    assert RefersHere(file, file.messages[i].fields[j].ty);
  }

  /**
    The parser checks the types of fields but not those of rpcs: the descriptor of an accepted
    file points only into that file if and only if its rpcs name messages it declares.
   */
  lemma DescriptorIsClosedExactly(text: string, fileName: string, file: ProtoFile)
    requires ParseText(text) == Ok(file)
    ensures var read := ReadDescriptor(WriteAll(FileRecord(fileName, file)));
            && read.Some?
            && (SelfContained(read.value.1) <==> forall name :: RpcsMention(file, name) ==> Declared(file, name))
  {
    DescriptorOfText(text, fileName, file);
    forall name | FieldsMention(file, name) ensures Declared(file, name) {
      FieldsStayHome(file, name);
    }
  }

  /** A service on messages that are nowhere declared is accepted. */
  lemma UndeclaredRpcIsAccepted()
    ensures var file := ProtoFile(None, [], [Service("S", [Rpc("Get", "In", "Out", false)])]);
            && (exists text :: WellFormed(text) && ParseText(text) == Ok(file))
            && !SelfContained(file)
  {
    var rpc := Rpc("Get", "In", "Out", false);
    var file := ProtoFile(None, [], [Service("S", [rpc])]);
    assert file.services[0].rpcs[0] == rpc;
    assert RpcsMention(file, "In") && !Declared(file, "In");
    AcceptedExactly(file);
  }
}
