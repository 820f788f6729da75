/**
  The file descriptor the build script writes for every `.proto` file (build.rs):
  nested records over the wire helpers, and a reader that recovers the file from
  the bytes.
 */
module ProtoDescriptor {
  import opened Basics
  import opened ProtoWire

  // ------------------------------------------------------------------
  // The proto model
  // ------------------------------------------------------------------

  datatype Scalar =
    | DoubleType | FloatType | Int64Type | UInt64Type | Int32Type | Fixed64Type | Fixed32Type
    | BoolType | StringType | BytesType | UInt32Type | SInt32Type | SInt64Type

  datatype FieldType =
    | Single(scalar: Scalar)
    | Repeated(scalar: Scalar)
    | Message(name: string)
    | RepeatedMessage(name: string)

  datatype FieldDef = FieldDef(number: nat, name: string, ty: FieldType)

  datatype MessageDef = MessageDef(name: string, fields: seq<FieldDef>)

  datatype Rpc = Rpc(name: string, request: string, response: string, serverStreaming: bool)

  datatype Service = Service(name: string, rpcs: seq<Rpc>)

  datatype ProtoFile = ProtoFile(package: Option<string>, messages: seq<MessageDef>, services: seq<Service>)

  /** `descriptor_type` on the scalars the parser produces */
  function DescriptorType(scalar: Scalar): (n: nat)
    ensures n != 11
  {
    match scalar
    case DoubleType => 1
    case FloatType => 2
    case Int64Type => 3
    case UInt64Type => 4
    case Int32Type => 5
    case Fixed64Type => 6
    case Fixed32Type => 7
    case BoolType => 8
    case StringType => 9
    case BytesType => 12
    case UInt32Type => 13
    case SInt32Type => 17
    case SInt64Type => 18
  }

  /** `type_name` */
  function TypeName(name: string, package: Option<string>): string {
    if name != "" && name[0] == '.' then name
    else if '.' in name then "." + name
    else
      match package
      case Some(p) => "." + p + "." + name
      case None => "." + name
  }

  function Upper(c: char): char {
    if 'a' <= c <= 'z' then (c as int - 32) as char else c
  }

  /** `json_name`, from the state the loop is in */
  function JsonFrom(field: string, upperNext: bool): (s: string)
    ensures '_' !in s && |s| <= |field|
  {
    if field == "" then ""
    else if field[0] == '_' then JsonFrom(field[1..], true)
    else [if upperNext then Upper(field[0]) else field[0]] + JsonFrom(field[1..], false)
  }

  method JsonName(field: string) returns (out: string)
    ensures out == JsonFrom(field, false)
  {
    out := "";
    var upperNext := false;
    for i := 0 to |field|
      invariant out + JsonFrom(field[i..], upperNext) == JsonFrom(field, false)
    {
      assert field[i..][1..] == field[i + 1..];
      if field[i] == '_' {
        upperNext := true;
      } else if upperNext {
        out := out + [Upper(field[i])];
        upperNext := false;
      } else {
        out := out + [field[i]];
      }
    }
  }

  // ------------------------------------------------------------------
  // The records
  // ------------------------------------------------------------------

  function Label(ty: FieldType): nat {
    if ty.Single? || ty.Message? then 1 else 3
  }

  function TypeNumber(ty: FieldType): nat {
    if ty.Single? || ty.Repeated? then DescriptorType(ty.scalar) else 11
  }

  function TypeNameItem(ty: FieldType, package: Option<string>): seq<Field> {
    if ty.Single? || ty.Repeated? then [] else [Bytes(6, TypeName(ty.name, package))]
  }

  function FieldRecord(f: FieldDef, package: Option<string>): seq<Field> {
    [Bytes(1, f.name)] + ([Number(3, f.number)] + ([Number(4, Label(f.ty))] + ([Number(5, TypeNumber(f.ty))]
    + (TypeNameItem(f.ty, package) + [Bytes(10, JsonFrom(f.name, false))]))))
  }

  function RpcRecord(rpc: Rpc, package: Option<string>): seq<Field> {
    [Bytes(1, rpc.name)] + ([Bytes(2, TypeName(rpc.request, package))] + ([Bytes(3, TypeName(rpc.response, package))]
    + if rpc.serverStreaming then [Number(6, 1)] else []))
  }

  /** One length-delimited field per piece. */
  function Items(id: nat, pieces: seq<string>): seq<Field> {
    if pieces == [] then [] else [Bytes(id, pieces[0])] + Items(id, pieces[1..])
  }

  /** One encoded record per element. */
  function Pieces<T>(record: T -> seq<Field>, xs: seq<T>): (r: seq<string>)
    ensures |r| == |xs|
  {
    if xs == [] then [] else [WriteAll(record(xs[0]))] + Pieces(record, xs[1..])
  }

  function FieldWriter(package: Option<string>): FieldDef -> seq<Field> {
    f => FieldRecord(f, package)
  }

  function RpcWriter(package: Option<string>): Rpc -> seq<Field> {
    rpc => RpcRecord(rpc, package)
  }

  function MessageRecord(m: MessageDef, package: Option<string>): seq<Field> {
    [Bytes(1, m.name)] + Items(2, Pieces(FieldWriter(package), m.fields))
  }

  function ServiceRecord(s: Service, package: Option<string>): seq<Field> {
    [Bytes(1, s.name)] + Items(2, Pieces(RpcWriter(package), s.rpcs))
  }

  function MessageWriter(package: Option<string>): MessageDef -> seq<Field> {
    m => MessageRecord(m, package)
  }

  function ServiceWriter(package: Option<string>): Service -> seq<Field> {
    service => ServiceRecord(service, package)
  }

  function PackageItem(package: Option<string>): seq<Field> {
    if package.Some? then [Bytes(2, package.value)] else []
  }

  function FileRecord(fileName: string, file: ProtoFile): seq<Field> {
    [Bytes(1, fileName)] + (PackageItem(file.package) + (Items(4, Pieces(MessageWriter(file.package), file.messages))
    + (Items(6, Pieces(ServiceWriter(file.package), file.services)) + [Bytes(12, "proto3")])))
  }

  // ------------------------------------------------------------------
  // Reading the records
  // ------------------------------------------------------------------

  function Strings(fields: seq<Field>, id: nat): seq<string> {
    if fields == [] then []
    else (if fields[0].Bytes? && fields[0].id == id then [fields[0].bytes] else []) + Strings(fields[1..], id)
  }

  function Numbers(fields: seq<Field>, id: nat): seq<nat> {
    if fields == [] then []
    else (if fields[0].Number? && fields[0].id == id then [fields[0].value] else []) + Numbers(fields[1..], id)
  }

  function ScalarAt(n: nat): Option<Scalar> {
    if n == 1 then Some(DoubleType) else if n == 2 then Some(FloatType)
    else if n == 3 then Some(Int64Type) else if n == 4 then Some(UInt64Type)
    else if n == 5 then Some(Int32Type) else if n == 6 then Some(Fixed64Type)
    else if n == 7 then Some(Fixed32Type) else if n == 8 then Some(BoolType)
    else if n == 9 then Some(StringType) else if n == 12 then Some(BytesType)
    else if n == 13 then Some(UInt32Type) else if n == 17 then Some(SInt32Type)
    else if n == 18 then Some(SInt64Type) else None
  }

  /** A qualified type name without the package it is in. */
  function LocalName(qualified: string, package: Option<string>): Option<string> {
    var n := match package { case Some(p) => |p| + 2 case None => 1 };
    if n <= |qualified| then Some(qualified[n..]) else None
  }

  function ReadType(kind: nat, n: nat, names: seq<string>, package: Option<string>): Option<FieldType> {
    if n == 11 then
      if |names| != 1 then None
      else
        match LocalName(names[0], package)
        case None => None
        case Some(name) => Some(if kind == 3 then RepeatedMessage(name) else Message(name))
    else
      match ScalarAt(n)
      case None => None
      case Some(scalar) => Some(if kind == 3 then Repeated(scalar) else Single(scalar))
  }

  function FieldFrom(record: seq<Field>, package: Option<string>): Option<FieldDef> {
    var names, numbers := Strings(record, 1), Numbers(record, 3);
    var labels, types := Numbers(record, 4), Numbers(record, 5);
    if |names| != 1 || |numbers| != 1 || |labels| != 1 || |types| != 1 then None
    else
      match ReadType(labels[0], types[0], Strings(record, 6), package)
      case None => None
      case Some(ty) => Some(FieldDef(numbers[0], names[0], ty))
  }

  function RpcFrom(record: seq<Field>, package: Option<string>): Option<Rpc> {
    var names, requests, responses := Strings(record, 1), Strings(record, 2), Strings(record, 3);
    if |names| != 1 || |requests| != 1 || |responses| != 1 then None
    else
      match (LocalName(requests[0], package), LocalName(responses[0], package))
      case (Some(request), Some(response)) => Some(Rpc(names[0], request, response, Numbers(record, 6) == [1]))
      case _ => None
  }

  /** Every piece read, or nothing. */
  function Each<T>(read: seq<Field> -> Option<T>, pieces: seq<string>): Option<seq<T>> {
    if pieces == [] then Some([])
    else
      match ReadAll(pieces[0])
      case None => None
      case Some(record) =>
        match (read(record), Each(read, pieces[1..]))
        case (Some(x), Some(xs)) => Some([x] + xs)
        case _ => None
  }

  function FieldReader(package: Option<string>): seq<Field> -> Option<FieldDef> {
    r => FieldFrom(r, package)
  }

  function RpcReader(package: Option<string>): seq<Field> -> Option<Rpc> {
    r => RpcFrom(r, package)
  }

  function MessageFrom(record: seq<Field>, package: Option<string>): Option<MessageDef> {
    var names := Strings(record, 1);
    if |names| != 1 then None
    else
      match Each(FieldReader(package), Strings(record, 2))
      case None => None
      case Some(fields) => Some(MessageDef(names[0], fields))
  }

  function ServiceFrom(record: seq<Field>, package: Option<string>): Option<Service> {
    var names := Strings(record, 1);
    if |names| != 1 then None
    else
      match Each(RpcReader(package), Strings(record, 2))
      case None => None
      case Some(rpcs) => Some(Service(names[0], rpcs))
  }

  function MessageReader(package: Option<string>): seq<Field> -> Option<MessageDef> {
    r => MessageFrom(r, package)
  }

  function ServiceReader(package: Option<string>): seq<Field> -> Option<Service> {
    r => ServiceFrom(r, package)
  }

  /** The file a descriptor describes, with its name. */
  function ReadDescriptor(bytes: string): Option<(string, ProtoFile)> {
    match ReadAll(bytes)
    case None => None
    case Some(record) =>
      var names, packages := Strings(record, 1), Strings(record, 2);
      if |names| != 1 || |packages| > 1 || Strings(record, 12) != ["proto3"] then None
      else
        var package := if packages == [] then None else Some(packages[0]);
        match (Each(MessageReader(package), Strings(record, 4)),
               Each(ServiceReader(package), Strings(record, 6)))
        case (Some(messages), Some(services)) => Some((names[0], ProtoFile(package, messages, services)))
        case _ => None
  }

  // ------------------------------------------------------------------
  // Fields by number
  // ------------------------------------------------------------------

  lemma {:induction false} StringsConcat(a: seq<Field>, b: seq<Field>, id: nat)
    ensures Strings(a + b, id) == Strings(a, id) + Strings(b, id)
    decreases a
  {
    if a == [] {
      assert a + b == b;
    } else {
      StringsConcat(a[1..], b, id);
      assert (a + b)[1..] == a[1..] + b;
      var h := if a[0].Bytes? && a[0].id == id then [a[0].bytes] else [];
      assert h + (Strings(a[1..], id) + Strings(b, id)) == h + Strings(a[1..], id) + Strings(b, id);
    }
  }

  lemma {:induction false} NumbersConcat(a: seq<Field>, b: seq<Field>, id: nat)
    ensures Numbers(a + b, id) == Numbers(a, id) + Numbers(b, id)
    decreases a
  {
    if a == [] {
      assert a + b == b;
    } else {
      NumbersConcat(a[1..], b, id);
      assert (a + b)[1..] == a[1..] + b;
      var h := if a[0].Number? && a[0].id == id then [a[0].value] else [];
      assert h + (Numbers(a[1..], id) + Numbers(b, id)) == h + Numbers(a[1..], id) + Numbers(b, id);
    }
  }

  lemma StringsCons(f: Field, rest: seq<Field>, id: nat)
    ensures Strings([f] + rest, id) == (if f.Bytes? && f.id == id then [f.bytes] else []) + Strings(rest, id)
    ensures Strings([f], id) == if f.Bytes? && f.id == id then [f.bytes] else []
  {
    assert ([f] + rest)[1..] == rest;
    assert [f][1..] == [];
  }

  lemma NumbersCons(f: Field, rest: seq<Field>, id: nat)
    ensures Numbers([f] + rest, id) == (if f.Number? && f.id == id then [f.value] else []) + Numbers(rest, id)
    ensures Numbers([f], id) == if f.Number? && f.id == id then [f.value] else []
  {
    assert ([f] + rest)[1..] == rest;
    assert [f][1..] == [];
  }

  lemma {:induction false} StringsOfItems(id: nat, pieces: seq<string>, other: nat)
    ensures Strings(Items(id, pieces), other) == if other == id then pieces else []
  {
    if pieces != [] {
      var p, rest := pieces[0], pieces[1..];
      StringsOfItems(id, rest, other);
      StringsCons(Bytes(id, p), Items(id, rest), other);
      assert Items(id, pieces) == [Bytes(id, p)] + Items(id, rest);
      assert pieces == [p] + rest;
      assert [] + Strings(Items(id, rest), other) == Strings(Items(id, rest), other);
    }
  }

  // ------------------------------------------------------------------
  // Round trips, from the inside out
  // ------------------------------------------------------------------

  ghost predicate Local(name: string) {
    '.' !in name
  }

  lemma LocalNameReads(name: string, package: Option<string>)
    requires Local(name)
    ensures LocalName(TypeName(name, package), package) == Some(name)
  {
    var q := TypeName(name, package);
    if package.Some? {
      assert q[|package.value| + 2..] == name;
    } else {
      assert q[1..] == name;
    }
  }

  ghost predicate LocalField(f: FieldDef) {
    (f.ty.Message? || f.ty.RepeatedMessage?) ==> Local(f.ty.name)
  }

  lemma TypeReads(ty: FieldType, package: Option<string>)
    requires (ty.Message? || ty.RepeatedMessage?) ==> Local(ty.name)
    ensures var names := if ty.Single? || ty.Repeated? then [] else [TypeName(ty.name, package)];
      ReadType(Label(ty), TypeNumber(ty), names, package) == Some(ty)
  {
    if ty.Message? || ty.RepeatedMessage? { LocalNameReads(ty.name, package); }
  }

  lemma FieldStrings(f: FieldDef, package: Option<string>, id: nat)
    requires id == 1 || id == 6
    ensures Strings(FieldRecord(f, package), id) ==
      if id == 1 then [f.name] else if f.ty.Single? || f.ty.Repeated? then [] else [TypeName(f.ty.name, package)]
  {
    var json := [Bytes(10, JsonFrom(f.name, false))];
    var e := TypeNameItem(f.ty, package);
    var d := [Number(5, TypeNumber(f.ty))] + (e + json);
    var c := [Number(4, Label(f.ty))] + d;
    var b := [Number(3, f.number)] + c;
    StringsCons(Bytes(1, f.name), b, id);
    StringsCons(Number(3, f.number), c, id);
    StringsCons(Number(4, Label(f.ty)), d, id);
    StringsCons(Number(5, TypeNumber(f.ty)), e + json, id);
    StringsConcat(e, json, id);
    StringsCons(json[0], [], id);
    if e != [] { StringsCons(e[0], [], id); }
  }

  lemma FieldNumbers(f: FieldDef, package: Option<string>, id: nat)
    requires 3 <= id <= 5
    ensures Numbers(FieldRecord(f, package), id) ==
      [if id == 3 then f.number else if id == 4 then Label(f.ty) else TypeNumber(f.ty)]
  {
    var json := [Bytes(10, JsonFrom(f.name, false))];
    var e := TypeNameItem(f.ty, package);
    var d := [Number(5, TypeNumber(f.ty))] + (e + json);
    var c := [Number(4, Label(f.ty))] + d;
    var b := [Number(3, f.number)] + c;
    NumbersCons(Bytes(1, f.name), b, id);
    NumbersCons(Number(3, f.number), c, id);
    NumbersCons(Number(4, Label(f.ty)), d, id);
    NumbersCons(Number(5, TypeNumber(f.ty)), e + json, id);
    NumbersConcat(e, json, id);
    NumbersCons(json[0], [], id);
    if e != [] { NumbersCons(e[0], [], id); }
  }

  lemma FieldReads(f: FieldDef, package: Option<string>)
    requires LocalField(f)
    ensures FieldFrom(FieldRecord(f, package), package) == Some(f)
  {
    FieldStrings(f, package, 1);
    FieldStrings(f, package, 6);
    FieldNumbers(f, package, 3);
    FieldNumbers(f, package, 4);
    FieldNumbers(f, package, 5);
    TypeReads(f.ty, package);
  }

  /** If each record reads back to its element, the list of encoded records reads back to the list. */
  lemma {:induction false} EachReads<T(!new)>(read: seq<Field> -> Option<T>, record: T -> seq<Field>, xs: seq<T>)
    requires forall i :: 0 <= i < |xs| ==> read(record(xs[i])) == Some(xs[i])
    ensures Each(read, Pieces(record, xs)) == Some(xs)
  {
    if xs != [] {
      FieldsRoundTrip(record(xs[0]));
      EachReads(read, record, xs[1..]);
      var rest := Pieces(record, xs[1..]);
      assert ([WriteAll(record(xs[0]))] + rest)[1..] == rest;
      assert [xs[0]] + xs[1..] == xs;
    }
  }

  lemma {:induction false} PiecesAt<T>(record: T -> seq<Field>, xs: seq<T>, i: nat)
    requires i < |xs|
    ensures Pieces(record, xs[..i + 1]) == Pieces(record, xs[..i]) + [WriteAll(record(xs[i]))]
  {
    if i == 0 {
      assert xs[..1][1..] == [];
    } else {
      PiecesAt(record, xs[1..], i - 1);
      assert xs[..i + 1][1..] == xs[1..][..i] && xs[..i][1..] == xs[1..][..i - 1];
    }
  }

  ghost predicate LocalMessage(m: MessageDef) {
    forall i :: 0 <= i < |m.fields| ==> LocalField(m.fields[i])
  }

  lemma NamedItems(name: string, pieces: seq<string>)
    ensures var record := [Bytes(1, name)] + Items(2, pieces);
      Strings(record, 1) == [name] && Strings(record, 2) == pieces
  {
    StringsCons(Bytes(1, name), Items(2, pieces), 1);
    StringsCons(Bytes(1, name), Items(2, pieces), 2);
    StringsOfItems(2, pieces, 1);
    StringsOfItems(2, pieces, 2);
  }

  lemma MessageReads(m: MessageDef, package: Option<string>)
    requires LocalMessage(m)
    ensures MessageFrom(MessageRecord(m, package), package) == Some(m)
  {
    NamedItems(m.name, Pieces(FieldWriter(package), m.fields));
    forall i | 0 <= i < |m.fields| ensures FieldReader(package)(FieldWriter(package)(m.fields[i])) == Some(m.fields[i]) {
      FieldReads(m.fields[i], package);
    }
    EachReads(FieldReader(package), FieldWriter(package), m.fields);
  }

  ghost predicate LocalRpc(rpc: Rpc) {
    Local(rpc.request) && Local(rpc.response)
  }

  lemma RpcParts(rpc: Rpc, package: Option<string>)
    ensures var record := RpcRecord(rpc, package);
      Strings(record, 1) == [rpc.name] && Strings(record, 2) == [TypeName(rpc.request, package)] &&
      Strings(record, 3) == [TypeName(rpc.response, package)] &&
      (Numbers(record, 6) == [1] <==> rpc.serverStreaming)
  {
    var flag := if rpc.serverStreaming then [Number(6, 1)] else [];
    var c := [Bytes(3, TypeName(rpc.response, package))] + flag;
    var b := [Bytes(2, TypeName(rpc.request, package))] + c;
    if rpc.serverStreaming {
      assert flag[1..] == [];
    }
    forall id: nat ensures Strings(flag, id) == [] {
      if rpc.serverStreaming { StringsCons(flag[0], [], id); }
    }
    forall id | 1 <= id <= 3
      ensures Strings(RpcRecord(rpc, package), id) ==
        [if id == 1 then rpc.name else TypeName(if id == 2 then rpc.request else rpc.response, package)]
    {
      StringsCons(Bytes(1, rpc.name), b, id);
      StringsCons(Bytes(2, TypeName(rpc.request, package)), c, id);
      StringsCons(Bytes(3, TypeName(rpc.response, package)), flag, id);
    }
    NumbersCons(Bytes(1, rpc.name), b, 6);
    NumbersCons(Bytes(2, TypeName(rpc.request, package)), c, 6);
    NumbersCons(Bytes(3, TypeName(rpc.response, package)), flag, 6);
  }

  lemma RpcReads(rpc: Rpc, package: Option<string>)
    requires LocalRpc(rpc)
    ensures RpcFrom(RpcRecord(rpc, package), package) == Some(rpc)
  {
    RpcParts(rpc, package);
    LocalNameReads(rpc.request, package);
    LocalNameReads(rpc.response, package);
  }

  ghost predicate LocalService(s: Service) {
    forall i :: 0 <= i < |s.rpcs| ==> LocalRpc(s.rpcs[i])
  }

  lemma ServiceReads(s: Service, package: Option<string>)
    requires LocalService(s)
    ensures ServiceFrom(ServiceRecord(s, package), package) == Some(s)
  {
    NamedItems(s.name, Pieces(RpcWriter(package), s.rpcs));
    forall i | 0 <= i < |s.rpcs| ensures RpcReader(package)(RpcWriter(package)(s.rpcs[i])) == Some(s.rpcs[i]) {
      RpcReads(s.rpcs[i], package);
    }
    EachReads(RpcReader(package), RpcWriter(package), s.rpcs);
  }

  ghost predicate LocalFile(file: ProtoFile) {
    (forall i :: 0 <= i < |file.messages| ==> LocalMessage(file.messages[i])) &&
    (forall i :: 0 <= i < |file.services| ==> LocalService(file.services[i]))
  }

  lemma BodyStrings(messages: seq<string>, services: seq<string>, id: nat)
    ensures Strings(Items(4, messages) + (Items(6, services) + [Bytes(12, "proto3")]), id) ==
      if id == 4 then messages else if id == 6 then services else if id == 12 then ["proto3"] else []
  {
    var syntax := [Bytes(12, "proto3")];
    StringsConcat(Items(4, messages), Items(6, services) + syntax, id);
    StringsConcat(Items(6, services), syntax, id);
    StringsCons(syntax[0], [], id);
    StringsOfItems(4, messages, id);
    StringsOfItems(6, services, id);
  }

  lemma PackageStrings(package: Option<string>, rest: seq<Field>, id: nat)
    ensures Strings(PackageItem(package) + rest, id) ==
      (if id == 2 && package.Some? then [package.value] else []) + Strings(rest, id)
  {
    StringsConcat(PackageItem(package), rest, id);
    if package.Some? { StringsCons(Bytes(2, package.value), [], id); }
  }

  lemma FileStrings(fileName: string, file: ProtoFile, id: nat)
    ensures var messages := Pieces(MessageWriter(file.package), file.messages);
      var services := Pieces(ServiceWriter(file.package), file.services);
      Strings(FileRecord(fileName, file), id) ==
        if id == 1 then [fileName]
        else if id == 2 then if file.package.Some? then [file.package.value] else []
        else if id == 4 then messages else if id == 6 then services else if id == 12 then ["proto3"] else []
  {
    var messages := Pieces(MessageWriter(file.package), file.messages);
    var services := Pieces(ServiceWriter(file.package), file.services);
    var body := Items(4, messages) + (Items(6, services) + [Bytes(12, "proto3")]);
    StringsCons(Bytes(1, fileName), PackageItem(file.package) + body, id);
    PackageStrings(file.package, body, id);
    BodyStrings(messages, services, id);
  }

  lemma AllMessagesRead(messages: seq<MessageDef>, package: Option<string>)
    requires forall i :: 0 <= i < |messages| ==> LocalMessage(messages[i])
    ensures Each(MessageReader(package), Pieces(MessageWriter(package), messages)) == Some(messages)
  {
    forall i | 0 <= i < |messages| ensures MessageReader(package)(MessageWriter(package)(messages[i])) == Some(messages[i]) {
      MessageReads(messages[i], package);
    }
    EachReads(MessageReader(package), MessageWriter(package), messages);
  }

  lemma AllServicesRead(services: seq<Service>, package: Option<string>)
    requires forall i :: 0 <= i < |services| ==> LocalService(services[i])
    ensures Each(ServiceReader(package), Pieces(ServiceWriter(package), services)) == Some(services)
  {
    forall i | 0 <= i < |services| ensures ServiceReader(package)(ServiceWriter(package)(services[i])) == Some(services[i]) {
      ServiceReads(services[i], package);
    }
    EachReads(ServiceReader(package), ServiceWriter(package), services);
  }

  /** Every file whose type references are plain names is recovered from its descriptor. */
  lemma DescriptorRoundTrip(fileName: string, file: ProtoFile)
    requires LocalFile(file)
    ensures ReadDescriptor(WriteAll(FileRecord(fileName, file))) == Some((fileName, file))
  {
    FieldsRoundTrip(FileRecord(fileName, file));
    FileStrings(fileName, file, 1);
    FileStrings(fileName, file, 2);
    FileStrings(fileName, file, 4);
    FileStrings(fileName, file, 6);
    FileStrings(fileName, file, 12);
    AllMessagesRead(file.messages, file.package);
    AllServicesRead(file.services, file.package);
  }

  // ------------------------------------------------------------------
  // The code that writes them
  // ------------------------------------------------------------------

  /** The field part of `encode_message`. */
  method EncodeField(f: FieldDef, package: Option<string>) returns (bytes: string)
    ensures bytes == WriteAll(FieldRecord(f, package))
  {
    var encoded := new Writer();
    encoded.PutBytes(1, f.name);
    encoded.PutNumber(3, f.number);
    encoded.PutNumber(4, Label(f.ty));
    encoded.PutNumber(5, TypeNumber(f.ty));
    if f.ty.Message? || f.ty.RepeatedMessage? {
      encoded.PutBytes(6, TypeName(f.ty.name, package));
    }
    var json := JsonName(f.name);
    encoded.PutBytes(10, json);
    assert encoded.record == FieldRecord(f, package);
    return encoded.bytes;
  }

  lemma ItemsSnoc(id: nat, pieces: seq<string>, piece: string)
    ensures Items(id, pieces + [piece]) == Items(id, pieces) + [Bytes(id, piece)]
  {
    if pieces == [] {
      assert pieces + [piece] == [piece];
      assert [piece][1..] == [];
    } else {
      ItemsSnoc(id, pieces[1..], piece);
      assert (pieces + [piece])[1..] == pieces[1..] + [piece];
    }
  }

  /** `encode_message` */
  method EncodeMessage(m: MessageDef, package: Option<string>) returns (bytes: string)
    ensures bytes == WriteAll(MessageRecord(m, package))
  {
    var out := new Writer();
    out.PutBytes(1, m.name);
    for i := 0 to |m.fields|
      invariant out.Valid() && out.record == [Bytes(1, m.name)] + Items(2, Pieces(FieldWriter(package), m.fields[..i]))
    {
      var encoded := EncodeField(m.fields[i], package);
      out.PutBytes(2, encoded);
      PiecesAt(FieldWriter(package), m.fields, i);
      ItemsSnoc(2, Pieces(FieldWriter(package), m.fields[..i]), encoded);
      Regroup([Bytes(1, m.name)], Items(2, Pieces(FieldWriter(package), m.fields[..i])), [Bytes(2, encoded)]);
    }
    assert m.fields[..|m.fields|] == m.fields;
    return out.bytes;
  }

  /** The method part of `encode_service`. */
  method EncodeRpc(rpc: Rpc, package: Option<string>) returns (bytes: string)
    ensures bytes == WriteAll(RpcRecord(rpc, package))
  {
    var encoded := new Writer();
    encoded.PutBytes(1, rpc.name);
    encoded.PutBytes(2, TypeName(rpc.request, package));
    encoded.PutBytes(3, TypeName(rpc.response, package));
    if rpc.serverStreaming {
      encoded.PutNumber(6, 1);
    }
    assert encoded.record == RpcRecord(rpc, package);
    return encoded.bytes;
  }

  /** `encode_service` */
  method EncodeService(s: Service, package: Option<string>) returns (bytes: string)
    ensures bytes == WriteAll(ServiceRecord(s, package))
  {
    var out := new Writer();
    out.PutBytes(1, s.name);
    for i := 0 to |s.rpcs|
      invariant out.Valid() && out.record == [Bytes(1, s.name)] + Items(2, Pieces(RpcWriter(package), s.rpcs[..i]))
    {
      var encoded := EncodeRpc(s.rpcs[i], package);
      out.PutBytes(2, encoded);
      PiecesAt(RpcWriter(package), s.rpcs, i);
      ItemsSnoc(2, Pieces(RpcWriter(package), s.rpcs[..i]), encoded);
      Regroup([Bytes(1, s.name)], Items(2, Pieces(RpcWriter(package), s.rpcs[..i])), [Bytes(2, encoded)]);
    }
    assert s.rpcs[..|s.rpcs|] == s.rpcs;
    return out.bytes;
  }

  /** The messages part of `encode_file_descriptor`. */
  method PutMessages(out: Writer, file: ProtoFile)
    requires out.Valid()
    modifies out
    ensures out.Valid() && out.record == old(out.record) + Items(4, Pieces(MessageWriter(file.package), file.messages))
  {
    for i := 0 to |file.messages|
      invariant out.Valid()
      invariant out.record == old(out.record) + Items(4, Pieces(MessageWriter(file.package), file.messages[..i]))
    {
      var encoded := EncodeMessage(file.messages[i], file.package);
      out.PutBytes(4, encoded);
      PiecesAt(MessageWriter(file.package), file.messages, i);
      ItemsSnoc(4, Pieces(MessageWriter(file.package), file.messages[..i]), encoded);
      Regroup(old(out.record), Items(4, Pieces(MessageWriter(file.package), file.messages[..i])), [Bytes(4, encoded)]);
    }
    assert file.messages[..|file.messages|] == file.messages;
  }

  /** The services part of `encode_file_descriptor`. */
  method PutServices(out: Writer, file: ProtoFile)
    requires out.Valid()
    modifies out
    ensures out.Valid() && out.record == old(out.record) + Items(6, Pieces(ServiceWriter(file.package), file.services))
  {
    for i := 0 to |file.services|
      invariant out.Valid()
      invariant out.record == old(out.record) + Items(6, Pieces(ServiceWriter(file.package), file.services[..i]))
    {
      var encoded := EncodeService(file.services[i], file.package);
      out.PutBytes(6, encoded);
      PiecesAt(ServiceWriter(file.package), file.services, i);
      ItemsSnoc(6, Pieces(ServiceWriter(file.package), file.services[..i]), encoded);
      Regroup(old(out.record), Items(6, Pieces(ServiceWriter(file.package), file.services[..i])), [Bytes(6, encoded)]);
    }
    assert file.services[..|file.services|] == file.services;
  }

  /** `encode_file_descriptor` */
  method EncodeFileDescriptor(fileName: string, file: ProtoFile) returns (bytes: string)
    ensures bytes == WriteAll(FileRecord(fileName, file))
  {
    var out := new Writer();
    PutNames(out, fileName, file.package);
    PutMessages(out, file);
    PutServices(out, file);
    out.PutBytes(12, "proto3");
    Flatten([Bytes(1, fileName)], PackageItem(file.package), Items(4, Pieces(MessageWriter(file.package), file.messages)),
            Items(6, Pieces(ServiceWriter(file.package), file.services)), [Bytes(12, "proto3")]);
    return out.bytes;
  }

  method PutNames(out: Writer, fileName: string, package: Option<string>)
    requires out.Valid() && out.record == []
    modifies out
    ensures out.Valid() && out.record == [Bytes(1, fileName)] + PackageItem(package)
  {
    out.PutBytes(1, fileName);
    if package.Some? {
      out.PutBytes(2, package.value);
    }
  }

  lemma Regroup(a: seq<Field>, b: seq<Field>, c: seq<Field>)
    ensures a + b + c == a + (b + c)
  {
  }

  lemma Flatten(a: seq<Field>, b: seq<Field>, c: seq<Field>, d: seq<Field>, e: seq<Field>)
    ensures a + b + c + d + e == a + (b + (c + (d + e)))
  {
  }
}
