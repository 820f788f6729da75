/**
  The protobuf wire helpers of the build script (build.rs): varints, tags and
  length-delimited fields, appended to a byte vector, and a reader of the same
  format. One character stands for one byte.
 */
module ProtoWire {
  import opened Basics

  /** A record is a list of numbered fields of two kinds. */
  datatype Field =
    | Number(id: nat, value: nat)
    | Bytes(id: nat, bytes: string)

  // ------------------------------------------------------------------
  // Writing
  // ------------------------------------------------------------------

  function Varint(value: nat): (s: string)
    ensures s != ""
  {
    if value < 128 then [value as char] else [(value % 128 + 128) as char] + Varint(value / 128)
  }

  function Tag(id: nat, wire: nat): string
    requires wire < 8
  {
    Varint(8 * id + wire)
  }

  function Write(field: Field): (s: string)
    ensures s != ""
  {
    match field
    case Number(id, value) => Tag(id, 0) + Varint(value)
    case Bytes(id, bytes) => Tag(id, 2) + Varint(|bytes|) + bytes
  }

  function WriteAll(fields: seq<Field>): string {
    Flat(Write, fields)
  }

  /** One piece per field, end to end. */
  function Flat(piece: Field -> string, fields: seq<Field>): string {
    if fields == [] then "" else piece(fields[0]) + Flat(piece, fields[1..])
  }

  /** The byte vector the helpers append to, and the fields it holds. */
  class Writer {
    var bytes: string
    ghost var record: seq<Field>

    ghost predicate Valid()
      reads this
    {
      bytes == WriteAll(record)
    }

    constructor ()
      ensures Valid() && record == []
    {
      bytes := "";
      record := [];
    }

    /** `pb_varint` */
    method PutVarint(value: nat)
      modifies this`bytes
      ensures bytes == old(bytes) + Varint(value)
    {
      var left := value;
      while left >= 128
        invariant bytes + Varint(left) == old(bytes) + Varint(value)
      {
        Shift(bytes, left);
        bytes := bytes + [(left % 128 + 128) as char];
        left := left / 128;
      }
      bytes := bytes + [left as char];
    }

    /** `pb_tag` */
    method PutTag(id: nat, wire: nat)
      requires wire < 8
      modifies this`bytes
      ensures bytes == old(bytes) + Tag(id, wire)
    {
      PutVarint(8 * id + wire);
    }

    /** `pb_varint_field` */
    method PutNumber(id: nat, value: nat)
      requires Valid()
      modifies this
      ensures Valid() && record == old(record) + [Number(id, value)]
    {
      PutTag(id, 0);
      PutVarint(value);
      Assoc(old(bytes), Tag(id, 0), Varint(value));
      WriteSnoc(record, Number(id, value));
      record := record + [Number(id, value)];
    }

    /** `pb_bytes_field`, and with it `pb_string_field` and `pb_message_field` */
    method PutBytes(id: nat, value: string)
      requires Valid()
      modifies this
      ensures Valid() && record == old(record) + [Bytes(id, value)]
    {
      PutTag(id, 2);
      PutVarint(|value|);
      bytes := bytes + value;
      Assoc(old(bytes), Tag(id, 2), Varint(|value|));
      Assoc(old(bytes), Tag(id, 2) + Varint(|value|), value);
      WriteSnoc(record, Bytes(id, value));
      record := record + [Bytes(id, value)];
    }
  }

  lemma Shift(out: string, value: nat)
    requires value >= 128
    ensures out + Varint(value) == out + [(value % 128 + 128) as char] + Varint(value / 128)
  {
  }

  // ------------------------------------------------------------------
  // Reading
  // ------------------------------------------------------------------

  function ReadVarint(s: string): (r: Option<(nat, string)>)
    ensures r.Some? ==> |r.value.1| < |s|
  {
    if s == "" then None
    else if s[0] as int < 128 then Some((s[0] as int, s[1..]))
    else
      match ReadVarint(s[1..])
      case None => None
      case Some((high, rest)) => Some((s[0] as int - 128 + 128 * high, rest))
  }

  function ReadField(s: string): (r: Option<(Field, string)>)
    ensures r.Some? ==> |r.value.1| < |s|
  {
    match ReadVarint(s)
    case None => None
    case Some((tag, after)) =>
      match ReadVarint(after)
      case None => None
      case Some((n, rest)) =>
        if tag % 8 == 0 then Some((Number(tag / 8, n), rest))
        else if tag % 8 == 2 && n <= |rest| then Some((Bytes(tag / 8, rest[..n]), rest[n..]))
        else None
  }

  function ReadAll(s: string): Option<seq<Field>>
    decreases |s|
  {
    if s == "" then Some([])
    else
      match ReadField(s)
      case None => None
      case Some((field, rest)) =>
        match ReadAll(rest)
        case None => None
        case Some(fields) => Some([field] + fields)
  }

  lemma {:induction false} VarintReads(value: nat, x: string)
    ensures ReadVarint(Varint(value) + x) == Some((value, x))
  {
    var s := Varint(value) + x;
    if value < 128 {
      assert s[1..] == x;
    } else {
      VarintReads(value / 128, x);
      assert s[1..] == Varint(value / 128) + x;
      assert value == value % 128 + 128 * (value / 128);
    }
  }

  lemma TagSplits(id: nat, wire: nat)
    requires wire < 8
    ensures (8 * id + wire) / 8 == id && (8 * id + wire) % 8 == wire
  {
  }

  lemma FieldReads(field: Field, x: string)
    ensures ReadField(Write(field) + x) == Some((field, x))
  {
    match field
    case Number(id, value) =>
      TagSplits(id, 0);
      assert Write(field) + x == Tag(id, 0) + (Varint(value) + x);
      VarintReads(8 * id, Varint(value) + x);
      VarintReads(value, x);
    case Bytes(id, bytes) =>
      TagSplits(id, 2);
      var rest := bytes + x;
      assert Write(field) + x == Tag(id, 2) + (Varint(|bytes|) + rest);
      VarintReads(8 * id + 2, Varint(|bytes|) + rest);
      VarintReads(|bytes|, rest);
      assert rest[..|bytes|] == bytes && rest[|bytes|..] == x;
  }

  lemma Assoc(a: string, b: string, c: string)
    ensures a + b + c == a + (b + c)
  {
  }

  lemma FlatFirst(piece: Field -> string, field: Field, fields: seq<Field>)
    ensures Flat(piece, [field] + fields) == piece(field) + Flat(piece, fields)
  {
    assert ([field] + fields)[1..] == fields;
  }

  lemma {:induction false} FlatConcat(piece: Field -> string, a: seq<Field>, b: seq<Field>)
    ensures Flat(piece, a + b) == Flat(piece, a) + Flat(piece, b)
    decreases a
  {
    if a == [] {
      assert a + b == b;
    } else {
      FlatConcat(piece, a[1..], b);
      assert (a + b)[1..] == a[1..] + b;
      Assoc(piece(a[0]), Flat(piece, a[1..]), Flat(piece, b));
    }
  }

  lemma WriteFirst(field: Field, fields: seq<Field>)
    ensures WriteAll([field] + fields) == Write(field) + WriteAll(fields)
  {
    FlatFirst(Write, field, fields);
  }

  lemma WriteConcat(a: seq<Field>, b: seq<Field>)
    ensures WriteAll(a + b) == WriteAll(a) + WriteAll(b)
  {
    FlatConcat(Write, a, b);
  }

  lemma WriteSnoc(fields: seq<Field>, field: Field)
    ensures WriteAll(fields + [field]) == WriteAll(fields) + Write(field)
  {
    WriteConcat(fields, [field]);
    FlatFirst(Write, field, []);
    assert [field] + [] == [field];
  }

  /** Whatever fields are written, the same fields are read. */
  lemma {:induction false} FieldsRoundTrip(fields: seq<Field>)
    ensures ReadAll(WriteAll(fields)) == Some(fields)
  {
    if fields != [] {
      var rest := fields[1..];
      assert fields == [fields[0]] + rest;
      WriteFirst(fields[0], rest);
      FieldReads(fields[0], WriteAll(rest));
      FieldsRoundTrip(rest);
    }
  }
}
