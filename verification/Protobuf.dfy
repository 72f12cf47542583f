/** The bounded decoder of the two host workers, for messages of the Protocol
  * Buffers Encoding specification ("Base 128 Varints", "Message Structure"). */
module Protobuf {
  import opened Wrappers

  type Byte = b: int | 0 <= b < 256 witness 0
  type Bytes = seq<Byte>

  datatype Error = Truncated | Size | Overlong | BadField | BadWire

  datatype Result<+T> = Ok(value: T) | Err(error: Error)

  /** A field's value: a varint, or the bytes of a fixed or delimited field. */
  datatype Value = Number(n: nat) | Data(bytes: Bytes)

  type Fields = map<nat, Value>

  // -------------------------------------------------------------- varints

  /** A read value and where reading stopped. */
  datatype Varint = Varint(value: nat, next: nat)

  /** Reads a varint of which k bytes were read already; ten are allowed. */
  function ReadVarint(raw: Bytes, pos: nat, k: nat): (r: Result<Varint>)
    requires pos <= |raw| && k <= 10
    ensures r.Ok? ==> pos < r.value.next <= |raw| && r.value.next - pos + k <= 10
    decreases 10 - k
  {
    if k == 10 then Err(Overlong)
    else if pos == |raw| then Err(Truncated)
    else if raw[pos] < 128 then Ok(Varint(raw[pos], pos + 1))
    else
      match ReadVarint(raw, pos + 1, k + 1)
      case Err(e) => Err(e)
      case Ok(rest) => Ok(Varint(raw[pos] - 128 + 128 * rest.value, rest.next))
  }

  function EncodeVarint(n: nat): (bytes: Bytes)
    ensures |bytes| >= 1
  {
    if n < 128 then [n] else [128 + n % 128] + EncodeVarint(n / 128)
  }

  /** 128 to the k. */
  function Scale(k: nat): (s: nat)
    ensures s >= 1
  {
    if k == 0 then 1 else 128 * Scale(k - 1)
  }

  lemma {:induction false} EncodedLength(n: nat, k: nat)
    requires k >= 1 && n < Scale(k)
    ensures |EncodeVarint(n)| <= k
  {
    if n >= 128 {
      assert Scale(1) == 128;
      EncodedLength(n / 128, k - 1);
    }
  }

  /** These bytes stand at this position. */
  predicate Stands(raw: Bytes, pos: nat, bytes: Bytes) {
    pos + |bytes| <= |raw| && raw[pos..pos + |bytes|] == bytes
  }

  lemma StandSplits(raw: Bytes, pos: nat, a: Bytes, b: Bytes)
    requires Stands(raw, pos, a + b)
    ensures Stands(raw, pos, a) && Stands(raw, pos + |a|, b)
  {
    assert raw[pos..pos + |a|] == (a + b)[..|a|] == a;
    assert raw[pos + |a|..pos + |a| + |b|] == (a + b)[|a|..] == b;
  }

  lemma FirstStands(raw: Bytes, pos: nat, b: Byte, rest: Bytes)
    requires Stands(raw, pos, [b] + rest)
    ensures pos < |raw| && raw[pos] == b && Stands(raw, pos + 1, rest)
  {
    StandSplits(raw, pos, [b], rest);
    assert raw[pos..pos + 1][0] == b;
  }

  /** A varint written anywhere is read back. */
  lemma {:induction false} VarintRoundTrip(raw: Bytes, pos: nat, n: nat, k: nat)
    requires Stands(raw, pos, EncodeVarint(n)) && k + |EncodeVarint(n)| <= 10
    ensures ReadVarint(raw, pos, k) == Ok(Varint(n, pos + |EncodeVarint(n)|))
    decreases n
  {
    if n < 128 {
      FirstStands(raw, pos, n, []);
    } else {
      FirstStands(raw, pos, 128 + n % 128, EncodeVarint(n / 128));
      VarintRoundTrip(raw, pos + 1, n / 128, k + 1);
    }
  }

  // --------------------------------------------------------------- fields

  datatype Item = Item(number: nat, value: Value, next: nat)

  /** Reads one field at a position. A delimited or fixed field that exceeds
    * the input is refused with the given error. */
  function ReadItem(raw: Bytes, pos: nat, size: Error): (r: Result<Item>)
    requires pos < |raw|
    ensures r.Ok? ==> pos < r.value.next <= |raw| && r.value.number > 0
  {
    match ReadVarint(raw, pos, 0)
    case Err(e) => Err(e)
    case Ok(tag) =>
      if tag.value / 8 == 0 then Err(BadField) else ReadValue(raw, tag.next, tag.value / 8, tag.value % 8, size)
  }

  function ReadValue(raw: Bytes, pos: nat, number: nat, wire: nat, size: Error): (r: Result<Item>)
    requires pos <= |raw| && wire < 8
    ensures r.Ok? ==> pos <= r.value.next <= |raw| && r.value.number == number
  {
    if wire == 0 then
      match ReadVarint(raw, pos, 0)
      case Err(e) => Err(e)
      case Ok(v) => Ok(Item(number, Number(v.value), v.next))
    else if wire == 1 then ReadData(raw, pos, number, 8, size)
    else if wire == 5 then ReadData(raw, pos, number, 4, size)
    else if wire == 2 then
      match ReadVarint(raw, pos, 0)
      case Err(e) => Err(e)
      case Ok(v) => ReadData(raw, v.next, number, v.value, size)
    else Err(BadWire)
  }

  function ReadData(raw: Bytes, pos: nat, number: nat, length: nat, size: Error): Result<Item>
    requires pos <= |raw|
  {
    if length > |raw| - pos then Err(size) else Ok(Item(number, Data(raw[pos..pos + length]), pos + length))
  }

  /** A repeated number is refused before its value is read. */
  function TagError(raw: Bytes, pos: nat, fields: Fields): Option<Error>
    requires pos < |raw|
  {
    match ReadVarint(raw, pos, 0)
    case Err(e) => Some(e)
    case Ok(tag) => if tag.value / 8 == 0 || tag.value / 8 in fields then Some(BadField) else None
  }

  /** The fields from a position on, added to those already read. */
  function ReadFields(raw: Bytes, pos: nat, fields: Fields, size: Error): Result<Fields>
    requires pos <= |raw|
    decreases |raw| - pos
  {
    if pos == |raw| then Ok(fields)
    else
      match TagError(raw, pos, fields)
      case Some(e) => Err(e)
      case None =>
        match ReadItem(raw, pos, size)
        case Err(e) => Err(e)
        case Ok(i) => ReadFields(raw, i.next, fields[i.number := i.value], size)
  }

  // -------------------------------------------------------------- encoding

  datatype Field = VarintField(number: nat, n: nat) | Fixed64(number: nat, bytes: Bytes)
                 | Delimited(number: nat, bytes: Bytes) | Fixed32(number: nat, bytes: Bytes)

  function WireType(f: Field): nat {
    match f
    case VarintField(_, _) => 0
    case Fixed64(_, _) => 1
    case Delimited(_, _) => 2
    case Fixed32(_, _) => 5
  }

  function ValueOf(f: Field): Value {
    if f.VarintField? then Number(f.n) else Data(f.bytes)
  }

  /** What fits the format: a positive number, ten-byte varints, fixed sizes. */
  predicate Writable(f: Field) {
    && 0 < f.number && 8 * f.number + 7 < Scale(10)
    && match f
       case VarintField(_, n) => n < Scale(10)
       case Fixed64(_, b) => |b| == 8
       case Delimited(_, b) => |b| < Scale(10)
       case Fixed32(_, b) => |b| == 4
  }

  function Body(f: Field): Bytes {
    match f
    case VarintField(_, n) => EncodeVarint(n)
    case Fixed64(_, b) => b
    case Delimited(_, b) => EncodeVarint(|b|) + b
    case Fixed32(_, b) => b
  }

  function EncodeField(f: Field): (bytes: Bytes)
    ensures |bytes| >= 1
  {
    EncodeVarint(8 * f.number + WireType(f)) + Body(f)
  }

  function Encode(fs: seq<Field>): Bytes {
    if fs == [] then [] else EncodeField(fs[0]) + Encode(fs[1..])
  }

  function Message(fs: seq<Field>): Fields {
    if fs == [] then map[] else Message(fs[..|fs| - 1])[fs[|fs| - 1].number := ValueOf(fs[|fs| - 1])]
  }

  predicate DistinctNumbers(fs: seq<Field>) {
    forall i, j :: 0 <= i < j < |fs| ==> fs[i].number != fs[j].number
  }

  lemma NumberRoundTrip(raw: Bytes, pos: nat, n: nat)
    requires n < Scale(10) && Stands(raw, pos, EncodeVarint(n))
    ensures ReadVarint(raw, pos, 0) == Ok(Varint(n, pos + |EncodeVarint(n)|))
  {
    EncodedLength(n, 10);
    VarintRoundTrip(raw, pos, n, 0);
  }

  lemma TagRoundTrip(raw: Bytes, pos: nat, f: Field)
    requires Writable(f) && Stands(raw, pos, EncodeField(f))
    ensures var tag := 8 * f.number + WireType(f); var next := pos + |EncodeVarint(tag)|;
      ReadVarint(raw, pos, 0) == Ok(Varint(tag, next)) && Stands(raw, next, Body(f))
  {
    hide Scale, EncodeVarint, ReadVarint, Body;
    var tag := 8 * f.number + WireType(f);
    StandSplits(raw, pos, EncodeVarint(tag), Body(f));
    NumberRoundTrip(raw, pos, tag);
  }

  /** A written field of a new number is not refused. */
  lemma TagAccepted(raw: Bytes, pos: nat, f: Field, fields: Fields)
    requires Writable(f) && Stands(raw, pos, EncodeField(f)) && pos < |raw| && f.number !in fields
    ensures TagError(raw, pos, fields) == None
  {
    hide Scale, EncodeVarint, ReadVarint, Body;
    TagRoundTrip(raw, pos, f);
  }

  lemma FieldRoundTrip(raw: Bytes, pos: nat, f: Field, size: Error)
    requires Writable(f) && Stands(raw, pos, EncodeField(f)) && pos < |raw|
    ensures ReadItem(raw, pos, size) == Ok(Item(f.number, ValueOf(f), pos + |EncodeField(f)|))
  {
    hide Scale, EncodeVarint, ReadVarint;
    TagRoundTrip(raw, pos, f);
    var next := pos + |EncodeVarint(8 * f.number + WireType(f))|;
    match f
    case VarintField(_, n) => NumberRoundTrip(raw, next, n);
    case Delimited(_, b) =>
      StandSplits(raw, next, EncodeVarint(|b|), b);
      NumberRoundTrip(raw, next, |b|);
    case Fixed64(_, b) =>
    case Fixed32(_, b) =>
  }

  lemma {:induction false} FieldsRoundTrip(raw: Bytes, pos: nat, fs: seq<Field>, i: nat, size: Error)
    requires i <= |fs| && DistinctNumbers(fs) && forall f :: f in fs ==> Writable(f)
    requires pos <= |raw| && Stands(raw, pos, Encode(fs[i..])) && pos + |Encode(fs[i..])| == |raw|
    ensures ReadFields(raw, pos, Message(fs[..i]), size) == Ok(Message(fs))
    decreases |fs| - i
  {
    hide ReadItem, EncodeField, ReadVarint, TagError, Stands, Writable;
    if i == |fs| {
      assert fs[..i] == fs;
    } else {
      var f := fs[i];
      assert fs[i..][1..] == fs[i + 1..];
      StandSplits(raw, pos, EncodeField(f), Encode(fs[i + 1..]));
      FieldRoundTrip(raw, pos, f, size);
      MessageNumbers(fs[..i]);
      TagAccepted(raw, pos, f, Message(fs[..i]));
      assert fs[..i + 1][..i] == fs[..i];
      FieldsRoundTrip(raw, pos + |EncodeField(f)|, fs, i + 1, size);
    }
  }

  lemma {:induction false} MessageNumbers(fs: seq<Field>)
    ensures forall n :: n in Message(fs) <==> exists i :: 0 <= i < |fs| && fs[i].number == n
  {
    if fs != [] {
      MessageNumbers(fs[..|fs| - 1]);
    }
  }

  /** Decoding the encoding of a message gives the message back. */
  lemma RoundTrip(fs: seq<Field>, size: Error)
    requires DistinctNumbers(fs) && forall f :: f in fs ==> Writable(f)
    ensures ReadFields(Encode(fs), 0, map[], size) == Ok(Message(fs))
  {
    assert fs[0..] == fs && Encode(fs)[0..|Encode(fs)|] == Encode(fs);
    FieldsRoundTrip(Encode(fs), 0, fs, 0, size);
  }

  // ------------------------------------------------- what is accepted

  /** The bytes of one field, whatever varint lengths they use. */
  datatype Piece = Piece(bytes: Bytes, number: nat, value: Value)

  predicate Whole(p: Piece) {
    p.bytes != [] && ReadItem(p.bytes, 0, Size) == Ok(Item(p.number, p.value, |p.bytes|))
  }

  function Concat(ps: seq<Piece>): Bytes {
    if ps == [] then [] else ps[0].bytes + Concat(ps[1..])
  }

  predicate NewNumbers(ps: seq<Piece>, fields: Fields)
    decreases |ps|
  {
    if ps == [] then true
    else ps[0].number !in fields && NewNumbers(ps[1..], fields[ps[0].number := ps[0].value])
  }

  function Adopt(fields: Fields, ps: seq<Piece>): Fields
    decreases |ps|
  {
    if ps == [] then fields else Adopt(fields[ps[0].number := ps[0].value], ps[1..])
  }

  /** The pieces read one after another, each whole, no number twice. */
  predicate Parses(raw: Bytes, ps: seq<Piece>) {
    Concat(ps) == raw && NewNumbers(ps, map[]) && forall p :: p in ps ==> Whole(p)
  }

  /** A read value depends on the bytes read alone. */
  lemma {:induction false} VarintIsLocal(raw: Bytes, pos: nat, k: nat, raw': Bytes, pos': nat)
    requires pos <= |raw| && k <= 10 && ReadVarint(raw, pos, k).Ok?
    requires Stands(raw', pos', raw[pos..ReadVarint(raw, pos, k).value.next])
    ensures var v := ReadVarint(raw, pos, k).value;
      ReadVarint(raw', pos', k) == Ok(Varint(v.value, pos' + v.next - pos))
    decreases 10 - k
  {
    hide Stands;
    var next := ReadVarint(raw, pos, k).value.next;
    assert raw[pos..next] == [raw[pos]] + raw[pos + 1..next];
    FirstStands(raw', pos', raw[pos], raw[pos + 1..next]);
    if raw[pos] >= 128 {
      VarintIsLocal(raw, pos + 1, k + 1, raw', pos' + 1);
    }
  }

  lemma DataIsLocal(raw: Bytes, pos: nat, number: nat, length: nat, raw': Bytes, pos': nat, size: Error, size': Error)
    requires pos + length <= |raw| && Stands(raw', pos', raw[pos..pos + length])
    ensures ReadData(raw, pos, number, length, size) == Ok(Item(number, Data(raw[pos..pos + length]), pos + length))
    ensures ReadData(raw', pos', number, length, size') == Ok(Item(number, Data(raw[pos..pos + length]), pos' + length))
  {
  }

  lemma DelimitedIsLocal(raw: Bytes, pos: nat, number: nat, raw': Bytes, pos': nat, size: Error, size': Error)
    requires pos <= |raw| && ReadValue(raw, pos, number, 2, size).Ok?
    requires pos' <= |raw'| && Stands(raw', pos', raw[pos..ReadValue(raw, pos, number, 2, size).value.next])
    ensures var i := ReadValue(raw, pos, number, 2, size).value;
      ReadValue(raw', pos', number, 2, size') == Ok(Item(number, i.value, pos' + i.next - pos))
  {
    hide ReadVarint, Stands;
    var v, next := ReadVarint(raw, pos, 0).value, ReadValue(raw, pos, number, 2, size).value.next;
    assert raw[pos..next] == raw[pos..v.next] + raw[v.next..next];
    StandSplits(raw', pos', raw[pos..v.next], raw[v.next..next]);
    VarintIsLocal(raw, pos, 0, raw', pos');
    DataIsLocal(raw, v.next, number, v.value, raw', pos' + v.next - pos, size, size');
  }

  lemma ValueIsLocal(raw: Bytes, pos: nat, number: nat, wire: nat, raw': Bytes, pos': nat, size: Error, size': Error)
    requires pos <= |raw| && wire < 8 && ReadValue(raw, pos, number, wire, size).Ok?
    requires pos' <= |raw'| && Stands(raw', pos', raw[pos..ReadValue(raw, pos, number, wire, size).value.next])
    ensures var i := ReadValue(raw, pos, number, wire, size).value;
      ReadValue(raw', pos', number, wire, size') == Ok(Item(number, i.value, pos' + i.next - pos))
  {
    hide ReadVarint, Stands;
    if wire == 0 {
      VarintIsLocal(raw, pos, 0, raw', pos');
    } else if wire == 2 {
      DelimitedIsLocal(raw, pos, number, raw', pos', size, size');
    } else {
      DataIsLocal(raw, pos, number, if wire == 1 then 8 else 4, raw', pos', size, size');
    }
  }

  lemma ItemIsLocal(raw: Bytes, pos: nat, raw': Bytes, pos': nat, size: Error, size': Error)
    requires pos < |raw| && pos' < |raw'| && ReadItem(raw, pos, size).Ok?
    requires Stands(raw', pos', raw[pos..ReadItem(raw, pos, size).value.next])
    ensures var i := ReadItem(raw, pos, size).value;
      ReadItem(raw', pos', size') == Ok(Item(i.number, i.value, pos' + i.next - pos))
      && ReadVarint(raw', pos', 0).Ok? && ReadVarint(raw', pos', 0).value.value / 8 == i.number
  {
    hide ReadVarint, ReadValue, Stands;
    var tag, next := ReadVarint(raw, pos, 0).value, ReadItem(raw, pos, size).value.next;
    assert raw[pos..next] == raw[pos..tag.next] + raw[tag.next..next];
    StandSplits(raw', pos', raw[pos..tag.next], raw[tag.next..next]);
    VarintIsLocal(raw, pos, 0, raw', pos');
    ValueIsLocal(raw, tag.next, tag.value / 8, tag.value % 8, raw', pos' + tag.next - pos, size, size');
  }

  lemma {:induction false} AcceptedParses(raw: Bytes, pos: nat, fields: Fields, size: Error) returns (ps: seq<Piece>)
    requires pos <= |raw| && ReadFields(raw, pos, fields, size).Ok?
    ensures Concat(ps) == raw[pos..] && NewNumbers(ps, fields) && forall p :: p in ps ==> Whole(p)
    ensures ReadFields(raw, pos, fields, size) == Ok(Adopt(fields, ps))
    decreases |raw| - pos
  {
    hide ReadItem, ReadVarint;
    if pos == |raw| {
      return [];
    }
    var i := ReadItem(raw, pos, size).value;
    var p := Piece(raw[pos..i.next], i.number, i.value);
    ReadIsWhole(raw, pos, size);
    var rest := AcceptedParses(raw, i.next, fields[i.number := i.value], size);
    ps := [p] + rest;
    assert ps[1..] == rest && raw[pos..] == raw[pos..i.next] + raw[i.next..];
  }

  lemma TagIsItems(raw: Bytes, pos: nat, size: Error)
    requires pos < |raw| && ReadItem(raw, pos, size).Ok?
    ensures ReadVarint(raw, pos, 0).Ok? && ReadVarint(raw, pos, 0).value.value / 8 == ReadItem(raw, pos, size).value.number
  {
  }

  lemma ReadIsWhole(raw: Bytes, pos: nat, size: Error)
    requires pos < |raw| && ReadItem(raw, pos, size).Ok?
    ensures var i := ReadItem(raw, pos, size).value; Whole(Piece(raw[pos..i.next], i.number, i.value))
    ensures ReadVarint(raw, pos, 0).Ok? && ReadVarint(raw, pos, 0).value.value / 8 == ReadItem(raw, pos, size).value.number
  {
    hide ReadItem, ReadVarint;
    var bytes := raw[pos..ReadItem(raw, pos, size).value.next];
    assert bytes[0..|bytes|] == bytes;
    TagIsItems(raw, pos, size);
    ItemIsLocal(raw, pos, bytes, 0, size, Size);
  }

  lemma {:induction false} ParsedIsAccepted(raw: Bytes, pos: nat, fields: Fields, ps: seq<Piece>, size: Error)
    requires pos <= |raw| && raw[pos..] == Concat(ps) && NewNumbers(ps, fields) && forall p :: p in ps ==> Whole(p)
    ensures ReadFields(raw, pos, fields, size) == Ok(Adopt(fields, ps))
    decreases |ps|
  {
    hide ReadItem, ReadVarint;
    if ps != [] {
      var p := ps[0];
      assert Whole(p);
      assert raw[pos..] == raw[pos..][..|p.bytes|] + raw[pos..][|p.bytes|..];
      assert raw[pos..pos + |p.bytes|] == p.bytes == p.bytes[0..|p.bytes|];
      assert raw[pos + |p.bytes|..] == Concat(ps[1..]);
      ItemIsLocal(p.bytes, 0, raw, pos, Size, size);
      ParsedIsAccepted(raw, pos + |p.bytes|, fields[p.number := p.value], ps[1..], size);
    }
  }

  /** An input is accepted exactly when it is, to the last byte, a sequence of
    * whole fields with distinct positive numbers. */
  lemma AcceptedIffParses(raw: Bytes, size: Error)
    ensures ReadFields(raw, 0, map[], size).Ok? <==> exists ps :: Parses(raw, ps)
  {
    if ReadFields(raw, 0, map[], size).Ok? {
      var ps := AcceptedParses(raw, 0, map[], size);
      assert Parses(raw, ps);
    }
    if ps :| Parses(raw, ps) {
      ParsedIsAccepted(raw, 0, map[], ps, size);
    }
  }

  // ------------------------------------------------------------- the loops

  /** The varint loop: ten bytes at most, seven bits each. */
  method DecodeVarint(raw: Bytes, start: nat) returns (r: Result<Varint>)
    requires start <= |raw|
    ensures r == ReadVarint(raw, start, 0)
  {
    hide Shifted, ReadVarint;
    Unshifted(ReadVarint(raw, start, 0));
    var value: nat, pos: nat, scale: nat := 0, start, 1;
    for k := 0 to 10
      invariant pos == start + k <= |raw|
      invariant ReadVarint(raw, start, 0) == Shifted(value, scale, ReadVarint(raw, pos, k))
    {
      ShiftStep(raw, pos, k, value, scale);
      if pos >= |raw| {
        return Err(Truncated);
      }
      var b: int := raw[pos];
      value, pos := value + scale * (b % 128), pos + 1;
      if b < 128 {
        return Ok(Varint(value, pos));
      }
      scale := scale * 128;
    }
    ShiftEnd(raw, pos, value, scale);
    r := Err(Overlong);
  }

  function Shifted(value: nat, scale: nat, r: Result<Varint>): Result<Varint> {
    match r
    case Err(e) => Err(e)
    case Ok(v) => Ok(Varint(value + scale * v.value, v.next))
  }

  lemma Unshifted(r: Result<Varint>)
    ensures Shifted(0, 1, r) == r
  {
  }

  lemma ShiftEnd(raw: Bytes, pos: nat, value: nat, scale: nat)
    requires pos <= |raw|
    ensures Shifted(value, scale, ReadVarint(raw, pos, 10)) == Err(Overlong)
  {
  }

  /** One byte of the loop. */
  lemma ShiftStep(raw: Bytes, pos: nat, k: nat, value: nat, scale: nat)
    requires pos <= |raw| && k < 10
    ensures var r := Shifted(value, scale, ReadVarint(raw, pos, k));
      if pos == |raw| then r == Err(Truncated)
      else if raw[pos] < 128 then r == Ok(Varint(value + scale * (raw[pos] % 128), pos + 1))
      else r == Shifted(value + scale * (raw[pos] % 128), scale * 128, ReadVarint(raw, pos + 1, k + 1))
  {
    if pos < |raw| && raw[pos] >= 128 && ReadVarint(raw, pos + 1, k + 1).Ok? {
      var rest := ReadVarint(raw, pos + 1, k + 1).value.value;
      Shift(value, scale, raw[pos] % 128, rest);
    }
  }

  lemma Shift(value: nat, scale: nat, low: nat, rest: nat)
    ensures value + scale * (low + 128 * rest) == (value + scale * low) + (scale * 128) * rest
  {
  }

  method DecodeValue(raw: Bytes, pos: nat, number: nat, wire: nat, size: Error) returns (r: Result<Item>)
    requires pos <= |raw| && wire < 8
    ensures r == ReadValue(raw, pos, number, wire, size)
  {
    hide ReadVarint;
    var length: nat, next: nat := 0, pos;
    if wire == 0 {
      var v := DecodeVarint(raw, pos);
      return if v.Ok? then Ok(Item(number, Number(v.value.value), v.value.next)) else Err(v.error);
    } else if wire == 1 || wire == 5 {
      length := if wire == 1 then 8 else 4;
    } else if wire == 2 {
      var v := DecodeVarint(raw, pos);
      if v.Err? {
        return Err(v.error);
      }
      length, next := v.value.value, v.value.next;
    } else {
      return Err(BadWire);
    }
    if length > |raw| - next {
      return Err(size);
    }
    r := Ok(Item(number, Data(raw[next..next + length]), next + length));
  }

  /** The decoder: it never reads past the input, ends, and returns the fields
    * or the first error. */
  method Decode(raw: Bytes, size: Error) returns (r: Result<Fields>)
    ensures r == ReadFields(raw, 0, map[], size)
  {
    hide ReadVarint, ReadValue;
    var fields: Fields, pos: nat := map[], 0;
    while pos < |raw|
      invariant pos <= |raw|
      invariant ReadFields(raw, 0, map[], size) == ReadFields(raw, pos, fields, size)
    {
      var tag := DecodeVarint(raw, pos);
      if tag.Err? {
        return Err(tag.error);
      }
      var number: nat, wire: nat := tag.value.value / 8, tag.value.value % 8;
      if number == 0 || number in fields {
        return Err(BadField);
      }
      var item := DecodeValue(raw, tag.value.next, number, wire, size);
      if item.Err? {
        return Err(item.error);
      }
      fields, pos := fields[number := item.value.value], item.value.next;
    }
    r := Ok(fields);
  }

  /** The two workers' copies differ in one error only: how they call a field
    * that exceeds the input. */
  lemma {:induction false} CopiesAgree(raw: Bytes, pos: nat, fields: Fields)
    requires pos <= |raw|
    ensures var node, managed := ReadFields(raw, pos, fields, Truncated), ReadFields(raw, pos, fields, Size);
      if node.Ok? then managed == node
      else managed.Err? && (managed.error == node.error || (managed.error == Size && node.error == Truncated))
    decreases |raw| - pos
  {
    hide ReadVarint;
    if pos < |raw| && ReadItem(raw, pos, Truncated).Ok? {
      var i := ReadItem(raw, pos, Truncated).value;
      CopiesAgree(raw, i.next, fields[i.number := i.value]);
    }
  }
}
