/** The protobuf wire format of the guest probe: variable-length integers and length-delimited fields. */
module Wire {
  type byte = x: int | 0 <= x < 256

  datatype Error = InvalidValue | Truncated | Overflowing | InvalidField | Unsupported

  datatype Result<+T> = Ok(value: T) | Bad(error: Error)

  datatype Value = Number(n: nat) | Bytes(data: seq<byte>)

  datatype Taken = Taken(value: nat, next: nat)

  const LIMIT: nat := 0x1_0000_0000_0000_0000

  /** Least significant seven bits first, every byte but the last with its high bit set. */
  function Encode(value: nat): (bytes: seq<byte>)
    ensures |bytes| > 0
  {
    if value <= 127 then [value] else [value % 128 + 128] + Encode(value / 128)
  }

  method Varint(value: nat) returns (r: Result<seq<byte>>)
    ensures r == if value < LIMIT then Ok(Encode(value)) else Bad(InvalidValue)
  {
    if value >= LIMIT { return Bad(InvalidValue); }
    var bytes: seq<byte>, rest := [], value;
    while rest > 127
      invariant bytes + Encode(rest) == Encode(value)
    {
      assert bytes + Encode(rest) == bytes + [rest % 128 + 128] + Encode(rest / 128);
      bytes, rest := bytes + [rest % 128 + 128], rest / 128;
    }
    return Ok(bytes + [rest]);
  }

  /** One integer, read from `pos` as the byte at place `index`. */
  function Read(data: seq<byte>, pos: nat, index: nat): (r: Result<Taken>)
    requires index <= 9
    decreases 9 - index
  {
    if pos >= |data| then Bad(Truncated)
    else if index == 9 && data[pos] > 1 then Bad(Overflowing)
    else if data[pos] < 128 then Ok(Taken(data[pos], pos + 1))
    else match Read(data, pos + 1, index + 1)
      case Ok(t) => Ok(Taken(data[pos] - 128 + 128 * t.value, t.next))
      case Bad(e) => Bad(e)
  }

  /** What still fits at place `index` of an integer below 2^64. */
  function Room(index: nat): nat
    requires index <= 9
    decreases 9 - index
  {
    if index == 9 then 2 else 128 * Room(index + 1)
  }

  /** Every integer read is below 2^64, and reading never goes past the end. */
  lemma {:induction false} ReadBounded(data: seq<byte>, pos: nat, index: nat)
    requires index <= 9
    ensures match Read(data, pos, index)
      case Ok(t) => t.value < Room(index) && pos < t.next <= |data|
      case Bad(_) => true
    ensures Room(0) == LIMIT
    decreases 9 - index
  {
    assert Room(9) == 2 && Room(8) == 256 && Room(7) == 0x8000 && Room(6) == 0x40_0000 && Room(5) == 0x2000_0000;
    assert Room(4) == 0x10_0000_0000 && Room(3) == 0x800_0000_0000 && Room(2) == 0x4_0000_0000_0000;
    assert Room(1) == 0x200_0000_0000_0000;
    if index < 9 && pos < |data| { ReadBounded(data, pos + 1, index + 1); }
  }

  /** Reading gives back what was encoded, wherever it stands. */
  lemma {:induction false} ReadEncoded(before: seq<byte>, value: nat, rest: seq<byte>, index: nat)
    requires index <= 9 && value < Room(index)
    ensures Read(before + Encode(value) + rest, |before|, index) == Ok(Taken(value, |before| + |Encode(value)|))
    decreases 9 - index
  {
    var data := before + Encode(value) + rest;
    assert data[|before|] == Encode(value)[0];
    if value > 127 {
      var first: seq<byte> := [value % 128 + 128];
      assert data == (before + first) + Encode(value / 128) + rest;
      ReadEncoded(before + first, value / 128, rest, index + 1);
    }
  }

  /** Reading gives back any encoded integer below 2^64. */
  lemma VarintRoundTrip(before: seq<byte>, value: nat, rest: seq<byte>)
    requires value < LIMIT
    ensures Read(before + Encode(value) + rest, |before|, 0) == Ok(Taken(value, |before| + |Encode(value)|))
  {
    ReadBounded([], 0, 0);
    ReadEncoded(before, value, rest, 0);
  }

  /** A result whose integer continues one of which `value` has been read so far. */
  function Shifted(value: nat, scale: nat, r: Result<Taken>): Result<Taken> {
    match r
    case Ok(t) => Ok(Taken(value + scale * t.value, t.next))
    case Bad(e) => Bad(e)
  }

  /** One byte: it ends the integer or shifts the rest by seven more bits. */
  lemma ReadByte(data: seq<byte>, at: nat, index: nat, value: nat, scale: nat)
    requires index <= 9
    ensures Shifted(value, scale, Read(data, at, index)) ==
      if at >= |data| then Bad(Truncated)
      else if index == 9 && data[at] > 1 then Bad(Overflowing)
      else if data[at] < 128 then Ok(Taken(value + data[at] * scale, at + 1))
      else Shifted(value + (data[at] - 128) * scale, scale * 128, Read(data, at + 1, index + 1))
  {
    if at < |data| && data[at] >= 128 && index < 9 {
      var later := Read(data, at + 1, index + 1);
      if later.Ok? { Regroup(scale, data[at] - 128, later.value.value); }
    } else if at < |data| {
      Regroup(scale, data[at], 0);
    }
  }

  lemma Regroup(scale: nat, bits: nat, value: nat)
    ensures scale * (bits + 128 * value) == bits * scale + (scale * 128) * value
  {
  }

  /** The integer at `position`, shifting each byte's seven bits into place. */
  method Take(data: seq<byte>, position: nat) returns (r: Result<Taken>)
    requires position <= |data|
    ensures r == Read(data, position, 0)
  {
    hide Read, Shifted;
    var value: nat, scale: nat, at := 0, 1, position;
    ReadOnce(Read(data, position, 0));
    for index := 0 to 10
      invariant index < 10 && at == position + index <= |data|
      invariant Read(data, position, 0) == Shifted(value, scale, Read(data, at, index))
    {
      ReadByte(data, at, index, value, scale);
      if at >= |data| { return Bad(Truncated); }
      var b: nat := data[at];
      if index == 9 && b > 1 { return Bad(Overflowing); }
      if b < 128 { return Ok(Taken(value + b * scale, at + 1)); }
      value, scale, at := value + (b - 128) * scale, scale * 128, at + 1;
    }
    assert false;
  }

  lemma ReadOnce(r: Result<Taken>)
    ensures Shifted(0, 1, r) == r
  {
  }

  /** The wire form of one field. */
  function Field(number: nat, value: Value): seq<byte> {
    match value
    case Number(n) => Encode(number * 8) + Encode(n)
    case Bytes(data) => Encode(number * 8 + 2) + Encode(|data|) + data
  }

  /** The examples of the encoding guide: field 1 is the integer 150, field 2 the string "testing". */
  lemma FieldExamples()
    ensures Field(1, Number(150)) == [0x08, 0x96, 0x01]
    ensures Field(2, Bytes([0x74, 0x65, 0x73, 0x74, 0x69, 0x6E, 0x67])) ==
      [0x12, 0x07, 0x74, 0x65, 0x73, 0x74, 0x69, 0x6E, 0x67]
  {
    assert Encode(150) == [150 % 128 + 128] + Encode(1);
  }

  method EncodeField(number: nat, value: Value) returns (r: Result<seq<byte>>)
    ensures r ==
      if number * 8 + (if value.Bytes? then 2 else 0) < LIMIT && Fits(value) then Ok(Field(number, value))
      else Bad(InvalidValue)
  {
    var tag, body;
    match value
    case Number(n) =>
      tag := Varint(number * 8);
      if tag.Bad? { return tag; }
      body := Varint(n);
      if body.Bad? { return body; }
      return Ok(tag.value + body.value);
    case Bytes(data) =>
      tag := Varint(number * 8 + 2);
      if tag.Bad? { return tag; }
      body := Varint(|data|);
      if body.Bad? { return body; }
      return Ok(tag.value + body.value + data);
  }

  predicate Fits(value: Value) {
    match value
    case Number(n) => n < LIMIT
    case Bytes(data) => |data| < LIMIT
  }

  const MAX_NUMBER: nat := 0x2000_0000

  datatype Parsed = Parsed(number: nat, value: Value, next: nat)

  /** One field at `pos`. `allowed` tells which numbers may come now. */
  function ReadField(data: seq<byte>, pos: nat, allowed: nat -> bool): (r: Result<Parsed>)
    ensures r.Ok? ==> pos < r.value.next <= |data|
  {
    ReadBounded(data, pos, 0);
    match Read(data, pos, 0)
    case Bad(e) => Bad(e)
    case Ok(tag) =>
      var number, wire := tag.value / 8, tag.value % 8;
      if !(0 < number < MAX_NUMBER && allowed(number)) then Bad(InvalidField)
      else if wire == 0 then
        ReadBounded(data, tag.next, 0);
        match Read(data, tag.next, 0) {
          case Bad(e) => Bad(e)
          case Ok(t) => Ok(Parsed(number, Number(t.value), t.next))
        }
      else if wire == 2 then
        ReadBounded(data, tag.next, 0);
        match Read(data, tag.next, 0) {
          case Bad(e) => Bad(e)
          case Ok(t) =>
            if t.value <= |data| - t.next then
              Ok(Parsed(number, Bytes(data[t.next..t.next + t.value]), t.next + t.value))
            else Bad(Truncated)
        }
      else Bad(Unsupported)
  }

  /** Which numbers may come when those in `taken` have. */
  function Allowing(taken: set<nat>, all: bool, repeated: set<nat>): nat -> bool {
    n => all || n in repeated || n !in taken
  }

  /** All fields from `pos` on, added to those in `got`; only numbers in `repeated` may come again, unless all may. */
  function ReadFields(data: seq<byte>, pos: nat, got: map<nat, Value>, all: bool,
                      repeated: set<nat>): Result<map<nat, Value>>
    requires pos <= |data|
    decreases |data| - pos
  {
    if pos == |data| then Ok(got) else
    match ReadField(data, pos, Allowing(got.Keys, all, repeated))
    case Bad(e) => Bad(e)
    case Ok(f) => ReadFields(data, f.next, got[f.number := f.value], all, repeated)
  }

  /** One field at `position`; a number in `taken` may come again only if all may or it may itself. */
  method TakeField(data: seq<byte>, position: nat, taken: set<nat>, all: bool, repeated: set<nat>)
    returns (r: Result<Parsed>)
    requires position <= |data|
    ensures r == ReadField(data, position, Allowing(taken, all, repeated))
  {
    hide Read;
    ReadBounded(data, position, 0);
    var tag := Take(data, position);
    if tag.Bad? { return Bad(tag.error); }
    var number, wire := tag.value.value / 8, tag.value.value % 8;
    if !(0 < number < MAX_NUMBER && (all || number in repeated || number !in taken)) { return Bad(InvalidField); }
    if wire != 0 && wire != 2 { return Bad(Unsupported); }
    ReadBounded(data, tag.value.next, 0);
    var t := Take(data, tag.value.next);
    if t.Bad? { return Bad(t.error); }
    var size, next := t.value.value, t.value.next;
    if wire == 0 { return Ok(Parsed(number, Number(size), next)); }
    if size > |data| - next { return Bad(Truncated); }
    return Ok(Parsed(number, Bytes(data[next..next + size]), next + size));
  }

  method Fields(data: seq<byte>, all: bool, repeated: set<nat>) returns (r: Result<map<nat, Value>>)
    ensures r == ReadFields(data, 0, map[], all, repeated)
  {
    var position, result: map<nat, Value> := 0, map[];
    while position < |data|
      invariant position <= |data|
      invariant ReadFields(data, 0, map[], all, repeated) == ReadFields(data, position, result, all, repeated)
    {
      hide ReadField;
      var f := TakeField(data, position, result.Keys, all, repeated);
      if f.Bad? { return Bad(f.error); }
      result, position := result[f.value.number := f.value.value], f.value.next;
    }
    return Ok(result);
  }

  predicate WellFormed(number: nat, value: Value) {
    0 < number < MAX_NUMBER && Fits(value)
  }

  lemma Regroup4<T>(a: seq<T>, b: seq<T>, c: seq<T>, d: seq<T>)
    ensures a + (b + c) + d == a + b + (c + d)
    ensures a + (b + c) + d == (a + b) + c + d
  {
  }

  lemma Regroup5<T>(a: seq<T>, b: seq<T>, c: seq<T>, d: seq<T>, e: seq<T>)
    ensures a + (b + c + d) + e == a + b + (c + d + e)
    ensures a + (b + c + d) + e == (a + b) + c + (d + e)
    ensures (a + (b + c + d) + e)[|a| + |b| + |c|..|a| + |b| + |c| + |d|] == d
  {
  }

  lemma NumberRoundTrip(before: seq<byte>, number: nat, n: nat, rest: seq<byte>, allowed: nat -> bool)
    requires WellFormed(number, Number(n))
    ensures ReadField(before + Field(number, Number(n)) + rest, |before|, allowed) ==
      if allowed(number) then Ok(Parsed(number, Number(n), |before| + |Field(number, Number(n))|))
      else Bad(InvalidField)
  {
    hide Read, Encode;
    var tag, body := Encode(number * 8), Encode(n);
    var data := before + Field(number, Number(n)) + rest;
    Regroup4(before, tag, body, rest);
    VarintRoundTrip(before, number * 8, body + rest);
    VarintRoundTrip(before + tag, n, rest);
  }

  lemma BytesField(data: seq<byte>, pos: nat, number: nat, bytes: seq<byte>, mid: nat, start: nat, allowed: nat -> bool)
    requires WellFormed(number, Bytes(bytes))
    requires Read(data, pos, 0) == Ok(Taken(number * 8 + 2, mid)) && Read(data, mid, 0) == Ok(Taken(|bytes|, start))
    requires start + |bytes| <= |data| && data[start..start + |bytes|] == bytes
    ensures ReadField(data, pos, allowed) ==
      if allowed(number) then Ok(Parsed(number, Bytes(bytes), start + |bytes|)) else Bad(InvalidField)
  {
    hide Read;
  }

  lemma BytesRoundTrip(before: seq<byte>, number: nat, bytes: seq<byte>, rest: seq<byte>, allowed: nat -> bool)
    requires WellFormed(number, Bytes(bytes))
    ensures ReadField(before + Field(number, Bytes(bytes)) + rest, |before|, allowed) ==
      if allowed(number) then Ok(Parsed(number, Bytes(bytes), |before| + |Field(number, Bytes(bytes))|))
      else Bad(InvalidField)
  {
    hide Read, Encode, ReadField;
    var tag, size := Encode(number * 8 + 2), Encode(|bytes|);
    var data := before + Field(number, Bytes(bytes)) + rest;
    Regroup5(before, tag, size, bytes, rest);
    VarintRoundTrip(before, number * 8 + 2, size + bytes + rest);
    VarintRoundTrip(before + tag, |bytes|, bytes + rest);
    BytesField(data, |before|, number, bytes, |before| + |tag|, |before| + |tag| + |size|, allowed);
  }

  /** Decoding one encoded field gives it back, wherever it stands, if its number may come. */
  lemma FieldRoundTrip(before: seq<byte>, number: nat, value: Value, rest: seq<byte>, allowed: nat -> bool)
    requires WellFormed(number, value)
    ensures ReadField(before + Field(number, value) + rest, |before|, allowed) ==
      if allowed(number) then Ok(Parsed(number, value, |before| + |Field(number, value)|)) else Bad(InvalidField)
  {
    hide ReadField, Field;
    match value
    case Number(n) => NumberRoundTrip(before, number, n, rest, allowed);
    case Bytes(bytes) => BytesRoundTrip(before, number, bytes, rest, allowed);
  }

  function Message(list: seq<(nat, Value)>): seq<byte> {
    if list == [] then [] else Field(list[0].0, list[0].1) + Message(list[1..])
  }

  /** The entries of a list on top of `got`, a later one replacing an earlier one. */
  function Collect(list: seq<(nat, Value)>, got: map<nat, Value>): map<nat, Value> {
    if list == [] then got else Collect(list[1..], got[list[0].0 := list[0].1])
  }

  /** No number comes again that may not. */
  predicate Admissible(list: seq<(nat, Value)>, taken: set<nat>, all: bool, repeated: set<nat>) {
    list == [] || ((all || list[0].0 in repeated || list[0].0 !in taken) &&
      Admissible(list[1..], taken + {list[0].0}, all, repeated))
  }

  lemma NextField(data: seq<byte>, pos: nat, got: map<nat, Value>, all: bool, repeated: set<nat>)
    requires pos < |data|
    ensures ReadFields(data, pos, got, all, repeated) ==
      match ReadField(data, pos, Allowing(got.Keys, all, repeated))
      case Bad(e) => Bad(e)
      case Ok(f) => ReadFields(data, f.next, got[f.number := f.value], all, repeated)
  {
    hide ReadField;
  }

  lemma NoField(data: seq<byte>, got: map<nat, Value>, all: bool, repeated: set<nat>)
    ensures ReadFields(data, |data|, got, all, repeated) == Ok(got)
  {
  }

  lemma FieldNotEmpty(number: nat, value: Value)
    ensures |Field(number, value)| > 0
  {
  }

  lemma Behind<T>(data: seq<T>, pos: nat, first: seq<T>, rest: seq<T>)
    requires pos <= |data| && data[pos..] == first + rest
    ensures data == data[..pos] + first + rest
    ensures pos + |first| <= |data| && data[pos + |first|..] == rest
  {
    assert data == data[..pos] + data[pos..];
    assert (data[..pos] + first + rest)[pos + |first|..] == rest;
  }

  /** Decoding a message gives exactly its fields, or refuses it exactly when a number comes again that may not. */
  lemma {:induction false} MessageRoundTrip(data: seq<byte>, pos: nat, list: seq<(nat, Value)>, got: map<nat, Value>,
                                            all: bool, repeated: set<nat>)
    requires pos <= |data| && data[pos..] == Message(list)
    requires forall i :: 0 <= i < |list| ==> WellFormed(list[i].0, list[i].1)
    ensures ReadFields(data, pos, got, all, repeated) ==
      if Admissible(list, got.Keys, all, repeated) then Ok(Collect(list, got)) else Bad(InvalidField)
    decreases |list|
  {
    hide ReadField, Field, WellFormed, ReadFields;
    NoField(data, got, all, repeated);
    if list != [] {
      var number, value, rest := list[0].0, list[0].1, Message(list[1..]);
      var first := Field(number, value);
      FieldNotEmpty(number, value);
      Behind(data, pos, first, rest);
      FieldRoundTrip(data[..pos], number, value, rest, Allowing(got.Keys, all, repeated));
      NextField(data, pos, got, all, repeated);
      MessageRoundTrip(data, pos + |first|, list[1..], got[number := value], all, repeated);
      assert got[number := value].Keys == got.Keys + {number};
    }
  }

  predicate Distinct(list: seq<(nat, Value)>) {
    forall i, j :: 0 <= i < j < |list| ==> list[i].0 != list[j].0
  }

  lemma {:induction false} DistinctAdmissible(list: seq<(nat, Value)>, taken: set<nat>)
    requires Distinct(list) && forall i :: 0 <= i < |list| ==> list[i].0 !in taken
    ensures Admissible(list, taken, false, {})
  {
    if list != [] { DistinctAdmissible(list[1..], taken + {list[0].0}); }
  }

  /** The list has an entry for `n`. */
  ghost predicate Has(list: seq<(nat, Value)>, n: nat) {
    exists i :: 0 <= i < |list| && list[i].0 == n
  }

  lemma {:induction false} CollectGets(list: seq<(nat, Value)>, got: map<nat, Value>)
    requires Distinct(list)
    ensures forall i :: 0 <= i < |list| ==>
      list[i].0 in Collect(list, got) && Collect(list, got)[list[i].0] == list[i].1
    ensures forall n :: n in Collect(list, got) <==> n in got || Has(list, n)
    ensures forall n :: n in got && !Has(list, n) ==> Collect(list, got)[n] == got[n]
  {
    if list != [] {
      var rest, more := list[1..], got[list[0].0 := list[0].1];
      CollectGets(rest, more);
      forall n ensures Has(list, n) <==> n == list[0].0 || Has(rest, n) {
        if i :| 0 <= i < |rest| && rest[i].0 == n { assert list[i + 1].0 == n; }
        if i :| 0 <= i < |list| && list[i].0 == n { assert i == 0 || rest[i - 1].0 == n; }
      }
      assert !Has(rest, list[0].0);
      assert forall i :: 0 < i < |list| ==> rest[i - 1] == list[i];
    }
  }

  /** The round trip: distinct well-formed fields come back as exactly the map they make. */
  lemma RoundTrip(list: seq<(nat, Value)>)
    requires Distinct(list) && forall i :: 0 <= i < |list| ==> WellFormed(list[i].0, list[i].1)
    ensures var r := ReadFields(Message(list), 0, map[], false, {});
      && r.Ok?
      && (forall n :: n in r.value <==> Has(list, n))
      && (forall i :: 0 <= i < |list| ==> list[i].0 in r.value && r.value[list[i].0] == list[i].1)
  {
    hide ReadFields, Message, WellFormed, Collect, Admissible, Has, Distinct;
    var none: map<nat, Value> := map[];
    assert none.Keys == {};
    MessageRoundTrip(Message(list), 0, list, none, false, {});
    DistinctAdmissible(list, {});
    CollectGets(list, none);
  }

  /** Whatever is decoded consists of numbers in range, integers below 2^64 and pieces of the input. */
  lemma {:induction false} DecodedWellFormed(data: seq<byte>, pos: nat, got: map<nat, Value>, all: bool,
                                             repeated: set<nat>)
    requires |data| < LIMIT && pos <= |data|
    requires forall n :: n in got ==> WellFormed(n, got[n]) && Piece(data, got[n])
    ensures var r := ReadFields(data, pos, got, all, repeated);
      r.Ok? ==> forall n :: n in r.value ==> WellFormed(n, r.value[n]) && Piece(data, r.value[n])
    decreases |data| - pos
  {
    hide ReadField, WellFormed, Piece;
    if pos < |data| {
      var allowed := Allowing(got.Keys, all, repeated);
      ReadFieldWellFormed(data, pos, allowed);
      NextField(data, pos, got, all, repeated);
      var f := ReadField(data, pos, allowed);
      if f.Ok? { DecodedWellFormed(data, f.value.next, got[f.value.number := f.value.value], all, repeated); }
    }
  }

  ghost predicate Piece(data: seq<byte>, value: Value) {
    value.Bytes? ==> exists i, j :: 0 <= i <= j <= |data| && value.data == data[i..j]
  }

  lemma ReadFieldWellFormed(data: seq<byte>, pos: nat, allowed: nat -> bool)
    requires |data| < LIMIT
    ensures var r := ReadField(data, pos, allowed);
      r.Ok? ==> WellFormed(r.value.number, r.value.value) && Piece(data, r.value.value)
  {
    ReadBounded(data, pos, 0);
    if Read(data, pos, 0).Ok? { ReadBounded(data, Read(data, pos, 0).value.next, 0); }
  }
}
