/** The code's own loops: parsing, and writing backwards into a buffer. They compute what `Wire` says. */
module WireLoops {
  import opened Varints
  import opened Wire

  // ---------- skipping ----------

  method JumpOver(data: seq<byte>, at: nat, kind: nat, depth: nat) returns (r: Result<Move>)
    requires at <= |data|
    ensures r == Jump(data[at..], kind, depth)
  {
    if kind == 0 || kind == 2 {
      var value := VarintLoop(data, at);
      if value.Err? { return Err(value.error); }
      if kind == 0 { return Ok(Move(value.value.1 - at, depth)); }
      if value.value.0 > MaxInt { return Err(InvalidLength); }
      return Ok(Move(value.value.1 - at + value.value.0, depth));
    }
    if kind == 1 { return Ok(Move(8, depth)); }
    if kind == 3 { return Ok(Move(0, depth + 1)); }
    if kind == 4 && depth == 0 { return Err(UnexpectedEndOfGroup); }
    if kind == 4 { return Ok(Move(0, depth - 1)); }
    if kind == 5 { return Ok(Move(4, depth)); }
    return Err(IllegalWireType);
  }

  function Shifted(r: Result<nat>, n: nat): Result<nat>
  {
    if r.Ok? then Ok(r.value + n) else r
  }

  /** What is left of the loop over any round at index `i`. */
  function RestBy(round: Round, data: seq<byte>, i: nat, depth: nat): Result<nat>
  {
    if i > |data| then Err(UnexpectedEof) else Shifted(SkipBy(round, data[i..], i, depth), i)
  }

  function SkipRest(data: seq<byte>, i: nat, depth: nat): Result<nat> { RestBy(SkipOne, data, i, depth) }

  lemma RestRound(round: Round, data: seq<byte>, i: nat, depth: nat, move: Result<Move>)
    requires i < |data| && round(data[i..], i, depth) == move
    ensures RestBy(round, data, i, depth) ==
      match move
      case Err(e) => Err(e)
      case Ok(move) =>
        if move.depth == 0 then Ok(i + move.length) else RestBy(round, data, i + move.length, move.depth)
  {
    if move.Ok? && move.value.length <= |data| - i {
      assert data[i..][move.value.length..] == data[i + move.value.length..];
    }
  }

  lemma SkipRestRound(data: seq<byte>, i: nat, depth: nat, move: Result<Move>)
    requires i < |data| && SkipOne(data[i..], i, depth) == move
    ensures SkipRest(data, i, depth) ==
      match move
      case Err(e) => Err(e)
      case Ok(move) =>
        if move.depth == 0 then Ok(i + move.length) else SkipRest(data, i + move.length, move.depth)
  {
    RestRound(SkipOne, data, i, depth, move);
  }

  /** `skipApi`: the loop over the bytes of `data`. */
  method SkipLoop(data: seq<byte>) returns (r: Result<nat>)
    ensures r == Skip(data)
  {
    ghost var goal := Skip(data);
    var i, depth := 0, 0;
    assert data[0..] == data;
    while i < |data|
      invariant SkipRest(data, i, depth) == goal
      decreases |data| - i
    {
      var move := RoundAt(data, i, depth);
      if move.Err? { return Err(move.error); }
      if move.value.depth == 0 { return Ok(i + move.value.length); }
      i, depth := i + move.value.length, move.value.depth;
    }
    return Err(UnexpectedEof);
  }

  method RoundAt(data: seq<byte>, i: nat, depth: nat) returns (move: Result<Move>)
    requires i < |data|
    ensures move.Ok? ==> move.value.length > 0
    ensures SkipRest(data, i, depth) ==
      match move
      case Err(e) => Err(e)
      case Ok(move) =>
        if move.depth == 0 then Ok(i + move.length) else SkipRest(data, i + move.length, move.depth)
  {
    move := SkipOneAt(data, i, depth);
    SkipRestRound(data, i, depth, move);
  }

  method SkipOneAt(data: seq<byte>, i: nat, depth: nat) returns (r: Result<Move>)
    requires i < |data|
    ensures r == SkipOne(data[i..], i, depth)
  {
    var wire := VarintLoop(data, i);
    if wire.Err? { return Err(wire.error); }
    var at := wire.value.1;
    assert data[i..][at - i..] == data[at..];
    var jump := JumpOver(data, at, wire.value.0 % 8, depth);
    if jump.Err? { return Err(jump.error); }
    if at + jump.value.length > MaxInt { return Err(InvalidLength); }
    return Ok(Move(at - i + jump.value.length, jump.value.depth));
  }

  // ---------- records and messages ----------

  method LengthAt(data: seq<byte>, i: nat) returns (r: Result<(nat, nat)>)
    requires i <= |data|
    ensures r == ReadLength(data[i..], i)
  {
    var length := VarintLoop(data, i);
    if length.Err? { return Err(length.error); }
    var (v, at) := length.value;
    if v > MaxInt { return Err(InvalidLength); }
    if at + v > MaxInt { return Err(InvalidLength); }
    if at + v > |data| { return Err(UnexpectedEof); }
    return Ok((at - i, at - i + v));
  }

  method ContentAt(kind: Kind, num: int, wireType: nat, data: seq<byte>, i: nat, at: nat)
      returns (r: Result<(Entry, nat)>)
    requires i < at <= |data| && 0 < num && (kind != Unknown ==> num < 16)
    ensures r == Content(kind, num, wireType, data[i..], at - i, i)
  {
    assert data[i..][at - i..] == data[at..];
    match kind {
      case VarintKind =>
        if wireType != 0 { return Err(WrongWireType); }
        var value := VarintLoop(data, at);
        if value.Err? { return Err(value.error); }
        return Ok((Known(Number(num, value.value.0)), value.value.1 - i));
      case BytesKind =>
        if wireType != 2 { return Err(WrongWireType); }
        var length := LengthAt(data, at);
        if length.Err? { return Err(length.error); }
        var (low, high) := length.value;
        assert data[i..][at - i + low..at - i + high] == data[at + low..at + high];
        return Ok((Known(Bytes(num, data[at + low..at + high])), at - i + high));
      case Unknown =>
        r := RawAt(data, i);
    }
  }

  method RawAt(data: seq<byte>, i: nat) returns (r: Result<(Entry, nat)>)
    requires i < |data|
    ensures r ==
      match Skip(data[i..])
      case Err(e) => Err(e)
      case Ok(k) =>
        if i + k > MaxInt then Err(InvalidLength)
        else if k > |data[i..]| then Err(UnexpectedEof)
        else Ok((Raw(data[i..][..k]), k))
  {
    var skip := SkipLoop(data[i..]);
    if skip.Err? { return Err(skip.error); }
    if i + skip.value > MaxInt { return Err(InvalidLength); }
    if i + skip.value > |data| { return Err(UnexpectedEof); }
    assert data[i..][..skip.value] == data[i..i + skip.value];
    return Ok((Raw(data[i..i + skip.value]), skip.value));
  }

  method RecordAt(kinds: Schema, data: seq<byte>, i: nat) returns (r: Result<(Entry, nat)>)
    requires i < |data|
    ensures r == Record(kinds, data[i..], i)
  {
    var wire := VarintLoop(data, i);
    if wire.Err? { return Err(wire.error); }
    var num := ToInt32(wire.value.0 / 8);
    if wire.value.0 % 8 == 4 { return Err(EndGroup); }
    if num <= 0 { return Err(IllegalTag); }
    r := ContentAt(if num < 16 then kinds(num) else Unknown, num, wire.value.0 % 8, data, i, wire.value.1);
  }

  lemma ParseRound<T>(c: Codec<T>, m: Message<T>, data: seq<byte>, i: nat)
    requires i < |data|
    ensures Parse(c, m, data[i..], i) ==
      match c.read(data[i..], i)
      case Err(e) => Err(e)
      case Ok((Raw(bytes), n)) => Parse(c, Message(m.body, m.unknown + bytes), data[i + n..], i + n)
      case Ok((Known(f), n)) =>
        match c.put(m.body, f)
        case Err(e) => Err(e)
        case Ok(body) => Parse(c, Message(body, m.unknown), data[i + n..], i + n)
  {
    var r := c.read(data[i..], i);
    if r.Ok? { assert data[i..][r.value.1..] == data[i + r.value.1..]; }
  }

  /** Merges a record read at `i` into the message. */
  method Merge<T>(
      ghost c: Codec<T>, put: (T, Field) -> Result<T>, record: Result<(Entry, nat)>, m: Message<T>, data: seq<byte>,
      i: nat) returns (r: Result<(Message<T>, nat)>)
    requires i < |data| && record == c.read(data[i..], i) && put == c.put
    ensures r.Ok? ==> i < r.value.1 <= |data|
    ensures Parse(c, m, data[i..], i) ==
      if r.Err? then Err(r.error) else Parse(c, r.value.0, data[r.value.1..], r.value.1)
  {
    ParseRound(c, m, data, i);
    if record.Err? { return Err(record.error); }
    var (entry, n) := record.value;
    match entry {
      case Raw(bytes) => return Ok((Message(m.body, m.unknown + bytes), i + n));
      case Known(f) =>
        var body := put(m.body, f);
        if body.Err? { return Err(body.error); }
        return Ok((Message(body.value, m.unknown), i + n));
    }
  }

  /** One round: the message with the record at `i` merged in, and where the next record begins. */
  method MergeOne<T>(ty: Type<T>, m: Message<T>, data: seq<byte>, i: nat) returns (r: Result<(Message<T>, nat)>)
    requires i < |data|
    ensures r.Ok? ==> i < r.value.1 <= |data|
    ensures Parse(ty.Codec(), m, data[i..], i) ==
      if r.Err? then Err(r.error) else Parse(ty.Codec(), r.value.0, data[r.value.1..], r.value.1)
  {
    var record := RecordAt(ty.kinds, data, i);
    r := Merge(ty.Codec(), ty.put, record, m, data, i);
  }

  /** The generated `Unmarshal` of any message type, merging into a message. It ends on every input. */
  method Unmarshal<T>(ty: Type<T>, into: Message<T>, data: seq<byte>) returns (r: Result<Message<T>>)
    ensures r == Parse(ty.Codec(), into, data, 0)
    ensures into == Message(ty.empty, []) ==> r == ty.Decode(data)
  {
    var m, i := into, 0;
    assert data[0..] == data;
    while i < |data|
      invariant i <= |data|
      invariant Parse(ty.Codec(), m, data[i..], i) == Parse(ty.Codec(), into, data, 0)
    {
      var merged := MergeOne(ty, m, data, i);
      if merged.Err? { return Err(merged.error); }
      m, i := merged.value.0, merged.value.1;
    }
    return Ok(m);
  }

  // ---------- writing backwards ----------

  /** `s` with `bytes` in place from index `at` on. */
  function Placed(s: seq<byte>, at: nat, bytes: seq<byte>): (r: seq<byte>)
    requires at + |bytes| <= |s|
    ensures |r| == |s|
  {
    s[..at] + bytes + s[at + |bytes|..]
  }

  lemma PlacedTwice(s: seq<byte>, at: nat, first: seq<byte>, second: seq<byte>)
    requires at + |first| + |second| <= |s|
    ensures Placed(Placed(s, at + |first|, second), at, first) == Placed(s, at, first + second)
  {
  }

  /** `encodeVarintApi`: writes `v` so that it ends at `offset`, and returns where it begins. */
  method EncodeVarint(buf: array<byte>, offset: nat, v: nat) returns (base: nat)
    requires |Varint(v)| <= offset <= buf.Length
    modifies buf
    ensures base + |Varint(v)| == offset && buf[..] == Placed(old(buf[..]), base, Varint(v))
  {
    SovExact(v);
    base := offset - Sov(v);
    ghost var was := buf[..];
    ghost var done: seq<byte> := [];
    var i, left := base, v;
    assert Placed(was, base, done) == was;
    while left >= 128
      invariant base <= i && i + |Varint(left)| == offset
      invariant done + Varint(left) == Varint(v) && |done| == i - base
      invariant buf[..] == Placed(was, base, done)
      decreases left
    {
      PutByte(buf, i, left % 128 + 128, was, base, done);
      done := done + [left % 128 + 128];
      left, i := left / 128, i + 1;
    }
    PutByte(buf, i, left, was, base, done);
    done := done + [left];
  }

  /** Stores one byte behind those already in place. */
  method PutByte(buf: array<byte>, i: nat, b: byte, ghost was: seq<byte>, ghost base: nat, ghost done: seq<byte>)
    requires |was| == buf.Length && base + |done| == i < buf.Length && buf[..] == Placed(was, base, done)
    modifies buf
    ensures buf[..] == Placed(was, base, done + [b])
  {
    buf[i] := b;
    assert buf[..] == Placed(was, base, done)[i := b];
  }

  /** `copy(buf[at:], data)`. */
  method Copy(buf: array<byte>, at: nat, data: seq<byte>)
    requires at + |data| <= buf.Length
    modifies buf
    ensures buf[..] == Placed(old(buf[..]), at, data)
  {
    forall k | 0 <= k < |data| { buf[at + k] := data[k]; }
    assert buf[..at] == old(buf[..at]);
    assert buf[at..at + |data|] == data;
    assert buf[at + |data|..] == old(buf[at + |data|..]);
    assert buf[..] == buf[..at] + buf[at..at + |data|] + buf[at + |data|..];
  }

  // The printers below extend `tail`, which stands at `end`, to the left; `was` is the buffer before any of it.

  method PrependRaw(buf: array<byte>, end: nat, data: seq<byte>, ghost was: seq<byte>, ghost tail: seq<byte>)
      returns (i: nat)
    requires |data| <= end && |was| == buf.Length && end + |tail| <= buf.Length && buf[..] == Placed(was, end, tail)
    modifies buf
    ensures i == end - |data| && buf[..] == Placed(was, i, data + tail)
  {
    i := end - |data|;
    Copy(buf, i, data);
    PlacedTwice(was, i, data, tail);
  }

  method PrependVarint(buf: array<byte>, end: nat, v: nat, ghost was: seq<byte>, ghost tail: seq<byte>)
      returns (i: nat)
    requires |Varint(v)| <= end && |was| == buf.Length && end + |tail| <= buf.Length
    requires buf[..] == Placed(was, end, tail)
    modifies buf
    ensures i == end - |Varint(v)| && buf[..] == Placed(was, i, Varint(v) + tail)
  {
    i := EncodeVarint(buf, end, v);
    PlacedTwice(was, i, Varint(v), tail);
  }

  method PrependByte(buf: array<byte>, end: nat, b: byte, ghost was: seq<byte>, ghost tail: seq<byte>)
      returns (i: nat)
    requires 0 < end && |was| == buf.Length && end + |tail| <= buf.Length && buf[..] == Placed(was, end, tail)
    modifies buf
    ensures i == end - 1 && buf[..] == Placed(was, i, [b] + tail)
  {
    i := end - 1;
    buf[i] := b;
    assert buf[..] == Placed(was, end, tail)[i := b];
  }

  method PrependNumber(buf: array<byte>, end: nat, num: Num, v: nat, ghost was: seq<byte>, ghost tail: seq<byte>)
      returns (i: nat)
    requires |FieldBytes(Number(num, v))| <= end && |was| == buf.Length && end + |tail| <= buf.Length
    requires buf[..] == Placed(was, end, tail)
    modifies buf
    ensures i == end - |FieldBytes(Number(num, v))|
    ensures buf[..] == Placed(was, i, FieldBytes(Number(num, v)) + tail)
  {
    i := PrependVarint(buf, end, v, was, tail);
    i := PrependByte(buf, i, num * 8, was, Varint(v) + tail);
    assert [num * 8] + (Varint(v) + tail) == FieldBytes(Number(num, v)) + tail;
  }

  /** The length and the tag before bytes already in place; `bytes` is the whole field. */
  method PrependLength(
      buf: array<byte>, end: nat, num: Num, size: nat, ghost data: seq<byte>, ghost bytes: seq<byte>,
      ghost was: seq<byte>, ghost tail: seq<byte>) returns (i: nat)
    requires size == |data| && bytes == FieldBytes(Bytes(num, data))
    requires |bytes| - size <= end && |was| == buf.Length && end + |data + tail| <= buf.Length
    requires buf[..] == Placed(was, end, data + tail)
    modifies buf
    ensures i == end + size - |bytes| && buf[..] == Placed(was, i, bytes + tail)
  {
    ghost var length := Varint(size);
    HeaderParts(num, data, length, bytes, tail);
    i := PrependVarint(buf, end, size, was, data + tail);
    i := PrependByte(buf, i, num * 8 + 2, was, length + (data + tail));
  }

  lemma FieldParts(num: Num, data: seq<byte>, length: seq<byte>)
    requires length == Varint(|data|)
    ensures FieldBytes(Bytes(num, data)) == [num * 8 + 2] + length + data
  {
  }

  lemma HeaderParts(num: Num, data: seq<byte>, length: seq<byte>, bytes: seq<byte>, tail: seq<byte>)
    requires length == Varint(|data|) && bytes == FieldBytes(Bytes(num, data))
    ensures [num * 8 + 2] + (length + (data + tail)) == bytes + tail && |bytes| == 1 + |length| + |data|
  {
    var tag: seq<byte> := [num * 8 + 2];
    FieldParts(num, data, length);
    FourParts(tag, length, data, tail);
  }

  lemma FourParts(a: seq<byte>, b: seq<byte>, c: seq<byte>, d: seq<byte>)
    ensures a + (b + (c + d)) == a + b + c + d
  {
    Associates(a + b, c, d);
    Associates(a, b, c + d);
  }
}
