/** The layer both generated codecs share: lengths, skipping, records and the record loop, as functions of the bytes,
    and what a message type must satisfy for printing and parsing to undo each other. */
module Wire {
  import opened Varints

  // ---------- lengths ----------

  /** A length at the head of `s`, which begins at index `base`: where the bytes it announces begin and end.
      A length or an end beyond the largest int has wrapped to a negative one. */
  function ReadLength(s: seq<byte>, base: nat): (r: Result<(nat, nat)>)
    ensures r.Ok? ==> 0 < r.value.0 <= r.value.1 <= |s|
  {
    match ReadVarint(s)
    case Err(e) => Err(e)
    case Ok((v, n)) =>
      if v > MaxInt || base + n + v > MaxInt then Err(InvalidLength)
      else if n + v > |s| then Err(UnexpectedEof)
      else Ok((n, n + v))
  }

  // ---------- skipping ----------

  datatype Move = Move(length: nat, depth: nat)

  /** What a wire type says to jump over, from behind the tag. */
  function Jump(s: seq<byte>, kind: nat, depth: nat): (r: Result<Move>)
  {
    match kind
    case 0 =>
      (match ReadVarint(s)
       case Err(e) => Err(e)
       case Ok((_, k)) => Ok(Move(k, depth)))
    case 1 => Ok(Move(8, depth))
    case 2 =>
      (match ReadVarint(s)
       case Err(e) => Err(e)
       case Ok((v, k)) => if v > MaxInt then Err(InvalidLength) else Ok(Move(k + v, depth)))
    case 3 => Ok(Move(0, depth + 1))
    case 4 => if depth == 0 then Err(UnexpectedEndOfGroup) else Ok(Move(0, depth - 1))
    case 5 => Ok(Move(4, depth))
    case _ => Err(IllegalWireType)
  }

  /** One round of the skipping loop: a tag and the jump. An index beyond the largest int has wrapped. */
  function SkipOne(s: seq<byte>, base: nat, depth: nat): (r: Result<Move>)
    ensures r.Ok? ==> r.value.length > 0
  {
    match ReadVarint(s)
    case Err(e) => Err(e)
    case Ok((wire, n)) =>
      match Jump(s[n..], wire % 8, depth)
      case Err(e) => Err(e)
      case Ok(jump) =>
        if base + n + jump.length > MaxInt then Err(InvalidLength) else Ok(Move(n + jump.length, jump.depth))
  }

  /** A round of the skipping loop. The loop is stated over any round, so that its properties are proved
      from the round's contract alone. */
  type Round = f: (seq<byte>, nat, nat) -> Result<Move> | Advances(f) witness (s, base, depth) => Err(UnexpectedEof)

  ghost predicate Advances(f: (seq<byte>, nat, nat) -> Result<Move>)
  {
    forall s, base, depth :: f(s, base, depth).Ok? ==> f(s, base, depth).value.length > 0
  }

  /** The length of the record, with its nested groups, at the head of `s`; it may reach beyond `s`. */
  function SkipBy(round: Round, s: seq<byte>, base: nat, depth: nat): (r: Result<nat>)
    ensures r.Ok? ==> r.value > 0
    decreases |s|
  {
    if s == [] then Err(UnexpectedEof)
    else
      match round(s, base, depth)
      case Err(e) => Err(e)
      case Ok(move) =>
        if move.depth == 0 then Ok(move.length)
        else if move.length > |s| then Err(UnexpectedEof)
        else
          match SkipBy(round, s[move.length..], base + move.length, move.depth)
          case Err(e) => Err(e)
          case Ok(n) => Ok(move.length + n)
  }

  function Skip(s: seq<byte>): (r: Result<nat>)
    ensures r.Ok? ==> r.value > 0
  {
    SkipBy(SkipOne, s, 0, 0)
  }

  lemma JumpLocal(s: seq<byte>, t: seq<byte>, kind: nat, depth: nat)
    requires Jump(s, kind, depth).Ok? && Agree(s, t, Jump(s, kind, depth).value.length)
    ensures Jump(t, kind, depth) == Jump(s, kind, depth)
  {
    if kind == 0 || kind == 2 {
      AgreeTail(s, t, ReadVarint(s).value.1, Jump(s, kind, depth).value.length);
      VarintLocal(s, t, 0, 0);
    }
  }

  lemma SkipOneLocal(s: seq<byte>, t: seq<byte>, base: nat, depth: nat)
    requires SkipOne(s, base, depth).Ok? && Agree(s, t, SkipOne(s, base, depth).value.length)
    ensures SkipOne(t, base, depth) == SkipOne(s, base, depth)
  {
    var (wire, k) := ReadVarint(s).value;
    AgreeTail(s, t, k, SkipOne(s, base, depth).value.length);
    VarintLocal(s, t, 0, 0);
    JumpLocal(s[k..], t[k..], wire % 8, depth);
  }

  ghost predicate RoundLocal(round: Round)
  {
    forall s, t, base, depth :: round(s, base, depth).Ok? && Agree(s, t, round(s, base, depth).value.length) ==>
      round(t, base, depth) == round(s, base, depth)
  }

  lemma {:induction false} SkipByLocal(round: Round, s: seq<byte>, t: seq<byte>, base: nat, depth: nat)
    requires RoundLocal(round)
    requires SkipBy(round, s, base, depth).Ok? && Agree(s, t, SkipBy(round, s, base, depth).value)
    ensures SkipBy(round, t, base, depth) == SkipBy(round, s, base, depth)
    decreases |s|
  {
    var n, move := SkipBy(round, s, base, depth).value, round(s, base, depth).value;
    AgreeTail(s, t, move.length, n);
    if move.depth > 0 {
      SkipByLocal(round, s[move.length..], t[move.length..], base + move.length, move.depth);
    }
  }

  /** Skipping depends only on the bytes skipped. */
  lemma SkipLocal(s: seq<byte>, t: seq<byte>)
    requires Skip(s).Ok? && Agree(s, t, Skip(s).value)
    ensures Skip(t) == Skip(s)
  {
    forall x, y, base, depth | SkipOne(x, base, depth).Ok? && Agree(x, y, SkipOne(x, base, depth).value.length)
      ensures SkipOne(y, base, depth) == SkipOne(x, base, depth)
    {
      SkipOneLocal(x, y, base, depth);
    }
    SkipByLocal(SkipOne, s, t, 0, 0);
  }

  // ---------- records ----------

  datatype Kind = Unknown | VarintKind | BytesKind

  /** The field numbers in use, whose tags take one byte. */
  type Num = n: int | 1 <= n < 16 witness 1

  datatype Field = Number(num: Num, value: nat) | Bytes(num: Num, data: seq<byte>)

  datatype Entry = Known(field: Field) | Raw(bytes: seq<byte>)

  type Schema = Num -> Kind

  /** What follows a tag of `n` bytes: a field the message knows, or the bytes of one it keeps, tag included. */
  function Content(kind: Kind, num: int, wireType: nat, s: seq<byte>, n: nat, base: nat): (r: Result<(Entry, nat)>)
    requires 0 < n <= |s| && 0 < num && (kind != Unknown ==> num < 16)
    ensures r.Ok? ==> 0 < r.value.1 <= |s|
    ensures r.Ok? && r.value.0.Raw? ==> r.value.0.bytes == s[..r.value.1]
  {
    match kind
    case VarintKind =>
      if wireType != 0 then Err(WrongWireType)
      else
        (match ReadVarint(s[n..])
         case Err(e) => Err(e)
         case Ok((v, k)) => Ok((Known(Number(num, v)), n + k)))
    case BytesKind =>
      if wireType != 2 then Err(WrongWireType)
      else
        (match ReadLength(s[n..], base + n)
         case Err(e) => Err(e)
         case Ok((low, high)) => Ok((Known(Bytes(num, s[n + low..n + high])), n + high)))
    case Unknown =>
      match Skip(s)
      case Err(e) => Err(e)
      case Ok(k) =>
        if base + k > MaxInt then Err(InvalidLength)
        else if k > |s| then Err(UnexpectedEof)
        else Ok((Raw(s[..k]), k))
  }

  /** One round of a generated `Unmarshal` loop. */
  function Record(kinds: Schema, s: seq<byte>, base: nat): (r: Result<(Entry, nat)>)
    ensures r.Ok? ==> 0 < r.value.1 <= |s|
    ensures r.Ok? && r.value.0.Raw? ==> r.value.0.bytes == s[..r.value.1]
  {
    match ReadVarint(s)
    case Err(e) => Err(e)
    case Ok((wire, n)) =>
      var num := ToInt32(wire / 8);
      if wire % 8 == 4 then Err(EndGroup)
      else if num <= 0 then Err(IllegalTag)
      else Content(if num < 16 then kinds(num) else Unknown, num, wire % 8, s, n, base)
  }

  lemma SkipBeyondTag(s: seq<byte>)
    requires Skip(s).Ok?
    ensures ReadVarint(s).Ok? && ReadVarint(s).value.1 <= Skip(s).value
  {
  }

  /** A kept record is read the same wherever its bytes stand. */
  lemma RawLocal(kinds: Schema, s: seq<byte>, base: nat, t: seq<byte>, base': nat)
    requires Record(kinds, s, base).Ok? && Record(kinds, s, base).value.0.Raw?
    requires Agree(s, t, Record(kinds, s, base).value.1) && base' + |t| <= MaxInt
    ensures Record(kinds, t, base') == Record(kinds, s, base)
  {
    SkipLocal(s, t);
    SkipBeyondTag(s);
    AgreeTail(s, t, ReadVarint(s).value.1, Record(kinds, s, base).value.1);
    VarintLocal(s, t, 0, 0);
  }

  // ---------- messages ----------

  /** The fields a message knows and the bytes of those it does not. */
  datatype Message<+T> = Message(body: T, unknown: seq<byte>)

  /** A round of the `Unmarshal` loop; the loop, too, is stated over any round. */
  type Reader = f: (seq<byte>, nat) -> Result<(Entry, nat)> | Takes(f) witness (s, base) => Err(UnexpectedEof)

  ghost predicate Takes(f: (seq<byte>, nat) -> Result<(Entry, nat)>)
  {
    forall s, base :: f(s, base).Ok? ==> 0 < f(s, base).value.1 <= |s|
  }

  /** What is particular to one message type: how its records are read and what a field does to the body. */
  datatype Codec<!T> = Rules(read: Reader, put: (T, Field) -> Result<T>)

  /** The generated `Unmarshal`: merges `s`, which begins at index `base`, into `m`. */
  function Parse<T>(c: Codec<T>, m: Message<T>, s: seq<byte>, base: nat): (r: Result<Message<T>>)
    decreases |s|
  {
    if s == [] then Ok(m)
    else
      match c.read(s, base)
      case Err(e) => Err(e)
      case Ok((Raw(bytes), n)) => Parse(c, Message(m.body, m.unknown + bytes), s[n..], base + n)
      case Ok((Known(f), n)) =>
        match c.put(m.body, f)
        case Err(e) => Err(e)
        case Ok(body) => Parse(c, Message(body, m.unknown), s[n..], base + n)
  }

  /** The bytes of one field: a one-byte tag, and a varint or a length and its bytes. */
  function FieldBytes(f: Field): (r: seq<byte>)
    ensures r != []
  {
    match f
    case Number(num, v) => [num * 8] + Varint(v)
    case Bytes(num, data) => [num * 8 + 2] + Varint(|data|) + data
  }

  predicate FieldOk(kinds: Schema, f: Field)
  {
    match f
    case Number(num, v) => kinds(num) == VarintKind && v < Two64
    case Bytes(num, _) => kinds(num) == BytesKind
  }

  predicate FieldsOk(kinds: Schema, fs: seq<Field>)
  {
    fs == [] || (FieldOk(kinds, fs[0]) && FieldsOk(kinds, fs[1..]))
  }

  function Concat<T>(show: T -> seq<byte>, xs: seq<T>): seq<byte>
  {
    if xs == [] then [] else show(xs[0]) + Concat(show, xs[1..])
  }

  function Shown(): Field -> seq<byte> { f => FieldBytes(f) }

  function FieldsBytes(fs: seq<Field>): seq<byte> { Concat(Shown(), fs) }

  lemma Associates(a: seq<byte>, b: seq<byte>, c: seq<byte>)
    ensures a + b + c == a + (b + c)
  {
  }

  lemma {:induction false} ConcatAppend<T>(show: T -> seq<byte>, a: seq<T>, b: seq<T>)
    ensures Concat(show, a + b) == Concat(show, a) + Concat(show, b)
  {
    if a == [] {
      assert a + b == b;
    } else {
      ConcatAppend(show, a[1..], b);
      assert (a + b)[1..] == a[1..] + b;
      Associates(show(a[0]), Concat(show, a[1..]), Concat(show, b));
    }
  }

  function Fold<T>(put: (T, Field) -> Result<T>, body: T, fs: seq<Field>): Result<T>
  {
    if fs == [] then Ok(body)
    else
      match put(body, fs[0])
      case Err(e) => Err(e)
      case Ok(b) => Fold(put, b, fs[1..])
  }

  /** Records of which the message knows none, each as long as skipping says. */
  predicate UnknownOk(read: Reader, u: seq<byte>)
    decreases |u|
  {
    u == []
    || (var r := read(u, 0);
        r.Ok? && r.value.0 == Raw(u[..r.value.1]) && UnknownOk(read, u[r.value.1..]))
  }

  /** Reading a record undoes printing a field, whatever follows. */
  ghost predicate ReadsBack(kinds: Schema, show: Field -> seq<byte>, read: Reader)
  {
    forall f, rest, base: nat :: FieldOk(kinds, f) && base + |show(f) + rest| <= MaxInt ==>
      read(show(f) + rest, base) == Ok((Known(f), |show(f)|))
  }

  /** A kept record is read the same wherever its bytes stand. */
  ghost predicate KeepsRaw(read: Reader)
  {
    forall s, base: nat, t, base': nat ::
      && read(s, base).Ok? && read(s, base).value.0.Raw?
      && Agree(s, t, read(s, base).value.1) && base' + |t| <= MaxInt ==>
      read(t, base') == read(s, base)
  }

  lemma TagReads(num: Num, kind: nat, rest: seq<byte>)
    requires kind < 8
    ensures ReadVarint([num * 8 + kind] + rest) == Ok((num * 8 + kind, 1))
    ensures ToInt32((num * 8 + kind) / 8) == num && (num * 8 + kind) % 8 == kind
  {
    VarintReads(num * 8 + kind, rest);
  }

  lemma NumberReads(kinds: Schema, num: Num, v: nat, rest: seq<byte>, base: nat)
    requires FieldOk(kinds, Number(num, v))
    ensures Record(kinds, FieldBytes(Number(num, v)) + rest, base)
         == Ok((Known(Number(num, v)), |FieldBytes(Number(num, v))|))
  {
    var s := FieldBytes(Number(num, v)) + rest;
    assert s == [num * 8 + 0] + (Varint(v) + rest);
    TagReads(num, 0, Varint(v) + rest);
    assert s[1..] == Varint(v) + rest;
    VarintReads(v, rest);
  }

  lemma LengthReads(data: seq<byte>, rest: seq<byte>, base: nat)
    requires base + |Varint(|data|) + data + rest| <= MaxInt
    ensures ReadLength(Varint(|data|) + data + rest, base) == Ok((|Varint(|data|)|, |Varint(|data|) + data|))
  {
    assert Varint(|data|) + data + rest == Varint(|data|) + (data + rest);
    VarintReads(|data|, data + rest);
  }

  lemma BytesReads(kinds: Schema, num: Num, data: seq<byte>, rest: seq<byte>, base: nat)
    requires FieldOk(kinds, Bytes(num, data)) && base + |FieldBytes(Bytes(num, data)) + rest| <= MaxInt
    ensures Record(kinds, FieldBytes(Bytes(num, data)) + rest, base)
         == Ok((Known(Bytes(num, data)), |FieldBytes(Bytes(num, data))|))
  {
    var s, tail := FieldBytes(Bytes(num, data)) + rest, Varint(|data|) + data + rest;
    assert s == [num * 8 + 2] + tail;
    TagReads(num, 2, tail);
    assert s[1..] == tail;
    LengthReads(data, rest, base + 1);
    assert s[1 + |Varint(|data|)|..1 + |Varint(|data|) + data|] == data;
  }

  lemma RecordReads(kinds: Schema, f: Field, rest: seq<byte>, base: nat)
    requires FieldOk(kinds, f) && base + |FieldBytes(f) + rest| <= MaxInt
    ensures Record(kinds, FieldBytes(f) + rest, base) == Ok((Known(f), |FieldBytes(f)|))
  {
    match f
    case Number(num, v) => NumberReads(kinds, num, v, rest, base);
    case Bytes(num, data) => BytesReads(kinds, num, data, rest, base);
  }

  function ReaderOf(kinds: Schema): Reader { (s, base) => Record(kinds, s, base) }

  lemma ReaderReadsBack(kinds: Schema)
    ensures ReadsBack(kinds, Shown(), ReaderOf(kinds))
  {
    forall f, rest, base: nat | FieldOk(kinds, f) && base + |Shown()(f) + rest| <= MaxInt
      ensures ReaderOf(kinds)(Shown()(f) + rest, base) == Ok((Known(f), |Shown()(f)|))
    {
      RecordReads(kinds, f, rest, base);
    }
  }

  lemma ReaderKeepsRaw(kinds: Schema)
    ensures KeepsRaw(ReaderOf(kinds))
  {
    forall s, base: nat, t, base': nat |
      && ReaderOf(kinds)(s, base).Ok? && ReaderOf(kinds)(s, base).value.0.Raw?
      && Agree(s, t, ReaderOf(kinds)(s, base).value.1) && base' + |t| <= MaxInt
      ensures ReaderOf(kinds)(t, base') == ReaderOf(kinds)(s, base)
    {
      RawLocal(kinds, s, base, t, base');
    }
  }

  /** Unknown records are kept as they are. */
  lemma {:induction false} ParseUnknown<T>(c: Codec<T>, m: Message<T>, u: seq<byte>, base: nat)
    requires KeepsRaw(c.read) && UnknownOk(c.read, u) && base + |u| <= MaxInt
    ensures Parse(c, m, u, base) == Ok(Message(m.body, m.unknown + u))
    decreases |u|
  {
    if u == [] {
      assert m.unknown + u == m.unknown;
    } else {
      var n := c.read(u, 0).value.1;
      assert Agree(u, u, n);
      ParseUnknown(c, Message(m.body, m.unknown + u[..n]), u[n..], base + n);
      assert m.unknown + u[..n] + u[n..] == m.unknown + u;
    }
  }

  // Stated over any printer of fields, so that only its contract is used.

  lemma ParseFirst<T>(
      kinds: Schema, show: Field -> seq<byte>, c: Codec<T>, m: Message<T>, f: Field, s: seq<byte>, rest: seq<byte>,
      base: nat, body: T, r: Result<Message<T>>)
    requires ReadsBack(kinds, show, c.read) && FieldOk(kinds, f) && s == show(f) + rest && base + |s| <= MaxInt
    requires c.put(m.body, f) == Ok(body) && Parse(c, Message(body, m.unknown), rest, base + |show(f)|) == r
    ensures Parse(c, m, s, base) == r
  {
    assert c.read(show(f) + rest, base) == Ok((Known(f), |show(f)|));
    assert s[|show(f)|..] == rest;
  }

  /** Parsing printed fields replays them. */
  lemma {:induction false} ParseFields<T>(
      kinds: Schema, show: Field -> seq<byte>, c: Codec<T>, m: Message<T>, fs: seq<Field>, s: seq<byte>, u: seq<byte>,
      base: nat, body: T, r: Result<Message<T>>)
    requires ReadsBack(kinds, show, c.read) && Fold(c.put, m.body, fs) == Ok(body) && s == Concat(show, fs) + u
    requires FieldsOk(kinds, fs) && base + |s| <= MaxInt
    requires Parse(c, Message(body, m.unknown), u, base + |Concat(show, fs)|) == r
    ensures Parse(c, m, s, base) == r
    decreases |fs|
  {
    if fs == [] {
      assert s == u;
    } else {
      var f, next := fs[0], c.put(m.body, fs[0]).value;
      var rest := Concat(show, fs[1..]) + u;
      Associates(show(f), Concat(show, fs[1..]), u);
      ParseFields(kinds, show, c, Message(next, m.unknown), fs[1..], rest, u, base + |show(f)|, body, r);
      ParseFirst(kinds, show, c, m, f, s, rest, base, next, r);
    }
  }

  lemma ParsePrinted<T>(
      kinds: Schema, show: Field -> seq<byte>, c: Codec<T>, empty: T, fs: seq<Field>, m: Message<T>)
    requires ReadsBack(kinds, show, c.read) && KeepsRaw(c.read) && UnknownOk(c.read, m.unknown)
    requires FieldsOk(kinds, fs) && |Concat(show, fs) + m.unknown| <= MaxInt
    requires Fold(c.put, empty, fs) == Ok(m.body)
    ensures Parse(c, Message(empty, []), Concat(show, fs) + m.unknown, 0) == Ok(m)
  {
    var s := Concat(show, fs) + m.unknown;
    ParseUnknown(c, Message(m.body, []), m.unknown, |Concat(show, fs)|);
    assert [] + m.unknown == m.unknown;
    ParseFields(kinds, show, c, Message(empty, []), fs, s, m.unknown, 0, m.body, Ok(m));
  }

  // ---------- what parsing yields ----------

  /** A number that was read fits 64 bits. */
  predicate Small(f: Field) { f.Number? ==> f.value < Two64 }

  ghost predicate ReadsSmall(read: Reader)
  {
    forall s, base: nat :: read(s, base).Ok? ==>
      match read(s, base).value.0
      case Known(f) => Small(f) && (f.Bytes? ==> |f.data| <= |s|)
      case Raw(bytes) => bytes == s[..read(s, base).value.1]
  }

  lemma KeptOnce(read: Reader, u: seq<byte>, t: seq<byte>)
    requires KeepsRaw(read) && read(u, 0).Ok? && read(u, 0).value.0.Raw? && |t| <= MaxInt
    requires read(u, 0).value.1 <= |t| && t[..read(u, 0).value.1] == u[..read(u, 0).value.1]
    ensures read(t, 0) == read(u, 0)
  {
    assert Agree(u, t, read(u, 0).value.1);
  }

  lemma {:induction false} UnknownAppend(read: Reader, u: seq<byte>, bytes: seq<byte>)
    requires KeepsRaw(read) && UnknownOk(read, u) && UnknownOk(read, bytes) && |u + bytes| <= MaxInt
    ensures UnknownOk(read, u + bytes)
    decreases |u|
  {
    if u == [] {
      assert u + bytes == bytes;
    } else {
      var n := read(u, 0).value.1;
      assert (u + bytes)[..n] == u[..n] && (u + bytes)[n..] == u[n..] + bytes;
      KeptOnce(read, u, u + bytes);
      UnknownAppend(read, u[n..], bytes);
    }
  }

  lemma OneUnknown(read: Reader, s: seq<byte>, base: nat, n: nat)
    requires n <= |s| <= MaxInt && KeepsRaw(read) && read(s, base) == Ok((Raw(s[..n]), n))
    ensures UnknownOk(read, s[..n])
  {
    assert Agree(s, s[..n], n);
    assert read(s[..n], 0) == read(s, base);
    assert s[..n][..n] == s[..n] && s[..n][n..] == [];
  }

  /** `put` keeps `valid`. */
  ghost predicate Keeps<T(!new)>(put: (T, Field) -> Result<T>, valid: T -> bool)
  {
    forall b, f :: valid(b) && Small(f) && (f.Bytes? ==> |f.data| <= MaxInt) && put(b, f).Ok? ==>
      valid(put(b, f).value)
  }

  lemma RawKept(read: Reader, u: seq<byte>, s: seq<byte>, base: nat, bytes: seq<byte>, n: nat)
    requires KeepsRaw(read) && ReadsSmall(read) && UnknownOk(read, u) && |u| + |s| <= MaxInt
    requires read(s, base) == Ok((Raw(bytes), n))
    ensures bytes == s[..n] && UnknownOk(read, u + bytes)
  {
    OneUnknown(read, s, base, n);
    UnknownAppend(read, u, bytes);
  }

  /** A round that succeeds takes `n` bytes and leaves `next`. */
  ghost predicate OneRound<T>(c: Codec<T>, m: Message<T>, s: seq<byte>, base: nat, next: Message<T>, n: nat)
  {
    && c.read(s, base).Ok? && c.read(s, base).value.1 == n
    && match c.read(s, base).value.0
       case Raw(bytes) => next == Message(m.body, m.unknown + bytes)
       case Known(f) => c.put(m.body, f) == Ok(next.body) && next.unknown == m.unknown
  }

  lemma ParseNext<T>(c: Codec<T>, m: Message<T>, s: seq<byte>, base: nat, r: Message<T>)
      returns (next: Message<T>, n: nat)
    requires s != [] && Parse(c, m, s, base) == Ok(r)
    ensures 0 < n <= |s| && OneRound(c, m, s, base, next, n) && Parse(c, next, s[n..], base + n) == Ok(r)
  {
    n := c.read(s, base).value.1;
    match c.read(s, base).value.0
    case Raw(bytes) => next := Message(m.body, m.unknown + bytes);
    case Known(f) => next := Message(c.put(m.body, f).value, m.unknown);
  }

  /** A property of the message and the number of bytes left that every round keeps. */
  ghost predicate Invariant<T(!new)>(c: Codec<T>, inv: (Message<T>, nat) -> bool)
  {
    forall m, s, base: nat, next, n: nat ::
      inv(m, |s|) && OneRound(c, m, s, base, next, n) && n <= |s| ==> inv(next, |s| - n)
  }

  lemma {:induction false} ParsedInvariant<T(!new)>(
      c: Codec<T>, inv: (Message<T>, nat) -> bool, m: Message<T>, s: seq<byte>, base: nat, r: Message<T>)
    requires Invariant(c, inv) && inv(m, |s|) && Parse(c, m, s, base) == Ok(r)
    ensures inv(r, 0)
    decreases |s|
  {
    if s != [] {
      var next, n := ParseNext(c, m, s, base, r);
      ParsedInvariant(c, inv, next, s[n..], base + n, r);
    }
  }

  /** A valid body and well-formed unknown bytes, with room for what is left. */
  function Sound<T>(read: Reader, valid: T -> bool): (Message<T>, nat) -> bool
  {
    (m: Message<T>, left: nat) => valid(m.body) && UnknownOk(read, m.unknown) && |m.unknown| + left <= MaxInt
  }

  lemma SoundInvariant<T(!new)>(c: Codec<T>, valid: T -> bool)
    requires KeepsRaw(c.read) && ReadsSmall(c.read) && Keeps(c.put, valid)
    ensures Invariant(c, Sound(c.read, valid))
  {
    var inv := Sound(c.read, valid);
    forall m, s, base: nat, next, n: nat | inv(m, |s|) && OneRound(c, m, s, base, next, n) && n <= |s|
      ensures inv(next, |s| - n)
    {
      match c.read(s, base).value.0
      case Raw(bytes) => RawKept(c.read, m.unknown, s, base, bytes, n);
      case Known(f) =>
    }
  }

  lemma ReaderReadsSmall(kinds: Schema)
    ensures ReadsSmall(ReaderOf(kinds))
  {
    forall s, base: nat | ReaderOf(kinds)(s, base).Ok?
      ensures match ReaderOf(kinds)(s, base).value.0
        case Known(f) => Small(f) && (f.Bytes? ==> |f.data| <= |s|)
        case Raw(bytes) => bytes == s[..ReaderOf(kinds)(s, base).value.1]
    {
      if Record(kinds, s, base).value.0.Known? { RecordSmall(kinds, s, base); }
    }
  }

  lemma RecordSmall(kinds: Schema, s: seq<byte>, base: nat)
    requires Record(kinds, s, base).Ok? && Record(kinds, s, base).value.0.Known?
    ensures var f := Record(kinds, s, base).value.0.field; Small(f) && (f.Bytes? ==> |f.data| <= |s|)
  {
  }

  // ---------- message types ----------

  /** A message type: its schema, what a field does to the body, the fields of a body, and its valid bodies. */
  datatype Type<!T> = Type(
    kinds: Schema, put: (T, Field) -> Result<T>, empty: T, fields: T -> seq<Field>, valid: T -> bool)
  {
    function Codec(): Codec<T> { Rules(ReaderOf(kinds), put) }

    /** The bytes of a message: its fields in ascending order, then the unknown ones. */
    function Encode(m: Message<T>): seq<byte> { FieldsBytes(fields(m.body)) + m.unknown }

    /** `Unmarshal` into a fresh message. */
    function Decode(s: seq<byte>): Result<Message<T>> { Parse(Codec(), Message(empty, []), s, 0) }

    predicate Valid(m: Message<T>) { valid(m.body) && UnknownOk(ReaderOf(kinds), m.unknown) }
  }

  /** Replaying the fields of a valid body rebuilds it, and every field keeps bodies valid. */
  ghost predicate Lawful<T(!new)>(ty: Type<T>)
  {
    && (forall b :: ty.valid(b) ==> FieldsOk(ty.kinds, ty.fields(b)))
    && (forall b :: ty.valid(b) && |FieldsBytes(ty.fields(b))| <= MaxInt ==>
          Fold(ty.put, ty.empty, ty.fields(b)) == Ok(b))
    && ty.valid(ty.empty)
    && Keeps(ty.put, ty.valid)
  }

  /** Unmarshal undoes Marshal. */
  lemma DecodeEncode<T(!new)>(ty: Type<T>, m: Message<T>)
    requires Lawful(ty) && ty.Valid(m) && |ty.Encode(m)| <= MaxInt
    ensures ty.Decode(ty.Encode(m)) == Ok(m)
  {
    ReaderReadsBack(ty.kinds);
    ReaderKeepsRaw(ty.kinds);
    ParsePrinted(ty.kinds, Shown(), ty.Codec(), ty.empty, ty.fields(m.body), m);
  }

  /** Whatever bytes parse, parse to a valid message. */
  lemma DecodedValid<T(!new)>(ty: Type<T>, s: seq<byte>)
    requires Lawful(ty) && |s| <= MaxInt && ty.Decode(s).Ok?
    ensures ty.Valid(ty.Decode(s).value)
  {
    ReaderKeepsRaw(ty.kinds);
    ReaderReadsSmall(ty.kinds);
    SoundInvariant(ty.Codec(), ty.valid);
    var inv := Sound(ReaderOf(ty.kinds), ty.valid);
    ParsedInvariant(ty.Codec(), inv, Message(ty.empty, []), s, 0, ty.Decode(s).value);
  }

  /** So a parsed message, printed, parses to itself. */
  lemma Reparse<T(!new)>(ty: Type<T>, s: seq<byte>)
    requires Lawful(ty) && |s| <= MaxInt && ty.Decode(s).Ok? && |ty.Encode(ty.Decode(s).value)| <= MaxInt
    ensures ty.Decode(ty.Encode(ty.Decode(s).value)) == ty.Decode(s)
  {
    DecodedValid(ty, s);
    DecodeEncode(ty, ty.Decode(s).value);
  }

  // ---------- sizes ----------

  function FieldSize(f: Field): nat
  {
    match f
    case Number(_, v) => 1 + Sov(v)
    case Bytes(_, data) => 1 + |data| + Sov(|data|)
  }

  function FieldsSize(fs: seq<Field>): nat
  {
    if fs == [] then 0 else FieldSize(fs[0]) + FieldsSize(fs[1..])
  }

  /** The sum `Size` computes is exactly what is written. */
  lemma {:induction false} SizeExact(fs: seq<Field>)
    ensures FieldsSize(fs) == |FieldsBytes(fs)|
  {
    if fs != [] {
      match fs[0] {
        case Number(_, v) => SovExact(v);
        case Bytes(_, data) => SovExact(|data|);
      }
      SizeExact(fs[1..]);
    }
  }
}
