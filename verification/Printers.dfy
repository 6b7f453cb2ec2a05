/** The generated printers: each writes its message backwards into a buffer, ending at `end`. */
module Printers {
  import opened Varints
  import opened Wire
  import opened WireLoops
  import opened Messages

  /** What printing `bytes` so that they end at `end` makes of the buffer `was`. */
  ghost predicate Printed(was: seq<byte>, now: seq<byte>, end: nat, n: nat, bytes: seq<byte>)
  {
    n == |bytes| && |bytes| <= end <= |was| && now == Placed(was, end - |bytes|, bytes)
  }

  // The printers below extend `tail`, which stands at `end`, to the left by `bytes`.

  method PrependText(
      buf: array<byte>, end: nat, num: Num, s: seq<byte>, ghost was: seq<byte>, ghost tail: seq<byte>,
      ghost bytes: seq<byte>) returns (i: nat)
    requires bytes == FieldsBytes(TextField(num, s))
    requires |bytes| <= end && |was| == buf.Length && end + |tail| <= buf.Length && buf[..] == Placed(was, end, tail)
    modifies buf
    ensures i == end - |bytes| && buf[..] == Placed(was, i, bytes + tail)
  {
    i := end;
    OneField(Bytes(num, s));
    if |s| > 0 {
      i := PrependRaw(buf, i, s, was, tail);
      i := PrependLength(buf, i, num, |s|, s, bytes, was, tail);
    }
    assert s == [] ==> bytes + tail == tail;
  }

  method PrependNonzero(
      buf: array<byte>, end: nat, num: Num, v: nat, ghost was: seq<byte>, ghost tail: seq<byte>,
      ghost bytes: seq<byte>) returns (i: nat)
    requires bytes == FieldsBytes(NumberField(num, v))
    requires |bytes| <= end && |was| == buf.Length && end + |tail| <= buf.Length && buf[..] == Placed(was, end, tail)
    modifies buf
    ensures i == end - |bytes| && buf[..] == Placed(was, i, bytes + tail)
  {
    i := end;
    if v != 0 {
      i := PrependNumber(buf, i, num, v, was, tail);
    }
    OneField(Number(num, v));
    assert v == 0 ==> bytes + tail == tail;
  }

  /** The length and tag of an element just printed; `bytes` is the whole field. */
  method PrependHeader(
      buf: array<byte>, end: nat, num: Num, size: nat, ghost before: seq<byte>, ghost data: seq<byte>,
      ghost bytes: seq<byte>, ghost was: seq<byte>, ghost tail: seq<byte>) returns (i: nat)
    requires |was| == buf.Length && end + |tail| <= buf.Length && before == Placed(was, end, tail)
    requires bytes == FieldBytes(Bytes(num, data)) && |bytes| <= end && Printed(before, buf[..], end, size, data)
    modifies buf
    ensures i == end - |bytes| && buf[..] == Placed(was, i, bytes + tail)
  {
    PlacedTwice(was, end - size, data, tail);
    i := PrependLength(buf, end - size, num, size, data, bytes, was, tail);
  }

  lemma TwoFields(a: seq<Field>, b: seq<Field>, u: seq<byte>) returns (x: seq<byte>, y: seq<byte>)
    ensures x == FieldsBytes(a) && y == FieldsBytes(b) && FieldsBytes(a + b) + u == x + (y + u)
  {
    x, y := FieldsBytes(a), FieldsBytes(b);
    FieldsAppend(a, b);
    Associates(x, y, u);
  }

  lemma ThreeFields(a: seq<Field>, b: seq<Field>, c: seq<Field>, u: seq<byte>)
      returns (x: seq<byte>, y: seq<byte>, z: seq<byte>)
    ensures x == FieldsBytes(a) && y == FieldsBytes(b) && z == FieldsBytes(c)
    ensures FieldsBytes(a + (b + c)) + u == x + (y + (z + u))
  {
    ghost var yz;
    y, z := TwoFields(b, c, u);
    x, yz := TwoFields(a, b + c, u);
  }

  method PrintScore(m: Message<Score>, buf: array<byte>, end: nat) returns (n: nat)
    requires |ScoreType().Encode(m)| <= end <= buf.Length
    modifies buf
    ensures Printed(old(buf[..]), buf[..], end, n, ScoreType().Encode(m))
  {
    ghost var was := buf[..];
    ghost var wallet, scorer, value := ThreeFields(
      TextField(1, m.body.wallet), TextField(2, m.body.scorer), TextField(3, m.body.value), m.unknown);
    ghost var tail: seq<byte> := m.unknown;
    assert Placed(was, end, []) == was && tail + [] == tail;
    var i := PrependRaw(buf, end, m.unknown, was, []);
    i := PrependText(buf, i, 3, m.body.value, was, tail, value);
    tail := value + tail;
    i := PrependText(buf, i, 2, m.body.scorer, was, tail, scorer);
    tail := scorer + tail;
    i := PrependText(buf, i, 1, m.body.wallet, was, tail, wallet);
    return end - i;
  }

  method PrintScorer(m: Message<Scorer>, buf: array<byte>, end: nat) returns (n: nat)
    requires |ScorerType().Encode(m)| <= end <= buf.Length
    modifies buf
    ensures Printed(old(buf[..]), buf[..], end, n, ScorerType().Encode(m))
  {
    ghost var was, name := buf[..], FieldsBytes(TextField(1, m.body.name));
    ghost var tail: seq<byte> := m.unknown;
    assert Placed(was, end, []) == was && tail + [] == tail;
    var i := PrependRaw(buf, end, m.unknown, was, []);
    i := PrependText(buf, i, 1, m.body.name, was, tail, name);
    return end - i;
  }

  method PrintWallet(m: Message<Wallet>, buf: array<byte>, end: nat) returns (n: nat)
    requires |WalletType().Encode(m)| <= end <= buf.Length
    modifies buf
    ensures Printed(old(buf[..]), buf[..], end, n, WalletType().Encode(m))
  {
    ghost var was, address := buf[..], FieldsBytes(TextField(1, m.body.address));
    ghost var tail: seq<byte> := m.unknown;
    assert Placed(was, end, []) == was && tail + [] == tail;
    var i := PrependRaw(buf, end, m.unknown, was, []);
    i := PrependText(buf, i, 1, m.body.address, was, tail, address);
    return end - i;
  }

  method PrintRange(m: Message<Range>, buf: array<byte>, end: nat) returns (n: nat)
    requires |RangeType().Encode(m)| <= end <= buf.Length
    modifies buf
    ensures Printed(old(buf[..]), buf[..], end, n, RangeType().Encode(m))
  {
    ghost var was := buf[..];
    ghost var from, until := TwoFields(TextField(1, m.body.from), TextField(2, m.body.until), m.unknown);
    ghost var tail: seq<byte> := m.unknown;
    assert Placed(was, end, []) == was && tail + [] == tail;
    var i := PrependRaw(buf, end, m.unknown, was, []);
    i := PrependText(buf, i, 2, m.body.until, was, tail, until);
    tail := until + tail;
    i := PrependText(buf, i, 1, m.body.from, was, tail, from);
    return end - i;
  }

  method PrintQuery(m: Message<Query>, buf: array<byte>, end: nat) returns (n: nat)
    requires |QueryType().Encode(m)| <= end <= buf.Length
    modifies buf
    ensures Printed(old(buf[..]), buf[..], end, n, QueryType().Encode(m))
  {
    ghost var was := buf[..];
    ghost var kind, expression, offset := ThreeFields(
      NumberField(1, Signed(m.body.kind)), TextField(2, m.body.expression), NumberField(3, m.body.offset), m.unknown);
    ghost var tail: seq<byte> := m.unknown;
    assert Placed(was, end, []) == was && tail + [] == tail;
    var i := PrependRaw(buf, end, m.unknown, was, []);
    i := PrependNonzero(buf, i, 3, m.body.offset, was, tail, offset);
    tail := offset + tail;
    i := PrependText(buf, i, 2, m.body.expression, was, tail, expression);
    tail := expression + tail;
    i := PrependNonzero(buf, i, 1, Signed(m.body.kind), was, tail, kind);
    return end - i;
  }

  method PrintBlock(m: Message<Block>, buf: array<byte>, end: nat) returns (n: nat)
    requires |BlockType().Encode(m)| <= end <= buf.Length
    modifies buf
    ensures Printed(old(buf[..]), buf[..], end, n, BlockType().Encode(m))
  {
    ghost var was := buf[..];
    var flag := if m.body.processed then 1 else 0;
    ghost var number, processed := TwoFields(NumberField(1, Signed(m.body.number)), NumberField(2, flag), m.unknown);
    ghost var tail: seq<byte> := m.unknown;
    assert Placed(was, end, []) == was && tail + [] == tail;
    var i := PrependRaw(buf, end, m.unknown, was, []);
    i := PrependNonzero(buf, i, 2, flag, was, tail, processed);
    tail := processed + tail;
    i := PrependNonzero(buf, i, 1, Signed(m.body.number), was, tail, number);
    return end - i;
  }

  // ---------- batches ----------

  /** The bytes of the elements from `k` on. */
  ghost function Element<M>(show: M -> seq<byte>, x: M): seq<byte> { FieldBytes(Bytes(1, show(x))) }

  ghost predicate Prints<T>(show: Message<T> -> seq<byte>, element: Type<T>) { show == Printer(element) }

  ghost function From<M>(show: M -> seq<byte>, ms: seq<M>, k: nat): seq<byte>
    requires k <= |ms|
  {
    FieldsBytes(Repeated(show, ms[k..]))
  }

  lemma FromAll<M>(show: M -> seq<byte>, ms: seq<M>)
    ensures From(show, ms, 0) == FieldsBytes(Repeated(show, ms)) && From(show, ms, |ms|) == []
  {
    assert ms[0..] == ms;
  }

  lemma {:induction false} FromShorter<M>(show: M -> seq<byte>, ms: seq<M>, k: nat)
    requires k <= |ms|
    ensures |From(show, ms, k)| <= |FieldsBytes(Repeated(show, ms))|
  {
    if k == 0 {
      assert ms[0..] == ms;
    } else {
      FromShorter(show, ms, k - 1);
    }
  }

  /** One more element to the left. */
  lemma Extended<M>(show: M -> seq<byte>, ms: seq<M>, k: nat, u: seq<byte>, tail: seq<byte>, bytes: seq<byte>)
    requires k < |ms| && tail == From(show, ms, k + 1) + u && bytes == Element(show, ms[k])
    ensures bytes + tail == From(show, ms, k) + u
    ensures |bytes + tail| <= |FieldsBytes(Repeated(show, ms)) + u|
  {
    FromShorter(show, ms, k);
    Associates(bytes, From(show, ms, k + 1), u);
  }

  lemma BatchBytes<T>(element: Type<T>, m: Message<seq<Message<T>>>) returns (bytes: seq<byte>)
    ensures bytes == BatchType(element).Encode(m)
    ensures bytes == FieldsBytes(Repeated(Printer(element), m.body)) + m.unknown
  {
    bytes := BatchType(element).Encode(m);
  }

  method PrependScore(
      buf: array<byte>, end: nat, num: Num, m: Message<Score>, ghost was: seq<byte>, ghost tail: seq<byte>,
      ghost bytes: seq<byte>) returns (i: nat)
    requires bytes == FieldBytes(Bytes(num, ScoreType().Encode(m)))
    requires |bytes| <= end && |was| == buf.Length && end + |tail| <= buf.Length && buf[..] == Placed(was, end, tail)
    modifies buf
    ensures i == end - |bytes| && buf[..] == Placed(was, i, bytes + tail)
  {
    ghost var before, data := buf[..], ScoreType().Encode(m);
    var size := PrintScore(m, buf, end);
    i := PrependHeader(buf, end, num, size, before, data, bytes, was, tail);
  }

  method PrependScoreElement(
      buf: array<byte>, end: nat, m: Message<Score>, ghost show: Message<Score> -> seq<byte>, ghost was: seq<byte>,
      ghost tail: seq<byte>, ghost bytes: seq<byte>) returns (i: nat)
    requires Prints(show, ScoreType()) && bytes == Element(show, m)
    requires |bytes| <= end && |was| == buf.Length && end + |tail| <= buf.Length && buf[..] == Placed(was, end, tail)
    modifies buf
    ensures i == end - |bytes| && buf[..] == Placed(was, i, bytes + tail)
  {
    i := PrependScore(buf, end, 1, m, was, tail, bytes);
  }

  method PrintScores(
      buf: array<byte>, end: nat, m: Message<seq<Message<Score>>>, ghost show: Message<Score> -> seq<byte>,
      ghost bytes: seq<byte>) returns (n: nat)
    requires Prints(show, ScoreType()) && bytes == FieldsBytes(Repeated(show, m.body)) + m.unknown
    requires |bytes| <= end <= buf.Length
    modifies buf
    ensures Printed(old(buf[..]), buf[..], end, n, bytes)
  {
    ghost var was, tail: seq<byte> := buf[..], m.unknown;
    assert Placed(was, end, []) == was && tail + [] == tail;
    var i := PrependRaw(buf, end, m.unknown, was, []);
    var k := |m.body|;
    FromAll(show, m.body);
    assert From(show, m.body, k) + m.unknown == tail;
    while k > 0
      invariant 0 <= k <= |m.body| && tail == From(show, m.body, k) + m.unknown
      invariant i == end - |tail| && |tail| <= |bytes| && buf[..] == Placed(was, i, tail)
    {
      k := k - 1;
      ghost var element := Element(show, m.body[k]);
      Extended(show, m.body, k, m.unknown, tail, element);
      i := PrependScoreElement(buf, i, m.body[k], show, was, tail, element);
      tail := element + tail;
    }
    return end - i;
  }

  method PrintScoreBatch(m: Message<seq<Message<Score>>>, buf: array<byte>, end: nat) returns (n: nat)
    requires |BatchType(ScoreType()).Encode(m)| <= end <= buf.Length
    modifies buf
    ensures Printed(old(buf[..]), buf[..], end, n, BatchType(ScoreType()).Encode(m))
  {
    ghost var bytes := BatchBytes(ScoreType(), m);
    n := PrintScores(buf, end, m, Printer(ScoreType()), bytes);
  }

  method PrependBlock(
      buf: array<byte>, end: nat, num: Num, m: Message<Block>, ghost was: seq<byte>, ghost tail: seq<byte>,
      ghost bytes: seq<byte>) returns (i: nat)
    requires bytes == FieldBytes(Bytes(num, BlockType().Encode(m)))
    requires |bytes| <= end && |was| == buf.Length && end + |tail| <= buf.Length && buf[..] == Placed(was, end, tail)
    modifies buf
    ensures i == end - |bytes| && buf[..] == Placed(was, i, bytes + tail)
  {
    ghost var before, data := buf[..], BlockType().Encode(m);
    var size := PrintBlock(m, buf, end);
    i := PrependHeader(buf, end, num, size, before, data, bytes, was, tail);
  }

  method PrependBlockElement(
      buf: array<byte>, end: nat, m: Message<Block>, ghost show: Message<Block> -> seq<byte>, ghost was: seq<byte>,
      ghost tail: seq<byte>, ghost bytes: seq<byte>) returns (i: nat)
    requires Prints(show, BlockType()) && bytes == Element(show, m)
    requires |bytes| <= end && |was| == buf.Length && end + |tail| <= buf.Length && buf[..] == Placed(was, end, tail)
    modifies buf
    ensures i == end - |bytes| && buf[..] == Placed(was, i, bytes + tail)
  {
    i := PrependBlock(buf, end, 1, m, was, tail, bytes);
  }

  method PrintBlocks(
      buf: array<byte>, end: nat, m: Message<seq<Message<Block>>>, ghost show: Message<Block> -> seq<byte>,
      ghost bytes: seq<byte>) returns (n: nat)
    requires Prints(show, BlockType()) && bytes == FieldsBytes(Repeated(show, m.body)) + m.unknown
    requires |bytes| <= end <= buf.Length
    modifies buf
    ensures Printed(old(buf[..]), buf[..], end, n, bytes)
  {
    ghost var was, tail: seq<byte> := buf[..], m.unknown;
    assert Placed(was, end, []) == was && tail + [] == tail;
    var i := PrependRaw(buf, end, m.unknown, was, []);
    var k := |m.body|;
    FromAll(show, m.body);
    assert From(show, m.body, k) + m.unknown == tail;
    while k > 0
      invariant 0 <= k <= |m.body| && tail == From(show, m.body, k) + m.unknown
      invariant i == end - |tail| && |tail| <= |bytes| && buf[..] == Placed(was, i, tail)
    {
      k := k - 1;
      ghost var element := Element(show, m.body[k]);
      Extended(show, m.body, k, m.unknown, tail, element);
      i := PrependBlockElement(buf, i, m.body[k], show, was, tail, element);
      tail := element + tail;
    }
    return end - i;
  }

  method PrintBlockBatch(m: Message<seq<Message<Block>>>, buf: array<byte>, end: nat) returns (n: nat)
    requires |BatchType(BlockType()).Encode(m)| <= end <= buf.Length
    modifies buf
    ensures Printed(old(buf[..]), buf[..], end, n, BatchType(BlockType()).Encode(m))
  {
    ghost var bytes := BatchBytes(BlockType(), m);
    n := PrintBlocks(buf, end, m, Printer(BlockType()), bytes);
  }

  method PrependWallet(
      buf: array<byte>, end: nat, num: Num, m: Message<Wallet>, ghost was: seq<byte>, ghost tail: seq<byte>,
      ghost bytes: seq<byte>) returns (i: nat)
    requires bytes == FieldBytes(Bytes(num, WalletType().Encode(m)))
    requires |bytes| <= end && |was| == buf.Length && end + |tail| <= buf.Length && buf[..] == Placed(was, end, tail)
    modifies buf
    ensures i == end - |bytes| && buf[..] == Placed(was, i, bytes + tail)
  {
    ghost var before, data := buf[..], WalletType().Encode(m);
    var size := PrintWallet(m, buf, end);
    i := PrependHeader(buf, end, num, size, before, data, bytes, was, tail);
  }

  method PrependWalletElement(
      buf: array<byte>, end: nat, m: Message<Wallet>, ghost show: Message<Wallet> -> seq<byte>, ghost was: seq<byte>,
      ghost tail: seq<byte>, ghost bytes: seq<byte>) returns (i: nat)
    requires Prints(show, WalletType()) && bytes == Element(show, m)
    requires |bytes| <= end && |was| == buf.Length && end + |tail| <= buf.Length && buf[..] == Placed(was, end, tail)
    modifies buf
    ensures i == end - |bytes| && buf[..] == Placed(was, i, bytes + tail)
  {
    i := PrependWallet(buf, end, 1, m, was, tail, bytes);
  }

  method PrintWallets(
      buf: array<byte>, end: nat, m: Message<seq<Message<Wallet>>>, ghost show: Message<Wallet> -> seq<byte>,
      ghost bytes: seq<byte>) returns (n: nat)
    requires Prints(show, WalletType()) && bytes == FieldsBytes(Repeated(show, m.body)) + m.unknown
    requires |bytes| <= end <= buf.Length
    modifies buf
    ensures Printed(old(buf[..]), buf[..], end, n, bytes)
  {
    ghost var was, tail: seq<byte> := buf[..], m.unknown;
    assert Placed(was, end, []) == was && tail + [] == tail;
    var i := PrependRaw(buf, end, m.unknown, was, []);
    var k := |m.body|;
    FromAll(show, m.body);
    assert From(show, m.body, k) + m.unknown == tail;
    while k > 0
      invariant 0 <= k <= |m.body| && tail == From(show, m.body, k) + m.unknown
      invariant i == end - |tail| && |tail| <= |bytes| && buf[..] == Placed(was, i, tail)
    {
      k := k - 1;
      ghost var element := Element(show, m.body[k]);
      Extended(show, m.body, k, m.unknown, tail, element);
      i := PrependWalletElement(buf, i, m.body[k], show, was, tail, element);
      tail := element + tail;
    }
    return end - i;
  }

  method PrintWalletBatch(m: Message<seq<Message<Wallet>>>, buf: array<byte>, end: nat) returns (n: nat)
    requires |BatchType(WalletType()).Encode(m)| <= end <= buf.Length
    modifies buf
    ensures Printed(old(buf[..]), buf[..], end, n, BatchType(WalletType()).Encode(m))
  {
    ghost var bytes := BatchBytes(WalletType(), m);
    n := PrintWallets(buf, end, m, Printer(WalletType()), bytes);
  }

  method PrependScorer(
      buf: array<byte>, end: nat, num: Num, m: Message<Scorer>, ghost was: seq<byte>, ghost tail: seq<byte>,
      ghost bytes: seq<byte>) returns (i: nat)
    requires bytes == FieldBytes(Bytes(num, ScorerType().Encode(m)))
    requires |bytes| <= end && |was| == buf.Length && end + |tail| <= buf.Length && buf[..] == Placed(was, end, tail)
    modifies buf
    ensures i == end - |bytes| && buf[..] == Placed(was, i, bytes + tail)
  {
    ghost var before, data := buf[..], ScorerType().Encode(m);
    var size := PrintScorer(m, buf, end);
    i := PrependHeader(buf, end, num, size, before, data, bytes, was, tail);
  }

  /** The bytes of an answer's result. */
  ghost predicate AnswerIs<T>(element: Type<T>, b: Answer<T>, result: seq<byte>)
  {
    match b
    case Unset => result == []
    case Count(c) => result == FieldBytes(Number(1, c))
    case Item(item) => result == FieldBytes(Bytes(2, element.Encode(item)))
  }

  lemma AnswerBytes<T>(element: Type<T>, m: Message<Answer<T>>) returns (bytes: seq<byte>, result: seq<byte>)
    ensures bytes == AnswerType(element).Encode(m) && bytes == result + m.unknown
    ensures AnswerIs(element, m.body, result)
  {
    result := FieldsBytes(AnswerFields(element, m.body));
    bytes := result + m.unknown;
    if m.body.Count? { OneField(Number(1, m.body.count)); }
    if m.body.Item? { OneField(Bytes(2, element.Encode(m.body.item))); }
  }

  lemma ItemSize<T>(element: Type<T>, item: Message<T>, result: seq<byte>)
    requires result == FieldBytes(Bytes(2, element.Encode(item)))
    ensures |result| == 1 + Size(element, item) + Sov(Size(element, item))
  {
    SizeIsLength(element, item);
    SovExact(Size(element, item));
  }

  method PrintScorersResponse(m: Message<Answer<Scorer>>, buf: array<byte>, end: nat) returns (n: nat)
    requires |AnswerType(ScorerType()).Encode(m)| <= end <= buf.Length
    modifies buf
    ensures Printed(old(buf[..]), buf[..], end, n, AnswerType(ScorerType()).Encode(m))
  {
    ghost var bytes, result := AnswerBytes(ScorerType(), m);
    ghost var was := buf[..];
    assert Placed(was, end, []) == was && m.unknown + [] == m.unknown;
    var i := PrependRaw(buf, end, m.unknown, was, []);
    i := PrependScorersResponse(buf, i, m.body, was, m.unknown, result);
    return end - i;
  }

  /** The result is printed into the space its size says it needs. */
  method PrependScorersResponse(
      buf: array<byte>, end: nat, b: Answer<Scorer>, ghost was: seq<byte>, ghost tail: seq<byte>,
      ghost bytes: seq<byte>) returns (i: nat)
    requires AnswerIs(ScorerType(), b, bytes)
    requires |bytes| <= end && |was| == buf.Length && end + |tail| <= buf.Length && buf[..] == Placed(was, end, tail)
    modifies buf
    ensures i == end - |bytes| && buf[..] == Placed(was, i, bytes + tail)
  {
    match b {
      case Unset =>
        i := end;
        assert bytes + tail == tail;
      case Count(c) =>
        var size := 1 + Sov(c);
        SovExact(c);
        i := end - size;
        var _ := PrependNumber(buf, i + size, 1, c, was, tail);
      case Item(item) =>
        var l := Size(ScorerType(), item);
        var size := 1 + l + Sov(l);
        ItemSize(ScorerType(), item, bytes);
        i := end - size;
        var _ := PrependScorer(buf, i + size, 2, item, was, tail, bytes);
    }
  }

  method PrintSearchResponse(m: Message<Answer<Score>>, buf: array<byte>, end: nat) returns (n: nat)
    requires |AnswerType(ScoreType()).Encode(m)| <= end <= buf.Length
    modifies buf
    ensures Printed(old(buf[..]), buf[..], end, n, AnswerType(ScoreType()).Encode(m))
  {
    ghost var bytes, result := AnswerBytes(ScoreType(), m);
    ghost var was := buf[..];
    assert Placed(was, end, []) == was && m.unknown + [] == m.unknown;
    var i := PrependRaw(buf, end, m.unknown, was, []);
    i := PrependSearchResponse(buf, i, m.body, was, m.unknown, result);
    return end - i;
  }

  /** The result is printed into the space its size says it needs. */
  method PrependSearchResponse(
      buf: array<byte>, end: nat, b: Answer<Score>, ghost was: seq<byte>, ghost tail: seq<byte>,
      ghost bytes: seq<byte>) returns (i: nat)
    requires AnswerIs(ScoreType(), b, bytes)
    requires |bytes| <= end && |was| == buf.Length && end + |tail| <= buf.Length && buf[..] == Placed(was, end, tail)
    modifies buf
    ensures i == end - |bytes| && buf[..] == Placed(was, i, bytes + tail)
  {
    match b {
      case Unset =>
        i := end;
        assert bytes + tail == tail;
      case Count(c) =>
        var size := 1 + Sov(c);
        SovExact(c);
        i := end - size;
        var _ := PrependNumber(buf, i + size, 1, c, was, tail);
      case Item(item) =>
        var l := Size(ScoreType(), item);
        var size := 1 + l + Sov(l);
        ItemSize(ScoreType(), item, bytes);
        i := end - size;
        var _ := PrependScore(buf, i + size, 2, item, was, tail, bytes);
    }
  }

  // ---------- marshalling into a buffer of the computed size ----------

  /** The sum the generated `Size` makes. */
  function Size<T>(ty: Type<T>, m: Message<T>): nat
  {
    FieldsSize(ty.fields(m.body)) + |m.unknown|
  }

  lemma SizeIsLength<T>(ty: Type<T>, m: Message<T>)
    ensures Size(ty, m) == |ty.Encode(m)|
  {
    SizeExact(ty.fields(m.body));
  }

  lemma Filled(was: seq<byte>, now: seq<byte>, n: nat, bytes: seq<byte>)
    requires Printed(was, now, |was|, n, bytes) && |was| == |bytes|
    ensures now[..n] == bytes
  {
  }

  method MarshalScore(m: Message<Score>) returns (data: seq<byte>)
    ensures data == ScoreType().Encode(m)
  {
    var size := Size(ScoreType(), m);
    SizeIsLength(ScoreType(), m);
    var buf := new byte[size];
    ghost var was := buf[..];
    var n := PrintScore(m, buf, size);
    Filled(was, buf[..], n, ScoreType().Encode(m));
    return buf[..n];
  }

  method MarshalScoreBatch(m: Message<seq<Message<Score>>>) returns (data: seq<byte>)
    ensures data == BatchType(ScoreType()).Encode(m)
  {
    var size := Size(BatchType(ScoreType()), m);
    SizeIsLength(BatchType(ScoreType()), m);
    var buf := new byte[size];
    ghost var was := buf[..];
    var n := PrintScoreBatch(m, buf, size);
    Filled(was, buf[..], n, BatchType(ScoreType()).Encode(m));
    return buf[..n];
  }

  method MarshalScorer(m: Message<Scorer>) returns (data: seq<byte>)
    ensures data == ScorerType().Encode(m)
  {
    var size := Size(ScorerType(), m);
    SizeIsLength(ScorerType(), m);
    var buf := new byte[size];
    ghost var was := buf[..];
    var n := PrintScorer(m, buf, size);
    Filled(was, buf[..], n, ScorerType().Encode(m));
    return buf[..n];
  }

  method MarshalQuery(m: Message<Query>) returns (data: seq<byte>)
    ensures data == QueryType().Encode(m)
  {
    var size := Size(QueryType(), m);
    SizeIsLength(QueryType(), m);
    var buf := new byte[size];
    ghost var was := buf[..];
    var n := PrintQuery(m, buf, size);
    Filled(was, buf[..], n, QueryType().Encode(m));
    return buf[..n];
  }

  method MarshalScorersResponse(m: Message<Answer<Scorer>>) returns (data: seq<byte>)
    ensures data == AnswerType(ScorerType()).Encode(m)
  {
    var size := Size(AnswerType(ScorerType()), m);
    SizeIsLength(AnswerType(ScorerType()), m);
    var buf := new byte[size];
    ghost var was := buf[..];
    var n := PrintScorersResponse(m, buf, size);
    Filled(was, buf[..], n, AnswerType(ScorerType()).Encode(m));
    return buf[..n];
  }

  method MarshalSearchResponse(m: Message<Answer<Score>>) returns (data: seq<byte>)
    ensures data == AnswerType(ScoreType()).Encode(m)
  {
    var size := Size(AnswerType(ScoreType()), m);
    SizeIsLength(AnswerType(ScoreType()), m);
    var buf := new byte[size];
    ghost var was := buf[..];
    var n := PrintSearchResponse(m, buf, size);
    Filled(was, buf[..], n, AnswerType(ScoreType()).Encode(m));
    return buf[..n];
  }

  method MarshalBlock(m: Message<Block>) returns (data: seq<byte>)
    ensures data == BlockType().Encode(m)
  {
    var size := Size(BlockType(), m);
    SizeIsLength(BlockType(), m);
    var buf := new byte[size];
    ghost var was := buf[..];
    var n := PrintBlock(m, buf, size);
    Filled(was, buf[..], n, BlockType().Encode(m));
    return buf[..n];
  }

  method MarshalBlockBatch(m: Message<seq<Message<Block>>>) returns (data: seq<byte>)
    ensures data == BatchType(BlockType()).Encode(m)
  {
    var size := Size(BatchType(BlockType()), m);
    SizeIsLength(BatchType(BlockType()), m);
    var buf := new byte[size];
    ghost var was := buf[..];
    var n := PrintBlockBatch(m, buf, size);
    Filled(was, buf[..], n, BatchType(BlockType()).Encode(m));
    return buf[..n];
  }

  method MarshalWallet(m: Message<Wallet>) returns (data: seq<byte>)
    ensures data == WalletType().Encode(m)
  {
    var size := Size(WalletType(), m);
    SizeIsLength(WalletType(), m);
    var buf := new byte[size];
    ghost var was := buf[..];
    var n := PrintWallet(m, buf, size);
    Filled(was, buf[..], n, WalletType().Encode(m));
    return buf[..n];
  }

  method MarshalWalletBatch(m: Message<seq<Message<Wallet>>>) returns (data: seq<byte>)
    ensures data == BatchType(WalletType()).Encode(m)
  {
    var size := Size(BatchType(WalletType()), m);
    SizeIsLength(BatchType(WalletType()), m);
    var buf := new byte[size];
    ghost var was := buf[..];
    var n := PrintWalletBatch(m, buf, size);
    Filled(was, buf[..], n, BatchType(WalletType()).Encode(m));
    return buf[..n];
  }

  method MarshalRange(m: Message<Range>) returns (data: seq<byte>)
    ensures data == RangeType().Encode(m)
  {
    var size := Size(RangeType(), m);
    SizeIsLength(RangeType(), m);
    var buf := new byte[size];
    ghost var was := buf[..];
    var n := PrintRange(m, buf, size);
    Filled(was, buf[..], n, RangeType().Encode(m));
    return buf[..n];
  }
}
