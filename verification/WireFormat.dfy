/** The bytes on the wire, tag by tag: what Marshal writes for each message and what Unmarshal makes of each record,
    with the tags spelled out, so that any other reader or writer of the protocol can be held against them. */
module WireFormat {
  import opened Varints
  import opened Wire
  import opened Messages

  // ---------- varints ----------

  /** The number that groups of seven bits stand for, least significant first. */
  function GroupsValue(s: seq<byte>): nat
  {
    if s == [] then 0 else s[0] % 128 + 128 * GroupsValue(s[1..])
  }

  /** A varint's groups make up its value, all its bytes but the last have the top bit, and no group is spare. */
  lemma {:induction false} VarintGroups(v: nat)
    ensures GroupsValue(Varint(v)) == v
    ensures forall k :: 0 <= k < |Varint(v)| - 1 ==> Varint(v)[k] >= 128
    ensures Varint(v)[|Varint(v)| - 1] < 128 && (v > 0 ==> Varint(v)[|Varint(v)| - 1] > 0)
    ensures v == 0 ==> Varint(v) == [0]
  {
    if v >= 128 {
      VarintGroups(v / 128);
      assert Varint(v) == [v % 128 + 128] + Varint(v / 128);
    }
  }

  /** Ten bytes that all announce another one are an error, whatever follows. */
  lemma {:induction false} TooManyGroups(s: seq<byte>, k: nat, acc: nat)
    requires k <= 10 && |s| >= 10 - k && forall i :: 0 <= i < 10 - k ==> s[i] >= 128
    ensures VarintFrom(s, k, acc) == Err(IntOverflow)
    decreases 10 - k
  {
    if k < 10 { TooManyGroups(s[1..], k + 1, (acc + Shl(s[0] % 128, k)) % Two64); }
  }

  /** Bytes that end while announcing another one are an error of their own. */
  lemma {:induction false} EndsEarly(s: seq<byte>, k: nat, acc: nat)
    requires k + |s| < 10 && forall i :: 0 <= i < |s| ==> s[i] >= 128
    ensures VarintFrom(s, k, acc) == Err(UnexpectedEof)
    decreases |s|
  {
    if s != [] { EndsEarly(s[1..], k + 1, (acc + Shl(s[0] % 128, k)) % Two64); }
  }

  lemma VarintRefuses(s: seq<byte>)
    ensures |s| >= 10 && (forall i :: 0 <= i < 10 ==> s[i] >= 128) ==> ReadVarint(s) == Err(IntOverflow)
    ensures |s| < 10 && (forall i :: 0 <= i < |s| ==> s[i] >= 128) ==> ReadVarint(s) == Err(UnexpectedEof)
  {
    if |s| >= 10 && forall i :: 0 <= i < 10 ==> s[i] >= 128 { TooManyGroups(s, 0, 0); }
    if |s| < 10 && forall i :: 0 <= i < |s| ==> s[i] >= 128 { EndsEarly(s, 0, 0); }
  }

  predicate Congruent(x: int, y: int) { (x - y) % 0x1_0000_0000_0000_0000 == 0 }

  lemma {:induction false} GroupsTaken(s: seq<byte>, k: nat, acc: nat)
    requires VarintFrom(s, k, acc).Ok?
    ensures var n := VarintFrom(s, k, acc).value.1;
      k + n <= 10 && n <= |s| && s[n - 1] < 128 && forall i :: 0 <= i < n - 1 ==> s[i] >= 128
    decreases |s|
  {
    if s[0] >= 128 { GroupsTaken(s[1..], k + 1, (acc + Shl(s[0] % 128, k)) % Two64); }
  }

  /** One byte of the read loop. */
  lemma OneGroup(s: seq<byte>, k: nat, acc: nat, v: nat, n: nat) returns (next: nat)
    requires VarintFrom(s, k, acc) == Ok((v, n))
    ensures s != [] && n > 0 && Congruent(next, acc + Shl(s[0] % 128, k))
    ensures if s[0] < 128 then n == 1 && v == next else VarintFrom(s[1..], k + 1, next) == Ok((v, n - 1))
  {
    next := (acc + Shl(s[0] % 128, k)) % Two64;
    LowBitsCongruent(acc + Shl(s[0] % 128, k));
  }

  lemma LowBitsCongruent(x: nat)
    ensures Congruent(x % Two64, x)
  {
  }

  lemma {:induction false} GroupsRead(s: seq<byte>, k: nat, acc: nat, v: nat, n: nat)
    requires VarintFrom(s, k, acc) == Ok((v, n))
    ensures 0 < n <= |s| && Congruent(v, acc + Shl(GroupsValue(s[..n]), k))
    decreases |s|
  {
    var next := OneGroup(s, k, acc, v, n);
    if s[0] < 128 {
      LastGroup(s);
    } else {
      GroupsRead(s[1..], k + 1, next, v, n - 1);
      MoreGroups(v, acc, next, s[0], GroupsValue(s[1..][..n - 1]), k);
      GroupsTail(s, n);
    }
  }

  lemma LastGroup(s: seq<byte>)
    requires s != [] && s[0] < 128
    ensures GroupsValue(s[..1]) == s[0] % 128
  {
    assert GroupsValue(s[..1][1..]) == 0;
  }

  lemma GroupsTail(s: seq<byte>, n: nat)
    requires 0 < n <= |s|
    ensures GroupsValue(s[..n]) == s[0] % 128 + 128 * GroupsValue(s[1..][..n - 1])
  {
    assert s[..n][1..] == s[1..][..n - 1];
  }

  lemma MoreGroups(v: int, acc: nat, next: nat, b: byte, rest: nat, k: nat)
    requires Congruent(next, acc + Shl(b % 128, k)) && Congruent(v, next + Shl(rest, k + 1))
    ensures Congruent(v, acc + Shl(b % 128 + 128 * rest, k))
  {
    ShlAdds(b % 128, 128 * rest, k);
    ShlNext(rest, k);
  }

  lemma {:induction false} ShlAdds(x: nat, y: nat, k: nat)
    ensures Shl(x + y, k) == Shl(x, k) + Shl(y, k)
  {
    if k > 0 { ShlAdds(x, y, k - 1); }
  }

  lemma {:induction false} ShlNext(x: nat, k: nat)
    ensures Shl(128 * x, k) == Shl(x, k + 1)
  {
    if k > 0 { ShlNext(x, k - 1); }
  }

  /** Whatever varint is read, minimal or not: at most ten bytes, up to the first without the top bit, and of what
      their groups make up the lowest 64 bits. */
  lemma ReadMeaning(s: seq<byte>)
    requires ReadVarint(s).Ok?
    ensures var (v, n) := ReadVarint(s).value;
      && 0 < n <= 10 && n <= |s| && s[n - 1] < 128 && (forall i :: 0 <= i < n - 1 ==> s[i] >= 128)
      && v == GroupsValue(s[..n]) % 0x1_0000_0000_0000_0000
  {
    var (v, n) := ReadVarint(s).value;
    GroupsTaken(s, 0, 0);
    GroupsRead(s, 0, 0, v, n);
    LowestBits(v, GroupsValue(s[..n]));
  }

  lemma LowestBits(v: nat, g: nat)
    requires v < 0x1_0000_0000_0000_0000 && Congruent(v, g)
    ensures v == g % 0x1_0000_0000_0000_0000
  {
    var q := (g - v) / 0x1_0000_0000_0000_0000;
    assert g == v + q * 0x1_0000_0000_0000_0000;
  }

  // ---------- what Marshal writes ----------

  lemma TextBytes(num: Num, s: seq<byte>)
    ensures FieldsBytes(TextField(num, s)) == if s == [] then [] else [num * 8 + 2] + Varint(|s|) + s
  {
    OneField(Bytes(num, s));
  }

  lemma NumberBytes(num: Num, v: nat)
    ensures FieldsBytes(NumberField(num, v)) == if v == 0 then [] else [num * 8] + Varint(v)
  {
    OneField(Number(num, v));
  }

  lemma TwoParts(a: seq<Field>, b: seq<Field>, u: seq<byte>) returns (x: seq<byte>, y: seq<byte>)
    ensures x == FieldsBytes(a) && y == FieldsBytes(b) && FieldsBytes(a + b) + u == x + y + u
  {
    FieldsAppend(a, b);
    x, y := FieldsBytes(a), FieldsBytes(b);
  }

  lemma ThreeParts(a: seq<Field>, b: seq<Field>, c: seq<Field>, u: seq<byte>)
      returns (x: seq<byte>, y: seq<byte>, z: seq<byte>)
    ensures x == FieldsBytes(a) && y == FieldsBytes(b) && z == FieldsBytes(c)
    ensures FieldsBytes(a + (b + c)) + u == x + y + z + u
  {
    FieldsAppend(a, b + c);
    FieldsAppend(b, c);
    x, y, z := FieldsBytes(a), FieldsBytes(b), FieldsBytes(c);
    Associates(x, y, z);
  }

  lemma ScoreBytes(m: Message<Score>) returns (wallet: seq<byte>, scorer: seq<byte>, value: seq<byte>)
    ensures ScoreType().Encode(m) == wallet + scorer + value + m.unknown
    ensures wallet == if m.body.wallet == [] then [] else [0x0a] + Varint(|m.body.wallet|) + m.body.wallet
    ensures scorer == if m.body.scorer == [] then [] else [0x12] + Varint(|m.body.scorer|) + m.body.scorer
    ensures value == if m.body.value == [] then [] else [0x1a] + Varint(|m.body.value|) + m.body.value
  {
    wallet, scorer, value := ThreeParts(
      TextField(1, m.body.wallet), TextField(2, m.body.scorer), TextField(3, m.body.value), m.unknown);
    TextBytes(1, m.body.wallet);
    TextBytes(2, m.body.scorer);
    TextBytes(3, m.body.value);
  }

  lemma ScorerBytes(m: Message<Scorer>)
    ensures ScorerType().Encode(m)
         == (if m.body.name == [] then [] else [0x0a] + Varint(|m.body.name|) + m.body.name) + m.unknown
  {
    TextBytes(1, m.body.name);
  }

  lemma WalletBytes(m: Message<Wallet>)
    ensures WalletType().Encode(m)
         == (if m.body.address == [] then [] else [0x0a] + Varint(|m.body.address|) + m.body.address) + m.unknown
  {
    TextBytes(1, m.body.address);
  }

  lemma RangeBytes(m: Message<Range>) returns (from: seq<byte>, until: seq<byte>)
    ensures RangeType().Encode(m) == from + until + m.unknown
    ensures from == if m.body.from == [] then [] else [0x0a] + Varint(|m.body.from|) + m.body.from
    ensures until == if m.body.until == [] then [] else [0x12] + Varint(|m.body.until|) + m.body.until
  {
    from, until := TwoParts(TextField(1, m.body.from), TextField(2, m.body.until), m.unknown);
    TextBytes(1, m.body.from);
    TextBytes(2, m.body.until);
  }

  /** A negative type takes ten bytes: it is printed as the 64-bit number with the same bits. */
  lemma QueryBytes(m: Message<Query>) returns (kind: seq<byte>, expression: seq<byte>, offset: seq<byte>)
    requires -0x8000_0000 <= m.body.kind < 0x8000_0000
    ensures QueryType().Encode(m) == kind + expression + offset + m.unknown
    ensures kind == if m.body.kind == 0 then []
                    else [0x08] + Varint(m.body.kind + if m.body.kind < 0 then 0x1_0000_0000_0000_0000 else 0)
    ensures expression ==
      if m.body.expression == [] then [] else [0x12] + Varint(|m.body.expression|) + m.body.expression
    ensures offset == if m.body.offset == 0 then [] else [0x18] + Varint(m.body.offset)
  {
    kind, expression, offset := ThreeParts(
      NumberField(1, Signed(m.body.kind)), TextField(2, m.body.expression), NumberField(3, m.body.offset), m.unknown);
    NumberBytes(1, Signed(m.body.kind));
    TextBytes(2, m.body.expression);
    NumberBytes(3, m.body.offset);
  }

  lemma BlockBytes(m: Message<Block>) returns (number: seq<byte>, processed: seq<byte>)
    requires -0x8000_0000 <= m.body.number < 0x8000_0000
    ensures BlockType().Encode(m) == number + processed + m.unknown
    ensures number == if m.body.number == 0 then []
                      else [0x08] + Varint(m.body.number + if m.body.number < 0 then 0x1_0000_0000_0000_0000 else 0)
    ensures processed == if m.body.processed then [0x10, 0x01] else []
  {
    var flag := if m.body.processed then 1 else 0;
    number, processed := TwoParts(NumberField(1, Signed(m.body.number)), NumberField(2, flag), m.unknown);
    NumberBytes(1, Signed(m.body.number));
    NumberBytes(2, flag);
  }

  /** A batch is its elements in order, each with tag and length, however many there are. */
  lemma BatchBytes<T>(element: Type<T>, first: Message<T>, ms: seq<Message<T>>, u: seq<byte>)
    ensures BatchType(element).Encode(Message([], u)) == u
    ensures BatchType(element).Encode(Message([first] + ms, u))
         == [0x0a] + Varint(|element.Encode(first)|) + element.Encode(first)
          + BatchType(element).Encode(Message(ms, u))
  {
    var show := Printer(element);
    assert ([first] + ms)[1..] == ms;
    RepeatedBytes(show, first, ms, u);
  }

  lemma RepeatedBytes<M>(show: M -> seq<byte>, first: M, ms: seq<M>, u: seq<byte>)
    ensures FieldsBytes(Repeated(show, [first] + ms)) + u
         == [0x0a] + Varint(|show(first)|) + show(first) + (FieldsBytes(Repeated(show, ms)) + u)
  {
    assert ([first] + ms)[1..] == ms;
    Associates(FieldBytes(Bytes(1, show(first))), FieldsBytes(Repeated(show, ms)), u);
  }

  /** A count is written even when it is zero. */
  lemma AnswerBytes<T>(element: Type<T>, n: nat, item: Message<T>, u: seq<byte>)
    ensures AnswerType(element).Encode(Message(Unset, u)) == u
    ensures AnswerType(element).Encode(Message(Count(n), u)) == [0x08] + Varint(n) + u
    ensures AnswerType(element).Encode(Message(Item(item), u))
         == [0x12] + Varint(|element.Encode(item)|) + element.Encode(item) + u
  {
    OneField(Number(1, n));
    OneField(Bytes(2, element.Encode(item)));
  }

  // ---------- what Unmarshal reads ----------

  /** One round of the loop, over any codec that reads back what `show` prints. */
  lemma OneRecord<T>(
      kinds: Schema, show: Field -> seq<byte>, c: Codec<T>, m: Message<T>, f: Field, s: seq<byte>, rest: seq<byte>,
      base: nat)
    requires ReadsBack(kinds, show, c.read) && FieldOk(kinds, f) && s == show(f) + rest && base + |s| <= MaxInt
    ensures Parse(c, m, s, base) ==
      match c.put(m.body, f)
      case Err(e) => Err(e)
      case Ok(b) => Parse(c, Message(b, m.unknown), rest, base + |show(f)|)
  {
    assert c.read(show(f) + rest, base) == Ok((Known(f), |show(f)|));
    assert s[|show(f)|..] == rest;
  }

  lemma NumberStep<T>(
      kinds: Schema, show: Field -> seq<byte>, c: Codec<T>, m: Message<T>, tag: byte, v: nat, rest: seq<byte>,
      base: nat, next: nat, b: T)
    requires ReadsBack(kinds, show, c.read) && show == Shown()
    requires 8 <= tag < 128 && tag % 8 == 0 && kinds(tag / 8) == VarintKind && v < Two64
    requires c.put(m.body, Number(tag / 8, v)) == Ok(b)
    requires base + |[tag] + Varint(v) + rest| <= MaxInt && next == base + 1 + |Varint(v)|
    ensures Parse(c, m, [tag] + Varint(v) + rest, base) == Parse(c, Message(b, m.unknown), rest, next)
  {
    OneRecord(kinds, show, c, m, Number(tag / 8, v), [tag] + Varint(v) + rest, rest, base);
  }

  lemma BytesStep<T>(
      kinds: Schema, show: Field -> seq<byte>, c: Codec<T>, m: Message<T>, tag: byte, s: seq<byte>, rest: seq<byte>,
      base: nat, next: nat, r: Result<T>)
    requires ReadsBack(kinds, show, c.read) && show == Shown()
    requires 8 < tag < 128 && tag % 8 == 2 && kinds(tag / 8) == BytesKind && c.put(m.body, Bytes(tag / 8, s)) == r
    requires base + |[tag] + Varint(|s|) + s + rest| <= MaxInt && next == base + 1 + |Varint(|s|)| + |s|
    ensures Parse(c, m, [tag] + Varint(|s|) + s + rest, base) ==
      if r.Ok? then Parse(c, Message(r.value, m.unknown), rest, next) else Err(r.error)
  {
    OneRecord(kinds, show, c, m, Bytes(tag / 8, s), [tag] + Varint(|s|) + s + rest, rest, base);
  }

  lemma ScoreReads(m: Message<Score>, tag: byte, s: seq<byte>, rest: seq<byte>, base: nat, next: nat)
    requires tag in [0x0a, 0x12, 0x1a] && base + |[tag] + Varint(|s|) + s + rest| <= 0x7fff_ffff_ffff_ffff
    requires next == base + 1 + |Varint(|s|)| + |s|
    ensures Parse(ScoreType().Codec(), m, [tag] + Varint(|s|) + s + rest, base) ==
      Parse(ScoreType().Codec(),
            Message(if tag == 0x0a then m.body.(wallet := s) else if tag == 0x12 then m.body.(scorer := s)
                    else m.body.(value := s), m.unknown), rest, next)
  {
    var f := Bytes(tag / 8, s);
    ReaderReadsBack(ScoreType().kinds);
    BytesStep(ScoreType().kinds, Shown(), ScoreType().Codec(), m, tag, s, rest, base, next, PutScore(m.body, f));
  }

  lemma ScorerReads(m: Message<Scorer>, s: seq<byte>, rest: seq<byte>, base: nat, next: nat)
    requires base + |[0x0a] + Varint(|s|) + s + rest| <= 0x7fff_ffff_ffff_ffff
    requires next == base + 1 + |Varint(|s|)| + |s|
    ensures Parse(ScorerType().Codec(), m, [0x0a] + Varint(|s|) + s + rest, base)
         == Parse(ScorerType().Codec(), Message(Scorer(s), m.unknown), rest, next)
  {
    ReaderReadsBack(ScorerType().kinds);
    BytesStep(ScorerType().kinds, Shown(), ScorerType().Codec(), m, 0x0a, s, rest, base, next, Varints.Ok(Scorer(s)));
  }

  lemma WalletReads(m: Message<Wallet>, s: seq<byte>, rest: seq<byte>, base: nat, next: nat)
    requires base + |[0x0a] + Varint(|s|) + s + rest| <= 0x7fff_ffff_ffff_ffff
    requires next == base + 1 + |Varint(|s|)| + |s|
    ensures Parse(WalletType().Codec(), m, [0x0a] + Varint(|s|) + s + rest, base)
         == Parse(WalletType().Codec(), Message(Wallet(s), m.unknown), rest, next)
  {
    ReaderReadsBack(WalletType().kinds);
    BytesStep(WalletType().kinds, Shown(), WalletType().Codec(), m, 0x0a, s, rest, base, next, Varints.Ok(Wallet(s)));
  }

  lemma RangeReads(m: Message<Range>, tag: byte, s: seq<byte>, rest: seq<byte>, base: nat, next: nat)
    requires tag in [0x0a, 0x12] && base + |[tag] + Varint(|s|) + s + rest| <= 0x7fff_ffff_ffff_ffff
    requires next == base + 1 + |Varint(|s|)| + |s|
    ensures Parse(RangeType().Codec(), m, [tag] + Varint(|s|) + s + rest, base) ==
      Parse(RangeType().Codec(),
            Message(if tag == 0x0a then m.body.(from := s) else m.body.(until := s), m.unknown), rest, next)
  {
    var r := PutRange(m.body, Bytes(tag / 8, s));
    ReaderReadsBack(RangeType().kinds);
    BytesStep(RangeType().kinds, Shown(), RangeType().Codec(), m, tag, s, rest, base, next, r);
  }

  /** Tags 0x08 and 0x18: the type is the int32 `n` in the low 32 bits of what is read, the offset all of it. */
  lemma QueryReads(m: Message<Query>, v: nat, n: int, rest: seq<byte>, base: nat, next: nat)
    requires v < 0x1_0000_0000_0000_0000 && base + |[0x08] + Varint(v) + rest| <= 0x7fff_ffff_ffff_ffff
    requires next == base + 1 + |Varint(v)|
    requires -0x8000_0000 <= n < 0x8000_0000 && (v - n) % 0x1_0000_0000 == 0
    ensures Parse(QueryType().Codec(), m, [0x08] + Varint(v) + rest, base)
         == Parse(QueryType().Codec(), Message(m.body.(kind := n), m.unknown), rest, next)
    ensures Parse(QueryType().Codec(), m, [0x18] + Varint(v) + rest, base)
         == Parse(QueryType().Codec(), Message(m.body.(offset := v), m.unknown), rest, next)
  {
    LowBits(v, n);
    var ty := QueryType();
    ReaderReadsBack(ty.kinds);
    NumberStep(ty.kinds, Shown(), ty.Codec(), m, 0x08, v, rest, base, next, PutQuery(m.body, Number(1, v)).value);
    NumberStep(ty.kinds, Shown(), ty.Codec(), m, 0x18, v, rest, base, next, PutQuery(m.body, Number(3, v)).value);
  }

  lemma LowBits(v: nat, n: int)
    requires -0x8000_0000 <= n < 0x8000_0000 && (v - n) % 0x1_0000_0000 == 0
    ensures ToInt32(v) == n
  {
    var k := (v - n) / 0x1_0000_0000;
    assert v == k * 0x1_0000_0000 + n;
    assert v % Two32 == if n < 0 then n + Two32 else n;
  }

  lemma QueryExpressionReads(m: Message<Query>, s: seq<byte>, rest: seq<byte>, base: nat)
    requires base + |[0x12] + Varint(|s|) + s + rest| <= 0x7fff_ffff_ffff_ffff
    ensures Parse(QueryType().Codec(), m, [0x12] + Varint(|s|) + s + rest, base)
         == Parse(QueryType().Codec(), Message(m.body.(expression := s), m.unknown), rest,
                  base + 1 + |Varint(|s|)| + |s|)
  {
    var r, ty := PutQuery(m.body, Bytes(2, s)), QueryType();
    ReaderReadsBack(ty.kinds);
    BytesStep(ty.kinds, Shown(), ty.Codec(), m, 0x12, s, rest, base, base + 1 + |Varint(|s|)| + |s|, r);
  }

  /** Any number but zero says that the block is processed. */
  lemma BlockReads(m: Message<Block>, v: nat, n: int, rest: seq<byte>, base: nat, next: nat)
    requires v < 0x1_0000_0000_0000_0000 && base + |[0x08] + Varint(v) + rest| <= 0x7fff_ffff_ffff_ffff
    requires next == base + 1 + |Varint(v)|
    requires -0x8000_0000 <= n < 0x8000_0000 && (v - n) % 0x1_0000_0000 == 0
    ensures Parse(BlockType().Codec(), m, [0x08] + Varint(v) + rest, base)
         == Parse(BlockType().Codec(), Message(m.body.(number := n), m.unknown), rest, next)
    ensures Parse(BlockType().Codec(), m, [0x10] + Varint(v) + rest, base)
         == Parse(BlockType().Codec(), Message(m.body.(processed := v != 0), m.unknown), rest, next)
  {
    LowBits(v, n);
    var ty := BlockType();
    ReaderReadsBack(ty.kinds);
    NumberStep(ty.kinds, Shown(), ty.Codec(), m, 0x08, v, rest, base, next, PutBlock(m.body, Number(1, v)).value);
    NumberStep(ty.kinds, Shown(), ty.Codec(), m, 0x10, v, rest, base, next, PutBlock(m.body, Number(2, v)).value);
  }

  /** An element is parsed on its own and added at the end; one that does not parse ends the batch. */
  lemma BatchReads<T>(
      element: Type<T>, m: Message<seq<Message<T>>>, s: seq<byte>, rest: seq<byte>, base: nat, next: nat)
    requires base + |[0x0a] + Varint(|s|) + s + rest| <= 0x7fff_ffff_ffff_ffff
    requires next == base + 1 + |Varint(|s|)| + |s|
    ensures element.Decode(s).Err? ==>
      Parse(BatchType(element).Codec(), m, [0x0a] + Varint(|s|) + s + rest, base) == Err(element.Decode(s).error)
    ensures element.Decode(s).Ok? ==>
      Parse(BatchType(element).Codec(), m, [0x0a] + Varint(|s|) + s + rest, base)
      == Parse(BatchType(element).Codec(), Message(m.body + [element.Decode(s).value], m.unknown), rest, next)
  {
    var r := PutRepeated(element, m.body, Bytes(1, s));
    ReaderReadsBack(BatchType(element).kinds);
    BytesStep(BatchType(element).kinds, Shown(), BatchType(element).Codec(), m, 0x0a, s, rest, base, next, r);
  }

  /** Whichever comes last counts. */
  lemma AnswerReads<T>(element: Type<T>, m: Message<Answer<T>>, v: nat, rest: seq<byte>, base: nat, next: nat)
    requires v < 0x1_0000_0000_0000_0000 && base + |[0x08] + Varint(v) + rest| <= 0x7fff_ffff_ffff_ffff
    requires next == base + 1 + |Varint(v)|
    ensures Parse(AnswerType(element).Codec(), m, [0x08] + Varint(v) + rest, base)
         == Parse(AnswerType(element).Codec(), Message(Count(v), m.unknown), rest, next)
  {
    ReaderReadsBack(AnswerType(element).kinds);
    var ty := AnswerType(element);
    NumberStep(ty.kinds, Shown(), ty.Codec(), m, 0x08, v, rest, base, next, Count(v));
  }

  lemma AnswerItemReads<T>(
      element: Type<T>, m: Message<Answer<T>>, s: seq<byte>, rest: seq<byte>, base: nat, next: nat)
    requires base + |[0x12] + Varint(|s|) + s + rest| <= 0x7fff_ffff_ffff_ffff
    requires next == base + 1 + |Varint(|s|)| + |s|
    ensures element.Decode(s).Err? ==>
      Parse(AnswerType(element).Codec(), m, [0x12] + Varint(|s|) + s + rest, base) == Err(element.Decode(s).error)
    ensures element.Decode(s).Ok? ==>
      Parse(AnswerType(element).Codec(), m, [0x12] + Varint(|s|) + s + rest, base)
      == Parse(AnswerType(element).Codec(), Message(Item(element.Decode(s).value), m.unknown), rest, next)
  {
    var r := PutAnswer(element, m.body, Bytes(2, s));
    ReaderReadsBack(AnswerType(element).kinds);
    BytesStep(AnswerType(element).kinds, Shown(), AnswerType(element).Codec(), m, 0x12, s, rest, base, next, r);
  }

  // ---------- what Unmarshal refuses, and what it keeps ----------

  /** The field numbers each message does not know. */
  lemma UnknownNumbers<T>(element: Type<T>, n: Num)
    ensures ScoreType().kinds(n) == Unknown <==> n > 3
    ensures QueryType().kinds(n) == Unknown <==> n > 3
    ensures ScorerType().kinds(n) == Unknown <==> n > 1
    ensures WalletType().kinds(n) == Unknown <==> n > 1
    ensures RangeType().kinds(n) == Unknown <==> n > 2
    ensures BlockType().kinds(n) == Unknown <==> n > 2
    ensures BatchType(element).kinds(n) == Unknown <==> n > 1
    ensures AnswerType(element).kinds(n) == Unknown <==> n > 2
  {
  }

  lemma TagByte(tag: byte, rest: seq<byte>)
    requires tag < 128
    ensures ReadVarint([tag] + rest) == Ok((tag, 1)) && ToInt32(tag / 8) == tag / 8
  {
    VarintReads(tag, rest);
  }

  /** An end of a group, a field number zero, and a known field of another wire type. */
  lemma Refuses<T>(ty: Type<T>, m: Message<T>, tag: byte, rest: seq<byte>, base: nat)
    requires tag < 128
    ensures tag % 8 == 4 ==> Parse(ty.Codec(), m, [tag] + rest, base) == Err(EndGroup)
    ensures tag < 8 && tag % 8 != 4 ==> Parse(ty.Codec(), m, [tag] + rest, base) == Err(IllegalTag)
    ensures tag >= 8 && tag % 8 != 4 && ty.kinds(tag / 8) != Unknown
            && tag % 8 != (if ty.kinds(tag / 8) == VarintKind then 0 else 2) ==>
      Parse(ty.Codec(), m, [tag] + rest, base) == Err(WrongWireType)
  {
    TagByte(tag, rest);
  }

  lemma LengthRecord(kinds: Schema, tag: byte, v: nat, rest: seq<byte>, base: nat)
    requires 8 < tag < 128 && tag % 8 == 2 && kinds(tag / 8) == BytesKind && v < 0x1_0000_0000_0000_0000
    requires base + 1 + |Varint(v)| + v > 0x7fff_ffff_ffff_ffff || v > |rest|
    ensures Record(kinds, [tag] + (Varint(v) + rest), base)
         == Err(if base + 1 + |Varint(v)| + v > 0x7fff_ffff_ffff_ffff then InvalidLength else UnexpectedEof)
  {
    TagByte(tag, Varint(v) + rest);
    assert ([tag] + (Varint(v) + rest))[1..] == Varint(v) + rest;
    VarintReads(v, rest);
  }

  /** A length beyond the largest int, and one beyond the bytes there are. */
  lemma RefusesLength<T>(ty: Type<T>, m: Message<T>, tag: byte, v: nat, rest: seq<byte>, base: nat)
    requires 8 < tag < 128 && tag % 8 == 2 && ty.kinds(tag / 8) == BytesKind && v < 0x1_0000_0000_0000_0000
    requires base + 1 + |Varint(v)| + v > 0x7fff_ffff_ffff_ffff || v > |rest|
    ensures Parse(ty.Codec(), m, [tag] + (Varint(v) + rest), base)
         == Err(if base + 1 + |Varint(v)| + v > 0x7fff_ffff_ffff_ffff then InvalidLength else UnexpectedEof)
  {
    LengthRecord(ty.kinds, tag, v, rest, base);
    RefusedRecord(ty.Codec(), m, [tag] + (Varint(v) + rest), base,
                  if base + 1 + |Varint(v)| + v > MaxInt then InvalidLength else UnexpectedEof);
  }

  lemma UnknownRecord(kinds: Schema, tag: byte, s: seq<byte>, base: nat)
    requires 8 <= tag < 128 && tag % 8 != 4 && kinds(tag / 8) == Unknown && s != [] && s[0] == tag
    ensures Record(kinds, s, base) ==
      if Skip(s).Err? then Err(Skip(s).error)
      else if base + Skip(s).value > 0x7fff_ffff_ffff_ffff then Err(InvalidLength)
      else if Skip(s).value > |s| then Err(UnexpectedEof)
      else Ok((Raw(s[..Skip(s).value]), Skip(s).value))
  {
    assert s == [tag] + s[1..];
    TagByte(tag, s[1..]);
  }

  lemma RefusedRecord<T>(c: Codec<T>, m: Message<T>, s: seq<byte>, base: nat, e: Error)
    requires s != [] && c.read(s, base) == Err(e)
    ensures Parse(c, m, s, base) == Err(e)
  {
  }

  lemma KeptRecord<T>(c: Codec<T>, m: Message<T>, s: seq<byte>, base: nat, n: nat)
    requires n <= |s| && s != [] && c.read(s, base) == Ok((Raw(s[..n]), n))
    ensures Parse(c, m, s, base) == Parse(c, Message(m.body, m.unknown + s[..n]), s[n..], base + n)
  {
  }

  /** A record the message does not know is kept, tag included, as long as skipping says. */
  lemma KeepsUnknown<T>(ty: Type<T>, m: Message<T>, tag: byte, s: seq<byte>, base: nat)
    requires 8 <= tag < 128 && tag % 8 != 4 && ty.kinds(tag / 8) == Unknown && s != [] && s[0] == tag
    ensures Skip(s).Err? ==> Parse(ty.Codec(), m, s, base) == Err(Skip(s).error)
    ensures Skip(s).Ok? && base + Skip(s).value <= 0x7fff_ffff_ffff_ffff && Skip(s).value > |s| ==>
      Parse(ty.Codec(), m, s, base) == Err(UnexpectedEof)
    ensures Skip(s).Ok? && base + Skip(s).value <= 0x7fff_ffff_ffff_ffff && Skip(s).value <= |s| ==>
      Parse(ty.Codec(), m, s, base)
      == Parse(ty.Codec(), Message(m.body, m.unknown + s[..Skip(s).value]), s[Skip(s).value..], base + Skip(s).value)
  {
    var r, c := Skip(s), ty.Codec();
    UnknownRecord(ty.kinds, tag, s, base);
    if r.Err? {
      RefusedRecord(c, m, s, base, r.error);
    } else if base + r.value <= MaxInt {
      if r.value > |s| { RefusedRecord(c, m, s, base, UnexpectedEof); } else { KeptRecord(c, m, s, base, r.value); }
    }
  }

  /** What each wire type has skipping take: a varint, eight bytes, a length and as many bytes, four bytes. */
  lemma SkipTakes(tag: byte, v: nat, rest: seq<byte>)
    requires 8 <= tag < 128 && 1 + |Varint(v)| + v <= 0x7fff_ffff_ffff_ffff
    ensures tag % 8 == 0 ==> Skip([tag] + (Varint(v) + rest)) == Ok(1 + |Varint(v)|)
    ensures tag % 8 == 1 ==> Skip([tag] + rest) == Ok(9)
    ensures tag % 8 == 2 ==> Skip([tag] + (Varint(v) + rest)) == Ok(1 + |Varint(v)| + v)
    ensures tag % 8 == 4 ==> Skip([tag] + rest) == Err(UnexpectedEndOfGroup)
    ensures tag % 8 == 5 ==> Skip([tag] + rest) == Ok(5)
    ensures tag % 8 == 6 || tag % 8 == 7 ==> Skip([tag] + rest) == Err(IllegalWireType)
  {
    TagByte(tag, rest);
    TagByte(tag, Varint(v) + rest);
    assert ([tag] + (Varint(v) + rest))[1..] == Varint(v) + rest;
    VarintReads(v, rest);
  }

  lemma DeeperRound(s: seq<byte>, base: nat, depth: nat)
    requires SkipOne(s, base, depth).Ok?
    ensures SkipOne(s, base, depth + 1)
         == Ok(Move(SkipOne(s, base, depth).value.length, SkipOne(s, base, depth).value.depth + 1))
  {
  }

  ghost predicate DeepensAt(round: Round, s: seq<byte>, base: nat, depth: nat)
  {
    round(s, base, depth).Ok? ==>
      round(s, base, depth + 1) == Ok(Move(round(s, base, depth).value.length, round(s, base, depth).value.depth + 1))
  }

  ghost predicate Deepens(round: Round)
  {
    forall s, base: nat, depth: nat :: DeepensAt(round, s, base, depth)
  }

  function Beyond(n: nat, r: Result<nat>): Result<nat> { if r.Ok? then Ok(n + r.value) else r }

  lemma SkipParts(round: Round, s: seq<byte>, base: nat, depth: nat, n: nat) returns (move: Move)
    requires SkipBy(round, s, base, depth) == Ok(n) && n <= |s|
    ensures s != [] && round(s, base, depth) == Ok(move) && 0 < move.length <= n
    ensures if move.depth == 0 then n == move.length
            else SkipBy(round, s[move.length..], base + move.length, move.depth) == Ok(n - move.length)
  {
    move := round(s, base, depth).value;
  }

  ghost predicate SkipsTo(round: Round, s: seq<byte>, base: nat, depth: nat, r: Result<nat>)
  {
    SkipBy(round, s, base, depth) == r
  }

  lemma SkipInsideTo(round: Round, s: seq<byte>, base: nat, depth: nat, move: Move, r: Result<nat>)
    requires s != [] && round(s, base, depth) == Ok(move) && move.depth > 0 && move.length <= |s|
    requires SkipsTo(round, s[move.length..], base + move.length, move.depth, r)
    ensures SkipsTo(round, s, base, depth, Beyond(move.length, r))
  {
  }

  /** What skipping takes at some depth it takes one deeper, and goes on. */
  lemma {:induction false} Deeper(
      round: Round, s: seq<byte>, base: nat, depth: nat, n: nat, rest: seq<byte>, after: Result<nat>)
    requires Deepens(round) && SkipBy(round, s, base, depth) == Ok(n) && n <= |s|
    requires rest == s[n..] && SkipsTo(round, rest, base + n, 1, after)
    ensures SkipsTo(round, s, base, depth + 1, Beyond(n, after))
    decreases |s|
  {
    var move := SkipParts(round, s, base, depth, n);
    var tail, deeper := s[move.length..], Move(move.length, move.depth + 1);
    assert DeepensAt(round, s, base, depth);
    if move.depth > 0 {
      assert rest == tail[n - move.length..];
      Deeper(round, tail, base + move.length, move.depth, n - move.length, rest, after);
      SkipInsideTo(round, s, base, depth + 1, deeper, Beyond(n - move.length, after));
    } else {
      SkipInsideTo(round, s, base, depth + 1, deeper, after);
    }
  }

  /** A group is what stands between its start and the end that matches it: skipping goes from the start to one
      level deeper, where it takes records as it would outside, and is back at the end. */
  lemma SkipGroupEdges(start: byte, end: byte, s: seq<byte>, base: nat)
    requires start < 128 && start % 8 == 3 && end < 128 && end % 8 == 4
    ensures base + 1 <= 0x7fff_ffff_ffff_ffff ==> SkipBy(SkipOne, [end] + s, base, 1) == Ok(1)
    ensures SkipBy(SkipOne, s, 1, 1).Err? ==> Skip([start] + s) == SkipBy(SkipOne, s, 1, 1)
    ensures SkipBy(SkipOne, s, 1, 1).Ok? ==> Skip([start] + s) == Ok(1 + SkipBy(SkipOne, s, 1, 1).value)
  {
    TagByte(start, s);
    TagByte(end, s);
    assert ([start] + s)[1..] == s;
  }

  /** A round of skipping does the same one level deeper, so `Deeper` is about `Skip`. */
  lemma SkipDeepens(round: Round)
    requires round == SkipOne
    ensures Deepens(round)
  {
    forall t, b: nat, d: nat ensures DeepensAt(round, t, b, d) {
      if SkipOne(t, b, d).Ok? { DeeperRound(t, b, d); }
    }
  }
}
