/** The message types of the score store and transaction graph services, and their printers. */
module Messages {
  import opened Varints
  import opened Wire

  // ---------- fields ----------

  /** A string or number field is left out when it has its default. */
  function TextField(num: Num, s: seq<byte>): seq<Field> { if s == [] then [] else [Bytes(num, s)] }

  function NumberField(num: Num, v: nat): seq<Field> { if v == 0 then [] else [Number(num, v)] }

  lemma FieldsAppend(a: seq<Field>, b: seq<Field>)
    ensures FieldsBytes(a + b) == FieldsBytes(a) + FieldsBytes(b)
  {
    ConcatAppend(Shown(), a, b);
  }

  lemma OneField(f: Field)
    ensures FieldsBytes([f]) == FieldBytes(f)
  {
    assert Concat(Shown(), [f]) == Shown()(f) + Concat(Shown(), []);
  }

  lemma {:induction false} FieldsOkAppend(kinds: Schema, a: seq<Field>, b: seq<Field>)
    ensures FieldsOk(kinds, a + b) <==> FieldsOk(kinds, a) && FieldsOk(kinds, b)
  {
    if a == [] {
      assert a + b == b;
    } else {
      FieldsOkAppend(kinds, a[1..], b);
      assert (a + b)[1..] == a[1..] + b;
    }
  }

  lemma {:induction false} FoldAppend<T>(put: (T, Field) -> Result<T>, body: T, a: seq<Field>, b: seq<Field>)
    ensures Fold(put, body, a + b) ==
      match Fold(put, body, a)
      case Err(e) => Err(e)
      case Ok(next) => Fold(put, next, b)
  {
    if a == [] {
      assert a + b == b;
    } else {
      assert (a + b)[1..] == a[1..] + b;
      if put(body, a[0]).Ok? { FoldAppend(put, put(body, a[0]).value, a[1..], b); }
    }
  }

  // ---------- text messages: Score, Scorer, Wallet, Range ----------

  datatype Score = Score(wallet: seq<byte>, scorer: seq<byte>, value: seq<byte>)

  function PutScore(b: Score, f: Field): Result<Score>
  {
    match f
    case Bytes(num, s) =>
      Ok(if num == 1 then b.(wallet := s) else if num == 2 then b.(scorer := s)
         else if num == 3 then b.(value := s) else b)
    case Number(_, _) => Ok(b)
  }

  function ScoreFields(b: Score): seq<Field>
  {
    TextField(1, b.wallet) + (TextField(2, b.scorer) + TextField(3, b.value))
  }

  function ScoreType(): Type<Score>
  {
    Type((n: Num) => if n <= 3 then BytesKind else Unknown, (b, f) => PutScore(b, f), Score([], [], []),
         (b: Score) => ScoreFields(b), (b: Score) => true)
  }

  lemma ScoreLawful()
    ensures Lawful(ScoreType())
  {
    var ty := ScoreType();
    forall b: Score
      ensures FieldsOk(ty.kinds, ScoreFields(b)) && Fold(ty.put, ty.empty, ScoreFields(b)) == Ok(b)
    {
      ScoreReplays(ty, b);
    }
  }

  lemma ScoreReplays(ty: Type<Score>, b: Score)
    requires ty == ScoreType()
    ensures FieldsOk(ty.kinds, ScoreFields(b)) && Fold(ty.put, ty.empty, ScoreFields(b)) == Ok(b)
  {
    var rest := TextField(2, b.scorer) + TextField(3, b.value);
    FieldsOkAppend(ty.kinds, TextField(1, b.wallet), rest);
    FieldsOkAppend(ty.kinds, TextField(2, b.scorer), TextField(3, b.value));
    FoldAppend(ty.put, ty.empty, TextField(1, b.wallet), rest);
    FoldAppend(ty.put, Score(b.wallet, [], []), TextField(2, b.scorer), TextField(3, b.value));
  }

  datatype Scorer = Scorer(name: seq<byte>)

  function ScorerType(): Type<Scorer>
  {
    Type((n: Num) => if n == 1 then BytesKind else Unknown,
         (b: Scorer, f: Field) => Ok(if f.Bytes? && f.num == 1 then Scorer(f.data) else b), Scorer([]),
         (b: Scorer) => TextField(1, b.name), (b: Scorer) => true)
  }

  lemma ScorerLawful()
    ensures Lawful(ScorerType())
  {
    assert forall b: Scorer :: FieldsOk(ScorerType().kinds, TextField(1, b.name));
  }

  datatype Wallet = Wallet(address: seq<byte>)

  function WalletType(): Type<Wallet>
  {
    Type((n: Num) => if n == 1 then BytesKind else Unknown,
         (b: Wallet, f: Field) => Ok(if f.Bytes? && f.num == 1 then Wallet(f.data) else b), Wallet([]),
         (b: Wallet) => TextField(1, b.address), (b: Wallet) => true)
  }

  lemma WalletLawful()
    ensures Lawful(WalletType())
  {
    assert forall b: Wallet :: FieldsOk(WalletType().kinds, TextField(1, b.address));
  }

  datatype Range = Range(from: seq<byte>, until: seq<byte>)

  function PutRange(b: Range, f: Field): Result<Range>
  {
    match f
    case Bytes(num, s) => Ok(if num == 1 then b.(from := s) else if num == 2 then b.(until := s) else b)
    case Number(_, _) => Ok(b)
  }

  function RangeFields(b: Range): seq<Field> { TextField(1, b.from) + TextField(2, b.until) }

  function RangeType(): Type<Range>
  {
    Type((n: Num) => if n <= 2 then BytesKind else Unknown, (b, f) => PutRange(b, f), Range([], []),
         (b: Range) => RangeFields(b), (b: Range) => true)
  }

  lemma RangeLawful()
    ensures Lawful(RangeType())
  {
    var ty := RangeType();
    forall b: Range
      ensures FieldsOk(ty.kinds, RangeFields(b)) && Fold(ty.put, ty.empty, RangeFields(b)) == Ok(b)
    {
      FieldsOkAppend(ty.kinds, TextField(1, b.from), TextField(2, b.until));
      FoldAppend(ty.put, ty.empty, TextField(1, b.from), TextField(2, b.until));
    }
  }

  // ---------- messages with numbers: Query, Block ----------

  datatype Query = Query(kind: int, expression: seq<byte>, offset: nat)

  predicate IsInt32(n: int) { -0x8000_0000 <= n < 0x8000_0000 }

  /** A signed number is printed as the 64-bit value it sign-extends to. */
  function Signed(n: int): nat { if IsInt32(n) then ToUint64(n) else 0 }

  function PutQuery(b: Query, f: Field): Result<Query>
  {
    match f
    case Bytes(num, s) => Ok(if num == 2 then b.(expression := s) else b)
    case Number(num, v) =>
      Ok(if num == 1 then b.(kind := ToInt32(v)) else if num == 3 then b.(offset := v) else b)
  }

  function QueryFields(b: Query): seq<Field>
  {
    NumberField(1, Signed(b.kind)) + (TextField(2, b.expression) + NumberField(3, b.offset))
  }

  function QueryType(): Type<Query>
  {
    Type((n: Num) => if n == 2 then BytesKind else if n == 1 || n == 3 then VarintKind else Unknown,
         (b, f) => PutQuery(b, f), Query(0, [], 0), (b: Query) => QueryFields(b),
         (b: Query) => IsInt32(b.kind) && b.offset < Two64)
  }

  lemma QueryReplays(ty: Type<Query>, b: Query)
    requires ty == QueryType() && IsInt32(b.kind) && b.offset < Two64
    ensures FieldsOk(ty.kinds, QueryFields(b)) && Fold(ty.put, ty.empty, QueryFields(b)) == Ok(b)
  {
    var kind, expression, offset :=
      NumberField(1, Signed(b.kind)), TextField(2, b.expression), NumberField(3, b.offset);
    Int32Back(b.kind);
    FieldsOkAppend(ty.kinds, kind, expression + offset);
    FieldsOkAppend(ty.kinds, expression, offset);
    FoldAppend(ty.put, ty.empty, kind, expression + offset);
    assert Fold(ty.put, ty.empty, kind) == Ok(Query(b.kind, [], 0));
    FoldAppend(ty.put, Query(b.kind, [], 0), expression, offset);
  }

  lemma QueryKeeps()
    ensures Keeps(QueryType().put, QueryType().valid)
  {
  }

  lemma QueryLawful()
    ensures Lawful(QueryType())
  {
    var ty := QueryType();
    QueryKeeps();
    forall b: Query | ty.valid(b)
      ensures FieldsOk(ty.kinds, QueryFields(b)) && Fold(ty.put, ty.empty, QueryFields(b)) == Ok(b)
    {
      QueryReplays(ty, b);
    }
  }

  datatype Block = Block(number: int, processed: bool)

  function PutBlock(b: Block, f: Field): Result<Block>
  {
    match f
    case Bytes(_, _) => Ok(b)
    case Number(num, v) =>
      Ok(if num == 1 then b.(number := ToInt32(v)) else if num == 2 then b.(processed := v != 0) else b)
  }

  function BlockFields(b: Block): seq<Field>
  {
    NumberField(1, Signed(b.number)) + NumberField(2, if b.processed then 1 else 0)
  }

  function BlockType(): Type<Block>
  {
    Type((n: Num) => if n <= 2 then VarintKind else Unknown, (b, f) => PutBlock(b, f), Block(0, false),
         (b: Block) => BlockFields(b), (b: Block) => IsInt32(b.number))
  }

  lemma BlockReplays(ty: Type<Block>, b: Block)
    requires ty == BlockType() && IsInt32(b.number)
    ensures FieldsOk(ty.kinds, BlockFields(b)) && Fold(ty.put, ty.empty, BlockFields(b)) == Ok(b)
  {
    var number, processed := NumberField(1, Signed(b.number)), NumberField(2, if b.processed then 1 else 0);
    Int32Back(b.number);
    FieldsOkAppend(ty.kinds, number, processed);
    FoldAppend(ty.put, ty.empty, number, processed);
    assert Fold(ty.put, ty.empty, number) == Ok(Block(b.number, false));
  }

  lemma BlockLawful()
    ensures Lawful(BlockType())
  {
    var ty := BlockType();
    forall b: Block | ty.valid(b)
      ensures FieldsOk(ty.kinds, BlockFields(b)) && Fold(ty.put, ty.empty, BlockFields(b)) == Ok(b)
    {
      BlockReplays(ty, b);
    }
  }

  // ---------- batches: ScoreBatch, BlockBatch, WalletBatch ----------

  function Repeated<M>(show: M -> seq<byte>, ms: seq<M>): seq<Field>
  {
    if ms == [] then [] else [Bytes(1, show(ms[0]))] + Repeated(show, ms[1..])
  }

  function Printer<T>(element: Type<T>): Message<T> -> seq<byte> { m => element.Encode(m) }

  function PutRepeated<T>(element: Type<T>, b: seq<Message<T>>, f: Field): Result<seq<Message<T>>>
  {
    if f.Bytes? && f.num == 1 then
      match element.Decode(f.data)
      case Err(e) => Err(e)
      case Ok(m) => Ok(b + [m])
    else Ok(b)
  }

  function BatchType<T>(element: Type<T>): Type<seq<Message<T>>>
  {
    Type((n: Num) => if n == 1 then BytesKind else Unknown, (b, f) => PutRepeated(element, b, f), [],
         (b: seq<Message<T>>) => Repeated(Printer(element), b),
         (b: seq<Message<T>>) => forall k :: 0 <= k < |b| ==> element.Valid(b[k]))
  }

  lemma {:induction false} RepeatedOk<M>(kinds: Schema, show: M -> seq<byte>, ms: seq<M>)
    requires kinds(1) == BytesKind
    ensures FieldsOk(kinds, Repeated(show, ms))
  {
    if ms != [] { RepeatedOk(kinds, show, ms[1..]); }
  }

  lemma {:induction false} RepeatedFold<M(!new)>(
      show: M -> seq<byte>, put: (seq<M>, Field) -> Result<seq<M>>, done: seq<M>, ms: seq<M>)
    requires forall m, b :: m in ms ==> put(b, Bytes(1, show(m))) == Ok(b + [m])
    ensures Fold(put, done, Repeated(show, ms)) == Ok(done + ms)
    decreases |ms|
  {
    if ms == [] {
      assert done + ms == done;
    } else {
      assert ms[0] in ms;
      RepeatedFold(show, put, done + [ms[0]], ms[1..]);
      assert done + [ms[0]] + ms[1..] == done + ms;
    }
  }

  lemma {:induction false} RepeatedSize<M>(show: M -> seq<byte>, ms: seq<M>, m: M)
    requires m in ms
    ensures |show(m)| <= |FieldsBytes(Repeated(show, ms))|
  {
    if m != ms[0] { RepeatedSize(show, ms[1..], m); }
  }

  lemma BatchReplays<T(!new)>(element: Type<T>, b: seq<Message<T>>)
    requires Lawful(element) && BatchType(element).valid(b)
    requires |FieldsBytes(Repeated(Printer(element), b))| <= MaxInt
    ensures Fold(BatchType(element).put, [], Repeated(Printer(element), b)) == Ok(b)
  {
    var show, put := Printer(element), BatchType(element).put;
    forall m, done | m in b ensures put(done, Bytes(1, show(m))) == Ok(done + [m]) {
      RepeatedSize(show, b, m);
      DecodeEncode(element, m);
    }
    RepeatedFold(show, put, [], b);
    assert [] + b == b;
  }

  lemma BatchKeeps<T(!new)>(element: Type<T>)
    requires Lawful(element)
    ensures Keeps(BatchType(element).put, BatchType(element).valid)
  {
    var ty := BatchType(element);
    forall b, f | ty.valid(b) && Small(f) && (f.Bytes? ==> |f.data| <= MaxInt) && ty.put(b, f).Ok?
      ensures ty.valid(ty.put(b, f).value)
    {
      if f.Bytes? && f.num == 1 { DecodedValid(element, f.data); }
    }
  }

  /** A batch of a lawful type is a lawful type. */
  lemma BatchLawful<T(!new)>(element: Type<T>)
    requires Lawful(element)
    ensures Lawful(BatchType(element))
  {
    var ty := BatchType(element);
    BatchKeeps(element);
    forall b | ty.valid(b) ensures FieldsOk(ty.kinds, ty.fields(b)) { RepeatedOk(ty.kinds, Printer(element), b); }
    forall b | ty.valid(b) && |FieldsBytes(ty.fields(b))| <= MaxInt
      ensures Fold(ty.put, ty.empty, ty.fields(b)) == Ok(b)
    {
      BatchReplays(element, b);
    }
  }

  // ---------- one of a count or an item: ScorersResponse, SearchResponse ----------

  datatype Answer<+T> = Unset | Count(count: nat) | Item(item: Message<T>)

  function PutAnswer<T>(element: Type<T>, b: Answer<T>, f: Field): Result<Answer<T>>
  {
    match f
    case Number(num, v) => Ok(if num == 1 then Count(v) else b)
    case Bytes(num, data) =>
      if num == 2 then
        match element.Decode(data)
        case Err(e) => Err(e)
        case Ok(m) => Ok(Item(m))
      else Ok(b)
  }

  /** A count is printed even when it is zero. */
  function AnswerFields<T>(element: Type<T>, b: Answer<T>): seq<Field>
  {
    match b
    case Unset => []
    case Count(n) => [Number(1, n)]
    case Item(m) => [Bytes(2, element.Encode(m))]
  }

  function AnswerType<T>(element: Type<T>): Type<Answer<T>>
  {
    Type((n: Num) => if n == 1 then VarintKind else if n == 2 then BytesKind else Unknown,
         (b, f) => PutAnswer(element, b, f), Unset, (b: Answer<T>) => AnswerFields(element, b),
         (b: Answer<T>) => (b.Count? ==> b.count < Two64) && (b.Item? ==> element.Valid(b.item)))
  }

  lemma AnswerReplays<T(!new)>(element: Type<T>, b: Answer<T>)
    requires Lawful(element) && AnswerType(element).valid(b)
    requires |FieldsBytes(AnswerFields(element, b))| <= MaxInt
    ensures Fold(AnswerType(element).put, Unset, AnswerFields(element, b)) == Ok(b)
  {
    if b.Item? {
      DecodeEncode(element, b.item);
      assert AnswerFields(element, b)[1..] == [];
    }
  }

  lemma AnswerKeeps<T(!new)>(element: Type<T>)
    requires Lawful(element)
    ensures Keeps(AnswerType(element).put, AnswerType(element).valid)
  {
    var ty := AnswerType(element);
    forall b, f | ty.valid(b) && Small(f) && (f.Bytes? ==> |f.data| <= MaxInt) && ty.put(b, f).Ok?
      ensures ty.valid(ty.put(b, f).value)
    {
      if f.Bytes? && f.num == 2 { DecodedValid(element, f.data); }
    }
  }

  lemma AnswerLawful<T(!new)>(element: Type<T>)
    requires Lawful(element)
    ensures Lawful(AnswerType(element))
  {
    var ty := AnswerType(element);
    AnswerKeeps(element);
    forall b | ty.valid(b) && |FieldsBytes(ty.fields(b))| <= MaxInt
      ensures Fold(ty.put, ty.empty, ty.fields(b)) == Ok(b)
    {
      AnswerReplays(element, b);
    }
  }

  // ---------- the round trips ----------

  /** Every message type of both services, with the batches and answers built from it. */
  lemma AllLawful()
    ensures Lawful(ScoreType()) && Lawful(BatchType(ScoreType())) && Lawful(AnswerType(ScoreType()))
    ensures Lawful(ScorerType()) && Lawful(AnswerType(ScorerType()))
    ensures Lawful(QueryType())
    ensures Lawful(BlockType()) && Lawful(BatchType(BlockType()))
    ensures Lawful(WalletType()) && Lawful(BatchType(WalletType()))
    ensures Lawful(RangeType())
  {
    ScoreLawful();
    BatchLawful(ScoreType());
    AnswerLawful(ScoreType());
    ScorerLawful();
    AnswerLawful(ScorerType());
    QueryLawful();
    BlockLawful();
    BatchLawful(BlockType());
    WalletLawful();
    BatchLawful(WalletType());
    RangeLawful();
  }
}
