/** The partition range: how the address space is cut among the workers, and when the cut is sound. */
module Partition {
  import opened Bsp
  import opened Strings

  datatype Error = Panics | BadOrder | NoPartitions | BadMinimum | BadMaximum | BadIndex | Undetected

  datatype Result<+T> = Ok(value: T) | Err(error: Error)

  /** `splits[i]` is where partition `i` ends. */
  datatype Range = Range(start: string, splits: seq<string>)

  // The largest value of a 64-bit int, the type of a number of partitions.
  const MaxInt := 0x7fff_ffff_ffff_ffff

  // ---------- hexadecimal numbers ----------

  function Pow16(w: nat): (r: nat)
    ensures r > 0
  {
    if w == 0 then 1 else 16 * Pow16(w - 1)
  }

  function Digit(d: nat): char
    requires d < 16
  {
    "0123456789abcdef"[d]
  }

  /** A number printed with `%x`. */
  function Hex(n: int): string
  {
    if n < 0 then "-" + Digits(-n) else Digits(n)
  }

  function Digits(n: nat): (r: string)
    ensures r != []
  {
    if n < 16 then [Digit(n)] else Digits(n / 16) + [Digit(n % 16)]
  }

  /** A number as exactly `w` digits. */
  function Padded(n: nat, w: nat): (r: string)
    ensures |r| == w
  {
    if w == 0 then [] else Padded(n / 16, w - 1) + [Digit(n % 16)]
  }

  function DigitValue(c: char): Option<int>
  {
    if '0' <= c <= '9' then Some((c - '0') as int)
    else if 'a' <= c <= 'f' then Some((c - 'a') as int + 10)
    else if 'A' <= c <= 'F' then Some((c - 'A') as int + 10)
    else None
  }

  /** The digits of a number in base 16, at least one of them. */
  function Unsigned(s: string): Option<int>
  {
    if s == [] then None
    else
      var d := DigitValue(s[|s| - 1]);
      if d == None then None
      else if |s| == 1 then d
      else
        var high := Unsigned(s[..|s| - 1]);
        if high == None then None else Some(16 * high.value + d.value)
  }

  /** An optional sign and the digits. */
  function Number(s: string): Option<int>
  {
    if s != [] && s[0] == '-' then
      match Unsigned(s[1..])
      case None => None
      case Some(n) => Some(-n)
    else if s != [] && s[0] == '+' then Unsigned(s[1..])
    else Unsigned(s)
  }

  lemma DigitOrder(d: nat, e: nat)
    requires d < e < 16
    ensures Digit(d) < Digit(e)
  {
  }

  lemma UnsignedLast(s: string, d: nat, high: int)
    requires d < 16 && if s == [] then high == 0 else Unsigned(s) == Some(high)
    ensures Unsigned(s + [Digit(d)]) == Some(16 * high + d)
  {
    var t := s + [Digit(d)];
    assert t[|t| - 1] == Digit(d) && t[..|t| - 1] == s;
  }

  lemma {:induction false} PaddedReads(n: nat, w: nat)
    requires 0 < w && n < Pow16(w)
    ensures Unsigned(Padded(n, w)) == Some(n)
  {
    if w > 1 { PaddedReads(n / 16, w - 1); }
    UnsignedLast(Padded(n / 16, w - 1), n % 16, n / 16);
  }

  lemma {:induction false} PaddedStarts(n: nat, w: nat)
    requires 0 < w
    ensures DigitValue(Padded(n, w)[0]).Some?
  {
    if w > 1 { PaddedStarts(n / 16, w - 1); }
  }

  lemma PaddedNumber(n: nat, w: nat)
    requires 0 < w && n < Pow16(w)
    ensures Number(Padded(n, w)) == Some(n)
  {
    PaddedReads(n, w);
    PaddedStarts(n, w);
  }

  /** Without leading zeros the two forms agree. */
  lemma {:induction false} DigitsPadded(n: nat, w: nat)
    requires 0 < w && n < Pow16(w) && (w == 1 || Pow16(w - 1) <= n)
    ensures Digits(n) == Padded(n, w)
  {
    if w == 1 {
      assert Padded(n, w) == [Digit(n)];
    } else {
      DigitsPadded(n / 16, w - 1);
    }
  }

  /** Numbers of one width are ordered as strings the way they are as numbers. */
  lemma {:induction false} PaddedOrder(m: nat, n: nat, w: nat)
    requires n < Pow16(w)
    ensures m < n ==> Less(Padded(m, w), Padded(n, w))
  {
    if w > 0 && m < n {
      if m / 16 < n / 16 {
        PaddedOrder(m / 16, n / 16, w - 1);
        LessEarlier(Padded(m / 16, w - 1), Padded(n / 16, w - 1), [Digit(m % 16)], [Digit(n % 16)]);
      } else {
        DigitOrder(m % 16, n % 16);
        LessCommon(Padded(m / 16, w - 1), [Digit(m % 16)], [Digit(n % 16)]);
      }
    }
  }

  lemma PaddedLess(m: nat, n: nat, w: nat)
    requires m < Pow16(w) && n < Pow16(w)
    ensures Less(Padded(m, w), Padded(n, w)) <==> m < n
  {
    PaddedOrder(m, n, w);
    PaddedOrder(n, m, w);
    LessTotal(Padded(m, w), Padded(n, w));
  }

  lemma {:induction false} PaddedZeros(w: nat)
    ensures Padded(0, w) == seq(w, _ => '0')
  {
    if w > 0 { PaddedZeros(w - 1); }
  }

  lemma {:induction false} PaddedLast(w: nat)
    ensures Padded(Pow16(w) - 1, w) == seq(w, _ => 'f')
  {
    if w > 0 {
      PaddedLast(w - 1);
      assert (Pow16(w) - 1) / 16 == Pow16(w - 1) - 1 && (Pow16(w) - 1) % 16 == 15;
    }
  }

  // ---------- the range ----------

  function Split(size: int, maximum: string, n: int, i: nat): string
  {
    if i == n - 1 then maximum else Hex(size * (i + 1))
  }

  /** The first `k` ends. */
  function Splits(size: int, maximum: string, n: int, k: nat): (s: seq<string>)
    ensures |s| == k
  {
    if k == 0 then [] else Splits(size, maximum, n, k - 1) + [Split(size, maximum, n, k - 1)]
  }

  lemma {:induction false} SplitAt(size: int, maximum: string, n: int, k: nat, i: nat)
    requires i < k
    ensures Splits(size, maximum, n, k)[i] == Split(size, maximum, n, i)
  {
    if i < k - 1 { SplitAt(size, maximum, n, k - 1, i); }
  }

  /** `length` addresses cut into `n` parts of equal size, the last up to `maximum`. */
  function Divided(minimum: string, maximum: string, length: int, n: nat): Range
    requires n > 0
  {
    Range(minimum, Splits(length / n, maximum, n, n))
  }

  /** Why a range cannot be made, in the order the code looks. A count that is negative, or larger than a slice can be
      (`room`), panics on allocation. */
  function Refusal(minimum: string, maximum: string, n: int, room: nat): Option<Error>
  {
    if n < 0 || n > room then Some(Panics)
    else if !Less(minimum, maximum) then Some(BadOrder)
    else if n == 0 then Some(NoPartitions)
    else if Number(minimum) == None then Some(BadMinimum)
    else if Number(maximum) == None then Some(BadMaximum)
    else None
  }

  method NewRange(minimum: string, maximum: string, n: int, room: nat) returns (r: Result<Range>)
    ensures Refusal(minimum, maximum, n, room).Some? ==> r == Err(Refusal(minimum, maximum, n, room).value)
    ensures Refusal(minimum, maximum, n, room) == None ==>
      r == Ok(Divided(minimum, maximum, Number(maximum).value - Number(minimum).value + 1, n))
  {
    if n < 0 || n > room { return Err(Panics); }
    if !Less(minimum, maximum) { return Err(BadOrder); }
    if n == 0 { return Err(NoPartitions); }
    var low, high := Number(minimum), Number(maximum);
    if low == None { return Err(BadMinimum); }
    if high == None { return Err(BadMaximum); }
    var size := (high.value - low.value + 1) / n;
    var ranges: seq<string> := [];
    for part := 0 to n
      invariant ranges == Splits(size, maximum, n, part)
    {
      if part == n - 1 {
        ranges := ranges + [maximum];
      } else {
        ranges := ranges + [Hex(size * (part + 1))];
      }
    }
    return Ok(Range(minimum, ranges));
  }

  function Extents(r: Range): (string, string)
    requires r.splits != []
  {
    (r.start, r.splits[|r.splits| - 1])
  }

  function PartitionExtents(r: Range, i: int): Result<(string, string)>
  {
    if i < 0 || i >= |r.splits| then Err(BadIndex)
    else if i == 0 then Ok((r.start, r.splits[0]))
    else Ok((r.splits[i - 1], r.splits[i]))
  }

  predicate Inside(a: string, extents: (string, string))
  {
    !Less(a, extents.0) && Less(a, extents.1)
  }

  predicate InPart(r: Range, i: int, a: string)
  {
    var extents := PartitionExtents(r, i);
    extents.Ok? && Inside(a, extents.value)
  }

  /** Splits strictly increase, from above the start. */
  predicate Increasing(r: Range)
  {
    && r.splits != []
    && Less(r.start, r.splits[0])
    && forall i {:trigger r.splits[i]} :: 0 < i < |r.splits| ==> Less(r.splits[i - 1], r.splits[i])
  }

  // ---------- increasing splits make a partition ----------

  /** Every address of the range lies in exactly one part, and no other address in any. */
  ghost predicate Partitions(r: Range)
    requires r.splits != []
  {
    && (forall a :: Inside(a, Extents(r)) <==> exists i :: InPart(r, i, a))
    && (forall a, i, j :: InPart(r, i, a) && InPart(r, j, a) ==> i == j)
  }

  lemma {:induction false} SplitsOrdered(r: Range, i: nat, j: nat)
    requires Increasing(r) && i < j < |r.splits|
    ensures Less(r.splits[i], r.splits[j])
  {
    if i < j - 1 {
      SplitsOrdered(r, i, j - 1);
      LessTransitive(r.splits[i], r.splits[j - 1], r.splits[j]);
    }
  }

  lemma BelowLater(r: Range, i: nat, j: nat, a: string)
    requires Increasing(r) && i <= j < |r.splits| && Less(a, r.splits[i])
    ensures Less(a, r.splits[j])
  {
    if i < j {
      SplitsOrdered(r, i, j);
      LessTransitive(a, r.splits[i], r.splits[j]);
    }
  }

  /** A part lies within the range. */
  lemma PartInside(r: Range, i: int, a: string)
    requires Increasing(r) && InPart(r, i, a)
    ensures Inside(a, Extents(r))
  {
    BelowLater(r, i, |r.splits| - 1, a);
    if i > 0 && Less(a, r.start) {
      LessTransitive(a, r.start, r.splits[0]);
      BelowLater(r, 0, i - 1, a);
    }
  }

  /** Two parts share no address. */
  lemma PartsDisjoint(r: Range, i: int, j: int, a: string)
    requires Increasing(r) && InPart(r, i, a) && InPart(r, j, a)
    ensures i == j
  {
    if i < j { BelowLater(r, i, j - 1, a); }
    if j < i { BelowLater(r, j, i - 1, a); }
  }

  /** The first split above `a`, from split `from` on. */
  function Lookup(r: Range, a: string, from: nat): Option<nat>
    requires from <= |r.splits|
    decreases |r.splits| - from
  {
    if from == |r.splits| then None
    else if Less(a, r.splits[from]) then Some(from)
    else Lookup(r, a, from + 1)
  }

  /** The first split above `a` ends a part that holds `a`, whether or not the splits increase. */
  lemma {:induction false} LookupInPart(r: Range, a: string, from: nat, k: nat)
    requires from <= k < |r.splits| && Less(a, r.splits[k]) && !Less(a, r.start)
    requires from > 0 ==> !Less(a, r.splits[from - 1])
    ensures Lookup(r, a, from).Some? && Lookup(r, a, from).value <= k
    ensures InPart(r, Lookup(r, a, from).value, a)
    decreases |r.splits| - from
  {
    if !Less(a, r.splits[from]) { LookupInPart(r, a, from + 1, k); }
  }

  lemma IncreasingPartitions(r: Range)
    requires Increasing(r)
    ensures Partitions(r)
  {
    forall a, i | InPart(r, i, a) ensures Inside(a, Extents(r)) { PartInside(r, i, a); }
    forall a | Inside(a, Extents(r)) ensures exists i :: InPart(r, i, a) { LookupInPart(r, a, 0, |r.splits| - 1); }
    forall a, i, j | InPart(r, i, a) && InPart(r, j, a) ensures i == j { PartsDisjoint(r, i, j, a); }
  }

  /** The partition the master routes an address to. */
  function Owner(r: Range): string -> Option<nat>
  {
    a => if Less(a, r.start) then None else Lookup(r, a, 0)
  }

  lemma OwnerIsPart(r: Range, a: string)
    requires Increasing(r)
    ensures forall i: nat :: Owner(r)(a) == Some(i) <==> InPart(r, i, a)
    ensures Owner(r)(a).Some? <==> Inside(a, Extents(r))
  {
    if Inside(a, Extents(r)) { LookupInPart(r, a, 0, |r.splits| - 1); }
    forall i: nat | InPart(r, i, a) ensures Owner(r)(a) == Some(i) {
      PartInside(r, i, a);
      PartsDisjoint(r, i, Owner(r)(a).value, a);
    }
    if Owner(r)(a).Some? { LookupFound(r, a, 0); BelowLater(r, Owner(r)(a).value, |r.splits| - 1, a); }
  }

  lemma {:induction false} LookupFound(r: Range, a: string, from: nat)
    requires from <= |r.splits| && Lookup(r, a, from).Some?
    ensures Lookup(r, a, from).value < |r.splits| && Less(a, r.splits[Lookup(r, a, from).value])
    decreases |r.splits| - from
  {
    if !Less(a, r.splits[from]) { LookupFound(r, a, from + 1); }
  }

  /** `i` is a place where a search for the first split above `a` may stop. */
  predicate Stop(r: Range, a: string, i: nat)
  {
    && i <= |r.splits|
    && (i > 0 ==> !Less(a, r.splits[i - 1]))
    && (i < |r.splits| ==> Less(a, r.splits[i]))
  }

  function Answer(r: Range, a: string, i: nat): Result<nat>
  {
    if Less(a, r.start) || i >= |r.splits| then Err(Undetected) else Ok(i)
  }

  lemma StopIsPart(r: Range, a: string, i: nat)
    requires Stop(r, a, i)
    ensures Answer(r, a, i).Ok? ==> InPart(r, i, a)
    ensures Increasing(r) ==>
      Answer(r, a, i) == if Owner(r)(a).Some? then Ok(Owner(r)(a).value) else Err(Undetected)
  {
    assert !Less(a, r.start) && i < |r.splits| ==> InPart(r, i, a);
    if Increasing(r) {
      OwnerIsPart(r, a);
      assert i == |r.splits| ==> !Inside(a, Extents(r));
    }
  }

  /** The binary search, which on any split list stops between a split not above `a` and one above it. */
  method PartitionForAddr(r: Range, a: string) returns (part: Result<nat>)
    ensures part.Err? ==> part == Err(Undetected)
    ensures part.Ok? ==> InPart(r, part.value, a)
    ensures Increasing(r) ==> part == if Owner(r)(a).Some? then Ok(Owner(r)(a).value) else Err(Undetected)
  {
    var i, j := 0, |r.splits|;
    while i < j
      invariant 0 <= i <= j <= |r.splits|
      invariant i > 0 ==> !Less(a, r.splits[i - 1])
      invariant j < |r.splits| ==> Less(a, r.splits[j])
    {
      var h := (i + j) / 2;
      if !Less(a, r.splits[h]) { i := h + 1; } else { j := h; }
    }
    StopIsPart(r, a, i);
    if Less(a, r.start) || i >= |r.splits| { return Err(Undetected); }
    return Ok(i);
  }

  // ---------- the full range ----------

  const Width: nat := 40

  function Lowest(w: nat): string { seq(w, _ => '0') }

  function Highest(w: nat): string { seq(w, _ => 'f') }

  /** The range over all `w`-digit addresses but the last, cut into `n` parts. */
  function Full(w: nat, n: nat): Range
    requires n > 0
  {
    Divided(Lowest(w), Highest(w), Pow16(w), n)
  }

  lemma LowestNumber(w: nat)
    requires w > 0
    ensures Number(Lowest(w)) == Some(0)
  {
    PaddedZeros(w);
    PaddedNumber(0, w);
  }

  lemma HighestNumber(w: nat)
    requires w > 0
    ensures Number(Highest(w)) == Some(Pow16(w) - 1)
  {
    PaddedLast(w);
    PaddedNumber(Pow16(w) - 1, w);
  }

  /** Addresses have 40 digits: the full range starts at the lowest, and its last part ends at the highest. */
  lemma FullRangeEnds(n: nat)
    requires n > 0
    ensures Full(Width, n).start == "0000000000000000000000000000000000000000"
    ensures |Full(Width, n).splits| == n
    ensures Full(Width, n).splits[n - 1] == "ffffffffffffffffffffffffffffffffffffffff"
  {
    SplitAt(Pow16(Width) / n, Highest(Width), n, n, n - 1);
    assert Lowest(Width) == "0000000000000000000000000000000000000000";
    assert Highest(Width) == "ffffffffffffffffffffffffffffffffffffffff";
  }

  /** Numbers are printed in base 16 with small letters. */
  lemma HexLetters(d: nat, n: int)
    requires d < 16 && n > 0
    ensures Hex(d) == ["0123456789abcdef"[d]] && Hex(16 * n + d) == Hex(n) + ["0123456789abcdef"[d]]
    ensures Hex(-n) == "-" + Hex(n)
  {
    assert Hex(16 * n + d) == Digits(n) + [Digit(d)];
  }

  method NewFullRange(n: int, room: nat) returns (r: Result<Range>)
    ensures r == if n < 0 || n > room then Err(Panics) else if n == 0 then Err(NoPartitions) else Ok(Full(Width, n))
  {
    var low, high := Lowest(Width), Highest(Width);
    r := NewRange(low, high, n, room);
    LowestNumber(Width);
    HighestNumber(Width);
  }

  /** The size of every part but the last. */
  function PartSize(w: nat, n: nat): nat
    requires n > 0
  {
    Pow16(w) / n
  }

  /** The number where part `i` begins and part `i - 1` ends. */
  function Cut(w: nat, n: nat, i: nat): (c: nat)
    requires 0 < n && i <= n
  {
    if i == n then Pow16(w) - 1 else PartSize(w, n) * i
  }

  lemma Grow(a: nat, b: nat, c: nat)
    requires a <= b
    ensures a * c <= b * c && c * a <= c * b
  {
  }

  lemma SizeBounds(w: nat, n: nat)
    requires n > 0
    ensures PartSize(w, n) * n <= Pow16(w) < PartSize(w, n) * n + n
    ensures forall i: nat :: i <= n ==> PartSize(w, n) * i <= PartSize(w, n) * n
  {
    forall i: nat | i <= n ensures PartSize(w, n) * i <= PartSize(w, n) * n { Grow(i, n, PartSize(w, n)); }
  }

  /** With at most 16 parts, a part's size has `w` digits. */
  lemma LargeSize(w: nat, n: nat)
    requires 0 < w && 0 < n <= 16
    ensures Pow16(w - 1) <= PartSize(w, n)
  {
    var k, q := Pow16(w - 1), PartSize(w, n);
    DivideDown(q, k, n);
    Grow(n, 16, k);
    SizeBounds(w, n);
  }

  lemma DivideDown(q: nat, k: nat, n: nat)
    ensures q < k ==> q * n + n <= k * n
  {
    if q < k {
      Grow(q + 1, k, n);
      assert (q + 1) * n == q * n + n;
    }
  }

  /** With more, but not as many as there are numbers of `w - 1` digits, it has fewer. */
  lemma SmallSize(w: nat, n: nat)
    requires 0 < w && 16 < n <= Pow16(w - 1)
    ensures 0 < PartSize(w, n) < Pow16(w - 1)
    ensures PartSize(w, n) * (n - 1) >= 2 * Pow16(w - 1)
  {
    var k, q := Pow16(w - 1), PartSize(w, n);
    SizeBounds(w, n);
    assert q * n == q * (n - 1) + q;
    if q >= k {
      Grow(k, q, n);
      Grow(17, n, k);
    }
    assert q == 0 ==> q * n == 0;
  }

  lemma InnerCut(w: nat, n: nat, i: nat)
    requires 1 < w && 0 < i < n <= 16
    ensures Pow16(w - 1) <= Cut(w, n, i) < Pow16(w) - 1
    ensures Full(w, n).splits[i - 1] == Padded(Cut(w, n, i), w)
  {
    var q := PartSize(w, n);
    LargeSize(w, n);
    SizeBounds(w, n);
    Grow(1, i, q);
    assert q * (i + 1) == q * i + q;
    SplitAt(q, Highest(w), n, n, i - 1);
    DigitsPadded(q * i, w);
  }

  lemma LastCut(w: nat, n: nat)
    requires 0 < w && 0 < n
    ensures Full(w, n).splits[n - 1] == Padded(Cut(w, n, n), w)
  {
    SplitAt(PartSize(w, n), Highest(w), n, n, n - 1);
    PaddedLast(w);
  }

  /** Where part `i` begins and part `i - 1` ends. */
  function End(r: Range, i: nat): string
    requires i <= |r.splits|
  {
    if i == 0 then r.start else r.splits[i - 1]
  }

  lemma EndIsCut(w: nat, n: nat, i: nat)
    requires 1 < w && i <= n <= 16 && 0 < n
    ensures End(Full(w, n), i) == Padded(Cut(w, n, i), w)
  {
    if i == 0 { PaddedZeros(w); } else if i == n { LastCut(w, n); } else { InnerCut(w, n, i); }
  }

  lemma CutGap(w: nat, n: nat, i: nat)
    requires 1 < w && i < n <= 16
    ensures Cut(w, n, i) < Cut(w, n, i + 1) < Pow16(w)
    ensures Cut(w, n, i + 1) - Cut(w, n, i) ==
      if i < n - 1 then PartSize(w, n) else PartSize(w, n) - 1 + Pow16(w) % n
  {
    LargeSize(w, n);
    if i < n - 1 {
      InnerCut(w, n, i + 1);
      assert PartSize(w, n) * (i + 1) == PartSize(w, n) * i + PartSize(w, n);
    } else {
      LastGap(Pow16(w), n);
    }
  }

  lemma LastGap(p: nat, n: nat)
    requires n > 0
    ensures p - 1 - p / n * (n - 1) == p / n - 1 + p % n
  {
    assert p / n * (n - 1) == p / n * n - p / n;
  }

  /** The ends of every part, as numbers. */
  lemma PartCuts(w: nat, n: nat, i: nat)
    requires 1 < w && i < n <= 16
    ensures PartitionExtents(Full(w, n), i) == Ok((Padded(Cut(w, n, i), w), Padded(Cut(w, n, i + 1), w)))
  {
    CutGap(w, n, i);
    EndIsCut(w, n, i);
    EndIsCut(w, n, i + 1);
  }

  /** At most 16 parts: the splits strictly increase. */
  lemma FewIncrease(w: nat, n: nat)
    requires 1 < w && 0 < n <= 16
    ensures Increasing(Full(w, n))
  {
    var r := Full(w, n);
    forall i: nat | i < n ensures Less(End(r, i), End(r, i + 1)) {
      EndIsCut(w, n, i);
      EndIsCut(w, n, i + 1);
      CutGap(w, n, i);
      PaddedLess(Cut(w, n, i), Cut(w, n, i + 1), w);
    }
    assert Less(End(r, 0), End(r, 1));
    forall i {:trigger r.splits[i]} | 0 < i < n ensures Less(r.splits[i - 1], r.splits[i]) {
      assert Less(End(r, i), End(r, i + 1));
    }
  }

  /** Which numbers a part holds, and that there are as many as its size. */
  lemma PartNumbers(w: nat, n: nat, i: nat, x: nat)
    requires 1 < w && i < n <= 16 && x < Pow16(w)
    ensures InPart(Full(w, n), i, Padded(x, w)) <==> Cut(w, n, i) <= x < Cut(w, n, i + 1)
  {
    PartCuts(w, n, i);
    CutGap(w, n, i);
    PaddedLess(x, Cut(w, n, i), w);
    PaddedLess(x, Cut(w, n, i + 1), w);
  }

  /** The addresses of `w` lower-case digits in part `i`, as numbers. */
  ghost function Held(w: nat, n: nat, i: nat): set<nat>
    requires n > 0
  {
    set x: nat | x < Pow16(w) && InPart(Full(w, n), i, Padded(x, w))
  }

  lemma {:induction false} IntervalSize(s: set<nat>, low: nat, high: nat)
    requires low <= high && forall x: nat :: x in s <==> low <= x < high
    ensures |s| == high - low
    decreases high
  {
    if low == high {
      assert s == {};
    } else {
      IntervalSize(s - {high - 1}, low, high - 1);
    }
  }

  /** The parts are of one size, but the last, which lacks the highest address and takes the rest. */
  lemma PartSizes(w: nat, n: nat, i: nat)
    requires 1 < w && i < n <= 16
    ensures |Held(w, n, i)| == if i < n - 1 then Pow16(w) / n else Pow16(w) / n - 1 + Pow16(w) % n
  {
    CutGap(w, n, i);
    forall x: nat ensures x in Held(w, n, i) <==> Cut(w, n, i) <= x < Cut(w, n, i + 1) {
      if x < Pow16(w) { PartNumbers(w, n, i, x); }
    }
    IntervalSize(Held(w, n, i), Cut(w, n, i), Cut(w, n, i + 1));
  }

  /** The addresses of some part are all but the highest one. */
  lemma Top(w: nat, n: nat, x: nat)
    requires 1 < w && 0 < n <= 16 && x < Pow16(w)
    ensures Owner(Full(w, n))(Padded(x, w)).Some? <==> x < Pow16(w) - 1
  {
    Covered(w, n, Padded(x, w));
    FullExtents(w, n);
    InsideFull(w, x);
  }

  lemma Covered(w: nat, n: nat, a: string)
    requires 1 < w && 0 < n <= 16
    ensures Owner(Full(w, n))(a).Some? <==> Inside(a, Extents(Full(w, n)))
  {
    FewIncrease(w, n);
    OwnerIsPart(Full(w, n), a);
  }

  lemma InsideFull(w: nat, x: nat)
    requires x < Pow16(w)
    ensures Inside(Padded(x, w), (Padded(0, w), Padded(Pow16(w) - 1, w))) <==> x < Pow16(w) - 1
  {
    PaddedLess(x, 0, w);
    PaddedLess(x, Pow16(w) - 1, w);
  }

  lemma FullExtents(w: nat, n: nat)
    requires 1 < w && 0 < n <= 16
    ensures Pow16(w) > 0 && Extents(Full(w, n)) == (Padded(0, w), Padded(Pow16(w) - 1, w))
  {
    EndIsCut(w, n, 0);
    EndIsCut(w, n, n);
  }

  /** In particular the highest address of the full range belongs to no part. */
  lemma HighestUnowned(w: nat, n: nat, highest: nat)
    requires 1 < w && 0 < n <= 16 && highest + 1 == Pow16(w)
    ensures Owner(Full(w, n))(Padded(highest, w)) == None
  {
    Top(w, n, highest);
  }

  // ---------- more than 16 parts ----------

  /** Where the printed boundaries grow from `w - 1` digits to `w`, they fall. */
  lemma Falls(w: nat, q: nat, k: nat)
    requires 2 < w && 0 < q && q * k < Pow16(w - 1) <= q * (k + 1) && 0 < k
    ensures Less(Hex(q * (k + 1)), Hex(q * k)) && Hex(q * (k + 1)) == Padded(q * (k + 1), w)
  {
    var m, p := q * (k + 1), q * k;
    assert m == p + q;
    Grow(1, k, q);
    DigitsPadded(m, w);
    DigitsPadded(p, w - 1);
    PaddedLess(m / 16, p, w - 1);
    LessEarlier(Padded(m / 16, w - 1), Padded(p, w - 1), [Digit(m % 16)], "");
    assert Padded(p, w - 1) + "" == Padded(p, w - 1);
  }

  /** The crossing exists with more than 16 parts. */
  lemma Crossing(w: nat, n: nat) returns (k: nat)
    requires 2 < w && 16 < n <= Pow16(w - 1)
    ensures 0 < k < n - 1
    ensures Less(Full(w, n).splits[k], Full(w, n).splits[k - 1])
    ensures Full(w, n).splits[k] == Padded(PartSize(w, n) * (k + 1), w)
    ensures Less(Full(w, n).splits[k], Full(w, n).splits[k + 1]) && !Less(Full(w, n).splits[k], Full(w, n).start)
  {
    var q := PartSize(w, n);
    SmallSize(w, n);
    k := CrossingAt(q, Pow16(w - 1), n - 1);
    Falls(w, q, k);
    SplitAt(q, Highest(w), n, n, k - 1);
    SplitAt(q, Highest(w), n, n, k);
    AfterCrossing(w, n, k);
  }

  lemma CrossingAt(q: nat, bound: nat, n: nat) returns (k: nat)
    requires 0 < q < bound && q * n >= 2 * bound
    ensures 0 < k < n && q * k < bound <= q * (k + 1)
  {
    k := (bound - 1) / q;
    assert q * (k + 1) == q * k + q;
    if k >= n { Grow(n, k, q); }
  }

  lemma AfterCrossing(w: nat, n: nat, k: nat)
    requires 2 < w && 16 < n <= Pow16(w - 1) && 0 < k < n - 1
    requires Pow16(w - 1) <= PartSize(w, n) * (k + 1) && PartSize(w, n) > 0
    ensures !Less(Padded(PartSize(w, n) * (k + 1), w), Lowest(w))
    ensures Less(Padded(PartSize(w, n) * (k + 1), w), Full(w, n).splits[k + 1])
  {
    var q := PartSize(w, n);
    var m := q * (k + 1);
    SizeBounds(w, n);
    assert q * (k + 2) == m + q;
    PaddedZeros(w);
    PaddedLess(m, 0, w);
    SplitAt(q, Highest(w), n, n, k + 1);
    if k + 1 == n - 1 {
      PaddedLast(w);
      PaddedLess(m, Pow16(w) - 1, w);
    } else {
      DigitsPadded(m + q, w);
      PaddedLess(m, m + q, w);
    }
  }

  /** More than 16 parts: the splits fall once, and some address lies in two parts. */
  lemma ManyOverlap(w: nat, n: nat)
    requires 2 < w && 16 < n <= Pow16(w - 1)
    ensures !Increasing(Full(w, n)) && !Partitions(Full(w, n))
  {
    var r := Full(w, n);
    var k := Crossing(w, n);
    var a := r.splits[k];
    LessTotal(r.splits[k], r.splits[k - 1]);
    LookupInPart(r, a, 0, k - 1);
    LessTotal(a, a);
    assert InPart(r, k + 1, a);
  }

  lemma {:induction false} Enough(w: nat)
    requires w >= 39
    ensures Pow16(w) > MaxInt
    decreases w
  {
    if w == 39 {
      var v := w - 16;
      assert Pow16(w) == 0x1_0000_0000_0000_0000 * Pow16(v) by { SixteenDigits(v); }
    } else {
      Enough(w - 1);
    }
  }

  lemma SixteenDigits(v: nat)
    ensures Pow16(v + 16) == 0x1_0000_0000_0000_0000 * Pow16(v)
  {
    assert Pow16(v + 4) == 0x1_0000 * Pow16(v) by { FourDigits(v); }
    FourDigits(v + 4);
    FourDigits(v + 8);
    FourDigits(v + 12);
  }

  lemma FourDigits(v: nat)
    ensures Pow16(v + 4) == 0x1_0000 * Pow16(v)
  {
    assert Pow16(v + 3) == 16 * Pow16(v + 2) && Pow16(v + 2) == 16 * Pow16(v + 1);
  }

  /** The full range is a partition of the addresses exactly up to 16 parts, and its splits increase exactly then. */
  lemma FullRangeSound(w: nat, n: nat)
    requires w == Width && 0 < n <= MaxInt
    ensures Partitions(Full(w, n)) <==> n <= 16
    ensures Increasing(Full(w, n)) <==> n <= 16
  {
    if n <= 16 {
      FewIncrease(w, n);
      IncreasingPartitions(Full(w, n));
    } else {
      Enough(w - 1);
      ManyOverlap(w, n);
    }
  }
}
