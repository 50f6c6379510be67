/** Part layout of a multipart upload, in the 64-bit arithmetic of the source. */
module PartPlan {

  const MIB: nat := 1024 * 1024
  const GIB: nat := 1024 * MIB
  const MIN_PART_SIZE: nat := 5 * MIB
  const MAX_PART_SIZE: nat := 5 * GIB
  const MAX_PARTS: nat := 10000
  const MAX_INT: nat := 0x7FFF_FFFF
  const U64: nat := 0x1_0000_0000_0000_0000
  const I64: nat := 0x8000_0000_0000_0000
  /** A request body is announced in 32 bits. */
  const MAX_REQUEST_BODY: nat := 0xFFFF_FFFF

  type u64 = x: nat | x < U64

  /** The source's `int`; only its upper end matters here. */
  type int32 = x: int | -0x8000_0000 <= x <= MAX_INT

  /** What a 64-bit unsigned register keeps of an integer. */
  function Wrap(x: int): u64 {
    x % U64
  }

  datatype Plan = Plan(partSize: u64, partCount: nat)

  /** `DivideByZero` stands for the undefined behaviour of dividing by a wrapped part size. */
  datatype Planned = Success(plan: Plan) | EmptyObject | ObjectTooLarge | DivideByZero

  function Max(a: nat, b: nat): nat { if a >= b then a else b }
  function Min(a: nat, b: nat): nat { if a <= b then a else b }

  function Cap(maxParts: int32): (cap: nat)
    ensures 1 <= cap <= MAX_INT
  {
    if maxParts <= 0 then MAX_PARTS else maxParts
  }

  /** `(a + b - 1) / b` in 64-bit registers. */
  function RegisterCeilDiv(a: nat, b: nat): nat
    requires b > 0
  {
    Wrap(Wrap(a + b) - 1) / b
  }

  /** The desired part size, or what the part cap needs in whole MiBs. */
  function GrownPartSize(part: nat, needed: nat): nat {
    if needed > part then Wrap(RegisterCeilDiv(needed, MIB) * MIB) else part
  }

  function Layout(fileSize: u64, part: nat): Planned {
    if part > MAX_PART_SIZE then ObjectTooLarge
    else if part == 0 then DivideByZero
    else Success(Plan(part, RegisterCeilDiv(fileSize, part)))
  }

  /** Every `+`, `-` and `*` of the source is wrapped, so an overflow would show. */
  function PlanMultipartUpload(fileSize: u64, desiredPartSize: u64, maxParts: int32): Planned {
    var cap := Cap(maxParts);
    if fileSize == 0 then EmptyObject
    else Layout(fileSize, GrownPartSize(Max(desiredPartSize, MIN_PART_SIZE), RegisterCeilDiv(fileSize, cap)))
  }

  function PartOffset(plan: Plan, partNumber: int32): u64 {
    Wrap(Wrap(partNumber - 1) * plan.partSize)
  }

  function PartLength(plan: Plan, fileSize: u64, partNumber: int32): u64 {
    var offset := PartOffset(plan, partNumber);
    if offset >= fileSize then 0 else Min(plan.partSize, fileSize - offset)
  }

  // ---------------------------------------------------------------- ceilings

  /** Division rounded up, as the source writes it. */
  function CeilDiv(a: nat, b: nat): nat
    requires b > 0
  {
    (a + b - 1) / b
  }

  lemma DivMul(a: nat, b: nat)
    requires b > 0
    ensures a / b * b <= a < (a / b + 1) * b
  {
  }

  lemma MulMono(a: nat, b: nat, c: nat)
    requires a <= b
    ensures a * c <= b * c
  {
  }

  lemma CeilDivCovers(a: nat, b: nat)
    requires b > 0
    ensures a <= CeilDiv(a, b) * b < a + b
  {
    DivMul(a + b - 1, b);
  }

  /** `CeilDiv(a, b)` is the least number of `b`s that cover `a`. */
  lemma CeilDivLeast(a: nat, b: nat, q: nat)
    requires b > 0
    ensures a <= q * b <==> CeilDiv(a, b) <= q
  {
    var c := CeilDiv(a, b);
    CeilDivCovers(a, b);
    if c <= q {
      MulMono(c, q, b);
    } else {
      MulMono(q + 1, c, b);
      assert (q + 1) * b == q * b + b;
    }
  }

  // ------------------------------------------------------------ the real plan

  /** The part size the comments promise: the desired one, grown to whole MiBs when too many parts would be needed. */
  function IdealPartSize(fileSize: nat, desiredPartSize: nat, cap: nat): nat
    requires cap > 0
  {
    var part0 := Max(desiredPartSize, MIN_PART_SIZE);
    var needed := CeilDiv(fileSize, cap);
    if needed > part0 then CeilDiv(needed, MIB) * MIB else part0
  }

  /** The same plan in unbounded arithmetic. */
  function IdealPlan(fileSize: nat, desiredPartSize: nat, cap: nat): Planned
    requires cap > 0
  {
    var part := IdealPartSize(fileSize, desiredPartSize, cap);
    if fileSize == 0 then EmptyObject
    else if part > MAX_PART_SIZE then ObjectTooLarge
    else if part == 0 then DivideByZero
    else Success(Plan(part, CeilDiv(fileSize, part)))
  }

  lemma CeilDivNoLarger(a: nat, b: nat)
    requires b > 0
    ensures CeilDiv(a, b) <= a
  {
    assert a <= a * b by { MulMono(1, b, a); }
    CeilDivLeast(a, b, a);
  }

  /** A sum that only touches 2^64 before the decrement still comes out right. */
  lemma WrapOnce(sum: nat)
    requires 0 < sum && sum - 1 < U64
    ensures Wrap(Wrap(sum) - 1) == sum - 1
  {
  }

  lemma RegisterCeilDivExact(a: nat, b: nat)
    requires b > 0 && a + b - 1 < U64
    ensures RegisterCeilDiv(a, b) == CeilDiv(a, b)
  {
    WrapOnce(a + b);
  }

  lemma GrownPartSizeExact(part: nat, needed: nat)
    requires needed < I64
    ensures GrownPartSize(part, needed) == if needed > part then CeilDiv(needed, MIB) * MIB else part
  {
    RegisterCeilDivExact(needed, MIB);
  }

  lemma LayoutExact(fileSize: u64, part: nat)
    requires 0 < part && (part <= MAX_PART_SIZE ==> fileSize + MAX_PART_SIZE < U64)
    ensures Layout(fileSize, part) ==
            if part > MAX_PART_SIZE then ObjectTooLarge else Success(Plan(part, CeilDiv(fileSize, part)))
  {
    if part <= MAX_PART_SIZE {
      RegisterCeilDivExact(fileSize, part);
    }
  }

  /** For every size a file can have, no intermediate value of the planner leaves 64 bits. */
  lemma PlanNeverWraps(fileSize: u64, desiredPartSize: u64, maxParts: int32)
    requires fileSize < I64
    ensures PlanMultipartUpload(fileSize, desiredPartSize, maxParts)
         == IdealPlan(fileSize, desiredPartSize, Cap(maxParts))
  {
    var cap := Cap(maxParts);
    CeilDivNoLarger(fileSize, cap);
    RegisterCeilDivExact(fileSize, cap);
    GrownPartSizeExact(Max(desiredPartSize, MIN_PART_SIZE), CeilDiv(fileSize, cap));
    LayoutExact(fileSize, IdealPartSize(fileSize, desiredPartSize, cap));
  }

  /** Some part size of at most `limit` (whole MiBs) is chosen exactly for the sizes that `cap` such parts can hold. */
  lemma PartSizeWithin(fileSize: nat, desiredPartSize: nat, cap: nat, limit: nat)
    requires cap > 0 && MIN_PART_SIZE <= limit && desiredPartSize <= limit && limit % MIB == 0
    ensures IdealPartSize(fileSize, desiredPartSize, cap) <= limit <==> fileSize <= cap * limit
  {
    var needed := CeilDiv(fileSize, cap);
    CeilDivLeast(fileSize, cap, limit);
    CeilDivLeast(needed, MIB, limit / MIB);
  }

  /** A file that needs no larger parts leaves room for one more. */
  lemma LayoutInRange(fileSize: u64, desiredPartSize: u64, cap: nat)
    requires 0 < cap <= MAX_INT && IdealPartSize(fileSize, desiredPartSize, cap) <= MAX_PART_SIZE
    ensures fileSize + MAX_PART_SIZE < U64
  {
    CeilDivCovers(CeilDiv(fileSize, cap), MIB);
    assert desiredPartSize <= MAX_PART_SIZE;
    PartSizeWithin(fileSize, desiredPartSize, cap, MAX_PART_SIZE);
    MulMono(cap, MAX_INT, MAX_PART_SIZE);
  }

  /** No intermediate value leaves 64 bits: neither the sum with the cap nor, for a single part, the rounding to MiBs. */
  lemma GrownInRange(fileSize: u64, desiredPartSize: u64, cap: nat)
    requires 0 < cap <= MAX_INT && fileSize + cap - 1 < U64
    requires cap > 1 || fileSize + MIB - 1 < U64 || fileSize <= desiredPartSize
    ensures GrownPartSize(Max(desiredPartSize, MIN_PART_SIZE), RegisterCeilDiv(fileSize, cap))
         == IdealPartSize(fileSize, desiredPartSize, cap)
  {
    var part0, needed := Max(desiredPartSize, MIN_PART_SIZE), CeilDiv(fileSize, cap);
    RegisterCeilDivExact(fileSize, cap);
    CeilDivNoLarger(fileSize, cap);
    if needed > part0 {
      NeededFits(fileSize, cap);
      MibsFit(needed);
    }
  }

  lemma ExactInRange(fileSize: u64, desiredPartSize: u64, cap: nat)
    requires 0 < cap <= MAX_INT && fileSize + cap - 1 < U64
    requires cap > 1 || fileSize + MIB - 1 < U64 || fileSize <= desiredPartSize
    ensures PlanMultipartUpload(fileSize, desiredPartSize, cap) == IdealPlan(fileSize, desiredPartSize, cap)
  {
    GrownInRange(fileSize, desiredPartSize, cap);
    if IdealPartSize(fileSize, desiredPartSize, cap) <= MAX_PART_SIZE {
      LayoutInRange(fileSize, desiredPartSize, cap);
    }
    LayoutExact(fileSize, IdealPartSize(fileSize, desiredPartSize, cap));
  }

  lemma MibsFit(needed: nat)
    requires needed + MIB - 1 < U64
    ensures Wrap(RegisterCeilDiv(needed, MIB) * MIB) == CeilDiv(needed, MIB) * MIB
  {
    RegisterCeilDivExact(needed, MIB);
    CeilDivCovers(needed, MIB);
  }

  lemma NeededFits(fileSize: u64, cap: nat)
    requires 0 < cap && (cap > 1 || fileSize + MIB - 1 < U64)
    ensures CeilDiv(fileSize, cap) + MIB - 1 < U64
  {
    if cap > 1 {
      CeilDivLeast(fileSize, cap, I64);
      assert fileSize <= I64 * 2 <= I64 * cap;
    } else {
      CeilDivNoLarger(fileSize, cap);
    }
  }

  /** The sum with the cap wraps: the division sees nothing, and the part size is not grown. */
  lemma CapWraps(fileSize: u64, desiredPartSize: u64, cap: nat)
    requires 1 < cap <= MAX_INT && fileSize + cap - 1 >= U64
    ensures PlanMultipartUpload(fileSize, desiredPartSize, cap) == IdealPlan(fileSize, desiredPartSize, cap)
       <==> desiredPartSize > MAX_PART_SIZE
  {
    assert RegisterCeilDiv(fileSize, cap) == 0;
    if desiredPartSize <= MAX_PART_SIZE {
      PartSizeWithin(fileSize, desiredPartSize, cap, MAX_PART_SIZE);
    }
  }

  /** With a cap of one part and a size within a MiB of 2^64, rounding to MiBs wraps to a part size of zero. */
  lemma OnePartDividesByZero(fileSize: u64, desiredPartSize: u64)
    requires fileSize + MIB - 1 >= U64 && fileSize > desiredPartSize
    ensures PlanMultipartUpload(fileSize, desiredPartSize, 1) == DivideByZero
    ensures IdealPlan(fileSize, desiredPartSize, 1) == ObjectTooLarge
  {
    assert RegisterCeilDiv(fileSize, 1) == fileSize == CeilDiv(fileSize, 1);
    MibsWrap(fileSize);
    CeilDivCovers(fileSize, MIB);
  }

  lemma MibsWrap(needed: u64)
    requires needed + MIB - 1 >= U64
    ensures RegisterCeilDiv(needed, MIB) * MIB == 0
  {
  }

  /** For all 64-bit arguments and every part cap, exactly when the planner agrees with unbounded arithmetic. */
  lemma PlanExactIff(fileSize: u64, desiredPartSize: u64, maxParts: int32)
    ensures PlanMultipartUpload(fileSize, desiredPartSize, maxParts)
         == IdealPlan(fileSize, desiredPartSize, Cap(maxParts))
       <==> (fileSize + Cap(maxParts) - 1 < U64 || desiredPartSize > MAX_PART_SIZE)
            && (Cap(maxParts) > 1 || fileSize + MIB - 1 < U64 || fileSize <= desiredPartSize)
  {
    var cap := Cap(maxParts);
    assert PlanMultipartUpload(fileSize, desiredPartSize, maxParts) == PlanMultipartUpload(fileSize, desiredPartSize, cap);
    if fileSize + cap - 1 >= U64 {
      CapWraps(fileSize, desiredPartSize, cap);
    } else if cap > 1 || fileSize + MIB - 1 < U64 || fileSize <= desiredPartSize {
      ExactInRange(fileSize, desiredPartSize, cap);
    } else {
      OnePartDividesByZero(fileSize, desiredPartSize);
    }
  }

  /** Outside that range a size of 2^64 - 1 is accepted and laid out in no parts at all. */
  lemma HugeSizePlannedAsNothing()
    ensures PlanMultipartUpload(U64 - 1, 16 * MIB, MAX_PARTS) == Success(Plan(16 * MIB, 0))
    ensures IdealPlan(U64 - 1, 16 * MIB, MAX_PARTS) == ObjectTooLarge
  {
    PartSizeWithin(U64 - 1, 16 * MIB, MAX_PARTS, MAX_PART_SIZE);
    assert RegisterCeilDiv(U64 - 1, MAX_PARTS) == 0;
    assert GrownPartSize(16 * MIB, 0) == 16 * MIB;
    assert RegisterCeilDiv(U64 - 1, 16 * MIB) == 0;
  }

  // ------------------------------------------------- completeness, minimality

  lemma PlanComplete(fileSize: u64, desiredPartSize: u64, maxParts: int32)
    requires fileSize < I64 && desiredPartSize <= MAX_PART_SIZE
    ensures PlanMultipartUpload(fileSize, desiredPartSize, maxParts).Success?
       <==> 0 < fileSize <= Cap(maxParts) * MAX_PART_SIZE
  {
    PlanNeverWraps(fileSize, desiredPartSize, maxParts);
    PartSizeWithin(fileSize, desiredPartSize, Cap(maxParts), MAX_PART_SIZE);
  }

  /** The desired part size is kept when it fits the cap; a grown one is the least multiple of a MiB that does. */
  lemma PlanMinimal(fileSize: u64, desiredPartSize: u64, maxParts: int32, mibs: nat)
    requires fileSize < I64 && PlanMultipartUpload(fileSize, desiredPartSize, maxParts).Success?
    ensures var part := PlanMultipartUpload(fileSize, desiredPartSize, maxParts).plan.partSize;
            var part0 := Max(desiredPartSize, MIN_PART_SIZE);
            if fileSize <= Cap(maxParts) * part0 then part == part0
            else part0 < part && (fileSize <= Cap(maxParts) * (mibs * MIB) <==> part <= mibs * MIB)
  {
    var cap := Cap(maxParts);
    var part0 := Max(desiredPartSize, MIN_PART_SIZE);
    var needed := CeilDiv(fileSize, cap);
    PlanNeverWraps(fileSize, desiredPartSize, maxParts);
    CeilDivLeast(fileSize, cap, part0);
    GrownIsLeast(fileSize, cap, mibs);
  }

  /** The least multiple of a MiB that holds a `cap`-th of the file. */
  lemma GrownIsLeast(fileSize: nat, cap: nat, mibs: nat)
    requires cap > 0
    ensures var needed := CeilDiv(fileSize, cap);
            && needed <= CeilDiv(needed, MIB) * MIB
            && (fileSize <= cap * (mibs * MIB) <==> CeilDiv(needed, MIB) * MIB <= mibs * MIB)
  {
    var needed := CeilDiv(fileSize, cap);
    CeilDivLeast(fileSize, cap, mibs * MIB);
    CeilDivCovers(needed, MIB);
    CeilDivLeast(needed, MIB, mibs);
  }

  lemma WholeMibs(mibs: nat)
    ensures mibs * MIB <= MAX_REQUEST_BODY <==> mibs * MIB <= 4 * GIB - MIB
  {
  }

  lemma PartIsWholeMibs(fileSize: u64, desiredPartSize: u64, cap: nat)
    requires cap > 0 && desiredPartSize <= 4 * GIB - MIB
    ensures var part := IdealPartSize(fileSize, desiredPartSize, cap);
            part <= MAX_REQUEST_BODY <==> part <= 4 * GIB - MIB
  {
    WholeMibs(CeilDiv(CeilDiv(fileSize, cap), MIB));
  }

  /** No part of a planned upload exceeds one request exactly for objects of at most `cap` parts of 4 GiB - 1 MiB. */
  lemma PlanFitsOneRequest(fileSize: u64, desiredPartSize: u64, maxParts: int32)
    requires fileSize < I64 && desiredPartSize <= 4 * GIB - MIB
    ensures var r := PlanMultipartUpload(fileSize, desiredPartSize, maxParts);
            (r.Success? && r.plan.partSize <= MAX_REQUEST_BODY)
            <==> 0 < fileSize <= Cap(maxParts) * (4 * GIB - MIB)
  {
    var cap := Cap(maxParts);
    PlanNeverWraps(fileSize, desiredPartSize, maxParts);
    PartSizeWithin(fileSize, desiredPartSize, cap, 4 * GIB - MIB);
    PartIsWholeMibs(fileSize, desiredPartSize, cap);
  }

  // ------------------------------------------------------------------ tiling

  /** What a successful plan for a real file gives (see `PlanIsValid`). */
  predicate ValidPlan(plan: Plan, fileSize: nat) {
    && 0 < fileSize < I64
    && MIN_PART_SIZE <= plan.partSize <= MAX_PART_SIZE
    && plan.partCount == CeilDiv(fileSize, plan.partSize)
    && 1 <= plan.partCount <= MAX_INT
  }

  lemma PlanIsValid(fileSize: u64, desiredPartSize: u64, maxParts: int32)
    requires fileSize < I64
    ensures var r := PlanMultipartUpload(fileSize, desiredPartSize, maxParts);
            r.Success? ==> ValidPlan(r.plan, fileSize) && r.plan.partCount <= Cap(maxParts)
  {
    var cap := Cap(maxParts);
    PlanNeverWraps(fileSize, desiredPartSize, maxParts);
    if PlanMultipartUpload(fileSize, desiredPartSize, maxParts).Success? {
      var part := IdealPartSize(fileSize, desiredPartSize, cap);
      var needed := CeilDiv(fileSize, cap);
      CeilDivCovers(needed, MIB);
      CeilDivLeast(fileSize, cap, part);
      CeilDivLeast(fileSize, part, cap);
      CeilDivLeast(fileSize, part, 0);
    }
  }

  lemma OffsetExact(plan: Plan, n: int32)
    requires plan.partSize <= MAX_PART_SIZE && 1 <= n
    ensures PartOffset(plan, n) == (n - 1) * plan.partSize
  {
    MulMono(n - 1, MAX_INT, plan.partSize);
    assert MAX_INT * plan.partSize <= MAX_INT * MAX_PART_SIZE < U64;
  }

  /** Parts 1..partCount tile the file: each starts where the one before ended, the last ends at the
      end of the file, all but the last have the full part size and none is empty. Numbers beyond have no bytes. */
  lemma PartsTile(plan: Plan, fileSize: u64, n: int32)
    requires ValidPlan(plan, fileSize) && 1 <= n
    ensures PartOffset(plan, 1) == 0
    ensures n < plan.partCount ==>
              && PartLength(plan, fileSize, n) == plan.partSize
              && PartOffset(plan, n) + PartLength(plan, fileSize, n) == PartOffset(plan, n + 1)
    ensures n == plan.partCount ==>
              && 0 < PartLength(plan, fileSize, n) <= plan.partSize
              && PartOffset(plan, n) + PartLength(plan, fileSize, n) == fileSize
    ensures n > plan.partCount ==> PartLength(plan, fileSize, n) == 0
  {
    OffsetExact(plan, n);
    OffsetExact(plan, 1);
    CeilDivLeast(fileSize, plan.partSize, n);
    CeilDivLeast(fileSize, plan.partSize, n - 1);
    assert n * plan.partSize == (n - 1) * plan.partSize + plan.partSize;
    if n < plan.partCount {
      OffsetExact(plan, n + 1);
    }
  }
}
