/**
 * The pick-freeze layout of the output design: `size` points of block A,
 * then `size` points of block B, then `size` points of block E_p for each
 * input p, one after another.
 */
module PickFreeze {
  import opened Samples

  datatype Block = A | B | E(p: nat)

  /** Position of a block in the design: A first, B second, E_p at 2 + p. */
  function Ordinal(b: Block): nat
  {
    match b
    case A => 0
    case B => 1
    case E(p) => 2 + p
  }

  function BlockAt(k: nat): (b: Block)
    ensures Ordinal(b) == k
  {
    if k == 0 then A else if k == 1 then B else E(k - 2)
  }

  /** The number of points in `k` consecutive blocks of `size` points. */
  function Offset(k: nat, size: nat): nat
  {
    if k == 0 then 0 else Offset(k - 1, size) + size
  }

  /** Index of the first point of block `b`. */
  function Start(b: Block, size: nat): nat
  {
    Offset(Ordinal(b), size)
  }

  /** The number of points in a design with `inputDimension` inputs. */
  function DesignRows(size: nat, inputDimension: nat): nat
  {
    Offset(2 + inputDimension, size)
  }

  lemma {:induction false} OffsetIsProduct(k: nat, size: nat)
    ensures Offset(k, size) == k * size
  {
    if k > 0 {
      OffsetIsProduct(k - 1, size);
    }
  }

  /** Block `b` exists in a design with `inputDimension` inputs. */
  predicate IsBlockOf(b: Block, inputDimension: nat)
  {
    Ordinal(b) < 2 + inputDimension
  }

  /** Point `i` of the design lies in block `b`. */
  predicate InBlock(i: nat, b: Block, size: nat)
  {
    Start(b, size) <= i < Start(b, size) + size
  }

  /** A design of `(2 + inputDimension) * size` points of dimension `outputDimension`. */
  predicate IsDesign(s: Sample, size: nat, inputDimension: nat, outputDimension: nat)
  {
    |s| == DesignRows(size, inputDimension) && IsSample(s, outputDimension)
  }

  lemma MulMonotone(a: nat, b: nat, c: nat)
    requires a <= b
    ensures a * c <= b * c
  {
  }

  lemma BlockFits(size: nat, inputDimension: nat, b: Block)
    requires IsBlockOf(b, inputDimension)
    ensures Start(b, size) + size <= DesignRows(size, inputDimension)
  {
    OffsetIsProduct(Ordinal(b) + 1, size);
    OffsetIsProduct(2 + inputDimension, size);
    MulMonotone(Ordinal(b) + 1, 2 + inputDimension, size);
  }

  /**
   * `Sample(sample, first, last)` for the rows of block `b`: block A reads
   * points [0, size), block B points [size, 2 size) and block E_p points
   * [(2 + p) size, (3 + p) size), in order, with the design's dimension.
   */
  function BlockRows(s: Sample, size: nat, inputDimension: nat, b: Block): (r: Sample)
    requires |s| == DesignRows(size, inputDimension) && IsBlockOf(b, inputDimension)
    ensures Start(b, size) + size <= |s|
    ensures |r| == size
    ensures forall i :: 0 <= i < size ==> r[i] == s[Start(b, size) + i]
    ensures forall dim :: IsSample(s, dim) ==> IsSample(r, dim)
  {
    BlockFits(size, inputDimension, b);
    Slice(s, Start(b, size), Start(b, size) + size)
  }

  /** Only the block of ordinal `k` holds a point in [k size, (k + 1) size). */
  lemma {:induction false} OrdinalOfPoint(i: nat, size: nat, b: Block, k: nat)
    requires size > 0 && InBlock(i, b, size) && k * size <= i < k * size + size
    ensures Ordinal(b) == k
  {
    var o := Ordinal(b);
    OffsetIsProduct(o, size);
    if o < k {
      MulMonotone(o + 1, k, size);
    } else if o > k {
      MulMonotone(k + 1, o, size);
    }
  }

  /**
   * The blocks partition the design: every point belongs to exactly one
   * block, the one at ordinal `i / size`, and that block exists.
   */
  lemma PointOwner(i: nat, size: nat, inputDimension: nat)
    requires size > 0 && i < DesignRows(size, inputDimension)
    ensures IsBlockOf(BlockAt(i / size), inputDimension)
    ensures InBlock(i, BlockAt(i / size), size)
    ensures forall b :: InBlock(i, b, size) ==> b == BlockAt(i / size)
  {
    var k := i / size;
    assert k * size <= i < k * size + size;
    OffsetIsProduct(2 + inputDimension, size);
    OffsetIsProduct(k, size);
    assert Ordinal(BlockAt(k)) == k;
    if k >= 2 + inputDimension {
      MulMonotone(2 + inputDimension, k, size);
    }
    forall b | InBlock(i, b, size)
      ensures b == BlockAt(k)
    {
      OrdinalOfPoint(i, size, b, k);
    }
  }
}
