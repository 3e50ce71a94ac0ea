/** The shape and offset arithmetic the typed writers perform before they
    hand a request to the HDF5 library: the dimensions and chunk dimensions
    of a new data set, and for a block write the extent the data set is
    extended to, the hyperslab selected in the file, and the shape of the
    data in memory. The library calls themselves are represented only by
    these plan records. */
module DataSetPlans {

  import opened Wrappers
  import opened JavaInt

  /** The length of a Java array. */
  type ArrayLength = n: int | 0 <= n <= MaxInt

  /** What the writers consult of their storage features. */
  datatype StorageFeatures = StorageFeatures(requiresChunking: bool)

  /** The features of an uncompressed, contiguous data set, which the
      overloads without a features argument pass. */
  const NoCompression: StorageFeatures := StorageFeatures(false)

  /** A `createDataSet` / `getOrCreateDataSetId` request: the initial
      dimensions, the chunk dimensions (`null` when `None`) and the size of
      one element in bytes. */
  datatype CreatePlan = CreatePlan(dims: seq<Long>, blockDims: Option<seq<Long>>, elementSize: nat)

  /** A block write: the extent passed to `openAndExtendDataSet`, the
      hyperslab of the file selected by `setHyperslabBlock`, the dimensions
      of the memory data space and, for the memory-offset variants, the
      start of the hyperslab selected in memory (its count is `slabCount`). */
  datatype BlockWrite = BlockWrite(extent: seq<Long>, slabStart: seq<Long>, slabCount: seq<Long>,
                                   memoryDims: seq<Long>, memorySlabStart: Option<seq<Long>>)

  /** The Java exception a planning loop can raise. */
  datatype JavaError = ArrayIndexOutOfBounds(index: int)

  /** `MDArray.toLong`: an `int[]` widened to a `long[]`. */
  function ToLong(xs: seq<Int>): (r: seq<Long>)
    ensures |r| == |xs|
    ensures forall i :: 0 <= i < |xs| ==> r[i] as int == xs[i] as int
  {
    seq(|xs|, i requires 0 <= i < |xs| => xs[i] as int)
  }

  /** A fresh Java `long[n]`. */
  function Zeros(n: nat): (r: seq<Long>)
    ensures |r| == n
    ensures forall i :: 0 <= i < n ==> r[i] == 0
  {
    seq(n, _ => 0)
  }

  /** The shape of `createArray(size, features)` and
      `createMDArray(int[] dims, features)`: an extendable data set starts
      empty with the requested shape as its chunk; otherwise the data set
      has the requested shape and no chunking. */
  function ShapeFor(dims: seq<Long>, features: StorageFeatures, elementSize: nat): (p: CreatePlan)
    ensures p.elementSize == elementSize && |p.dims| == |dims|
    ensures p.blockDims.Some? <==> features.requiresChunking
    ensures features.requiresChunking ==>
      p.blockDims.value == dims && forall i :: 0 <= i < |dims| ==> p.dims[i] == 0
    ensures !features.requiresChunking ==> p.dims == dims
  {
    if features.requiresChunking then CreatePlan(Zeros(|dims|), Some(dims), elementSize)
    else CreatePlan(dims, None, elementSize)
  }

  /** The shape a plan was asked for: the chunk when there is one, else the
      dimensions. */
  function RequestedShape(p: CreatePlan): seq<Long>
  {
    if p.blockDims.Some? then p.blockDims.value else p.dims
  }

  /** Whatever the features, the requested shape can be read back from the
      plan, and a chunked data set starts with no elements. */
  lemma ShapeForKeepsRequest(dims: seq<Long>, features: StorageFeatures, elementSize: nat)
    ensures RequestedShape(ShapeFor(dims, features, elementSize)) == dims
    ensures features.requiresChunking && |dims| > 0 ==> ElementCount(ShapeFor(dims, features, elementSize).dims) == 0
  {
    if features.requiresChunking && |dims| > 0 {
      ZeroAxis(ShapeFor(dims, features, elementSize).dims, 0);
    }
  }

  /** The writers' assertion on one axis: a chunk is not negative and not
      longer than the data set, unless the data set starts empty. */
  predicate BlockFits(size: int, block: int)
  {
    0 <= block && (block <= size || size == 0)
  }

  /** A plan whose chunk has the data set's rank and fits it on every axis. */
  predicate ChunkFits(p: CreatePlan)
  {
    p.blockDims.Some? ==>
      && |p.blockDims.value| == |p.dims|
      && forall i :: 0 <= i < |p.dims| ==> BlockFits(p.dims[i], p.blockDims.value[i])
  }

  predicate NonNegative(xs: seq<int>)
  {
    forall i :: 0 <= i < |xs| ==> xs[i] >= 0
  }

  /** A data set created with a chunk of the given dimensions. */
  function BlockedPlan(dims: seq<Long>, blockDims: seq<Int>, elementSize: nat): (p: CreatePlan)
    ensures p.dims == dims && p.blockDims == Some(ToLong(blockDims)) && p.elementSize == elementSize
    ensures ChunkFits(p) <==>
      |blockDims| == |dims| && forall i :: 0 <= i < |dims| ==> BlockFits(dims[i], blockDims[i])
  {
    CreatePlan(dims, Some(ToLong(blockDims)), elementSize)
  }

  /** The automatic shape of a non-negative request always fits its chunk:
      either there is none, or the data set starts empty. */
  lemma ShapeForChunkFits(dims: seq<Long>, features: StorageFeatures, elementSize: nat)
    requires NonNegative(dims)
    ensures ChunkFits(ShapeFor(dims, features, elementSize))
  {
  }

  /** The number of elements a data space of these dimensions holds. */
  function ElementCount(dims: seq<int>): int
  {
    if dims == [] then 1 else dims[0] * ElementCount(dims[1..])
  }

  lemma {:induction false} ZeroAxis(dims: seq<int>, k: nat)
    requires k < |dims| && dims[k] == 0
    ensures ElementCount(dims) == 0
  {
    if k > 0 {
      ZeroAxis(dims[1..], k - 1);
    }
  }

  /** Every axis ends where the data set's new extent ends: the selected
      slab lies inside the extended data set and reaches its end. */
  predicate SlabEndsAtExtent(w: BlockWrite)
  {
    && |w.slabStart| == |w.extent| && |w.slabCount| == |w.extent|
    && forall i :: 0 <= i < |w.extent| ==> w.extent[i] == w.slabStart[i] as int + w.slabCount[i]
  }

  /** No axis of `offset + size` leaves the `long` range. */
  predicate NoOverflow(offset: seq<Long>, sizes: seq<Long>)
    requires |offset| == |sizes|
  {
    forall i :: 0 <= i < |offset| ==> InLong(offset[i] as int + sizes[i])
  }

  // One-dimensional blocks

  /** `writeArrayBlockWithOffset(data, dataSize, offset)`: the data set is
      extended to `offset + dataSize` and `dataSize` elements are written
      from `offset` on. */
  function ArrayBlockWithOffset(dataSize: Int, offset: Long): (w: BlockWrite)
    ensures |w.extent| == 1 && w.slabStart == [offset] && w.slabCount == [dataSize as int]
    ensures w.memoryDims == w.slabCount && w.memorySlabStart.None?
    ensures (w.extent[0] - (offset + dataSize)) % TwoTo64 == 0
    ensures InLong(offset + dataSize) ==> SlabEndsAtExtent(w)
  {
    BlockWrite([Wrap64(offset + dataSize)], [offset], [dataSize as int], [dataSize as int], None)
  }

  /** `data.length * blockNumber`, in Java's 64-bit arithmetic. */
  function ArrayBlockOffset(length: ArrayLength, blockNumber: Long): (offset: Long)
    ensures InLong(length * blockNumber) ==> offset == length * blockNumber
  {
    MulLong(length, blockNumber)
  }

  /** `writeArrayBlock(data, blockNumber)`: block `blockNumber` of blocks
      that are all `data.length` long. */
  function ArrayBlock(length: ArrayLength, blockNumber: Long): BlockWrite
  {
    ArrayBlockWithOffset(length, ArrayBlockOffset(length, blockNumber))
  }

  /** Block `n` covers elements `n * length` up to `(n + 1) * length`, and
      ends where block `n + 1` starts; the block number can be read back
      from the offset. */
  lemma ArrayBlocksTile(length: ArrayLength, n: Long)
    requires InLong((n + 1) * length) && InLong(n * length)
    ensures ArrayBlock(length, n).slabStart == [n * length]
    ensures ArrayBlock(length, n).extent == [(n + 1) * length]
    ensures InLong(n + 1) ==> ArrayBlock(length, n + 1).slabStart == ArrayBlock(length, n).extent
    ensures length > 0 ==> ArrayBlock(length, n).slabStart[0] / length == n
  {
    assert (n + 1) * length == n * length + length;
    if length > 0 {
      assert (n * length) / length == n;
    }
  }

  /** Two different blocks of the same positive length never overlap. */
  lemma ArrayBlocksDisjoint(length: ArrayLength, n: Long, m: Long)
    requires length > 0 && n < m
    requires InLong((n + 1) * length) && InLong(n * length)
    requires InLong((m + 1) * length) && InLong(m * length)
    ensures ArrayBlock(length, n).extent[0] <= ArrayBlock(length, m).slabStart[0]
  {
    ArrayBlocksTile(length, n);
    ArrayBlocksTile(length, m);
    MulLeq(n + 1, m, length);
  }

  lemma MulLeq(a: int, b: int, c: nat)
    requires a <= b
    ensures a * c <= b * c
  {
  }

  // Multi-dimensional blocks

  /** `blockNumber[i] * dims[i]` on every axis of `dims`. */
  function ScaledOffsets(dims: seq<Long>, blockNumber: seq<Long>): (r: seq<Long>)
    requires |blockNumber| >= |dims|
    ensures |r| == |dims|
  {
    seq(|dims|, i requires 0 <= i < |dims| => MulLong(blockNumber[i], dims[i]))
  }

  /** `offset[i] + sizes[i]` on every axis. */
  function Extents(offset: seq<Long>, sizes: seq<Long>): (r: seq<Long>)
    requires |offset| == |sizes|
    ensures |r| == |offset|
  {
    seq(|offset|, i requires 0 <= i < |offset| => AddLong(offset[i], sizes[i]))
  }

  /** The loop of `writeMDArrayBlock`: `offset[i] = blockNumber[i] * dims[i]`
      for every axis of the data. A block-number array shorter than the data's
      rank raises `ArrayIndexOutOfBoundsException` at its length. */
  method BlockOffsets(dims: seq<Long>, blockNumber: seq<Long>) returns (r: Result<seq<Long>, JavaError>)
    ensures r.Success? <==> |blockNumber| >= |dims|
    ensures r.Success? ==> r.value == ScaledOffsets(dims, blockNumber)
    ensures r.Failure? ==> r.error == ArrayIndexOutOfBounds(|blockNumber|)
  {
    var offset := new Long[|dims|];
    for i := 0 to |dims|
      invariant i <= |blockNumber| || i == 0
      invariant forall k :: 0 <= k < i ==> k < |blockNumber| && offset[k] == MulLong(blockNumber[k], dims[k])
    {
      if i >= |blockNumber| {
        return Failure(ArrayIndexOutOfBounds(i));
      }
      offset[i] := MulLong(blockNumber[i], dims[i]);
    }
    r := Success(offset[..]);
  }

  /** The loop that fills `dataSetDimensions[i] = offset[i] + sizes[i]`. */
  method FillExtents(offset: seq<Long>, sizes: seq<Long>) returns (extent: seq<Long>)
    requires |offset| == |sizes|
    ensures extent == Extents(offset, sizes)
    ensures NoOverflow(offset, sizes) ==> forall i :: 0 <= i < |offset| ==> extent[i] - offset[i] == sizes[i]
  {
    var dataSetDimensions := new Long[|sizes|];
    for i := 0 to |offset|
      invariant forall k :: 0 <= k < i ==> dataSetDimensions[k] == AddLong(offset[k], sizes[k])
    {
      dataSetDimensions[i] := AddLong(offset[i], sizes[i]);
    }
    extent := dataSetDimensions[..];
  }

  /** `writeMDArrayBlockWithOffset(data, offset)` of the unsigned byte and
      float writers: the data's dimensions written from `offset` on. */
  function MDBlockWithOffset(dims: seq<Long>, offset: seq<Long>): (w: BlockWrite)
    requires |dims| == |offset|
    ensures w.slabStart == offset && w.slabCount == dims && w.memoryDims == dims
    ensures w.memorySlabStart.None?
    ensures NoOverflow(offset, dims) ==> SlabEndsAtExtent(w)
  {
    BlockWrite(Extents(offset, dims), offset, dims, dims, None)
  }

  /** `writeMDArrayBlock(data, blockNumber)` as far as it succeeds. */
  function MDBlock(dims: seq<Long>, blockNumber: seq<Long>): BlockWrite
    requires |blockNumber| >= |dims|
  {
    MDBlockWithOffset(dims, ScaledOffsets(dims, blockNumber))
  }

  /** The memory-offset variant: a `blockDims` part of the memory array,
      starting at `memoryOffset` in memory, written from `offset` on. */
  function MDBlockWithMemoryOffset(memoryDims: seq<Long>, blockDims: seq<Int>, offset: seq<Long>,
                                   memoryOffset: seq<Int>): (w: BlockWrite)
    requires |memoryDims| == |offset| && |blockDims| == |offset|
    ensures w.slabStart == offset && w.slabCount == ToLong(blockDims) && w.memoryDims == memoryDims
    ensures w.memorySlabStart == Some(ToLong(memoryOffset))
    ensures NoOverflow(offset, ToLong(blockDims)) ==> SlabEndsAtExtent(w)
  {
    var count := ToLong(blockDims);
    BlockWrite(Extents(offset, count), offset, count, memoryDims, Some(ToLong(memoryOffset)))
  }

  /** The block of a one-dimensional array is the one-dimensional case of a
      multi-dimensional block. */
  lemma ArrayBlockIsRankOne(length: ArrayLength, blockNumber: Long)
    ensures MDBlock([length as int], [blockNumber]) == ArrayBlock(length, blockNumber)
  {
    var md := MDBlock([length as int], [blockNumber]);
    assert md.slabStart == [Wrap64(blockNumber * length)];
    assert md.extent == [Wrap64(Wrap64(blockNumber * length) + length)];
  }

  /** Block `b` and the block one further along axis `a` touch: the second
      starts on that axis where the first ends, and on every other axis both
      cover the same range. */
  lemma MDBlocksTile(dims: seq<Long>, b: seq<Long>, a: nat)
    requires |b| == |dims| && a < |dims|
    requires forall i :: 0 <= i < |dims| ==> InLong(b[i] as int * dims[i]) && InLong((b[i] as int + 1) * dims[i])
    requires InLong(b[a] as int + 1)
    ensures var next := b[a := b[a] + 1];
      && MDBlock(dims, next).slabStart[a] == MDBlock(dims, b).extent[a]
      && forall i :: 0 <= i < |dims| && i != a ==> MDBlock(dims, next).slabStart[i] == MDBlock(dims, b).slabStart[i]
  {
    var next := b[a := b[a] + 1];
    assert (b[a] + 1) * dims[a] == b[a] * dims[a] + dims[a];
    assert MDBlock(dims, next).slabStart[a] == (b[a] + 1) * dims[a];
    assert MDBlock(dims, b).extent[a] == Wrap64(b[a] * dims[a] + dims[a]);
  }

  /** Without overflow the slab of block `b` is `b[i] * dims[i]` up to
      `(b[i] + 1) * dims[i]` on every axis, so two blocks with different
      numbers on an axis of positive length select disjoint slabs. */
  lemma MDBlocksDisjoint(dims: seq<Long>, b: seq<Long>, c: seq<Long>, a: nat)
    requires |b| == |dims| && |c| == |dims| && a < |dims|
    requires dims[a] > 0 && b[a] < c[a]
    requires InLong(b[a] as int * dims[a]) && InLong((b[a] as int + 1) * dims[a])
    requires InLong(c[a] as int * dims[a]) && InLong((c[a] as int + 1) * dims[a])
    ensures MDBlock(dims, b).extent[a] <= MDBlock(dims, c).slabStart[a]
  {
    assert (b[a] + 1) * dims[a] == b[a] * dims[a] + dims[a];
    MulLeq(b[a] + 1, c[a], dims[a]);
  }
}
