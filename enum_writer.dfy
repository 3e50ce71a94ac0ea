/** The shape and block planning of `HDF5EnumWriter`. An enumeration data
    set stores each value in the storage size of its enumeration type (one,
    two or four bytes, as the type's storage form says); that size is a
    parameter here. */
module EnumWriter {

  import opened Wrappers
  import opened JavaInt
  import opened DataSetPlans

  /** `createArray(objectPath, enumType, size, features)`. The scaling
      branch creates the same shape with another storage type. */
  function CreateArray(size: Long, features: StorageFeatures, storageSize: nat): (p: CreatePlan)
    ensures p.elementSize == storageSize && RequestedShape(p) == [size]
    ensures features.requiresChunking ==> p.dims == [0] && p.blockDims == Some([size])
    ensures !features.requiresChunking ==> p.dims == [size] && p.blockDims.None?
    ensures size >= 0 ==> ChunkFits(p)
  {
    ShapeForKeepsRequest([size], features, storageSize);
    ShapeFor([size], features, storageSize)
  }

  /** `createArray(objectPath, enumType, size, blockSize, features)`. This
      writer does not assert that the chunk fits. */
  function CreateArrayBlocked(size: Long, blockSize: Int, storageSize: nat): (p: CreatePlan)
    ensures p.dims == [size] && p.blockDims == Some([blockSize as int]) && p.elementSize == storageSize
    ensures ChunkFits(p) <==> BlockFits(size, blockSize)
  {
    assert ToLong([blockSize])[0] == blockSize as int;
    assert ToLong([blockSize]) == [blockSize as int];
    BlockedPlan([size], [blockSize], storageSize)
  }

  /** `writeArrayBlockWithOffset(objectPath, data, dataSize, offset)`. */
  function WriteArrayBlockWithOffset(dataSize: Int, offset: Long): (w: BlockWrite)
    ensures w.slabStart == [offset] && w.slabCount == [dataSize as int] && w.memoryDims == [dataSize as int]
    ensures InLong(offset + dataSize) ==> w.extent == [offset + dataSize] && SlabEndsAtExtent(w)
  {
    ArrayBlockWithOffset(dataSize, offset)
  }

  /** `writeArrayBlock(objectPath, data, blockNumber)`: `data.getLength()`
      elements at `data.getLength() * blockNumber`. */
  function WriteArrayBlock(length: ArrayLength, blockNumber: Long): (w: BlockWrite)
    ensures InLong(length * blockNumber) ==>
      w == WriteArrayBlockWithOffset(length, length * blockNumber)
    ensures InLong(length * blockNumber) && InLong(length * blockNumber + length) ==>
      w.slabStart == [length * blockNumber] && w.extent == [length * blockNumber + length]
  {
    ArrayBlock(length, blockNumber)
  }

  /** `writeMDArrayBlock(objectPath, data, blockNumber)`: one loop fills the
      offsets and the extent. A block-number array shorter than the data's
      rank raises `ArrayIndexOutOfBoundsException`. */
  method WriteMDArrayBlock(dims: seq<Long>, blockNumber: seq<Long>) returns (r: Result<BlockWrite, JavaError>)
    ensures r.Success? <==> |blockNumber| >= |dims|
    ensures r.Success? ==> r.value == MDBlock(dims, blockNumber)
    ensures r.Failure? ==> r.error == ArrayIndexOutOfBounds(|blockNumber|)
  {
    var offset := new Long[|dims|];
    var dataSetDimensions := new Long[|dims|];
    for i := 0 to |dims|
      invariant i <= |blockNumber| || i == 0
      invariant forall k :: 0 <= k < i ==> k < |blockNumber| && offset[k] == MulLong(blockNumber[k], dims[k])
      invariant forall k :: 0 <= k < i ==> dataSetDimensions[k] == AddLong(offset[k], dims[k])
    {
      if i >= |blockNumber| {
        return Failure(ArrayIndexOutOfBounds(i));
      }
      offset[i] := MulLong(blockNumber[i], dims[i]);
      dataSetDimensions[i] := AddLong(offset[i], dims[i]);
    }
    r := Success(BlockWrite(dataSetDimensions[..], offset[..], dims, dims, None));
  }

  /** What `writeMDArrayBlockWithOffset(objectPath, data, offset)` hands to
      the library as written: the extent array has the data's rank, and the
      loop runs over the offset's rank. A longer offset raises
      `ArrayIndexOutOfBoundsException` at the data's rank; a shorter one
      leaves the trailing axes of the extent at 0. */
  function MDBlockWithOffsetAsWritten(dims: seq<Long>, offset: seq<Long>): (r: Result<BlockWrite, JavaError>)
    ensures r.Failure? <==> |offset| > |dims|
    ensures r.Failure? ==> r.error == ArrayIndexOutOfBounds(|dims|)
    ensures r.Success? ==>
      && |r.value.extent| == |dims| && r.value.slabStart == offset && r.value.slabCount == dims
      && (forall i :: 0 <= i < |offset| ==> r.value.extent[i] == AddLong(offset[i], dims[i]))
      && (forall i :: |offset| <= i < |dims| ==> r.value.extent[i] == 0)
  {
    if |offset| > |dims| then Failure(ArrayIndexOutOfBounds(|dims|))
    else Success(BlockWrite(Extents(offset, dims[..|offset|]) + Zeros(|dims| - |offset|), offset, dims, dims, None))
  }

  /** The loop of `writeMDArrayBlockWithOffset` as written. */
  method WriteMDArrayBlockWithOffsetAsWritten(dims: seq<Long>, offset: seq<Long>)
    returns (r: Result<BlockWrite, JavaError>)
    ensures r == MDBlockWithOffsetAsWritten(dims, offset)
  {
    var dataSetDimensions := new Long[|dims|](_ => 0);
    for i := 0 to |offset|
      invariant i <= |dims| || i == 0
      invariant forall k :: 0 <= k < i ==> k < |dims| && dataSetDimensions[k] == AddLong(offset[k], dims[k])
      invariant forall k :: i <= k < |dims| ==> dataSetDimensions[k] == 0
    {
      if i >= |dims| {
        return Failure(ArrayIndexOutOfBounds(i));
      }
      dataSetDimensions[i] := AddLong(offset[i], dims[i]);
    }
    var extent := dataSetDimensions[..];
    var expected := Extents(offset, dims[..|offset|]) + Zeros(|dims| - |offset|);
    assert forall k :: 0 <= k < |dims| ==> extent[k] == expected[k];
    assert extent == expected;
    r := Success(BlockWrite(extent, offset, dims, dims, None));
  }

  /** An offset of rank 0 for data of rank 1 is let through: the data set is
      extended to length 0 while two elements are selected in it. */
  lemma ShorterOffsetMissesExtent()
    ensures var r := MDBlockWithOffsetAsWritten([2], []);
      r.Success? && r.value.extent == [0] && r.value.slabCount == [2] && !SlabEndsAtExtent(r.value)
  {
    var r := MDBlockWithOffsetAsWritten([2], []);
    assert r.value.extent[0] == 0;
  }

  /** `writeMDArrayBlockWithOffset` with the rank check the unsigned byte
      and float writers assert: the extent is `offset + dims` on every axis. */
  function WriteMDArrayBlockWithOffset(dims: seq<Long>, offset: seq<Long>): (w: BlockWrite)
    requires |dims| == |offset|
    ensures w.slabStart == offset && w.slabCount == dims && w.memoryDims == dims
    ensures NoOverflow(offset, dims) ==> SlabEndsAtExtent(w)
    ensures MDBlockWithOffsetAsWritten(dims, offset) == Success(w)
  {
    assert dims[..|offset|] == dims;
    assert Extents(offset, dims) + Zeros(0) == Extents(offset, dims);
    MDBlockWithOffset(dims, offset)
  }

  /** `createMDArray(objectPath, enumType, int[] dimensions, features)`. */
  function CreateMDArray(dims: seq<Int>, features: StorageFeatures, storageSize: nat): (p: CreatePlan)
    ensures p.elementSize == storageSize && RequestedShape(p) == ToLong(dims)
    ensures features.requiresChunking ==> p.dims == Zeros(|dims|) && p.blockDims == Some(ToLong(dims))
    ensures !features.requiresChunking ==> p.dims == ToLong(dims) && p.blockDims.None?
    ensures NonNegative(dims) ==> ChunkFits(p)
  {
    ShapeForKeepsRequest(ToLong(dims), features, storageSize);
    ShapeFor(ToLong(dims), features, storageSize)
  }

  /** `createMDArray(objectPath, enumType, long[] dimensions, int[]
      blockDimensions, features)`, without any check of the chunk. */
  function CreateMDArrayBlocked(dims: seq<Long>, blockDims: seq<Int>, storageSize: nat): (p: CreatePlan)
    ensures p.dims == dims && p.blockDims == Some(ToLong(blockDims)) && p.elementSize == storageSize
    ensures ChunkFits(p) <==>
      |blockDims| == |dims| && forall i :: 0 <= i < |dims| ==> BlockFits(dims[i], blockDims[i])
  {
    BlockedPlan(dims, blockDims, storageSize)
  }

  /** The overloads without a features argument (`createArray(objectPath,
      enumType, size)`, `createMDArray(objectPath, enumType, dimensions)`)
      pass no compression: a contiguous data set of exactly the requested
      shape. */
  lemma UncompressedOverloads(size: Long, dims: seq<Int>, storageSize: nat)
    ensures CreateArray(size, NoCompression, storageSize) == CreatePlan([size], None, storageSize)
    ensures CreateMDArray(dims, NoCompression, storageSize) == CreatePlan(ToLong(dims), None, storageSize)
  {
  }
}
