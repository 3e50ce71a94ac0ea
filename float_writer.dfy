/** The shape and block planning of `HDF5FloatWriter`: data sets of IEEE
    754 single-precision numbers, four bytes per element. The values
    themselves are opaque here. The writer's `assert` statements are
    preconditions. */
module FloatWriter {

  import opened Wrappers
  import opened JavaInt
  import opened DataSetPlans

  const ElementSize: nat := 4

  /** `createFloatArray(objectPath, size, features)`. */
  function CreateFloatArray(size: Int, features: StorageFeatures): (p: CreatePlan)
    requires size >= 0
    ensures p.elementSize == ElementSize && RequestedShape(p) == [size as int]
    ensures features.requiresChunking ==> p.dims == [0] && p.blockDims == Some([size as int])
    ensures !features.requiresChunking ==> p.dims == [size as int] && p.blockDims.None?
    ensures ChunkFits(p)
  {
    ShapeForKeepsRequest([size as int], features, ElementSize);
    ShapeFor([size as int], features, ElementSize)
  }

  /** `createFloatArray(objectPath, size, blockSize, features)`: a data set of
      `size` elements in chunks of `blockSize`. */
  function CreateFloatArrayBlocked(size: Long, blockSize: Int): (p: CreatePlan)
    requires size >= 0
    requires BlockFits(size, blockSize)
    ensures p.dims == [size] && p.blockDims == Some([blockSize as int]) && p.elementSize == ElementSize
    ensures ChunkFits(p)
  {
    assert ToLong([blockSize])[0] == blockSize as int;
    assert ToLong([blockSize]) == [blockSize as int];
    BlockedPlan([size], [blockSize], ElementSize)
  }

  /** `writeFloatArrayBlockWithOffset(objectPath, data, dataSize, offset)`. */
  function WriteFloatArrayBlockWithOffset(dataSize: Int, offset: Long): (w: BlockWrite)
    ensures w.slabStart == [offset] && w.slabCount == [dataSize as int] && w.memoryDims == [dataSize as int]
    ensures InLong(offset + dataSize) ==> w.extent == [offset + dataSize] && SlabEndsAtExtent(w)
  {
    ArrayBlockWithOffset(dataSize, offset)
  }

  /** `writeFloatArrayBlock(objectPath, data, blockNumber)`: `data.length`
      elements at `data.length * blockNumber`. */
  function WriteFloatArrayBlock(length: ArrayLength, blockNumber: Long): (w: BlockWrite)
    ensures InLong(length * blockNumber) ==>
      w == WriteFloatArrayBlockWithOffset(length, length * blockNumber)
    ensures InLong(length * blockNumber) && InLong(length * blockNumber + length) ==>
      w.slabStart == [length * blockNumber] && w.extent == [length * blockNumber + length]
  {
    ArrayBlock(length, blockNumber)
  }

  /** `createFloatMDArray(objectPath, int[] dimensions, features)`. */
  function CreateFloatMDArray(dims: seq<Int>, features: StorageFeatures): (p: CreatePlan)
    ensures p.elementSize == ElementSize && RequestedShape(p) == ToLong(dims)
    ensures features.requiresChunking ==> p.dims == Zeros(|dims|) && p.blockDims == Some(ToLong(dims))
    ensures !features.requiresChunking ==> p.dims == ToLong(dims) && p.blockDims.None?
    ensures NonNegative(dims) ==> ChunkFits(p)
  {
    ShapeForKeepsRequest(ToLong(dims), features, ElementSize);
    ShapeFor(ToLong(dims), features, ElementSize)
  }

  /** `createFloatMDArray(objectPath, long[] dimensions, int[] blockDimensions,
      features)`: the chunk is taken as given. */
  function CreateFloatMDArrayBlocked(dims: seq<Long>, blockDims: seq<Int>): (p: CreatePlan)
    ensures p.dims == dims && p.blockDims == Some(ToLong(blockDims)) && p.elementSize == ElementSize
    ensures ChunkFits(p) <==>
      |blockDims| == |dims| && forall i :: 0 <= i < |dims| ==> BlockFits(dims[i], blockDims[i])
  {
    BlockedPlan(dims, blockDims, ElementSize)
  }

  /** `createFloatMatrix(objectPath, sizeX, sizeY, blockSizeX, blockSizeY,
      features)`: the asserted bounds make the chunk fit. */
  function CreateFloatMatrixBlocked(sizeX: Long, sizeY: Long, blockSizeX: Int, blockSizeY: Int): (p: CreatePlan)
    requires sizeX >= 0 && sizeY >= 0
    requires BlockFits(sizeX, blockSizeX) && BlockFits(sizeY, blockSizeY)
    ensures p.dims == [sizeX, sizeY] && p.blockDims == Some([blockSizeX as int, blockSizeY as int])
    ensures p.elementSize == ElementSize && ChunkFits(p)
  {
    assert ToLong([blockSizeX, blockSizeY]) == [blockSizeX as int, blockSizeY as int];
    CreateFloatMDArrayBlocked([sizeX, sizeY], [blockSizeX, blockSizeY])
  }

  /** `createFloatMatrix(objectPath, blockSizeX, blockSizeY)`: an empty
      matrix that grows in chunks of the given size. */
  function CreateFloatMatrix(blockSizeX: Int, blockSizeY: Int): (p: CreatePlan)
    requires blockSizeX >= 0 && blockSizeY >= 0
    ensures p.dims == [0, 0] && p.blockDims == Some([blockSizeX as int, blockSizeY as int])
    ensures p.elementSize == ElementSize && ChunkFits(p) && ElementCount(p.dims) == 0
  {
    CreateFloatMatrixBlocked(0, 0, blockSizeX, blockSizeY)
  }

  /** `writeFloatMDArrayBlockWithOffset(objectPath, data, offset)`: the data set
      is extended to `offset + dims` on every axis. */
  method WriteFloatMDArrayBlockWithOffset(dims: seq<Long>, offset: seq<Long>) returns (w: BlockWrite)
    requires |dims| == |offset|
    ensures w == MDBlockWithOffset(dims, offset)
    ensures NoOverflow(offset, dims) ==> SlabEndsAtExtent(w)
  {
    var dataSetDimensions := FillExtents(offset, dims);
    w := BlockWrite(dataSetDimensions, offset, dims, dims, None);
  }

  /** `writeFloatMDArrayBlock(objectPath, data, blockNumber)`: the offsets
      `blockNumber[i] * dims[i]`, then the write with offset. A block-number
      array shorter than the data's rank raises
      `ArrayIndexOutOfBoundsException`. */
  method WriteFloatMDArrayBlock(dims: seq<Long>, blockNumber: seq<Long>) returns (r: Result<BlockWrite, JavaError>)
    ensures r.Success? <==> |blockNumber| >= |dims|
    ensures r.Success? ==> r.value == MDBlock(dims, blockNumber)
    ensures r.Failure? ==> r.error == ArrayIndexOutOfBounds(|blockNumber|)
  {
    var offset := BlockOffsets(dims, blockNumber);
    if offset.Failure? {
      return Failure(offset.error);
    }
    var w := WriteFloatMDArrayBlockWithOffset(dims, offset.value);
    r := Success(w);
  }

  /** `writeFloatMDArrayBlockWithOffset(objectPath, data, blockDimensions,
      offset, memoryOffset)`: a `blockDims` part of the data, starting at
      `memoryOffset` in memory, is written from `offset` on. */
  method WriteFloatMDArrayBlockWithMemoryOffset(memoryDims: seq<Long>, blockDims: seq<Int>, offset: seq<Long>,
                                           memoryOffset: seq<Int>) returns (w: BlockWrite)
    requires |memoryDims| == |offset| && |blockDims| == |offset|
    ensures w == MDBlockWithMemoryOffset(memoryDims, blockDims, offset, memoryOffset)
    ensures NoOverflow(offset, ToLong(blockDims)) ==> SlabEndsAtExtent(w)
  {
    var longBlockDimensions := ToLong(blockDims);
    var dataSetDimensions := FillExtents(offset, longBlockDimensions);
    w := BlockWrite(dataSetDimensions, offset, longBlockDimensions, memoryDims, Some(ToLong(memoryOffset)));
  }

  /** `writeFloatMatrixBlock(objectPath, data, blockNumberX, blockNumberY)`:
      the rank-2 block of a `sizeX` by `sizeY` matrix. */
  method WriteFloatMatrixBlock(sizeX: ArrayLength, sizeY: ArrayLength, blockNumberX: Long, blockNumberY: Long)
    returns (w: BlockWrite)
    ensures w == MDBlock([sizeX as int, sizeY as int], [blockNumberX, blockNumberY])
  {
    var r := WriteFloatMDArrayBlock([sizeX as int, sizeY as int], [blockNumberX, blockNumberY]);
    w := r.value;
  }

  /** `writeFloatMatrixBlockWithOffset(objectPath, data, offsetX, offsetY)`: the
      matrix shape is `data.length` by `data[0].length`, so a matrix without
      rows raises `ArrayIndexOutOfBoundsException` at index 0. */
  method WriteFloatMatrixBlockWithOffset(rowLengths: seq<ArrayLength>, offsetX: Long, offsetY: Long)
    returns (r: Result<BlockWrite, JavaError>)
    requires |rowLengths| <= MaxInt
    ensures r.Failure? <==> |rowLengths| == 0
    ensures r.Failure? ==> r.error == ArrayIndexOutOfBounds(0)
    ensures r.Success? ==> r.value == MDBlockWithOffset([|rowLengths|, rowLengths[0] as int], [offsetX, offsetY])
  {
    if |rowLengths| == 0 {
      return Failure(ArrayIndexOutOfBounds(0));
    }
    var w := WriteFloatMDArrayBlockWithOffset([|rowLengths|, rowLengths[0] as int], [offsetX, offsetY]);
    r := Success(w);
  }

  /** `writeFloatMatrixBlockWithOffset(objectPath, data, dataSizeX, dataSizeY,
      offsetX, offsetY)`: the given shape written from the offset on. */
  method WriteFloatMatrixBlockWithOffsetSized(dataSizeX: Int, dataSizeY: Int, offsetX: Long, offsetY: Long)
    returns (w: BlockWrite)
    ensures w == MDBlockWithOffset([dataSizeX as int, dataSizeY as int], [offsetX, offsetY])
  {
    w := WriteFloatMDArrayBlockWithOffset([dataSizeX as int, dataSizeY as int], [offsetX, offsetY]);
  }

  /** The overloads without a features argument (`createFloatArray(objectPath,
      size)`, `createFloatMDArray(objectPath, dimensions)`) pass no
      compression: a contiguous data set of exactly the requested shape. */
  lemma UncompressedOverloads(size: Int, dims: seq<Int>)
    requires size >= 0
    ensures CreateFloatArray(size, NoCompression) == CreatePlan([size as int], None, ElementSize)
    ensures CreateFloatMDArray(dims, NoCompression) == CreatePlan(ToLong(dims), None, ElementSize)
  {
  }
}
