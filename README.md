# jhdf5 listing, enumeration types and data set planning in Dafny

This project models three parts of the jhdf5 library, the Java binding to
HDF5 from ETH Zurich (`ch.systemsx.cisd.hdf5`), and proves properties of
the model.

1. **Listing lines of the HDF5 archiver** (`h5ar`):
   - the `ls -l` style mode string of a link (`ListEntry.getPermissionString`);
   - the tab-separated line `ListEntry.describeLink` prints for an archive entry;
   - the per-session cache of user and group names (`IdCache`).

   The sources of `ListEntry`, `Link` and `IdCache` are not part of this
   model. Their behaviour is rebuilt from the expectations of
   `HDF5ArchiverTest` (`testGetPermissions`, `testDescribeLink`,
   `testIdCache`). The nine permission characters of the mode string,
   with `s`/`S` and `t`/`T` for the setuid, setgid and sticky bits, follow
   the long format of the `ls` utility in POSIX.1-2017 (IEEE Std 1003.1),
   STDOUT section. The type character is only `d` or `-`.
2. **Enumeration data types** (`HDF5EnumWriter.getOrCreateEnumDataType`,
   `getEnumType`, `getAnonType`). This is the decision between reusing a
   committed named type, creating a new one, renaming the old one out of
   the way, and committing the new one. The file's registry of committed
   types is a class with a `map<string, TypeId>` field.
3. **Shape and block planning of the typed writers** (`HDF5EnumWriter`,
   `HDF5UnsignedByteWriter`, `HDF5FloatWriter`). Before each HDF5 call the
   writers compute:
   - the initial dimensions and chunk dimensions of a new data set, and its element size;
   - the block offset;
   - the extent the data set is extended to;
   - the hyperslab selected in the file and the data space in memory.

   Each entry point returns the plan record it would hand to the library:
   a `CreatePlan` or a `BlockWrite`. The writers' per-axis loops are
   methods over Java `long[]` arrays, proved against functions on sequences.

Modules:
- `JavaInt`: Java `int`/`long` ranges and 64-bit wrap-around.
- `Text`: decimal, octal and hex rendering, with parse-back functions.
- `Links`, `Permissions`, `IdCaches`, `ListEntries`: the listing.
- `EnumTypes`: the type registry.
- `DataSetPlans`: the shared plan arithmetic.
- `EnumWriter`, `UnsignedByteWriter`, `FloatWriter`: the writers' entry points.

Java `long` arithmetic wraps at 64 bits. `offset + size`,
`blockNumber * length` and `blockNumber[i] * dims[i]` are therefore
computed with explicit wrap-around (`Wrap64`, `AddLong`, `MulLong`). The
properties that need exact arithmetic carry a no-overflow hypothesis. A
Java `assert` in a writer is a precondition of the member that models it.
An `ArrayIndexOutOfBoundsException` a loop can raise is a `Failure`
result. The overloads without a features argument are the same members
applied to `NoCompression`.

The listing lines follow the expectations of `testDescribeLink`:
- an unknown timestamp drops its column together with its tab (test lines 101-103);
- an unknown uid drops the mode, owner and group columns (test lines 96-103, all in non-numeric mode);
- numeric mode prints the mode in octal and the uid and gid in decimal (`755\t0\t0`, test lines 87-95).

Where the test is silent, the model chooses:
- the mode, owner and group columns are shown only when both the uid and the gid are known;
- in numeric mode an unknown uid or gid drops the same three columns as in non-numeric mode;
- the mode -1 (the `short` all-ones value) renders as the type character and nine dashes.

## Model

| member | source | states |
|---|---|---|
| Permissions.PermissionString | sourceTest/java/ch/systemsx/cisd/hdf5/tools/HDF5ArchiverTest.java:48-64 | the mode string has ten characters; its first is `d` exactly for a directory and `-` otherwise |
| Permissions.PermissionStringRoundTrip | sourceTest/java/ch/systemsx/cisd/hdf5/tools/HDF5ArchiverTest.java:48-64 | every 12-bit mode and directory flag is read back exactly from its string, so the string shows every mode bit |
| Permissions.ExecuteColumns | sourceTest/java/ch/systemsx/cisd/hdf5/tools/HDF5ArchiverTest.java:52-60 | read and write columns show their bits; the execute columns show `s`/`S` for setuid and setgid and `t`/`T` for sticky, lower case exactly when the execute bit is also set, and `x` only without the special bit |
| Permissions.PermissionStringAlphabet | sourceTest/java/ch/systemsx/cisd/hdf5/tools/HDF5ArchiverTest.java:48-64 | the string uses only the characters `-drwxsStT` |
| Permissions.UnknownModeIsDashes | sourceTest/java/ch/systemsx/cisd/hdf5/tools/HDF5ArchiverTest.java:38-41 | a chosen rendering, since no test shows it: the unknown mode (the short -1 the test's links may carry) shows nine dashes after the type character |
| Permissions.PlainModeTable | sourceTest/java/ch/systemsx/cisd/hdf5/tools/HDF5ArchiverTest.java:51-54 | 0, 0666, 0444 and 0700 give `----------`, `-rw-rw-rw-`, `-r--r--r--` and `-rwx------` |
| Permissions.SpecialBitTable | sourceTest/java/ch/systemsx/cisd/hdf5/tools/HDF5ArchiverTest.java:55-60 | 04755, 04655, 02755, 02745, 01755 and 01754 give the six expected special-bit strings |
| Permissions.DirectoryTable | sourceTest/java/ch/systemsx/cisd/hdf5/tools/HDF5ArchiverTest.java:61-63 | directories with 0 and 0755 give `d---------` and `drwxr-xr-x` |
| IdCaches.NumericNameReadsBack | sourceTest/java/ch/systemsx/cisd/hdf5/tools/HDF5ArchiverTest.java:117-118 | in numeric mode the name is the decimal id, negative ids included, and parses back to the id |
| IdCaches.ResolvedOrDecimal | sourceTest/java/ch/systemsx/cisd/hdf5/tools/HDF5ArchiverTest.java:119-128 | without numeric mode the name is the account name when the system knows the id, else the decimal id |
| IdCaches.IdCache.constructor | sourceTest/java/ch/systemsx/cisd/hdf5/tools/HDF5ArchiverTest.java:116 | a new cache remembers nothing and has asked nobody |
| IdCaches.IdCache.GetUser | sourceTest/java/ch/systemsx/cisd/hdf5/tools/HDF5ArchiverTest.java:117-128 | returns the display name of the uid; the account database is asked only for a uid not yet cached, and the cache stays consistent with fresh lookups |
| IdCaches.IdCache.GetGroup | sourceTest/java/ch/systemsx/cisd/hdf5/tools/HDF5ArchiverTest.java:77-86 | the same for the gid, which the owner columns show |
| IdCaches.IdCacheSession | sourceTest/java/ch/systemsx/cisd/hdf5/tools/HDF5ArchiverTest.java:107-128 | one cache for the test's lookups: `-17` in numeric mode, `root` for uid 0, the current user's name when the system knows it, the decimal form of an unknown uid from 60000 on, and a repeated lookup that asks nobody |
| IdCaches.FindUnknownUid | sourceTest/java/ch/systemsx/cisd/hdf5/tools/HDF5ArchiverTest.java:124-126 | the first uid from 60000 that the system does not know, or 65535; every uid before it is known |
| ListEntries.DescribeLink | sourceTest/java/ch/systemsx/cisd/hdf5/tools/HDF5ArchiverTest.java:66-104 | the line is the path alone when not verbose, else the columns joined by tabs; owner and group come from the cache, which is consulted only in verbose, non-numeric mode with a known uid and gid; it then remembers both names and has asked the account database once for each id it did not hold yet, and is otherwise unchanged |
| ListEntries.VerboseLayout | sourceTest/java/ch/systemsx/cisd/hdf5/tools/HDF5ArchiverTest.java:74-103 | splitting a verbose line at its tabs gives back its columns: mode, owner and group first exactly for a known uid and gid, then the size, the time exactly when it is known, and checksum and path last |
| ListEntries.SizeColumnReadsBack | sourceTest/java/ch/systemsx/cisd/hdf5/tools/HDF5ArchiverTest.java:74-76 | a file's size column is ten characters, leading blanks and then the decimal size |
| ListEntries.ChecksumColumnMeaning | sourceTest/java/ch/systemsx/cisd/hdf5/tools/HDF5ArchiverTest.java:74-91 | a file's checksum is eight hex digits worth the CRC32 as an unsigned number; a directory shows eight blanks whatever it carries |
| ListEntries.FileWithoutOwnerColumns | sourceTest/java/ch/systemsx/cisd/hdf5/tools/HDF5ArchiverTest.java:74-76 | a file without uid or time lists size, `00000000` and path |
| ListEntries.FileColumns | sourceTest/java/ch/systemsx/cisd/hdf5/tools/HDF5ArchiverTest.java:77-81 | a 0755 file owned by uid 0 lists `-rwxr-xr-x`, owner, group, size, time, checksum and path |
| ListEntries.DirectoryColumns | sourceTest/java/ch/systemsx/cisd/hdf5/tools/HDF5ArchiverTest.java:82-86 | a directory lists `d---------`, `       DIR` and a blank checksum even with crc 0 |
| ListEntries.NumericFileColumns | sourceTest/java/ch/systemsx/cisd/hdf5/tools/HDF5ArchiverTest.java:87-91 | in numeric mode a 0755 file lists `755` and the checksum `000000c8` of crc 200 |
| ListEntries.NumericDirectoryColumns | sourceTest/java/ch/systemsx/cisd/hdf5/tools/HDF5ArchiverTest.java:92-95 | in numeric mode a directory with mode 0 lists `0` |
| ListEntries.UnknownOwnerColumns | sourceTest/java/ch/systemsx/cisd/hdf5/tools/HDF5ArchiverTest.java:96-103 | with uid -1 the mode, owner and group columns are left out, and with time -1 the time column too, with no empty column left |
| ListEntries.DescribePlainLines | sourceTest/java/ch/systemsx/cisd/hdf5/tools/HDF5ArchiverTest.java:72-76 | the path alone, then `       100\t00000000\t` and the path; the cache is untouched |
| ListEntries.DescribeOwnedLines | sourceTest/java/ch/systemsx/cisd/hdf5/tools/HDF5ArchiverTest.java:77-86 | the root-owned file and directory lines, with the account database asked at most once for uid 0 and once for gid 0 over both |
| ListEntries.DescribeNumericLines | sourceTest/java/ch/systemsx/cisd/hdf5/tools/HDF5ArchiverTest.java:87-95 | the numeric file and directory lines `755\t0\t0…` and `0\t0\t0…`, without asking the account database |
| ListEntries.DescribeUnownedLines | sourceTest/java/ch/systemsx/cisd/hdf5/tools/HDF5ArchiverTest.java:96-103 | the two lines without owner columns, without asking the account database |
| ListEntries.DescribeLinkSession | sourceTest/java/ch/systemsx/cisd/hdf5/tools/HDF5ArchiverTest.java:66-104 | one cache shared by all eight expectations of the test: each line has the expected columns, and the account database is asked exactly twice in all |
| EnumTypes.DataTypePathInjective | source/java/ch/systemsx/cisd/hdf5/HDF5EnumWriter.java:304-306 | different type names never share a committed path |
| EnumTypes.Resolve | source/java/ch/systemsx/cisd/hdf5/HDF5EnumWriter.java:301-345 | a resolution keeps the registry consistent, returns an existing type, and never changes the values of a type created before |
| EnumTypes.AnonymousNeverCommitted | source/java/ch/systemsx/cisd/hdf5/HDF5EnumWriter.java:304-321 | an anonymous type is never looked up or committed: a fresh type with the values is created and the committed types stay as they are |
| EnumTypes.PreferredTypeReused | source/java/ch/systemsx/cisd/hdf5/HDF5EnumWriter.java:332-339 | a committed type with preference is returned with nothing created, renamed or committed; it fails exactly when checking is requested and its values differ |
| EnumTypes.EqualTypeReused | source/java/ch/systemsx/cisd/hdf5/HDF5EnumWriter.java:312-331 | without preference, an equal committed type is returned; a type is created for the comparison but nothing is renamed or committed |
| EnumTypes.DifferentTypeReplaced | source/java/ch/systemsx/cisd/hdf5/HDF5EnumWriter.java:322-343 | without preference, a differing committed type is moved to the replacement path, and the new type is then committed under the original path |
| EnumTypes.NewNameCommitted | source/java/ch/systemsx/cisd/hdf5/HDF5EnumWriter.java:312-343 | a name without a committed type gets the new type committed under its path, with or without preference |
| EnumTypes.CommitAndRenameDiscipline | source/java/ch/systemsx/cisd/hdf5/HDF5EnumWriter.java:319-343 | a commit happens only for a name and under its path; a rename only when the type existed and right before a commit; other committed paths are untouched |
| EnumTypes.ResolvedValues | source/java/ch/systemsx/cisd/hdf5/HDF5EnumWriter.java:310-339 | the returned type has the requested values unless a preferred committed type is returned unchecked |
| EnumTypes.ResolveTwice | source/java/ch/systemsx/cisd/hdf5/HDF5EnumWriter.java:301-345 | resolving a name again with the same values returns the same type and commits or renames nothing |
| EnumTypes.EnumTypeRegistry.constructor | source/java/ch/systemsx/cisd/hdf5/HDF5EnumWriter.java:263-264 | a registry starts from the committed types and type definitions the file already holds (none for a new file), with the writer's preference and replacement-path function |
| EnumTypes.EnumTypeRegistry.CreateDataTypeEnum | source/java/ch/systemsx/cisd/hdf5/HDF5EnumWriter.java:314 | a created type gets the next id and the values, and nothing is committed |
| EnumTypes.EnumTypeRegistry.GetOrCreateEnumDataType | source/java/ch/systemsx/cisd/hdf5/HDF5EnumWriter.java:301-345 | the step-by-step resolution returns the id `Resolve` specifies and leaves the registry in its state; a failed check changes nothing |
| EnumTypes.EnumTypeRegistry.GetEnumType | source/java/ch/systemsx/cisd/hdf5/HDF5EnumWriter.java:259-269 | the resolved type with the writer's preference, named `__anonymous__` when it has no name; the registry ends in the state `Resolve` gives, and a failed check leaves it unchanged |
| EnumTypes.EnumTypeRegistry.GetNamedEnumType | source/java/ch/systemsx/cisd/hdf5/HDF5EnumWriter.java:252-256 | a named, checked resolution: on success the returned type has the requested values and the registry ends in the state `Resolve` gives; a failed check leaves it unchanged |
| EnumTypes.EnumTypeRegistry.GetAnonType | source/java/ch/systemsx/cisd/hdf5/HDF5EnumWriter.java:240-243 | always a fresh anonymous type with the values under the next id, which then advances by one; the committed types stay as they are |
| DataSetPlans.ShapeFor | source/java/ch/systemsx/cisd/hdf5/HDF5UnsignedByteWriter.java:476-485 | with chunking the data set starts with zero dimensions of the same rank and the request as its chunk, else it has the requested dimensions and no chunk |
| DataSetPlans.ShapeForKeepsRequest | source/java/ch/systemsx/cisd/hdf5/HDF5FloatWriter.java:174-184 | the requested shape is read back from the plan whatever the features, and a chunked data set starts with no elements |
| DataSetPlans.ShapeForChunkFits | source/java/ch/systemsx/cisd/hdf5/HDF5FloatWriter.java:391-400 | for a non-negative request the chunk always fits the data set |
| DataSetPlans.BlockedPlan | source/java/ch/systemsx/cisd/hdf5/HDF5UnsignedByteWriter.java:505-509 | a data set with an explicit chunk; the chunk fits exactly when the ranks agree and every axis meets the writers' block-size assertion |
| DataSetPlans.ArrayBlockWithOffset | source/java/ch/systemsx/cisd/hdf5/HDF5FloatWriter.java:218-248 | the slab is `dataSize` elements from `offset` on, the memory space has `dataSize` elements, and the extent is `offset + dataSize` modulo 2^64, which the slab ends at when there is no overflow |
| DataSetPlans.ArrayBlockOffset | source/java/ch/systemsx/cisd/hdf5/HDF5FloatWriter.java:215 | the offset is `length * blockNumber` when that fits a `long` |
| DataSetPlans.ArrayBlocksTile | source/java/ch/systemsx/cisd/hdf5/HDF5UnsignedByteWriter.java:273-277 | block `n` covers `n * length` up to `(n + 1) * length`, block `n + 1` starts where it ends, and the block number is read back from the offset |
| DataSetPlans.ArrayBlocksDisjoint | source/java/ch/systemsx/cisd/hdf5/HDF5FloatWriter.java:212-216 | blocks with smaller numbers end before larger ones start |
| DataSetPlans.ScaledOffsets | source/java/ch/systemsx/cisd/hdf5/HDF5FloatWriter.java:432-438 | one block offset per axis of the data |
| DataSetPlans.Extents | source/java/ch/systemsx/cisd/hdf5/HDF5FloatWriter.java:456-459 | one extent per axis of the offset |
| DataSetPlans.BlockOffsets | source/java/ch/systemsx/cisd/hdf5/HDF5UnsignedByteWriter.java:522-528 | the loop succeeds exactly when the block-number array is at least the data's rank, and then yields `blockNumber[i] * dims[i]` per axis; otherwise it fails at index `blockNumber.length` |
| DataSetPlans.FillExtents | source/java/ch/systemsx/cisd/hdf5/HDF5UnsignedByteWriter.java:548-551 | the loop yields `offset[i] + sizes[i]` per axis, exactly so without overflow |
| DataSetPlans.MDBlockWithOffset | source/java/ch/systemsx/cisd/hdf5/HDF5FloatWriter.java:441-474 | the slab starts at the offset and has the data's dimensions, as does the memory space, and ends at the extent without overflow |
| DataSetPlans.MDBlockWithMemoryOffset | source/java/ch/systemsx/cisd/hdf5/HDF5FloatWriter.java:476-513 | the file slab has the block's dimensions from the offset on and ends at the extent; the memory slab of the same size starts at the memory offset in a space of the data's dimensions |
| DataSetPlans.ArrayBlockIsRankOne | source/java/ch/systemsx/cisd/hdf5/HDF5UnsignedByteWriter.java:517-529 | the multi-dimensional block of rank one equals the one-dimensional block |
| DataSetPlans.MDBlocksTile | source/java/ch/systemsx/cisd/hdf5/HDF5UnsignedByteWriter.java:522-528 | the next block along an axis starts on that axis where the block ends, and covers the same range on every other axis |
| DataSetPlans.MDBlocksDisjoint | source/java/ch/systemsx/cisd/hdf5/HDF5FloatWriter.java:432-438 | blocks with different numbers on an axis of positive length select disjoint ranges there |
| EnumWriter.CreateArray | source/java/ch/systemsx/cisd/hdf5/HDF5EnumWriter.java:516-567 | dims `[0]` with chunk `[size]` when chunking, else dims `[size]` without chunk, in the type's storage size; the chunk fits for a non-negative size |
| EnumWriter.CreateArrayBlocked | source/java/ch/systemsx/cisd/hdf5/HDF5EnumWriter.java:474-514 | dims `[size]` with chunk `[blockSize]`, unchecked: the chunk fits exactly when the block-size assertion of the other writers holds |
| EnumWriter.WriteArrayBlockWithOffset | source/java/ch/systemsx/cisd/hdf5/HDF5EnumWriter.java:579-621 | slab `[offset]`/`[dataSize]`, memory space `[dataSize]`, extent `[offset + dataSize]` without overflow |
| EnumWriter.WriteArrayBlock | source/java/ch/systemsx/cisd/hdf5/HDF5EnumWriter.java:569-577 | the write with offset `length * blockNumber` and `length` elements |
| EnumWriter.WriteMDArrayBlock | source/java/ch/systemsx/cisd/hdf5/HDF5EnumWriter.java:718-731 | the loop fails exactly for a block-number array shorter than the data's rank, and otherwise plans the multi-dimensional block |
| EnumWriter.MDBlockWithOffsetAsWritten | source/java/ch/systemsx/cisd/hdf5/HDF5EnumWriter.java:705-716 | as written: fails for an offset longer than the data's rank; a shorter offset leaves the trailing extent axes at 0 |
| EnumWriter.WriteMDArrayBlockWithOffsetAsWritten | source/java/ch/systemsx/cisd/hdf5/HDF5EnumWriter.java:705-716 | the loop as written computes `MDBlockWithOffsetAsWritten` |
| EnumWriter.ShorterOffsetMissesExtent | source/java/ch/systemsx/cisd/hdf5/HDF5EnumWriter.java:705-716 | an empty offset for data of shape `[2]` extends the data set to `[0]` while selecting two elements |
| EnumWriter.WriteMDArrayBlockWithOffset | source/java/ch/systemsx/cisd/hdf5/HDF5EnumWriter.java:705-716 | with equal ranks: slab from the offset with the data's dimensions, ending at the extent without overflow; agrees with the code as written on such inputs |
| EnumWriter.CreateMDArray | source/java/ch/systemsx/cisd/hdf5/HDF5EnumWriter.java:772-803 | zero dims of the same rank with the dims as chunk when chunking, else the dims without chunk; the chunk fits for non-negative dims |
| EnumWriter.CreateMDArrayBlocked | source/java/ch/systemsx/cisd/hdf5/HDF5EnumWriter.java:747-770 | the dims with the given chunk, unchecked: it fits exactly when ranks agree and every axis meets the block-size assertion |
| EnumWriter.UncompressedOverloads | source/java/ch/systemsx/cisd/hdf5/HDF5EnumWriter.java:460-465 | without features, `createArray` and `createMDArray` create exactly the requested shape without chunk |
| UnsignedByteWriter.CreateArray | source/java/ch/systemsx/cisd/hdf5/HDF5UnsignedByteWriter.java:221-247 | for `size >= 0`: dims `[0]` with chunk `[size]` when chunking, else `[size]` without chunk; one byte per element; the chunk fits |
| UnsignedByteWriter.CreateArrayBlocked | source/java/ch/systemsx/cisd/hdf5/HDF5UnsignedByteWriter.java:250-270 | under the asserted bounds: dims `[size]`, chunk `[blockSize]`, which fits |
| UnsignedByteWriter.WriteArrayBlockWithOffset | source/java/ch/systemsx/cisd/hdf5/HDF5UnsignedByteWriter.java:280-311 | slab `[offset]`/`[dataSize]`, memory space `[dataSize]`, extent `[offset + dataSize]` without overflow |
| UnsignedByteWriter.WriteArrayBlock | source/java/ch/systemsx/cisd/hdf5/HDF5UnsignedByteWriter.java:273-277 | the write with offset `data.length * blockNumber` and `data.length` elements |
| UnsignedByteWriter.CreateMDArray | source/java/ch/systemsx/cisd/hdf5/HDF5UnsignedByteWriter.java:464-491 | zero dims of the same rank with the dims as chunk when chunking, else the dims; the chunk fits for non-negative dims |
| UnsignedByteWriter.CreateMDArrayBlocked | source/java/ch/systemsx/cisd/hdf5/HDF5UnsignedByteWriter.java:494-514 | the dims with the given chunk; it fits exactly when ranks agree and every axis meets the block-size assertion |
| UnsignedByteWriter.CreateMatrix | source/java/ch/systemsx/cisd/hdf5/HDF5UnsignedByteWriter.java:349-357 | for non-negative sizes: the rank-2 shape; when chunking, dims `[0, 0]` and chunk `[sizeX, sizeY]`, otherwise no chunk; the chunk fits |
| UnsignedByteWriter.CreateMatrixBlocked | source/java/ch/systemsx/cisd/hdf5/HDF5UnsignedByteWriter.java:373-383 | under the asserted bounds: dims `[sizeX, sizeY]` with chunk `[blockSizeX, blockSizeY]`, which fits |
| UnsignedByteWriter.WriteMDArrayBlockWithOffset | source/java/ch/systemsx/cisd/hdf5/HDF5UnsignedByteWriter.java:532-566 | with the asserted equal ranks, the multi-dimensional write from the offset, ending at the extent without overflow |
| UnsignedByteWriter.WriteMDArrayBlock | source/java/ch/systemsx/cisd/hdf5/HDF5UnsignedByteWriter.java:517-529 | fails exactly for a block-number array shorter than the data's rank, else plans the multi-dimensional block |
| UnsignedByteWriter.WriteMDArrayBlockWithMemoryOffset | source/java/ch/systemsx/cisd/hdf5/HDF5UnsignedByteWriter.java:569-607 | with the asserted ranks, the memory-offset write, ending at the extent without overflow |
| UnsignedByteWriter.WriteMatrixBlock | source/java/ch/systemsx/cisd/hdf5/HDF5UnsignedByteWriter.java:386-394 | the rank-2 block of the matrix |
| UnsignedByteWriter.WriteMatrixBlockWithOffset | source/java/ch/systemsx/cisd/hdf5/HDF5UnsignedByteWriter.java:397-406 | the write of a `rows` by `data[0].length` block; fails at index 0 for a matrix without rows |
| UnsignedByteWriter.WriteMatrixBlockWithOffsetSized | source/java/ch/systemsx/cisd/hdf5/HDF5UnsignedByteWriter.java:409-418 | the write of the given rank-2 shape from the offset |
| UnsignedByteWriter.UncompressedOverloads | source/java/ch/systemsx/cisd/hdf5/HDF5UnsignedByteWriter.java:209-218 | without features, arrays, multi-dimensional arrays and matrices are created with exactly the requested shape and no chunk |
| FloatWriter.CreateFloatArray | source/java/ch/systemsx/cisd/hdf5/HDF5FloatWriter.java:163-189 | for `size >= 0`: dims `[0]` with chunk `[size]` when chunking, else `[size]` without chunk; four bytes per element; the chunk fits |
| FloatWriter.CreateFloatArrayBlocked | source/java/ch/systemsx/cisd/hdf5/HDF5FloatWriter.java:191-210 | under the asserted bounds: dims `[size]`, chunk `[blockSize]`, which fits |
| FloatWriter.WriteFloatArrayBlockWithOffset | source/java/ch/systemsx/cisd/hdf5/HDF5FloatWriter.java:218-248 | slab `[offset]`/`[dataSize]`, memory space `[dataSize]`, extent `[offset + dataSize]` without overflow |
| FloatWriter.WriteFloatArrayBlock | source/java/ch/systemsx/cisd/hdf5/HDF5FloatWriter.java:212-216 | the write with offset `data.length * blockNumber` and `data.length` elements |
| FloatWriter.CreateFloatMDArray | source/java/ch/systemsx/cisd/hdf5/HDF5FloatWriter.java:380-405 | zero dims of the same rank with the dims as chunk when chunking, else the dims; the chunk fits for non-negative dims |
| FloatWriter.CreateFloatMDArrayBlocked | source/java/ch/systemsx/cisd/hdf5/HDF5FloatWriter.java:407-425 | the dims with the given chunk; it fits exactly when ranks agree and every axis meets the block-size assertion |
| FloatWriter.CreateFloatMatrixBlocked | source/java/ch/systemsx/cisd/hdf5/HDF5FloatWriter.java:284-308 | under the asserted bounds: dims `[sizeX, sizeY]` with chunk `[blockSizeX, blockSizeY]`, which fits |
| FloatWriter.CreateFloatMatrix | source/java/ch/systemsx/cisd/hdf5/HDF5FloatWriter.java:272-276 | an empty `[0, 0]` matrix with the given chunk, which fits, holding no elements |
| FloatWriter.WriteFloatMDArrayBlockWithOffset | source/java/ch/systemsx/cisd/hdf5/HDF5FloatWriter.java:441-474 | with the asserted equal ranks, the multi-dimensional write from the offset, ending at the extent without overflow |
| FloatWriter.WriteFloatMDArrayBlock | source/java/ch/systemsx/cisd/hdf5/HDF5FloatWriter.java:427-439 | fails exactly for a block-number array shorter than the data's rank, else plans the multi-dimensional block |
| FloatWriter.WriteFloatMDArrayBlockWithMemoryOffset | source/java/ch/systemsx/cisd/hdf5/HDF5FloatWriter.java:476-513 | with the asserted ranks, the memory-offset write, ending at the extent without overflow |
| FloatWriter.WriteFloatMatrixBlock | source/java/ch/systemsx/cisd/hdf5/HDF5FloatWriter.java:310-318 | the rank-2 block of the matrix |
| FloatWriter.WriteFloatMatrixBlockWithOffset | source/java/ch/systemsx/cisd/hdf5/HDF5FloatWriter.java:320-329 | the write of a `rows` by `data[0].length` block; fails at index 0 for a matrix without rows |
| FloatWriter.WriteFloatMatrixBlockWithOffsetSized | source/java/ch/systemsx/cisd/hdf5/HDF5FloatWriter.java:331-340 | the write of the given rank-2 shape from the offset |
| FloatWriter.UncompressedOverloads | source/java/ch/systemsx/cisd/hdf5/HDF5FloatWriter.java:153-161 | without features, arrays and multi-dimensional arrays are created with exactly the requested shape and no chunk |

## Left out

- HDF5 library calls are represented only by the plan records handed to them: `H5Dwrite`, `createDataSet`, `getOrCreateDataSetId`, `openAndExtendDataSet`, `setHyperslabBlock`, `createSimpleDataSpace`, `getNativeDataType`, `setTypeVariant`, `setStringAttribute`, the `runner` and its clean-up registry. They are native code without visible contents.
- The storage features are reduced to `requiresChunking`. The features themselves, deflation, integer scaling and `checkScalingOK` are not modelled, because their classes are not part of this model. The scaling branch of the enumeration writer creates the same shape as the other branch, with another storage type.
- `NoCompression` (`INT_NO_COMPRESSION`, `FLOAT_NO_COMPRESSION`) is taken not to require chunking. Its definition is not part of this model.
- The element type handed to `createDataSet` (`H5T_STD_U8LE`, `H5T_IEEE_F32LE`, the enumeration's storage type) is not part of the plan; the element size is.
- `writeArray`, `writeMatrix` and `writeMDArray` of the three writers pass the data's own dimensions to `getOrCreateDataSetId`, whose sizing decisions belong to the base writer. That writer is not part of this model.
- The attribute writers (`setAttr`, `setArrayAttr`, `setMDArrayAttr`, `setMatrixAttr`) and scalar writes only select foreign type handles.
- The `newVal`/`newArray`/`newMDArray` constructors of enumeration values, and the `Class`-based `getEnumType`/`getAnonType` overloads, which read the values by reflection.
- `checkOpen` and `enumType.check(fileId)` guard against closed files and foreign types. Files are always open here.
- `HDF5Utils.createDataTypePath` is not part of this model. The path is taken as the prefix `/__DATA_TYPES__/Enum_` and the name; only its injectivity is used.
- `moveLinkOutOfTheWay` is a parameter of the registry, and `checkEnumValues` is taken as a comparison of the values. Both belong to the base writer.
- Enumeration type equality (`dataTypesAreEqual`) is equality of the value lists.
- Float values and `source/c/copyByteFloat.c`: the payload is opaque, and that C file only instantiates a JNI template that is not part of this model.
- `h5ar/IHDF5ArchiveReader.java` declares an interface with no behaviour of its own.
- Formatting the timestamp as local time is a parameter (`formatTime`), because the expected `2000-01-01 00:00:00` depends on the time zone. The system's account database is a parameter as well (`userNameOf`, `groupNameOf`).
- Archive tree walking, verification and extraction are not part of this model.
- The `-> target` suffix of symbolic links is not modelled; no test fixes it.
- PermissionString: symbolic links and other non-directory types show `-` as their type character, not POSIX's `l` (or `b`, `c`, `p`, `s`); no test fixes it.
- DescribeLink: in numeric mode an unknown uid or gid drops the mode, owner and group columns, as in non-numeric mode. A format in which numeric mode prints empty fields there instead is equally possible; no test has an unknown id in numeric mode.
- DescribeLink: the owner columns need both the uid and the gid to be known (`HasOwnership`). The tests only show an unknown uid with a known gid, so a known uid with an unknown gid could also be printed with its group.
- The checksum column is taken as the CRC32 in eight lower-case hex digits. `ListEntry.hashToString` is not part of this model; the test only calls it.
- UnsignedByteWriter.WriteMatrixBlock and FloatWriter.WriteFloatMatrixBlock take the matrix shape as two sizes. How `MDByteArray`/`MDFloatArray` derive it from `byte[][]`/`float[][]` is not part of this model.

## Findings

| source | as written | input that shows it | evidently intended | confidence | as-written member | corrected member |
|---|---|---|---|---|---|---|
| source/java/ch/systemsx/cisd/hdf5/HDF5EnumWriter.java:705-716 | `writeMDArrayBlockWithOffset` of the enumeration writer fills the extent over the offset's rank without checking it against the data's rank | data of shape `[2]` with offset `[]`: the data set is extended to `[0]` while a two-element block is written; an offset longer than the data raises `ArrayIndexOutOfBoundsException` | equal ranks, as the unsigned byte and float writers assert (HDF5UnsignedByteWriter.java:546, HDF5FloatWriter.java:454), with extent `offset + dims` on every axis | low, not executed | EnumWriter.ShorterOffsetMissesExtent | EnumWriter.WriteMDArrayBlockWithOffset |
