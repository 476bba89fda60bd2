# MrsWatson platform layer in Dafny

A model of MrsWatson's platform helper layer, `source/PlatformUtilities.c`:
the platform identifier, the path builder and path classifier, and the
byte-order converters that normalise big- and little-endian data (audio file
headers) to the host's order.

- `platform.dfy`, module `Platform`: the platform enumeration and the build
  configuration. The C code chooses per platform with `#if MACOSX / WINDOWS /
  LINUX`; here the set of defined macros is a `BuildConfig` value passed to
  every function the preprocessor specialises, and the path delimiter comes
  from the same value.
- `byte_order.dfy`, module `ByteOrder`: the converters on `bv16`/`bv32`
  words and on raw byte sequences. The host's byte order, which
  `_isHostLittleEndian` probes at run time, is a parameter of type
  `Endianness`, so both branches of every converter are modelled and proved.
  Each converter is specified by its byte images: the bytes of a word from
  least to most significant (`LittleEndianBytes32`), the reverse
  (`BigEndianBytes32`), and the order in which a host stores it in memory
  (`HostBytes32`). For example, `ConvertBigEndianIntToPlatform` returns the
  number whose big-endian encoding is the memory image of its argument. A
  `float` is modelled only as the four bytes of its representation.
- `paths.dfy`, module `Paths`: a `CharString` class (a `char` array and its
  capacity), `BuildAbsolutePath` as a method that writes into the caller's
  buffer exactly as a bounded `snprintf` does, and `IsAbsolutePath` as a
  function that reads the buffer. `FormatAbsolutePath` is the full text that
  the `"%s%c%s.%s"` format produces before any truncation; the contract of
  `BuildAbsolutePath` states the new buffer in its terms.

Two behaviours of the code are easy to misread:
- The byte-array assemblers read the bytes in the host's own order: little-endian on a
  little-endian host and big-endian on a big-endian host. They do not always read them as
  little-endian storage.
- `isAbsolutePath` tests the buffer's capacity, not the length of the path.
  On Windows it never looks at the first character, so it even classifies an
  empty text followed by `:\` as absolute.

## Model

| member | source | states |
|---|---|---|
| Platform.GetPlatformType | source/PlatformUtilities.c:40-50 | Unsupported exactly when no target macro is defined; every other answer names a macro the build defines; MACOSX wins over WINDOWS, and WINDOWS over LINUX, when several are defined |
| Platform.SingleTargetPlatformType | source/PlatformUtilities.c:40-50 | a build defining exactly one target macro reports that target and never Unsupported |
| Platform.PlatformTypeOfBuilds | source/PlatformUtilities.c:40-50 | the macOS, Windows and Linux builds report their platform with delimiters '/', '\' and '/'; a build defining none reports Unsupported |
| Platform.PathDelimiter | source/PlatformUtilities.c:113 | the delimiter is '/' or '\' and never the string terminator |
| Platform.DelimiterMatchesPlatform | source/PlatformUtilities.c:40-50 | unless MACOSX and WINDOWS are both defined, the delimiter is '\' exactly when the platform is Windows |
| ByteOrder.IsHostLittleEndian | source/PlatformUtilities.c:131-135 | testing the lowest-addressed byte of the stored int 1 is true exactly on a little-endian host |
| ByteOrder.SwapBytes16 | source/PlatformUtilities.c:139 | the promoted-and-truncated swap expression puts the high byte low and the low byte high |
| ByteOrder.SwapBytes32 | source/PlatformUtilities.c:148 | the shared 32-bit swap expression reverses the four bytes (byte 0 with 3, 1 with 2), not a rotation |
| ByteOrder.ConvertBigEndianShortToPlatform | source/PlatformUtilities.c:137-144 | the result's big-endian encoding is the host memory image of the argument |
| ByteOrder.BigEndianShortEquation | source/PlatformUtilities.c:137-144 | on a little-endian host the result is ((v & 0xFF) << 8) OR (v >> 8) in 16 bits; on a big-endian host it is v |
| ByteOrder.BigEndianShortInvolutive | source/PlatformUtilities.c:137-144 | converting a 16-bit value twice returns it, on either host |
| ByteOrder.ConvertBigEndianIntToPlatform | source/PlatformUtilities.c:146-153 | the result's big-endian encoding is the host memory image of the argument |
| ByteOrder.ConvertLittleEndianIntToPlatform | source/PlatformUtilities.c:155-162 | the result's little-endian encoding is the host memory image of the argument |
| ByteOrder.BigEndianIntInvolutive | source/PlatformUtilities.c:146-153 | converting a 32-bit value twice returns it, on either host |
| ByteOrder.LittleEndianIntInvolutive | source/PlatformUtilities.c:155-162 | converting a 32-bit value twice returns it, on either host |
| ByteOrder.IntConvertersComplementary | source/PlatformUtilities.c:146-162 | on a little-endian host the little-endian converter is the identity and the big-endian one reverses the four bytes; on a big-endian host the roles swap |
| ByteOrder.ExactlyOneIntConverterIsIdentity | source/PlatformUtilities.c:146-162 | for each host exactly one of the two 32-bit converters is the identity on all values, the big-endian one exactly on a big-endian host |
| ByteOrder.Assemble16 | source/PlatformUtilities.c:166 | the masked assembly expression gives the word with `hi` as its high byte and `lo` as its low byte, and narrowing it to 16 bits never truncates |
| ByteOrder.Assemble32 | source/PlatformUtilities.c:175-176 | the masked assembly expression gives the word whose bytes, least significant first, are `b0`, `b1`, `b2`, `b3` |
| ByteOrder.ConvertByteArrayToUnsignedShort | source/PlatformUtilities.c:164-171 | the result's host memory image is the first two input bytes |
| ByteOrder.ByteArrayToUnsignedShortWord | source/PlatformUtilities.c:164-171 | in 16-bit arithmetic the result is b[0] + 256*b[1] on a little-endian host and 256*b[0] + b[1] on a big-endian host |
| ByteOrder.ByteArrayToUnsignedShortValue | source/PlatformUtilities.c:164-171 | as an unbounded integer the result is b[0] + 256*b[1] on a little-endian host and 256*b[0] + b[1] on a big-endian host, so the 16-bit result never wraps |
| ByteOrder.ByteArrayToUnsignedShortRoundTrip | source/PlatformUtilities.c:164-171 | assembling the host memory image of a 16-bit word gives the word back |
| ByteOrder.ConvertByteArrayToUnsignedIntAsWritten | source/PlatformUtilities.c:173-182 | little-endian host: the result's memory image is the first four bytes; big-endian host: it is b[0], b[1], b[2], b[0] |
| ByteOrder.AsWrittenIgnoresFourthByte | source/PlatformUtilities.c:179-180 | on a big-endian host the code as written gives the same result whatever b[3] is |
| ByteOrder.AsWrittenMisreadsBigEndian | source/PlatformUtilities.c:179-180 | on a big-endian host, [0x12,0x34,0x56,0x78] gives 0x12345612 as written and 0x12345678 as intended |
| ByteOrder.AsWrittenCorrectOnLittleEndian | source/PlatformUtilities.c:174-176 | on a little-endian host the code as written equals the intended assembler |
| ByteOrder.ConvertByteArrayToUnsignedInt | source/PlatformUtilities.c:173-182 | intended behaviour: the result's host memory image is the first four input bytes, on either host |
| ByteOrder.ByteArrayToUnsignedIntRoundTrip | source/PlatformUtilities.c:173-182 | assembling the host memory image of a 32-bit word gives the word back |
| ByteOrder.ByteArrayToUnsignedIntExample | source/PlatformUtilities.c:173-182 | [0x78,0x56,0x34,0x12] assembles to 0x12345678 on a little-endian host, and [0x12,0x34,0x56,0x78] does on a big-endian one |
| ByteOrder.ConvertBigEndianFloatToPlatform | source/PlatformUtilities.c:184-193 | the result's bytes are the argument's bytes reversed, with no host test |
| ByteOrder.ReverseInvolutive | source/PlatformUtilities.c:188-191 | reversing the bytes twice restores them, so the float converter is an involution |
| ByteOrder.FloatAndIntConvertersOnHosts | source/PlatformUtilities.c:184-193 | byte for byte the 32-bit big-endian converter reverses on a little-endian host, as the float converter does, but keeps the bytes on a big-endian host, where the float converter still reverses them |
| Paths.CStringText | source/PlatformUtilities.c:113 | the text of a C string is the NUL-free prefix of the buffer that ends at its first NUL |
| Paths.BoundedWrite | source/PlatformUtilities.c:113 | a bounded write keeps the buffer length, writes the longest prefix of the text that fits before a NUL, and leaves everything after that NUL unchanged; a zero-capacity buffer is untouched |
| Paths.BoundedWriteText | source/PlatformUtilities.c:113 | after a bounded write the buffer's text is the longest prefix of the formatted text that fits in capacity-1 characters, and the whole text when it fits |
| Paths.BuildAbsolutePath | source/PlatformUtilities.c:112-114 | the output buffer becomes the bounded write of directory, delimiter, file, "." and extension; its text is the longest prefix that fits; nothing else is written and no error is signalled |
| Paths.BuildAbsolutePathText | source/PlatformUtilities.c:112-114 | for NUL-free parts the output text is the longest prefix of directory + delimiter + file + "." + extension within capacity-1 characters |
| Paths.BuildAbsolutePathExample | source/PlatformUtilities.c:112-114 | "/tmp", "output", "wav" on a POSIX build with capacity 16 or more gives "/tmp/output.wav" |
| Paths.BuildAbsolutePathTruncates | source/PlatformUtilities.c:112-114 | the same call with capacity 5 silently gives "/tmp" |
| Paths.IsAbsolutePath | source/PlatformUtilities.c:116-129 | an absolute answer implies capacity above 3 (Windows) or 1 (POSIX) and the delimiter at index 2 (Windows) or 0 (POSIX); it reads only the path object and its buffer |
| Paths.IsAbsolutePathPosix | source/PlatformUtilities.c:123-127 | on POSIX builds a terminated path is absolute exactly when its text starts with the delimiter |
| Paths.IsAbsolutePathWindows | source/PlatformUtilities.c:117-122 | on Windows builds a text with a drive prefix such as "C:\" is absolute, and an absolute answer for a non-empty text means it has such a prefix |
| Paths.IsAbsolutePathIgnoresTerminator | source/PlatformUtilities.c:117-122 | on Windows a buffer with empty text but ':' and '\' at indices 1 and 2 is classified absolute |
| Paths.IsAbsolutePathGatesOnCapacity | source/PlatformUtilities.c:116-129 | an unterminated buffer of capacity exactly 3 (Windows) or 1 (POSIX) is not absolute, even when its text has the absolute form |

## Findings

| source | as written | input that shows it | evidently intended | confidence | as-written member | corrected member |
|---|---|---|---|---|---|---|
| source/PlatformUtilities.c:179-180 | the big-endian branch of `convertByteArrayToUnsignedInt` ORs `value[0]` into the low byte and never reads `value[3]` | bytes [0x12,0x34,0x56,0x78] on a big-endian host give 0x12345612 | the low byte is `value[3]`, giving 0x12345678 | high; not executed | ByteOrder.ConvertByteArrayToUnsignedIntAsWritten | ByteOrder.ConvertByteArrayToUnsignedInt |

## Left out

- `fileExists` (source/PlatformUtilities.c:52-68): a `stat` / `GetFileAttributesA` query of the operating system; its result is external state, not computed.
- `listDirectory` (source/PlatformUtilities.c:70-110): directory-stream I/O (`opendir`/`readdir`, `FindFirstFileA`/`FindNextFileA`). Its only logic is "append each entry and count". The model also does not capture that the POSIX branch appends `d_name` pointers borrowed from the stream.
- The run-time endianness probe's pointer punning (source/PlatformUtilities.c:132-133) is replaced by the `Endianness` parameter. `IsHostLittleEndian` keeps its logic: store 1 and look at the lowest byte.
- Float values: IEEE-754 semantics are not modelled. A `float` is only its four representation bytes.
- C integer promotion: `value[3] << 24` and `value[0] << 24` are computed on a signed `int` and overflow when the byte is 0x80 or more, which is undefined behaviour in C. The model computes in unsigned 32-bit arithmetic (`bv32`), which is what common compilers produce. `int` is taken to be 32 bits wide.
- `PlatformUtilities.h` is not part of this model. It declares `PlatformType` and `PATH_DELIMITER`. The delimiter is taken as '\' when WINDOWS is defined and '/' otherwise.
- The `CharString` type is defined outside the core: only its `capacity` and `data` fields are modelled, and its allocation and release are not part of this model.
- BuildAbsolutePath: requires that the output buffer is neither the directory's nor the file's buffer, because `snprintf` with overlapping arguments is undefined behaviour in C.
- The `byte` type is taken to be `unsigned char` (bytes are `bv8`). Were it a signed `char`, the unmasked low byte (`| value[0]` or `| value[1]`) in the assemblers at source/PlatformUtilities.c:166, 169, 176 and 180 would sign-extend bytes of 0x80 and above; that case is not modelled.
- `snprintf`'s return value (the untruncated length) is ignored by `buildAbsolutePath` and is not modelled.
- Paths.CStringText: a buffer without a NUL is read only up to its capacity, whereas C would read past the end (undefined behaviour).
- The test program `test/MrsWatsonTestMain.c`: option parsing, test dispatch and log printing built on libraries that are not part of this model.
