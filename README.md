# showtool: the showtape containers, modelled in Dafny

`showtool.py` converts animatronic showtapes between two containers. Each
showtape holds a WAV audio blob and a sequence of integer signal values.

- The binary container (`*.?shw`) is a .NET BinaryFormatter (MS-NRBF) stream.
  It has a fixed 221-byte header, which ends with the start of the audio
  array's ArraySinglePrimitive record (`0f 03 00 00 00`: record type and
  object id 3). Then come the rest of the two array records:
  - the audio array: int32 length, primitive type `0x02` (Byte), the bytes;
  - the signal array's record header `0f 04 00 00 00` (record type and
    object id 4), called the separator here;
  - the signal array: int32 count, primitive type `0x08` (Int32), `4*count`
    bytes.

  After them come the MessageEnd byte `0x0B` and a free-form trailer. The
  tool writes the trailer as `v1.4,App=shw_to_rshw,ShwFps=40,Map=DefaultNonLinear\0`.
- The archive container (`*.?shz`) is a stored zip holding `audioData.wav`
  and a nested deflated `signalData.zip`, whose one entry `signalData.json`
  holds the signal as a JSON array. Here it is reduced to the audio bytes
  and signal values it stores.

The model covers these parts of the tool:

- the header and footer constants;
- the byte-level reader `readShwFile`, with every rejection as a `FormatError`;
- the writer `writeShwFile`, including the partial file it leaves when
  `struct.pack` raises;
- the RIFF ckSize repair `validateWavFile`;
- the zero-count and maximum loop of `printStats`;
- the two conversions;
- the file-type guess `getFileTypeFromName`, the default output name and the
  command-line dispatch on the guessed type.

Modules:

- `Wrappers`: `Option`, `Result` and `Outcome`.
- `LittleEndian`: the `=i` and `=b` struct codes. The stored bytes are
  little-endian; the tool packs in native order, which is assumed
  little-endian here.
- `ShwFormat`: the binary container. `ParseShw`, `ParseAudio`, `ParseAudioBytes`,
  `ParseSignal` and `ParsePayload` say, layer by layer, what the reader accepts. `Layout` says what a showtape
  looks like on disk. `ReadShw` and `WriteShw` are the cursor-based reader
  and the append-only writer. Both are proved against those functions.
- `Riff`: `RepairRiff` states the repair as a value. `ValidateWav` performs
  it in a mutable buffer.
- `SignalStats`: the `printStats` loop.
- `FileNames`: the type guess, the output names and the dispatch.
- `Convert`: `convertToShz` and `convertToShw` up to the archive codec.

The model follows the code at these points, which are easy to misread:

- `show.shw` and upper-case extensions are not recognised. The test is
  positional: a `.` five characters from the end and `shw`/`shz` as the last
  three characters.
- The writer always emits the tool's own footer. It never re-emits the
  trailer it read.
- A `struct.pack` failure leaves the bytes written so far in the output file.
- A RIFF blob shorter than 8 bytes fails, and so does a wrong size field
  whose corrected value does not fit in 32 bits.
- A negative length or count in a record is rejected. An audio length of -1
  makes `f.read` read to end of file, so the separator check after it fails
  (`BadSeparator`). A buffered binary file refuses any smaller size, so an
  audio length below -1 and every negative count (asking for at most -4
  bytes) fail at the read itself (`BadReadSize`).

## Model

| member | source | states |
|---|---|---|
| LittleEndian.Int8 | showtool.py:48-49 | the `b` code reads a byte as a signed value in -128..127, non-negative exactly when the byte is below 128, congruent to the byte mod 256 |
| LittleEndian.EncodeI32 | showtool.py:149 | packing an int32 gives exactly four bytes |
| LittleEndian.DecodeI32 | showtool.py:166 | unpacking four bytes gives a value in the int32 range |
| LittleEndian.DecodeEncodeI32 | showtool.py:166-169 | unpacking the packed bytes of any int32 gives back that int32 |
| LittleEndian.EncodeDecodeI32 | showtool.py:166-169 | packing the unpacked value of any four bytes gives back those bytes |
| LittleEndian.PackInts | showtool.py:157 | `={n}i` packing of n values is 4n bytes long |
| LittleEndian.UnpackInts | showtool.py:61-62 | `={n}i` unpacking of 4n bytes gives n int32 values |
| LittleEndian.UnpackIntsAt | showtool.py:61-62 | the i-th unpacked value is the int32 stored at bytes 4i..4i+3 |
| LittleEndian.UnpackPackInts | showtool.py:157 | unpacking packed int32 values gives them back |
| LittleEndian.PackUnpackInts | showtool.py:62 | packing unpacked values reproduces the bytes |
| ShwFormat.HeaderLength | showtool.py:22-23 | the header is 0xDD bytes long, and the footer is MessageEnd followed by the footer text |
| ShwFormat.Record | showtool.py:149 | a `=1i1b` record is 5 bytes: the int32 then the tag |
| ShwFormat.Layout | showtool.py:141-159 | the length of a showtape on disk: header, two 5-byte records, the audio, the separator, 4 bytes per value, MessageEnd and the trailer |
| ShwFormat.Read | showtool.py:52 | `f.read(n)` semantics for n >= -1: n == -1 reads to end of file, otherwise at most n bytes, fewer only at end of file, and the chunk is the bytes at the cursor |
| ShwFormat.ReadShw | showtool.py:35-65 | the reader returns exactly what `ParseShw` says; on success the data is `Layout` of the result and the audio and signal fit the int32 fields |
| ShwFormat.ReadAfterHeader | showtool.py:46-51 | after the header, the audio record's length and tag are checked as `ParseAudio` says |
| ShwFormat.ReadAudio | showtool.py:52-54 | the audio read and the separator check agree with `ParseAudioBytes`: a length below -1 fails at the read, and a length of -1 or one past the end leaves no separator to read |
| ShwFormat.ReadSignal | showtool.py:55-60 | the signal record's count and tag are checked as `ParseSignal` says |
| ShwFormat.ReadPayload | showtool.py:61-65 | the payload, the MessageEnd byte and the trailer are read as `ParsePayload` says: a negative count fails at the read, a short payload at the unpack, and the rest of the file becomes the trailer |
| ShwFormat.EncodeShw | showtool.py:141-159 | writing succeeds exactly when the audio length, the sample count and every sample fit in int32; the output has the stated length, starts with the header, ends with the footer, and is the layout of the same audio and signal with the footer text as trailer |
| ShwFormat.WriteShw | showtool.py:141-159 | the writer passes exactly when the data is encodable and then writes `EncodeShw`; otherwise it reports the `EncodeShw` error and has written only the chunks before the failing pack, which the reader rejects |
| ShwFormat.AudioPartParses | showtool.py:46-54 | the audio part of any layout passes the audio checks and hands the rest to the signal checks |
| ShwFormat.SignalPartParses | showtool.py:55-65 | the signal part of any layout parses to its values and trailer |
| ShwFormat.ParseComplete | showtool.py:35-65 | the reader accepts the layout of every encodable showtape and returns that showtape |
| ShwFormat.AudioPartSound | showtool.py:46-54 | bytes that pass the audio checks are the audio part of the result followed by the rest |
| ShwFormat.SignalPartSound | showtool.py:55-65 | bytes that pass the signal checks are exactly the signal part of the result |
| ShwFormat.PayloadSound | showtool.py:61-65 | bytes that pass the payload checks are the packed values, MessageEnd and the trailer, with as many values as the count field said |
| ShwFormat.ParseSound | showtool.py:35-65 | every accepted file is the layout of what the reader returned, and that showtape is encodable |
| ShwFormat.SignalValuesDecoded | showtool.py:55-62 | in an accepted file, the count field holds the number of values and value i is the int32 at its offset |
| ShwFormat.SignalCountField | showtool.py:55-62 | in every accepted file, including one with no values, the count field holds the number of values read |
| ShwFormat.SignalDecodedAt | showtool.py:55-62 | the same, within the bytes after the separator |
| ShwFormat.WriteReadRoundTrip | showtool.py:141-159 | what the writer produces reads back as the same audio, the same signal and the tool's footer text |
| ShwFormat.LayoutSelfDelimiting | showtool.py:46-65 | two showtapes whose layouts agree up to the trailer have the same audio and signal |
| ShwFormat.TruncationRejected | showtool.py:43-64 | cutting a written file anywhere before its trailer makes the reader fail |
| ShwFormat.HeaderByteChecked | showtool.py:43-45 | changing any header byte makes the reader fail with the header error |
| ShwFormat.PartialOutputRejected | showtool.py:147-157 | a file left behind by a failing write is rejected by the reader |
| Riff.RepairRiff | showtool.py:161-173 | the repair succeeds exactly for "RIFF" blobs of at least 8 bytes whose size is already right or whose length minus 8 fits in int32; the result keeps the length and every byte outside 4..7, has a consistent size, and is the input when its size was right |
| Riff.ValidateWav | showtool.py:161-173 | the in-place repair in a mutable buffer gives the same result as `RepairRiff` |
| Riff.RepairIdempotent | showtool.py:161-173 | repairing a repaired blob changes nothing |
| Riff.RepairedSizeField | showtool.py:166-171 | after the repair the size field reads as length minus 8; when it was wrong it holds the packed value of length minus 8 |
| SignalStats.SignalSummary | showtool.py:185-191 | the loop counts the zero entries and returns a maximum that starts at 0: it bounds every entry and is either 0 or one of the entries |
| FileNames.FileType | showtool.py:258-264 | names under 6 characters give `''`; a recognised type is the last four characters after a '.' and ends in `shw` or `shz` |
| FileNames.FileTypeOfShowName | showtool.py:260-264 | every `<stem>.<c>shw` or `<stem>.<c>shz` name with a non-empty stem is recognised as `<c>shw` or `<c>shz` |
| FileNames.PlainExtensionsUnresolved | showtool.py:258-264 | `show.shw` and `SHOW.RSHW` are not recognised; `x` gives `''`; `x.rshw` gives `rshw` |
| FileNames.DefaultOutputName | showtool.py:212 | `infilename[:-1] + letter` keeps the length of a non-empty name and replaces only its last character |
| FileNames.DefaultOutputNameSwapsKind | showtool.py:206-221 | the default output name of a recognised input is recognised with the same prefix letter and the other container kind |
| FileNames.UnresolvedNameCrashes | showtool.py:310-318 | `show.wav` gives `None`, which the command line subscripts and fails on |
| FileNames.DispatchByExtension | showtool.py:310-319 | with `None` reported like `''`, every name reaches the binary handler iff it ends in `.?shw`, the archive handler iff it ends in `.?shz`, and is otherwise reported; whenever the guess is not `None` this agrees with the code as written |
| Convert.ConvertToShz | showtool.py:206-214 | converting to the archive succeeds exactly when the file reads and its audio can be repaired; it keeps the signal and stores the repaired audio |
| Convert.ConvertToShw | showtool.py:216-222 | converting to the binary container succeeds exactly when the audio can be repaired and the repaired data is encodable, and then writes what `EncodeShw` writes; a failing pack reports the partial file `WriteShw` leaves, which the reader rejects |
| Convert.ShwShzShwPreservesPayload | showtool.py:206-222 | converting there and back always succeeds and reads back as the repaired audio, the same signal and the tool's footer |
| Convert.ToolOutputReproduced | showtool.py:206-222 | a file with the tool's footer whose audio needs no repair is reproduced byte for byte by converting there and back |

## Left out

- `readShzFile` / `writeShzFile`: the zip and JSON encoding of the archive container is not modelled. `Convert.ShzContents` stands for the audio and signal values it stores.
- JSON signal values that are not integers (floats, strings, nested arrays) cannot occur in the model, because the signal is `seq<int>`.
- `readRawFiles` / `writeRawFiles` and the pack, unpack and test commands are left out. They only move the same data to and from loose files.
- File existence checks, the "already exists" refusal, and writing or opening files are left out. The model works on byte sequences, and the writer's output is the bytes it would have written.
- The matching-mp4 probe in `readShwFile` is left out. It inspects the filesystem and does not affect the data.
- The `wave`-module statistics and the floating-point durations of `printStats` are left out, and so is all printing. Only the integer loop is modelled.
- `print` and `sys.exit` become `Failure` values. Warnings are not modelled.
- `main` and argparse are left out, apart from the dispatch on the guessed file type.
- Native byte order is modelled as little-endian, the order of the files the tool exchanges.

## Findings

| source | as written | input that shows it | evidently intended | confidence | as-written member | corrected member |
|---|---|---|---|---|---|---|
| showtool.py:258-264 | `getFileTypeFromName` returns `None` for a name of 6 or more characters without a recognised extension; `main` only tests for `''`, so `t[-1]` raises TypeError | `showtool.py -c show.wav` | report "Cannot guess filetype from file extension" and exit with -1 | not executed; high | FileNames.UnresolvedNameCrashes | FileNames.DispatchByExtension |
