/** The binary showtape container (`.rshw`, `.cshw`, ...): a frozen .NET
    BinaryFormatter stream ([MS-NRBF]) of a class `rshwFormat` whose fields
    are a byte array (the WAV audio) and an int32 array (the signal track).
    Everything except the two array payloads is constant. */
module ShwFormat {
  import opened Wrappers
  import opened LittleEndian

  /** The 221-byte preamble, up to and including the record header of the
      audio array. */
  const Header: seq<byte> :=
    // SerializationHeaderRecord: root id 1, header id -1, version 1.0
    [0x00, 0x01, 0x00, 0x00, 0x00, 0xFF, 0xFF, 0xFF, 0xFF, 0x01, 0x00, 0x00, 0x00, 0x00, 0x00, 0x00, 0x00]
    // BinaryLibrary, library id 2, name "Assembly-CSharp, Version=0.0.0.0, Culture=neutral, PublicKeyToken=null"
    + [0x0C, 0x02, 0x00, 0x00, 0x00]
    + [0x46, 0x41, 0x73, 0x73, 0x65, 0x6D, 0x62, 0x6C, 0x79, 0x2D, 0x43, 0x53, 0x68, 0x61, 0x72, 0x70]
    + [0x2C, 0x20, 0x56, 0x65, 0x72, 0x73, 0x69, 0x6F, 0x6E, 0x3D, 0x30, 0x2E, 0x30, 0x2E, 0x30, 0x2E]
    + [0x30, 0x2C, 0x20, 0x43, 0x75, 0x6C, 0x74, 0x75, 0x72, 0x65, 0x3D, 0x6E, 0x65, 0x75, 0x74, 0x72]
    + [0x61, 0x6C, 0x2C, 0x20, 0x50, 0x75, 0x62, 0x6C, 0x69, 0x63, 0x4B, 0x65, 0x79, 0x54, 0x6F, 0x6B]
    + [0x65, 0x6E, 0x3D, 0x6E, 0x75, 0x6C, 0x6C]
    // ClassWithMembersAndTypes, object id 1, class name "rshwFormat", 3 members
    + [0x05, 0x01, 0x00, 0x00, 0x00]
    + [0x0A, 0x72, 0x73, 0x68, 0x77, 0x46, 0x6F, 0x72, 0x6D, 0x61, 0x74]
    + [0x03, 0x00, 0x00, 0x00]
    // member names "<audioData>k__BackingField", "<signalData>k__BackingField", "<videoData>k__BackingField"
    + [0x1A, 0x3C, 0x61, 0x75, 0x64, 0x69, 0x6F, 0x44, 0x61, 0x74, 0x61, 0x3E, 0x6B, 0x5F, 0x5F, 0x42]
    + [0x61, 0x63, 0x6B, 0x69, 0x6E, 0x67, 0x46, 0x69, 0x65, 0x6C, 0x64]
    + [0x1B, 0x3C, 0x73, 0x69, 0x67, 0x6E, 0x61, 0x6C, 0x44, 0x61, 0x74, 0x61, 0x3E, 0x6B, 0x5F, 0x5F]
    + [0x42, 0x61, 0x63, 0x6B, 0x69, 0x6E, 0x67, 0x46, 0x69, 0x65, 0x6C, 0x64]
    + [0x1A, 0x3C, 0x76, 0x69, 0x64, 0x65, 0x6F, 0x44, 0x61, 0x74, 0x61, 0x3E, 0x6B, 0x5F, 0x5F, 0x42]
    + [0x61, 0x63, 0x6B, 0x69, 0x6E, 0x67, 0x46, 0x69, 0x65, 0x6C, 0x64]
    // member types: three PrimitiveArrays of Byte, Int32, Byte; library id 2
    + [0x07, 0x07, 0x07, 0x02, 0x08, 0x02, 0x02, 0x00, 0x00, 0x00]
    // member values: reference to object 3, reference to object 4, null
    + [0x09, 0x03, 0x00, 0x00, 0x00, 0x09, 0x04, 0x00, 0x00, 0x00, 0x0A]
    // ArraySinglePrimitive, object id 3 (the audio array follows)
    + [0x0F, 0x03, 0x00, 0x00, 0x00]


  /** The text the writer puts after MessageEnd:
      "v1.4,App=shw_to_rshw,ShwFps=40,Map=DefaultNonLinear" and a NUL. */
  const FooterText: seq<byte> :=
    [0x76, 0x31, 0x2E, 0x34, 0x2C, 0x41, 0x70, 0x70, 0x3D, 0x73, 0x68, 0x77, 0x5F, 0x74, 0x6F, 0x5F]
    + [0x72, 0x73, 0x68, 0x77, 0x2C, 0x53, 0x68, 0x77, 0x46, 0x70, 0x73, 0x3D, 0x34, 0x30, 0x2C, 0x4D]
    + [0x61, 0x70, 0x3D, 0x44, 0x65, 0x66, 0x61, 0x75, 0x6C, 0x74, 0x4E, 0x6F, 0x6E, 0x4C, 0x69, 0x6E]
    + [0x65, 0x61, 0x72, 0x00]

  /** The MessageEnd record. */
  const MessageEnd: byte := 0x0B

  /** What the writer emits after the signal payload. */
  const Footer: seq<byte> := [MessageEnd] + FooterText

  /** ArraySinglePrimitive, object id 4: the record header of the signal array. */
  const Separator: seq<byte> := [0x0F, 0x04, 0x00, 0x00, 0x00]

  /** PrimitiveTypeEnumeration values of the two arrays. */
  const ByteTag: byte := 0x02
  const Int32Tag: byte := 0x08

  /** A decoded container: the audio bytes, the signal values and whatever
      follows the MessageEnd record. */
  datatype Showtape = Showtape(audio: seq<byte>, signal: seq<int>, trailer: seq<byte>)

  /** One constructor per check of the reader that aborts the tool. */
  datatype FormatError =
    | ShortHeader | BadHeader
    | ShortAudioRecord | BadAudioTag
    | BadSeparator
    | BadReadSize  // `f.read(n)` on a buffered binary file raises for n < -1
    | ShortSignalRecord | BadSignalTag
    | BadSignalPayload
    | BadTerminator

  /** The writer's `struct.pack` calls that can raise. */
  datatype PackError = AudioTooLong | TooManySamples | SampleOutOfRange

  /** `struct.pack('=1i1b', n, tag)`. */
  function Record(n: int, tag: byte): (r: seq<byte>)
    requires IsInt32(n)
    ensures |r| == 5 && r[4] == tag && r[..4] == EncodeI32(n)
  {
    EncodeI32(n) + [tag]
  }

  /** Whether the writer's three packs of these payloads succeed. */
  predicate Encodable(audio: seq<byte>, signal: seq<int>) {
    IsInt32(|audio|) && IsInt32(|signal|) && AllInt32(signal)
  }

  /** The audio array's length record, its bytes, and the signal array's record header. */
  function AudioPart(audio: seq<byte>): (r: seq<byte>)
    requires IsInt32(|audio|)
    ensures |r| == |audio| + 10
  {
    Record(|audio|, ByteTag) + audio + Separator
  }

  /** The signal array's length record, its values, MessageEnd and the trailer. */
  function SignalPart(signal: seq<int>, trailer: seq<byte>): (r: seq<byte>)
    requires IsInt32(|signal|) && AllInt32(signal)
    ensures |r| == 4 * |signal| + 6 + |trailer|
  {
    Record(|signal|, Int32Tag) + PackInts(signal) + [MessageEnd] + trailer
  }

  /** The byte stream that holds the showtape `t`. */
  function Layout(t: Showtape): (r: seq<byte>)
    requires Encodable(t.audio, t.signal)
    ensures |r| == 221 + |t.audio| + 10 + 4 * |t.signal| + 6 + |t.trailer|
  {
    HeaderLength();
    Header + AudioPart(t.audio) + SignalPart(t.signal, t.trailer)
  }

  /** The header is the 0xDD bytes the reader compares; the footer is the
      MessageEnd record followed by the footer text. */
  lemma HeaderLength()
    ensures |Header| == 0xDD
    ensures |Footer| == 1 + |FooterText| && Footer[0] == MessageEnd && Footer[1..] == FooterText
  {
  }

  /** `f.read(n)` at offset `pos`: at most `n` bytes, all the rest when `n`
      is -1, fewer at end of file. A buffered binary file refuses any other
      negative size, so callers check for it first. */
  function Read(data: seq<byte>, pos: nat, n: int): (chunk: seq<byte>)
    requires pos <= |data| && n >= -1
    ensures pos + |chunk| <= |data| && chunk == data[pos .. pos + |chunk|]
    ensures n >= 0 && pos + n <= |data| ==> |chunk| == n
    ensures n >= 0 ==> |chunk| <= n
    ensures n >= 0 && pos + n > |data| ==> chunk == data[pos..]
    ensures n == -1 ==> chunk == data[pos..]
  {
    if n < 0 || |data| < pos + n then data[pos..] else data[pos .. pos + n]
  }

  /** The reader's checks on a whole file: `0xDD` header bytes equal to
      `Header`, then the rest. */
  function ParseShw(data: seq<byte>): (r: Result<Showtape, FormatError>)
  {
    if |data| < 0xDD then Failure(ShortHeader)
    else if data[..0xDD] != Header then Failure(BadHeader)
    else ParseAudio(data[0xDD..])
  }

  /** The reader's checks after the header: a 5-byte record whose tag reads
      as 2, then the audio bytes it announces. */
  function ParseAudio(b: seq<byte>): (r: Result<Showtape, FormatError>)
  {
    if |b| < 5 then Failure(ShortAudioRecord)
    else if Int8(b[4]) != 0x02 then Failure(BadAudioTag)
    else ParseAudioBytes(DecodeI32(b[..4]), b[5..])
  }

  /** `length` audio bytes, then exactly the separator. A length of -1
      reads to the end of the file, so the separator read is empty; a
      smaller one makes the read itself raise. */
  function ParseAudioBytes(length: int, e: seq<byte>): (r: Result<Showtape, FormatError>)
  {
    if length < -1 then Failure(BadReadSize)
    else if length < 0 || |e| < length + 5 || e[length .. length + 5] != Separator
    then Failure(BadSeparator)
    else ParseSignal(e[..length], e[length + 5..])
  }

  /** The reader's checks after the separator: a 5-byte record whose tag
      reads as 8, then the payload it announces. */
  function ParseSignal(audio: seq<byte>, c: seq<byte>): (r: Result<Showtape, FormatError>)
  {
    if |c| < 5 then Failure(ShortSignalRecord)
    else if Int8(c[4]) != 0x08 then Failure(BadSignalTag)
    else ParsePayload(audio, DecodeI32(c[..4]), c[5..])
  }

  /** `4 * count` payload bytes, then MessageEnd; the rest is the trailer.
      A negative count asks `f.read` for at most -4 bytes, which raises. */
  function ParsePayload(audio: seq<byte>, count: int, d: seq<byte>): (r: Result<Showtape, FormatError>)
  {
    if count < 0 then Failure(BadReadSize)
    else if |d| < 4 * count then Failure(BadSignalPayload)
    else if |d| < 4 * count + 1 || d[4 * count] != MessageEnd then Failure(BadTerminator)
    else Success(Showtape(audio, UnpackInts(d[..4 * count]), d[4 * count + 1..]))
  }

  /** `readShwFile` without the file system: successive reads through a
      cursor, each checked before the next. */
  method ReadShw(data: seq<byte>) returns (r: Result<Showtape, FormatError>)
    ensures r == ParseShw(data)
    ensures r.Success? ==> Encodable(r.value.audio, r.value.signal) && data == Layout(r.value)
  {
    var pos: nat := 0;
    var chunk := Read(data, pos, 0xDD);
    pos := pos + |chunk|;
    if |chunk| != 0xDD {
      return Failure(ShortHeader);
    }
    if chunk != Header {
      return Failure(BadHeader);
    }
    r := ReadAfterHeader(data, pos);
    if r.Success? {
      ParseSound(data);
    }
  }

  /** The reads of `readShwFile` that follow the header, from cursor `start`. */
  method ReadAfterHeader(data: seq<byte>, start: nat) returns (r: Result<Showtape, FormatError>)
    requires start <= |data|
    ensures r == ParseAudio(data[start..])
  {
    ghost var b := data[start..];
    var pos := start;
    var chunk := Read(data, pos, 5);
    pos := pos + |chunk|;
    if |chunk| != 5 {
      return Failure(ShortAudioRecord);
    }
    assert chunk == b[..5];
    var length, tag := DecodeI32(chunk[..4]), Int8(chunk[4]);
    if tag != 0x02 {
      return Failure(BadAudioTag);
    }
    assert data[pos..] == b[5..];
    r := ReadAudio(data, pos, length);
  }

  /** The audio and separator reads, from cursor `start`. */
  method ReadAudio(data: seq<byte>, start: nat, length: int) returns (r: Result<Showtape, FormatError>)
    requires start <= |data|
    ensures r == ParseAudioBytes(length, data[start..])
  {
    ghost var e := data[start..];
    if length < -1 {
      return Failure(BadReadSize);
    }
    var pos := start;
    var audio := Read(data, pos, length);
    pos := pos + |audio|;
    ghost var whole := length >= 0 && |e| >= length;
    assert whole ==> audio == e[..length] && pos == start + length;
    assert !whole ==> pos == |data|;
    var chunk := Read(data, pos, 5);
    pos := pos + |chunk|;
    if chunk != Separator {
      assert whole && |e| >= length + 5 ==> chunk == e[length .. length + 5];
      return Failure(BadSeparator);
    }
    assert whole && chunk == e[length .. length + 5];
    assert data[pos..] == e[length + 5..];
    r := ReadSignal(data, pos, audio);
  }

  /** The reads of `readShwFile` that follow the separator, from cursor `start`. */
  method ReadSignal(data: seq<byte>, start: nat, audio: seq<byte>) returns (r: Result<Showtape, FormatError>)
    requires start <= |data|
    ensures r == ParseSignal(audio, data[start..])
  {
    ghost var c := data[start..];
    var pos := start;
    var chunk := Read(data, pos, 5);
    pos := pos + |chunk|;
    if |chunk| != 5 {
      return Failure(ShortSignalRecord);
    }
    assert chunk == c[..5];
    var count, tag := DecodeI32(chunk[..4]), Int8(chunk[4]);
    if tag != 0x08 {
      return Failure(BadSignalTag);
    }
    assert data[pos..] == c[5..];
    r := ReadPayload(data, pos, audio, count);
  }

  /** The payload, MessageEnd and trailer reads, from cursor `start`. */
  method ReadPayload(data: seq<byte>, start: nat, audio: seq<byte>, count: int) returns (r: Result<Showtape, FormatError>)
    requires start <= |data|
    ensures r == ParsePayload(audio, count, data[start..])
  {
    ghost var d := data[start..];
    if count * 4 < -1 {
      return Failure(BadReadSize);
    }
    var pos := start;
    var chunk := Read(data, pos, count * 4);
    pos := pos + |chunk|;
    // struct.unpack(f'={count}i', chunk) raises unless the chunk holds
    // exactly `count` values
    if |chunk| != 4 * count {
      assert |d| < 4 * count;
      return Failure(BadSignalPayload);
    }
    assert chunk == d[..4 * count];
    var signal := UnpackInts(chunk);
    chunk := Read(data, pos, 1);
    pos := pos + |chunk|;
    if chunk != [MessageEnd] {
      assert |d| >= 4 * count + 1 ==> chunk == [d[4 * count]];
      return Failure(BadTerminator);
    }
    assert d[4 * count] == MessageEnd;
    var trailer := Read(data, pos, -1);
    assert trailer == d[4 * count + 1..];
    r := Success(Showtape(audio, signal, trailer));
  }

  /** `writeShwFile` without the file system: what the output file holds
      when every pack succeeds. */
  function EncodeShw(audio: seq<byte>, signal: seq<int>): (r: Result<seq<byte>, PackError>)
    ensures r.Success? <==> Encodable(audio, signal)
    ensures r.Success? ==> |r.value| == 221 + 5 + |audio| + 5 + 5 + 4 * |signal| + |Footer|
    ensures r.Success? ==> r.value[..221] == Header && r.value[|r.value| - |Footer|..] == Footer
    ensures r.Success? ==> r.value == Layout(Showtape(audio, signal, FooterText))
  {
    if !IsInt32(|audio|) then Failure(AudioTooLong)
    else if !IsInt32(|signal|) then Failure(TooManySamples)
    else if !AllInt32(signal) then Failure(SampleOutOfRange)
    else
      HeaderLength();
      var body := Record(|audio|, ByteTag) + audio + Separator + Record(|signal|, Int32Tag) + PackInts(signal);
      var out := Header + body + Footer;
      assert out[..221] == Header;
      assert out[|out| - |Footer|..] == Footer;
      Regroup(Header, Record(|audio|, ByteTag), audio, Separator, Record(|signal|, Int32Tag), PackInts(signal), Footer);
      assert Footer == [MessageEnd] + FooterText;
      Concat4(Record(|signal|, Int32Tag), PackInts(signal), [MessageEnd], FooterText);
      Success(out)
  }

  /** What the output file holds when a pack raises: the chunks written
      before the failing `struct.pack`. */
  function WrittenBeforeError(audio: seq<byte>, signal: seq<int>): seq<byte>
    requires !Encodable(audio, signal)
  {
    if !IsInt32(|audio|) then Header
    else if !IsInt32(|signal|) then Header + AudioPart(audio)
    else Header + AudioPart(audio) + Record(|signal|, Int32Tag)
  }

  /** `writeShwFile`: appends each chunk to the output as the tool writes it. */
  method WriteShw(audio: seq<byte>, signal: seq<int>) returns (written: seq<byte>, result: Outcome<PackError>)
    ensures result.Pass? <==> Encodable(audio, signal)
    ensures result.Pass? ==> EncodeShw(audio, signal) == Success(written)
    ensures result.Fail? ==> EncodeShw(audio, signal) == Failure(result.error)
    ensures result.Fail? ==> written == WrittenBeforeError(audio, signal) && ParseShw(written).Failure?
  {
    written := [];
    written := written + Header;
    if !IsInt32(|audio|) {
      PartialOutputRejected(audio, signal);
      return written, Fail(AudioTooLong);
    }
    ghost var audioPart := Record(|audio|, ByteTag);
    written := written + Record(|audio|, ByteTag);
    written := written + audio;
    audioPart := audioPart + audio;
    written := written + Separator;
    audioPart := audioPart + Separator;
    assert written == Header + audioPart;
    var count := |signal|;
    if !IsInt32(count) {
      PartialOutputRejected(audio, signal);
      return written, Fail(TooManySamples);
    }
    written := written + Record(count, Int32Tag);
    if !AllInt32(signal) {
      PartialOutputRejected(audio, signal);
      return written, Fail(SampleOutOfRange);
    }
    ghost var body := audioPart + Record(count, Int32Tag) + PackInts(signal);
    written := written + PackInts(signal);
    assert written == Header + body;
    written := written + Footer;
    result := Pass;
  }

  /** The signal part of a layout parses back to its values and trailer. */
  lemma SignalPartParses(audio: seq<byte>, signal: seq<int>, trailer: seq<byte>)
    requires IsInt32(|signal|) && AllInt32(signal)
    ensures ParseSignal(audio, SignalPart(signal, trailer)) == Success(Showtape(audio, signal, trailer))
  {
    var c := SignalPart(signal, trailer);
    var n := |signal|;
    DecodeEncodeI32(n);
    var d := c[5..];
    assert d == PackInts(signal) + [MessageEnd] + trailer;
    assert d[..4 * n] == PackInts(signal);
    UnpackPackInts(signal);
    assert d[4 * n] == MessageEnd;
    assert d[4 * n + 1..] == trailer;
  }

  /** The audio and signal parts of a layout parse back to the showtape. */
  lemma AudioPartParses(t: Showtape)
    requires Encodable(t.audio, t.signal)
    ensures ParseAudio(AudioPart(t.audio) + SignalPart(t.signal, t.trailer)) == Success(t)
  {
    var b := AudioPart(t.audio) + SignalPart(t.signal, t.trailer);
    var a := |t.audio|;
    DecodeEncodeI32(a);
    assert b[..4] == EncodeI32(a);
    var e := b[5..];
    assert e == t.audio + Separator + SignalPart(t.signal, t.trailer);
    assert e[..a] == t.audio;
    assert e[a .. a + 5] == Separator;
    assert e[a + 5..] == SignalPart(t.signal, t.trailer);
    SignalPartParses(t.audio, t.signal, t.trailer);
  }

  /** Every layout parses back to the showtape it was built from. */
  lemma ParseComplete(t: Showtape)
    requires Encodable(t.audio, t.signal)
    ensures ParseShw(Layout(t)) == Success(t)
  {
    var rest := AudioPart(t.audio) + SignalPart(t.signal, t.trailer);
    HeaderLength();
    assert Layout(t) == Header + rest;
    assert (Header + rest)[..0xDD] == Header && (Header + rest)[0xDD..] == rest;
    AudioPartParses(t);
  }

  /** A successful signal parse accounts for every byte it read. */
  lemma SignalPartSound(audio: seq<byte>, c: seq<byte>)
    requires ParseSignal(audio, c).Success?
    ensures var t := ParseSignal(audio, c).value;
      t.audio == audio && IsInt32(|t.signal|) && AllInt32(t.signal) && c == SignalPart(t.signal, t.trailer)
  {
    var n := DecodeI32(c[..4]);
    var d := c[5..];
    PayloadSound(audio, n, d);
    EncodeDecodeI32(c[..4]);
    SplitThree(c, 4, 5);
    assert c[4..5] == [Int32Tag];
  }

  /** A successful payload parse accounts for every byte it read. */
  lemma PayloadSound(audio: seq<byte>, count: int, d: seq<byte>)
    requires ParsePayload(audio, count, d).Success?
    ensures var t := ParsePayload(audio, count, d).value;
      t.audio == audio && |t.signal| == count && AllInt32(t.signal)
      && d == PackInts(t.signal) + [MessageEnd] + t.trailer
  {
    PackUnpackInts(d[..4 * count]);
    SplitThree(d, 4 * count, 4 * count + 1);
    assert d[4 * count .. 4 * count + 1] == [MessageEnd];
  }

  /** A successful parse after the header accounts for every byte. */
  lemma AudioPartSound(b: seq<byte>)
    requires ParseAudio(b).Success?
    ensures var t := ParseAudio(b).value;
      Encodable(t.audio, t.signal) && b == AudioPart(t.audio) + SignalPart(t.signal, t.trailer)
  {
    var a := DecodeI32(b[..4]);
    EncodeDecodeI32(b[..4]);
    var e := b[5..];
    SignalPartSound(e[..a], e[a + 5..]);
    SplitThree(e, a, a + 5);
    SplitThree(b, 4, 5);
    assert b[4..5] == [b[4]];
  }

  /** A successful parse accounts for every input byte. */
  lemma ParseSound(data: seq<byte>)
    requires ParseShw(data).Success?
    ensures Encodable(ParseShw(data).value.audio, ParseShw(data).value.signal)
    ensures data == Layout(ParseShw(data).value)
  {
    SplitAt(data, 0xDD);
    AudioPartSound(data[0xDD..]);
  }

  /** In every accepted file, including one with no values, the count field
      holds the number of values read. */
  lemma SignalCountField(data: seq<byte>)
    requires ParseShw(data).Success?
    ensures var t := ParseShw(data).value;
      var p := 0xDD + |t.audio| + 10;
      p + 4 <= |data| && DecodeI32(data[p .. p + 4]) == |t.signal|
  {
    var t := ParseShw(data).value;
    var p := 0xDD + |t.audio| + 10;
    ParseSound(data);
    HeaderLength();
    var pre := Header + AudioPart(t.audio);
    assert data == pre + SignalPart(t.signal, t.trailer);
    assert |pre| == p;
    assert data[p .. p + 4] == SignalPart(t.signal, t.trailer)[..4];
    DecodeEncodeI32(|t.signal|);
  }

  /** A successful parse yields as many values as the count field says, the
      `i`-th decoded from the four bytes at `4 * i` in the payload. */
  lemma SignalValuesDecoded(data: seq<byte>, i: nat)
    requires ParseShw(data).Success?
    requires i < |ParseShw(data).value.signal|
    ensures var t := ParseShw(data).value;
      var p := 0xDD + |t.audio| + 10;
      p + 9 + 4 * i <= |data| && DecodeI32(data[p .. p + 4]) == |t.signal|
      && t.signal[i] == DecodeI32(data[p + 5 + 4 * i .. p + 9 + 4 * i])
  {
    var b := data[0xDD..];
    var a := DecodeI32(b[..4]);
    var e := b[5..];
    var c := e[a + 5..];
    var p := 0xDD + a + 10;
    assert ParseShw(data) == ParseSignal(e[..a], c);
    SignalDecodedAt(e[..a], c, i);
    assert c == data[p..];
  }

  /** The same, within the bytes after the separator. */
  lemma SignalDecodedAt(audio: seq<byte>, c: seq<byte>, i: nat)
    requires ParseSignal(audio, c).Success?
    requires i < |ParseSignal(audio, c).value.signal|
    ensures |ParseSignal(audio, c).value.audio| == |audio|
    ensures 9 + 4 * i <= |c| && DecodeI32(c[..4]) == |ParseSignal(audio, c).value.signal|
    ensures ParseSignal(audio, c).value.signal[i] == DecodeI32(c[5 + 4 * i .. 9 + 4 * i])
  {
    var count := DecodeI32(c[..4]);
    var d := c[5..];
    assert 0 <= i < count && 4 * count <= |d|;
    var payload := d[..4 * count];
    UnpackIntsAt(payload, i);
    SliceOfPrefix(d, 4 * count, 4 * i, 4 * i + 4);
    SliceOfSuffix(c, 5, 4 * i, 4 * i + 4);
  }

  /** Writing then reading returns the same audio and signal; the trailer
      read back is the footer after its MessageEnd byte. */
  lemma WriteReadRoundTrip(audio: seq<byte>, signal: seq<int>)
    requires EncodeShw(audio, signal).Success?
    ensures ParseShw(EncodeShw(audio, signal).value) == Success(Showtape(audio, signal, FooterText))
  {
    var t := Showtape(audio, signal, FooterText);
    assert EncodeShw(audio, signal).value == Layout(t);
    ParseComplete(t);
  }

  /** A layout determines its audio and signal: one layout extended by
      extra bytes is the same showtape with a longer trailer. */
  lemma LayoutSelfDelimiting(t: Showtape, u: Showtape, extra: seq<byte>)
    requires Encodable(t.audio, t.signal) && Encodable(u.audio, u.signal)
    requires Layout(t) == Layout(u) + extra
    ensures t.audio == u.audio && t.signal == u.signal && t.trailer == u.trailer + extra
  {
    var v := Showtape(u.audio, u.signal, u.trailer + extra);
    assert Layout(v) == Layout(u) + extra;
    ParseComplete(t);
    ParseComplete(v);
  }

  /** Cutting a valid stream anywhere before its trailer makes the reader fail. */
  lemma TruncationRejected(t: Showtape, k: nat)
    requires Encodable(t.audio, t.signal)
    requires k < |Layout(t)| - |t.trailer|
    ensures ParseShw(Layout(t)[..k]).Failure?
  {
    var whole := Layout(t);
    var data := whole[..k];
    if ParseShw(data).Success? {
      var u := ParseShw(data).value;
      ParseSound(data);
      var extra := whole[k..];
      SplitAt(whole, k);
      assert |data| == 231 + |u.audio| + 4 * |u.signal| + 6 + |u.trailer|;
      assert |data| < 231 + |t.audio| + 4 * |t.signal| + 6;
      LayoutSelfDelimiting(t, u, extra);
    }
  }

  lemma Regroup(a: seq<byte>, b: seq<byte>, c: seq<byte>, d: seq<byte>, e: seq<byte>, f: seq<byte>, g: seq<byte>)
    ensures a + (b + c + d + e + f) + g == a + (b + c + d) + (e + f + g)
  {
  }

  lemma Concat4(a: seq<byte>, b: seq<byte>, c: seq<byte>, d: seq<byte>)
    ensures a + b + (c + d) == a + b + c + d
  {
  }

  lemma SplitAt(s: seq<byte>, k: nat)
    requires k <= |s|
    ensures s == s[..k] + s[k..]
  {
  }

  lemma SplitThree(s: seq<byte>, i: nat, j: nat)
    requires i <= j <= |s|
    ensures s == s[..i] + s[i..j] + s[j..]
  {
  }

  lemma SliceOfPrefix(s: seq<byte>, k: nat, lo: nat, hi: nat)
    requires lo <= hi <= k <= |s|
    ensures s[..k][lo..hi] == s[lo..hi]
  {
  }

  lemma SliceOfSuffix(s: seq<byte>, k: nat, lo: nat, hi: nat)
    requires k <= |s| && lo <= hi <= |s| - k
    ensures s[k..][lo..hi] == s[k + lo .. k + hi]
  {
  }

  /** Changing any one header byte of a valid stream makes the reader fail. */
  lemma HeaderByteChecked(t: Showtape, i: nat, b: byte)
    requires Encodable(t.audio, t.signal)
    requires i < 0xDD && b != Header[i]
    ensures ParseShw(Layout(t)[i := b]) == Failure(BadHeader)
  {
    var data := Layout(t)[i := b];
    assert data[..0xDD][i] == b;
  }

  /** The file a failed write leaves behind is not a readable showtape. */
  lemma PartialOutputRejected(audio: seq<byte>, signal: seq<int>)
    requires !Encodable(audio, signal)
    ensures ParseShw(WrittenBeforeError(audio, signal)).Failure?
  {
    var w := WrittenBeforeError(audio, signal);
    HeaderLength();
    if IsInt32(|audio|) {
      var a := |audio|;
      var rest := if IsInt32(|signal|) then AudioPart(audio) + Record(|signal|, Int32Tag) else AudioPart(audio);
      assert w == Header + rest;
      assert w[..0xDD] == Header && w[0xDD..] == rest;
      DecodeEncodeI32(a);
      assert rest[..4] == EncodeI32(a);
      assert rest[a + 5 .. a + 10] == Separator;
      if IsInt32(|signal|) {
        assert rest[a + 10..] == Record(|signal|, Int32Tag);
        DecodeEncodeI32(|signal|);
      }
    }
  }
}
