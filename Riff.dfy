/** The one repair the tool makes to the embedded audio: the ckSize field of
    the RIFF header (Microsoft/IBM Multimedia Programming Interface and Data
    Specifications 1.0), a 32-bit size at offset 4 that should be the file
    length minus the 8 bytes of ckID and ckSize. */
module Riff {
  import opened Wrappers
  import opened LittleEndian

  /** The ckID "RIFF". */
  const Magic: seq<byte> := [0x52, 0x49, 0x46, 0x46]

  datatype WavError =
    | NotRiff         // the first four bytes are not "RIFF"
    | ShortSizeField  // `struct.unpack('=i', ...)` of fewer than 4 bytes raises
    | SizeOverflow    // `struct.pack('=i', len - 8)` of a length past 2^31 + 7 raises

  /** The ckSize field as `struct.unpack('=i', a[4:8])` reads it. */
  function DeclaredSize(a: seq<byte>): int
    requires |a| >= 8
  {
    DecodeI32(a[4..8])
  }

  /** The declared size accounts for the whole blob. */
  predicate SizeConsistent(a: seq<byte>) {
    |a| >= 8 && DeclaredSize(a) + 8 == |a|
  }

  /** `validateWavFile` as a value: the blob with ckSize rewritten when it
      disagrees with the length. */
  function RepairRiff(a: seq<byte>): (r: Result<seq<byte>, WavError>)
    ensures r.Success? <==> |a| >= 8 && a[..4] == Magic && (SizeConsistent(a) || IsInt32(|a| - 8))
    ensures r.Success? ==> |r.value| == |a| && r.value[..4] == Magic && SizeConsistent(r.value)
    ensures r.Success? ==> forall i :: 0 <= i < |a| && !(4 <= i < 8) ==> r.value[i] == a[i]
    ensures r.Success? && SizeConsistent(a) ==> r.value == a
  {
    if |a| < 4 || a[..4] != Magic then Failure(NotRiff)
    else if |a| < 8 then Failure(ShortSizeField)
    else if DeclaredSize(a) + 8 == |a| then Success(a)
    else if !IsInt32(|a| - 8) then Failure(SizeOverflow)
    else
      var b := a[..4] + EncodeI32(|a| - 8) + a[8..];
      assert b[4..8] == EncodeI32(|a| - 8);
      DecodeEncodeI32(|a| - 8);
      Success(b)
  }

  /** `validateWavFile`: copies the blob into a mutable buffer and overwrites
      bytes 4..7 in place when the declared size is wrong. */
  method ValidateWav(audio: seq<byte>) returns (r: Result<seq<byte>, WavError>)
    ensures r == RepairRiff(audio)
  {
    if |audio| < 4 || audio[..4] != Magic {
      return Failure(NotRiff);
    }
    if |audio| < 8 {
      return Failure(ShortSizeField);
    }
    var size := |audio|;
    var declared := DecodeI32(audio[4..8]);
    if declared + 8 != size {
      if !IsInt32(size - 8) {
        return Failure(SizeOverflow);
      }
      var chunk := EncodeI32(size - 8);
      var buf := new byte[size](i requires 0 <= i < size => audio[i]);
      buf[4], buf[5], buf[6], buf[7] := chunk[0], chunk[1], chunk[2], chunk[3];
      assert buf[..] == audio[..4] + chunk + audio[8..];
      return Success(buf[..]);
    }
    return Success(audio);
  }

  /** Repairing a repaired blob changes nothing. */
  lemma RepairIdempotent(a: seq<byte>)
    requires RepairRiff(a).Success?
    ensures RepairRiff(RepairRiff(a).value) == RepairRiff(a)
  {
  }

  /** The repaired size field reads back as the length minus 8. */
  lemma RepairedSizeField(a: seq<byte>)
    requires RepairRiff(a).Success?
    ensures DeclaredSize(RepairRiff(a).value) == |a| - 8
    ensures !SizeConsistent(a) ==> RepairRiff(a).value[4..8] == EncodeI32(|a| - 8)
  {
    if !SizeConsistent(a) {
      var b := RepairRiff(a).value;
      EncodeDecodeI32(b[4..8]);
    }
  }
}
