/** The two conversions, `convertToShz` and `convertToShw`: read one
    container, repair the audio's size field, write the other. The archive
    container is reduced to the audio bytes and signal values it stores;
    its zip and JSON encoding is not part of this model. */
module Convert {
  import opened Wrappers
  import opened LittleEndian
  import opened ShwFormat
  import opened Riff

  /** What the archive container holds: the `audioData.wav` entry and the
      values of the JSON array inside the `signalData.zip` entry. */
  datatype ShzContents = ShzContents(audio: seq<byte>, signal: seq<int>)

  datatype ConvertError =
    | Format(format: FormatError)
    | Wav(wav: WavError)
    | Pack(pack: PackError, partial: seq<byte>)  // with what the output file holds

  /** `convertToShz` up to the archive write: read, then repair the audio. */
  function ConvertToShz(shw: seq<byte>): (r: Result<ShzContents, ConvertError>)
    ensures r.Success? <==> ParseShw(shw).Success? && RepairRiff(ParseShw(shw).value.audio).Success?
    ensures r.Success? ==> ParseShw(shw).Success? && r.value.signal == ParseShw(shw).value.signal
    ensures r.Success? ==> RepairRiff(ParseShw(shw).value.audio) == Success(r.value.audio)
  {
    var t :- ParseShw(shw).MapFailure(e => Format(e));
    var audio :- RepairRiff(t.audio).MapFailure(e => Wav(e));
    Success(ShzContents(audio, t.signal))
  }

  /** `convertToShw` after the archive read: repair the audio, then encode.
      A failing pack leaves the chunks written before it in the output file,
      and the failure carries them. */
  function ConvertToShw(z: ShzContents): (r: Result<seq<byte>, ConvertError>)
    ensures r.Success? <==> RepairRiff(z.audio).Success? && Encodable(RepairRiff(z.audio).value, z.signal)
    ensures r.Success? ==>
      RepairRiff(z.audio).Success? && EncodeShw(RepairRiff(z.audio).value, z.signal) == Success(r.value)
    ensures r.Failure? && r.error.Pack? ==>
      RepairRiff(z.audio).Success? && !Encodable(RepairRiff(z.audio).value, z.signal)
      && EncodeShw(RepairRiff(z.audio).value, z.signal) == Failure(r.error.pack)
      && r.error.partial == WrittenBeforeError(RepairRiff(z.audio).value, z.signal)
      && ParseShw(r.error.partial).Failure?
  {
    var audio :- RepairRiff(z.audio).MapFailure(e => Wav(e));
    match EncodeShw(audio, z.signal)
    case Success(out) => Success(out)
    case Failure(e) =>
      PartialOutputRejected(audio, z.signal);
      Failure(Pack(e, WrittenBeforeError(audio, z.signal)))
  }

  /** Converting a binary container to the archive container and back always
      succeeds, and the result reads back to the repaired audio, the same
      signal and the writer's footer text. */
  lemma ShwShzShwPreservesPayload(shw: seq<byte>)
    requires ConvertToShz(shw).Success?
    ensures ConvertToShw(ConvertToShz(shw).value).Success?
    ensures ParseShw(ConvertToShw(ConvertToShz(shw).value).value)
      == Success(Showtape(ConvertToShz(shw).value.audio, ParseShw(shw).value.signal, FooterText))
  {
    var t := ParseShw(shw).value;
    var z := ConvertToShz(shw).value;
    RepairIdempotent(t.audio);
    assert RepairRiff(z.audio) == Success(z.audio);
    assert EncodeShw(z.audio, z.signal).Success?;
    WriteReadRoundTrip(z.audio, z.signal);
  }

  /** A file this tool wrote (footer text as trailer) whose audio needs no
      repair comes back byte for byte after converting there and back. */
  lemma ToolOutputReproduced(shw: seq<byte>)
    requires ParseShw(shw).Success?
    requires ParseShw(shw).value.trailer == FooterText
    requires RepairRiff(ParseShw(shw).value.audio) == Success(ParseShw(shw).value.audio)
    ensures ConvertToShz(shw).Success?
    ensures ConvertToShw(ConvertToShz(shw).value) == Success(shw)
  {
    var t := ParseShw(shw).value;
    ParseSound(shw);
    ShwShzShwPreservesPayload(shw);
    var out := ConvertToShw(ConvertToShz(shw).value).value;
    assert ParseShw(out) == Success(t);
    ParseSound(out);
  }
}
