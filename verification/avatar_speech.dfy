/** The avatar-ai view that animates the avatar's mouth while the
    conversation is speaking: every fifty milliseconds it synthesises a
    chunk of speech-like PCM and hands it to the avatar; when speech stops
    it sends one chunk of silence.

    The waveform (sines, `Math.random` noise and the envelope) is a
    parameter: the model fixes what happens to whatever samples it
    produces. */
module AvatarSpeech {
  import opened Common
  import opened Pcm

  const SampleRate := 16000
  /** `Math.floor(16000 * 0.05)`: the samples in a fifty-millisecond
      chunk. */
  const SamplesPerChunk: nat := (16000.0 * 0.05).Floor
  const TickMs := 50
  /** Bytes of silence sent when speech stops. */
  const SilenceBytes := 1600

  /** A sample of the synthesised waveform converted to a 16-bit integer:
      scaled, floored, then clamped to the symmetric range. */
  function IntSample(x: real): (v: int)
    ensures -SampleMax <= v <= SampleMax
    ensures -1.0 <= x <= 1.0 ==> v == (x * 32767.0).Floor
  {
    ClampSample((x * 32767.0).Floor)
  }

  /** The waveform's first `SamplesPerChunk` samples, as integers. */
  function ChunkSamples(wave: nat -> real): (xs: seq<int>)
    ensures |xs| == SamplesPerChunk
    ensures InSampleRange(xs)
  {
    var xs := seq(SamplesPerChunk, i requires 0 <= i < SamplesPerChunk => IntSample(wave(i)));
    assert forall i :: 0 <= i < |xs| ==> xs[i] == IntSample(wave(i));
    xs
  }

  /** `generateSpeechAudio`: one chunk, two little-endian bytes per
      sample. */
  function SpeechChunk(wave: nat -> real): (bytes: seq<byte>)
    ensures |bytes| == 2 * SamplesPerChunk == SilenceBytes
    ensures Unpack(bytes) == ChunkSamples(wave)
    ensures forall i :: 0 <= i < SamplesPerChunk ==>
      DecodeSample(bytes[2 * i], bytes[2 * i + 1]) == IntSample(wave(i))
  {
    var xs := ChunkSamples(wave);
    PackUnpack(xs);
    Pack(xs)
  }

  /** What the view sees of the avatar component it exposes on `window`:
      whether the handle is there, and the component's connection flag. */
  datatype Handle = Missing | Exposed(connected: bool)

  /** The view's inputs and state: the `isSpeaking` prop and the avatar
      connection it was last told about. */
  datatype View = View(speaking: bool, avatarConnected: bool)

  /** One tick of the speech interval, which runs only while speaking and
      connected: a chunk is handed to the avatar when its handle is there
      and reports connected. */
  function Tick(v: View, h: Handle, wave: nat -> real): (out: Option<seq<byte>>)
    ensures out.Some? <==> v.speaking && v.avatarConnected && h.Exposed? && h.connected
    ensures out.Some? ==> out.value == SpeechChunk(wave)
  {
    if v.speaking && v.avatarConnected && h.Exposed? && h.connected then Some(SpeechChunk(wave)) else None
  }

  /** The silence effect, which runs when the speaking flag or the
      connection changes: silence is sent when the view is connected but
      not speaking and the handle is there. */
  function Update(v: View, next: View, h: Handle): (out: Option<seq<byte>>)
    ensures out.Some? <==> v != next && !next.speaking && next.avatarConnected && h.Exposed?
    ensures out.Some? ==> out.value == Zeros(SilenceBytes)
  {
    if v != next && !next.speaking && next.avatarConnected && h.Exposed? then Some(Zeros(SilenceBytes)) else None
  }

  /** Speech and silence never overlap: in a state where the silence
      effect sends, the interval sends nothing, and the other way round. */
  lemma SpeechAndSilenceExclusive(v: View, next: View, h: Handle, wave: nat -> real)
    ensures Update(v, next, h).Some? ==> Tick(next, h, wave).None?
    ensures Tick(next, h, wave).Some? ==> Update(v, next, h).None?
  {
  }

  /** A speech chunk and a silence chunk are the same size, and the
      silence decodes to zero samples, the centre of the range the speech
      chunk's samples lie in. */
  lemma SilenceMatchesChunk(wave: nat -> real)
    ensures |Zeros(SilenceBytes)| == |SpeechChunk(wave)|
    ensures Unpack(Zeros(SilenceBytes)) == seq(SamplesPerChunk, i => 0)
  {
    var z := Zeros(SilenceBytes);
    var u := Unpack(z);
    forall i | 0 <= i < SamplesPerChunk
      ensures u[i] == 0
    {
      assert z[2 * i] == 0 && z[2 * i + 1] == 0;
    }
  }
}
