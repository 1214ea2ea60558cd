/** The AudioWorklet processor on the microphone path: it copies its input
    to its output, and at most once per 100 ms of the wall clock posts the
    current block to the main thread together with a loudness level in
    [0, 100] and two voice-activity flags. The clock is an integer number of
    milliseconds supplied with each call. The square root of the RMS is not
    computed: the level is characterised exactly as the largest integer
    k <= 100 with k * k <= meanSquare * 10^6, which over the reals equals
    `min(100, floor(sqrt(meanSquare) * 1000))` (see `LevelMatchesRms`). */
module AudioWorklet {
  import opened Common

  /** Minimum spacing of two posts, in milliseconds. */
  const SendInterval := 100
  /** A level above this counts as speaking. */
  const SpeakingLevel := 5
  /** A sample whose magnitude exceeds this counts as audio. */
  const ActivityThreshold: real := 0.01

  /** The processor's only state: when it last posted. */
  datatype Processor = Processor(lastSendTime: int)

  /** The message posted to the main thread. `level` is `None` when the
      channel is empty, where the source computes NaN. */
  datatype AudioData = AudioData(audioData: seq<real>, level: Option<int>, isSpeaking: bool, hasAudio: bool)

  /** What one call of `process` does: the processor's new state, the output
      channels, the message posted (if any) and the return value. */
  datatype Outcome = Outcome(processor: Processor, outputs: seq<seq<real>>, posted: Option<AudioData>, keepAlive: bool)

  function Abs(x: real): real {
    if x < 0.0 then -x else x
  }

  function SumSquares(s: seq<real>): (r: real)
    ensures r >= 0.0
  {
    if |s| == 0 then 0.0 else s[0] * s[0] + SumSquares(s[1..])
  }

  /** `inputChannel.some(sample => Math.abs(sample) > 0.01)`. */
  function HasAudio(s: seq<real>): (b: bool)
    ensures b <==> exists i :: 0 <= i < |s| && Abs(s[i]) > ActivityThreshold
  {
    if |s| == 0 then false
    else if Abs(s[0]) > ActivityThreshold then true
    else
      assert forall i :: 1 <= i < |s| ==> s[i] == s[1..][i - 1];
      HasAudio(s[1..])
  }

  function Sq(x: real): real {
    x * x
  }

  /** `j` is too large to be the level for this scaled mean square. */
  predicate Exceeds(scaled: real, j: int) {
    scaled < Sq(j as real)
  }

  /** The largest k <= bound whose square does not exceed `scaled`. */
  function LevelUpTo(scaled: real, bound: nat): (k: nat)
    requires scaled >= 0.0
    ensures k <= bound
    ensures Sq(k as real) <= scaled
    ensures forall j :: k < j <= bound ==> Exceeds(scaled, j)
  {
    if bound == 0 then 0
    else if Sq(bound as real) <= scaled then bound
    else LevelUpTo(scaled, bound - 1)
  }

  /** The loudness level of a block with the given mean square. */
  function Level(meanSquare: real): (k: nat)
    requires meanSquare >= 0.0
    ensures k <= 100
    ensures Sq(k as real) <= meanSquare * 1000000.0
    ensures k < 100 ==> Exceeds(meanSquare * 1000000.0, k + 1)
  {
    LevelUpTo(meanSquare * 1000000.0, 100)
  }

  lemma SquareMonotone(a: real, b: real)
    requires 0.0 <= a <= b
    ensures Sq(a) <= Sq(b)
  {
    var d := b - a;
    assert Sq(b) == Sq(a) + 2.0 * a * d + d * d;
    assert a * d >= 0.0;
  }

  lemma SquareStrictlyMonotone(a: real, b: real)
    requires 0.0 <= a < b
    ensures Sq(a) < Sq(b)
  {
    var d := b - a;
    assert Sq(b) == Sq(a) + 2.0 * a * d + d * d;
    assert a * d >= 0.0;
    assert d * d > 0.0;
  }

  /** With `rms` the non-negative square root of the mean square, the level
      is `min(100, floor(rms * 1000))`, the source's formula. */
  lemma LevelMatchesRms(meanSquare: real, rms: real)
    requires rms >= 0.0 && rms * rms == meanSquare
    ensures Level(meanSquare) == (var f := (rms * 1000.0).Floor; if f < 100 then f else 100)
  {
    var k := Level(meanSquare);
    var x := rms * 1000.0;
    var f := x.Floor;
    var scaled := meanSquare * 1000000.0;
    assert scaled == Sq(x);
    assert 0 <= f && f as real <= x < (f + 1) as real;
    SquareMonotone(f as real, x);
    SquareStrictlyMonotone(x, (f + 1) as real);
    if k < f && k < 100 {
      SquareMonotone((k + 1) as real, f as real);
      assert false;
    }
    if k > f {
      SquareMonotone((f + 1) as real, k as real);
      assert false;
    }
  }

  /** The speaking flag is set exactly when the mean square is at least
      3.6e-5, that is when the RMS reaches 0.006. */
  lemma SpeakingIffLoudEnough(meanSquare: real)
    requires meanSquare >= 0.0
    ensures Level(meanSquare) > SpeakingLevel <==> 36.0 <= meanSquare * 1000000.0
  {
    var k := Level(meanSquare);
    if k > SpeakingLevel {
      SquareMonotone(6.0, k as real);
    }
    if 36.0 <= meanSquare * 1000000.0 && k <= SpeakingLevel {
      SquareMonotone((k + 1) as real, 6.0);
      assert false;
    }
  }

  /** The level of a block, `None` (NaN in the source) for an empty one. */
  function BlockLevel(channel: seq<real>): (l: Option<int>)
    ensures l.Some? <==> |channel| > 0
    ensures l.Some? ==> 0 <= l.value <= 100
  {
    if |channel| == 0 then None
    else Some(Level(SumSquares(channel) / |channel| as real))
  }

  /** The analysis posted for one block. */
  function Analyse(channel: seq<real>): (m: AudioData)
    ensures m.audioData == channel
    ensures m.isSpeaking <==> m.level.Some? && m.level.value > SpeakingLevel
    ensures m.hasAudio <==> exists i :: 0 <= i < |channel| && Abs(channel[i]) > ActivityThreshold
    ensures m.level.Some? ==> 0 <= m.level.value <= 100
  {
    var level := BlockLevel(channel);
    AudioData(channel, level, level.Some? && level.value > SpeakingLevel, HasAudio(channel))
  }

  /** The copy loop: element i of the output takes element i of the input
      for every i the input has; writes past the output's end are dropped,
      as they are on a typed array. */
  function CopyInto(inp: seq<real>, out: seq<real>): (r: seq<real>)
    ensures |r| == |out|
    ensures forall i :: 0 <= i < |out| ==> r[i] == (if i < |inp| then inp[i] else out[i])
  {
    if |inp| >= |out| then inp[..|out|] else inp + out[|inp|..]
  }

  /** One call of `process(inputs, outputs)` at wall-clock time `now`;
      `input` and `outputs` are the channels of the first input and the
      first output. */
  function Process(p: Processor, input: seq<seq<real>>, outputs: seq<seq<real>>, now: int): (o: Outcome)
    ensures o.keepAlive
    ensures |o.outputs| == |outputs|
    ensures |input| == 0 || |outputs| == 0 ==> o.outputs == outputs && o.processor == p && o.posted.None?
    ensures |input| > 0 && |outputs| > 0 && |input[0]| == |outputs[0]| ==> o.outputs[0] == input[0]
    ensures forall c :: 1 <= c < |outputs| ==> o.outputs[c] == outputs[c]
    ensures o.posted.Some? <==> |input| > 0 && |outputs| > 0 && now - p.lastSendTime >= SendInterval
    ensures o.posted.Some? ==> o.processor.lastSendTime == now && o.posted.value == Analyse(input[0])
    ensures o.posted.None? ==> o.processor == p
  {
    if |input| > 0 && |outputs| > 0 then
      var copied := outputs[0 := CopyInto(input[0], outputs[0])];
      if now - p.lastSendTime >= SendInterval then
        Outcome(Processor(now), copied, Some(Analyse(input[0])), true)
      else
        Outcome(p, copied, None, true)
    else
      Outcome(p, outputs, None, true)
  }

  /** One render quantum as the audio thread delivers it. */
  datatype Quantum = Quantum(input: seq<seq<real>>, outputs: seq<seq<real>>, now: int)

  /** Whether `process` posts for this quantum. */
  predicate Fires(p: Processor, q: Quantum) {
    |q.input| > 0 && |q.outputs| > 0 && q.now - p.lastSendTime >= SendInterval
  }

  /** The processor after one quantum. */
  function After(p: Processor, q: Quantum): Processor {
    if Fires(p, q) then Processor(q.now) else p
  }

  /** `Fires` and `After` are what `Process` does: a quantum fires exactly
      when `process` posts, and `After` is the processor it leaves. */
  lemma FiresIsProcess(p: Processor, q: Quantum)
    ensures Fires(p, q) <==> Process(p, q.input, q.outputs, q.now).posted.Some?
    ensures After(p, q) == Process(p, q.input, q.outputs, q.now).processor
  {
  }

  /** The times at which a run of quanta posts a message. */
  function PostTimes(p: Processor, qs: seq<Quantum>): seq<int>
    decreases |qs|
  {
    if |qs| == 0 then []
    else (if Fires(p, qs[0]) then [qs[0].now] else []) + PostTimes(After(p, qs[0]), qs[1..])
  }

  /** Consecutive times at least one send interval apart. */
  predicate Spaced(ts: seq<int>) {
    forall i :: 0 <= i < |ts| - 1 ==> ts[i + 1] >= ts[i] + SendInterval
  }

  lemma SpacedCons(t: int, rest: seq<int>)
    requires Spaced(rest)
    requires |rest| > 0 ==> rest[0] >= t + SendInterval
    ensures Spaced([t] + rest)
  {
    var ts := [t] + rest;
    forall i | 0 <= i < |ts| - 1
      ensures ts[i + 1] >= ts[i] + SendInterval
    {
      if i > 0 {
        assert ts[i] == rest[i - 1] && ts[i + 1] == rest[i];
      }
    }
  }

  /** Posts are throttled: the first comes at least 100 ms after the last
      send time the processor started from, and each later one at least
      100 ms after the one before, whatever the clock does. */
  lemma {:induction false} PostsAreSpaced(p: Processor, qs: seq<Quantum>)
    ensures var ts := PostTimes(p, qs);
      (|ts| > 0 ==> ts[0] >= p.lastSendTime + SendInterval) && Spaced(ts)
    decreases |qs|
  {
    if |qs| > 0 {
      var p' := After(p, qs[0]);
      PostsAreSpaced(p', qs[1..]);
      var rest := PostTimes(p', qs[1..]);
      if Fires(p, qs[0]) {
        assert PostTimes(p, qs) == [qs[0].now] + rest;
        SpacedCons(qs[0].now, rest);
      } else {
        assert PostTimes(p, qs) == rest;
      }
    }
  }
}
