/** The three effect stages of the plugin, one sample at a time, as
    functions on a value snapshot of the processor: the overdrive transfer
    function, the chorus/flanger stage and the delay stage. The two
    delay-line stages share the circular buffers, the write head and the
    feedback pair, exactly as the processor's fields are shared. */
module Effects {
  import opened DspMath
  import opened DelayLine

  datatype OverdriveParams = OverdriveParams(
    enabled: bool, drive: real, range: real, blend: real, volume: real)

  /** The "type" choice of the modulation stage: index 0 is chorus, any
      other index flanger. */
  datatype ModulationKind = Chorus | Flanger

  datatype ModulationParams = ModulationParams(
    enabled: bool, dryWet: real, depth: real, rate: real, offset: real,
    feedback: real, kind: ModulationKind)

  datatype DelayParams = DelayParams(
    enabled: bool, dryWet: real, feedback: real, time: real)

  /** The parameter values of one block, read once per block. */
  datatype Settings = Settings(
    overdrive: OverdriveParams, modulation: ModulationParams, delay: DelayParams)

  /** The ranges the chorus parameters are registered with. */
  predicate ModulationInRange(p: ModulationParams)
  {
    && 0.0 <= p.dryWet <= 1.0
    && 0.0 <= p.depth <= 1.0
    && 0.0 <= p.rate <= 10.0
    && 0.0 <= p.offset <= 1.0
    && 0.0 <= p.feedback <= 0.98
  }

  /** The ranges the delay parameters are registered with. */
  predicate DelayInRange(p: DelayParams)
  {
    && 0.0 <= p.dryWet <= 1.0
    && 0.0 <= p.feedback <= 0.98
    && 0.0 <= p.time <= 2.0
  }

  predicate SettingsInRange(s: Settings)
  {
    ModulationInRange(s.modulation) && DelayInRange(s.delay)
  }

  /** Length of each circular buffer for a sample rate: the rate times the
      longest delay of 2 seconds (`MAX_DELAY_TIME`), converted to `int`;
      for a non-negative rate, the floor of twice the rate. */
  function BufferLength(sampleRate: real): (n: int)
    ensures 0.0 <= sampleRate ==> n == (sampleRate * 2.0).Floor
    ensures 0.5 <= sampleRate ==> 1 <= n
  {
    Trunc(sampleRate * 2.0)
  }

  // ---------------------------------------------------------------------
  // Overdrive

  /** The overdrive stage on one sample. Disabled, it passes the sample
      through; with blend 0 only the clean path remains, halved and scaled
      by the volume; with blend 1 only the arctangent-shaped path remains. */
  function Overdrive(x: real, p: OverdriveParams, atan: real -> real): (y: real)
    ensures !p.enabled ==> y == x
    ensures p.enabled && p.blend == 0.0 ==> y == x * p.volume / 2.0
    ensures p.enabled && p.blend == 1.0 ==>
      y == (2.0 / Pi) * atan(x * p.drive * p.range) * p.volume / 2.0
  {
    if !p.enabled then x
    else
      var driven := x * p.drive * p.range;
      (((2.0 / Pi) * atan(driven)) * p.blend + x * (1.0 - p.blend)) / 2.0 * p.volume
  }

  // ---------------------------------------------------------------------
  // Delay-time mapping of the modulation stage

  /** An LFO value of [-1, 1] scaled by a depth of [0, 1] stays in [-1, 1]. */
  lemma DepthScaled(lfo: real, depth: real)
    requires -1.0 <= lfo <= 1.0 && 0.0 <= depth <= 1.0
    ensures -1.0 <= lfo * depth <= 1.0
  {
    ScaleWithin(lfo, depth);
  }

  /** The delay time, in seconds, that the depth-scaled LFO value is mapped
      to: [0.005, 0.03] for chorus and [0.001, 0.005] for flanger. */
  function ModulationDelayTime(scaledLfo: real, kind: ModulationKind): (seconds: real)
    requires -1.0 <= scaledLfo <= 1.0
    ensures kind == Chorus ==> 0.005 <= seconds <= 0.03
    ensures kind == Flanger ==> 0.001 <= seconds <= 0.005
  {
    if kind == Chorus then JMap(scaledLfo, -1.0, 1.0, 0.005, 0.03)
    else JMap(scaledLfo, -1.0, 1.0, 0.001, 0.005)
  }

  /** The buffer prepared for a sample rate holds the longest delay up to
      less than one sample. */
  lemma BufferLengthFits(sampleRate: real)
    requires 0.0 < sampleRate
    ensures sampleRate * 2.0 < BufferLength(sampleRate) as real + 1.0
  {
  }

  /** The delay parameter, in samples, lies between 0 and the longest
      delay. */
  lemma DelayTimeFits(sampleRate: real, seconds: real)
    requires 0.0 < sampleRate
    requires 0.0 <= seconds <= 2.0
    ensures 0.0 <= sampleRate * seconds <= sampleRate * 2.0
  {
    MulMonotone(sampleRate, 0.0, seconds);
    MulMonotone(sampleRate, seconds, 2.0);
  }

  /** The delay parameter converted to samples: at most the longest delay. */
  function DelaySamples(sampleRate: real, seconds: real): (d: real)
    requires 0.0 < sampleRate && 0.0 <= seconds <= 2.0
    ensures 0.0 <= d <= sampleRate * 2.0
    ensures seconds == 0.0 ==> d == 0.0
    ensures seconds == 2.0 ==> d == sampleRate * 2.0
  {
    DelayTimeFits(sampleRate, seconds);
    sampleRate * seconds
  }

  /** A modulation delay (at most 0.03 s) never exceeds such a buffer. */
  lemma ModulationOffsetFits(sampleRate: real, seconds: real, length: int)
    requires 0.0 < sampleRate && 1 <= length
    requires sampleRate * 2.0 < length as real + 1.0
    requires 0.0 <= seconds <= 0.03
    ensures 0.0 <= sampleRate * seconds <= length as real
  {
    var len := length as real;
    var d := sampleRate * seconds;
    MulMonotone(sampleRate, 0.0, seconds);
    MulMonotone(sampleRate, seconds, 0.03);
    assert 0.0 <= d <= sampleRate * 0.03;
    assert sampleRate * 0.03 <= len by {
      assert sampleRate * 0.03 == (sampleRate * 2.0) * 0.015;
      assert 0.015 * len + 0.015 <= len;
    }
  }

  // ---------------------------------------------------------------------
  // Processor snapshot

  /** The processor's state as values: both circular buffers, the shared
      write head and feedback pair, the LFO phase, the delay stage's
      delay-in-samples and read head, the sample rate, and the two audio
      channels of the block being processed. */
  datatype State = State(
    circularLeft: seq<real>, circularRight: seq<real>,
    writeHead: int,
    feedbackLeft: real, feedbackRight: real,
    lfoPhase: real,
    delayTimeInSamples: real, delayReadHead: real,
    sampleRate: real,
    left: seq<real>, right: seq<real>)

  /** Two non-empty buffers of one length that hold the longest delay up to
      less than one sample, a write head inside them, and two audio channels
      of one block length. */
  predicate WellFormed(s: State)
  {
    && 0.0 < s.sampleRate
    && 1 <= |s.circularLeft|
    && s.sampleRate * 2.0 < |s.circularLeft| as real + 1.0
    && |s.circularRight| == |s.circularLeft|
    && 0 <= s.writeHead < |s.circularLeft|
    && |s.left| == |s.right|
  }

  /** The sample interpolated at a read position: `lin_interp` of the
      two taps by the fractional weight. */
  function ReadAt(buffer: seq<real>, pos: real): (r: real)
    requires 1 <= |buffer| && -1.0 < pos < |buffer| as real
    ensures var t := Locate(pos, |buffer|);
      0 <= t.x < |buffer| && 0 <= t.x1 < |buffer| &&
      (0.0 <= pos ==> Min(buffer[t.x], buffer[t.x1]) <= r <= Max(buffer[t.x], buffer[t.x1]))
  {
    LocateInBounds(pos, |buffer|);
    var t := Locate(pos, |buffer|);
    LinInterp(buffer[t.x], buffer[t.x1], t.frac)
  }

  /** The interpolated sample `delay` samples behind the write head. */
  function Tapped(buffer: seq<real>, writeHead: int, delay: real): (r: real)
    requires 0 <= writeHead < |buffer|
    requires 0.0 <= delay < |buffer| as real + 1.0
    ensures delay == 0.0 ==> r == buffer[writeHead]
  {
    ReadPositionNearRange(writeHead, delay, |buffer|);
    ReadAt(buffer, ReadPosition(writeHead, delay, |buffer|))
  }

  /** For a delay of at most the buffer length the tapped sample lies
      between the two samples it interpolates, and for a whole number of
      samples it is exactly the sample that many places behind the write
      head. */
  lemma TappedBetween(buffer: seq<real>, writeHead: int, delay: real)
    requires 0 <= writeHead < |buffer|
    requires 0.0 <= delay <= |buffer| as real
    ensures var t := Locate(ReadPosition(writeHead, delay, |buffer|), |buffer|);
      && 0 <= t.x < |buffer| && 0 <= t.x1 < |buffer|
      && Min(buffer[t.x], buffer[t.x1]) <= Tapped(buffer, writeHead, delay)
      && Tapped(buffer, writeHead, delay) <= Max(buffer[t.x], buffer[t.x1])
    ensures delay == delay.Floor as real ==>
      Tapped(buffer, writeHead, delay) == buffer[(writeHead - delay.Floor) % |buffer|]
  {
    var length := |buffer|;
    ReadTapsInBounds(writeHead, delay, length);
    ReadTapsExact(writeHead, delay, length);
    if delay == delay.Floor as real {
      WholeDelayIndex(writeHead, delay.Floor, length);
    }
  }

  /** A delay of zero reads the slot at the write head itself. */
  lemma TappedZero(buffer: seq<real>, writeHead: int)
    requires 0 <= writeHead < |buffer|
    ensures Tapped(buffer, writeHead, 0.0) == buffer[writeHead]
  {
    TappedBetween(buffer, writeHead, 0.0);
    ModUnique(writeHead, |buffer|, 0, writeHead);
  }

  /** A whole-sample delay puts the first tap exactly that many places behind
      the write head, with weight 0. */
  lemma WholeDelayIndex(writeHead: int, n: int, length: int)
    requires 0 <= writeHead < length && 0 <= n <= length
    ensures var t := Locate(ReadPosition(writeHead, n as real, length), length);
      t.x == (writeHead - n) % length && t.frac == 0.0
  {
    if writeHead - n >= 0 {
      ModUnique(writeHead - n, length, 0, writeHead - n);
    } else {
      ModUnique(writeHead - n, length, -1, writeHead - n + length);
    }
  }

  /** The write half of a delay-line stage: sample `i` of each channel
      plus that channel's feedback is written at the write head. Only that
      slot of each buffer changes. */
  function WriteStep(s: State, i: int): (r: State)
    requires WellFormed(s) && 0 <= i < |s.left|
    ensures WellFormed(r)
    ensures |r.circularLeft| == |s.circularLeft|
    ensures r.circularLeft[s.writeHead] == s.left[i] + s.feedbackLeft
    ensures r.circularRight[s.writeHead] == s.right[i] + s.feedbackRight
    ensures forall k :: 0 <= k < |s.circularLeft| && k != s.writeHead ==>
      r.circularLeft[k] == s.circularLeft[k] && r.circularRight[k] == s.circularRight[k]
    ensures r.(circularLeft := s.circularLeft, circularRight := s.circularRight) == s
  {
    s.(circularLeft := s.circularLeft[s.writeHead := s.left[i] + s.feedbackLeft],
       circularRight := s.circularRight[s.writeHead := s.right[i] + s.feedbackRight])
  }

  /** The read half of a delay-line stage: each buffer is read at its read
      position, the read samples times `gain` become the feedback pair, the
      write head advances one place around the ring, and the read samples
      are mixed into sample `i` of the block by `dryWet`. The buffers and
      every other sample stay as they are. */
  function ReadStep(s: State, i: int, posLeft: real, posRight: real,
                    gain: real, dryWet: real): (r: State)
    requires WellFormed(s) && 0 <= i < |s.left|
    requires -1.0 < posLeft < |s.circularLeft| as real
    requires -1.0 < posRight < |s.circularLeft| as real
    ensures WellFormed(r)
    ensures r.circularLeft == s.circularLeft && r.circularRight == s.circularRight
    ensures r.writeHead == Advance(s.writeHead, |s.circularLeft|)
    ensures r.sampleRate == s.sampleRate && r.lfoPhase == s.lfoPhase
    ensures r.delayTimeInSamples == s.delayTimeInSamples
    ensures r.delayReadHead == s.delayReadHead
    ensures |r.left| == |r.right| == |s.left|
    ensures forall k :: 0 <= k < |s.left| && k != i ==>
      r.left[k] == s.left[k] && r.right[k] == s.right[k]
    ensures dryWet == 0.0 ==> r.left == s.left && r.right == s.right
  {
    var wetLeft := ReadAt(s.circularLeft, posLeft);
    var wetRight := ReadAt(s.circularRight, posRight);
    s.(feedbackLeft := wetLeft * gain, feedbackRight := wetRight * gain,
       writeHead := Advance(s.writeHead, |s.circularLeft|),
       left := s.left[i := Mix(s.left[i], wetLeft, dryWet)],
       right := s.right[i := Mix(s.right[i], wetRight, dryWet)])
  }

  /** A state is the read step's result when it has the read step's
      buffers, scalars and channels field by field. */
  lemma ReadStepFields(s: State, i: int, posLeft: real, posRight: real,
                       gain: real, dryWet: real, wetLeft: real, wetRight: real, r: State)
    requires WellFormed(s) && 0 <= i < |s.left|
    requires -1.0 < posLeft < |s.circularLeft| as real
    requires -1.0 < posRight < |s.circularLeft| as real
    requires wetLeft == ReadAt(s.circularLeft, posLeft)
    requires wetRight == ReadAt(s.circularRight, posRight)
    requires r.circularLeft == s.circularLeft && r.circularRight == s.circularRight
    requires r.writeHead == Advance(s.writeHead, |s.circularLeft|)
    requires r.feedbackLeft == wetLeft * gain && r.feedbackRight == wetRight * gain
    requires r.lfoPhase == s.lfoPhase && r.sampleRate == s.sampleRate
    requires r.delayTimeInSamples == s.delayTimeInSamples
    requires r.delayReadHead == s.delayReadHead
    requires r.left == s.left[i := Mix(s.left[i], wetLeft, dryWet)]
    requires r.right == s.right[i := Mix(s.right[i], wetRight, dryWet)]
    ensures r == ReadStep(s, i, posLeft, posRight, gain, dryWet)
  {
  }

  /** The delay, in samples, of the modulation stage for an LFO phase: the
      sample rate times the delay time the depth-scaled LFO output maps to,
      never more than a buffer that holds the longest delay up to less than
      one sample. */
  function ModulationDelay(sampleRate: real, length: int, phase: real,
                           p: ModulationParams, sin: real -> real): (d: real)
    requires 0.0 < sampleRate && 1 <= length && sampleRate * 2.0 < length as real + 1.0
    requires ModulationInRange(p)
    ensures 0.0 <= d <= length as real
  {
    var lfo := ClampUnit(sin(2.0 * Pi * phase));
    DepthScaled(lfo, p.depth);
    var seconds := ModulationDelayTime(lfo * p.depth, p.kind);
    ModulationOffsetFits(sampleRate, seconds, length);
    sampleRate * seconds
  }

  /** A phase of [0, 1] advanced by rate / sample rate, with the rate at
      most the sample rate, wraps back into [0, 1]. */
  lemma PhaseAdvanceInRange(phase: real, rate: real, sampleRate: real)
    requires 0.0 < sampleRate && 0.0 <= rate
    ensures 0.0 <= phase <= 1.0 && rate <= sampleRate ==>
      0.0 <= WrapPhase(phase + rate / sampleRate) <= 1.0
  {
    var step := rate / sampleRate;
    assert step * sampleRate == rate;
    assert 0.0 <= step;
    assert (1.0 - step) * sampleRate == sampleRate - rate;
  }

  /** The values a read step produces: the samples read at the two
      positions, times the gain, as the feedback pair, and mixed with the
      input as sample `i`. */
  lemma ReadStepOutput(s: State, i: int, posLeft: real, posRight: real,
                       gain: real, dryWet: real)
    requires WellFormed(s) && 0 <= i < |s.left|
    requires -1.0 < posLeft < |s.circularLeft| as real
    requires -1.0 < posRight < |s.circularLeft| as real
    ensures var r := ReadStep(s, i, posLeft, posRight, gain, dryWet);
      && r.feedbackLeft == ReadAt(s.circularLeft, posLeft) * gain
      && r.feedbackRight == ReadAt(s.circularRight, posRight) * gain
      && r.left[i] == Mix(s.left[i], ReadAt(s.circularLeft, posLeft), dryWet)
      && r.right[i] == Mix(s.right[i], ReadAt(s.circularRight, posRight), dryWet)
  {
  }

  /** The chorus/flanger stage on sample `i`: the input is written, the
      LFO drives the left read position from its phase and the right one
      from the phase shifted by the offset, the phase advances by rate /
      sample rate, and both buffers are read, fed back and mixed. A phase
      in [0, 1] stays there when the rate does not exceed the sample rate. */
  function ChorusStage(s: State, i: int, p: ModulationParams, sin: real -> real): (r: State)
    requires WellFormed(s) && 0 <= i < |s.left| && ModulationInRange(p)
    ensures WellFormed(r)
    ensures r.sampleRate == s.sampleRate && |r.left| == |s.left|
    ensures r.delayTimeInSamples == s.delayTimeInSamples
    ensures r.delayReadHead == s.delayReadHead
    ensures r.writeHead == Advance(s.writeHead, |s.circularLeft|)
    ensures |r.circularLeft| == |s.circularLeft|
    ensures r.circularLeft[s.writeHead] == s.left[i] + s.feedbackLeft
    ensures r.circularRight[s.writeHead] == s.right[i] + s.feedbackRight
    ensures forall k :: 0 <= k < |s.circularLeft| && k != s.writeHead ==>
      r.circularLeft[k] == s.circularLeft[k] && r.circularRight[k] == s.circularRight[k]
    ensures 0.0 <= s.lfoPhase <= 1.0 && p.rate <= s.sampleRate ==>
      0.0 <= r.lfoPhase <= 1.0
    ensures p.dryWet == 0.0 ==> r.left == s.left && r.right == s.right
  {
    var length := |s.circularLeft|;
    PhaseAdvanceInRange(s.lfoPhase, p.rate, s.sampleRate);
    ChorusRead(s, i, p,
               ModulationDelay(s.sampleRate, length, s.lfoPhase, p, sin),
               ModulationDelay(s.sampleRate, length, WrapPhase(s.lfoPhase + p.offset), p, sin))
  }

  /** The chorus stage reads at the delays the LFO maps the phase and the
      offset phase to. */
  lemma ChorusStageDelays(s: State, i: int, p: ModulationParams, sin: real -> real)
    requires WellFormed(s) && 0 <= i < |s.left| && ModulationInRange(p)
    ensures var length := |s.circularLeft|;
      ChorusStage(s, i, p, sin)
      == ChorusRead(s, i, p, ModulationDelay(s.sampleRate, length, s.lfoPhase, p, sin),
                    ModulationDelay(s.sampleRate, length, WrapPhase(s.lfoPhase + p.offset), p, sin))
  {
  }

  /** The chorus stage once the LFO has given the two delays: the input is
      written, the phase advances, and both buffers are read that many
      samples behind the write head, fed back and mixed. */
  function ChorusRead(s: State, i: int, p: ModulationParams,
                      delayLeft: real, delayRight: real): (r: State)
    requires WellFormed(s) && 0 <= i < |s.left| && ModulationInRange(p)
    requires 0.0 <= delayLeft <= |s.circularLeft| as real
    requires 0.0 <= delayRight <= |s.circularLeft| as real
    ensures WellFormed(r)
    ensures r.circularLeft == WriteStep(s, i).circularLeft
    ensures r.circularRight == WriteStep(s, i).circularRight
    ensures r.lfoPhase == WrapPhase(s.lfoPhase + p.rate / s.sampleRate)
  {
    var length := |s.circularLeft|;
    ReadPositionNearRange(s.writeHead, delayLeft, length);
    ReadPositionNearRange(s.writeHead, delayRight, length);
    ReadStep(WriteStep(s, i).(lfoPhase := WrapPhase(s.lfoPhase + p.rate / s.sampleRate)), i,
             ReadPosition(s.writeHead, delayLeft, length),
             ReadPosition(s.writeHead, delayRight, length), p.feedback, p.dryWet)
  }

  /** The chorus read is the read step at the two positions behind the
      write head, after the write and the phase advance. */
  lemma ChorusReadSteps(s: State, i: int, p: ModulationParams,
                        delayLeft: real, delayRight: real)
    requires WellFormed(s) && 0 <= i < |s.left| && ModulationInRange(p)
    requires 0.0 <= delayLeft <= |s.circularLeft| as real
    requires 0.0 <= delayRight <= |s.circularLeft| as real
    ensures var length := |s.circularLeft|;
      ChorusRead(s, i, p, delayLeft, delayRight)
      == ReadStep(WriteStep(s, i).(lfoPhase := WrapPhase(s.lfoPhase + p.rate / s.sampleRate)), i,
                  ReadPosition(s.writeHead, delayLeft, length),
                  ReadPosition(s.writeHead, delayRight, length), p.feedback, p.dryWet)
  {
  }

  /** The delay stage on sample `i`: the input is written, the shared read
      head is set `delayTimeInSamples` behind the write head, and both
      buffers are read there, fed back and mixed. The read head stays
      within one sample below the ring, and inside [0, length) when the
      delay fits the buffer. */
  function DelayStage(s: State, i: int, p: DelayParams): (r: State)
    requires WellFormed(s) && 0 <= i < |s.left| && DelayInRange(p)
    requires 0.0 <= s.delayTimeInSamples <= s.sampleRate * 2.0
    ensures WellFormed(r)
    ensures r.sampleRate == s.sampleRate && |r.left| == |s.left|
    ensures r.delayTimeInSamples == s.delayTimeInSamples && r.lfoPhase == s.lfoPhase
    ensures r.writeHead == Advance(s.writeHead, |s.circularLeft|)
    ensures |r.circularLeft| == |s.circularLeft|
    ensures r.circularLeft[s.writeHead] == s.left[i] + s.feedbackLeft
    ensures r.circularRight[s.writeHead] == s.right[i] + s.feedbackRight
    ensures forall k :: 0 <= k < |s.circularLeft| && k != s.writeHead ==>
      r.circularLeft[k] == s.circularLeft[k] && r.circularRight[k] == s.circularRight[k]
    ensures -1.0 < r.delayReadHead < |s.circularLeft| as real
    ensures s.delayTimeInSamples <= |s.circularLeft| as real ==>
      0.0 <= r.delayReadHead
    ensures p.dryWet == 0.0 ==> r.left == s.left && r.right == s.right
  {
    var w := WriteStep(s, i);
    var readHead := ReadPosition(s.writeHead, s.delayTimeInSamples, |s.circularLeft|);
    ReadPositionNearRange(s.writeHead, s.delayTimeInSamples, |s.circularLeft|);
    ReadStep(w.(delayReadHead := readHead), i, readHead, readHead, p.feedback, p.dryWet)
  }

  /** What the delay stage reads, feeds back and outputs: the samples
      `delayTimeInSamples` behind the write head in the buffers as just
      written, times the feedback gain, and mixed with the input by the
      dry/wet amount. A delay of zero reads back the sample just written. */
  lemma DelayStageOutput(s: State, i: int, p: DelayParams)
    requires WellFormed(s) && 0 <= i < |s.left| && DelayInRange(p)
    requires 0.0 <= s.delayTimeInSamples <= s.sampleRate * 2.0
    ensures var r := DelayStage(s, i, p);
      var wetLeft := Tapped(r.circularLeft, s.writeHead, s.delayTimeInSamples);
      var wetRight := Tapped(r.circularRight, s.writeHead, s.delayTimeInSamples);
      && r.feedbackLeft == wetLeft * p.feedback
      && r.feedbackRight == wetRight * p.feedback
      && r.left[i] == Mix(s.left[i], wetLeft, p.dryWet)
      && r.right[i] == Mix(s.right[i], wetRight, p.dryWet)
    ensures s.delayTimeInSamples == 0.0 ==>
      var r := DelayStage(s, i, p);
      && r.feedbackLeft == (s.left[i] + s.feedbackLeft) * p.feedback
      && r.left[i] == Mix(s.left[i], s.left[i] + s.feedbackLeft, p.dryWet)
  {
    var length := |s.circularLeft|;
    var readHead := ReadPosition(s.writeHead, s.delayTimeInSamples, length);
    ReadPositionNearRange(s.writeHead, s.delayTimeInSamples, length);
    var w := WriteStep(s, i);
    ReadStepOutput(w.(delayReadHead := readHead), i, readHead, readHead, p.feedback, p.dryWet);
  }

  /** What the chorus stage reads, feeds back and outputs for the delays
      the LFO gives: the samples that many places behind the write head in
      the buffers as just written, times the feedback gain, and mixed with
      the input by the dry/wet amount. */
  lemma ChorusReadOutput(s: State, i: int, p: ModulationParams,
                         delayLeft: real, delayRight: real)
    requires WellFormed(s) && 0 <= i < |s.left| && ModulationInRange(p)
    requires 0.0 <= delayLeft <= |s.circularLeft| as real
    requires 0.0 <= delayRight <= |s.circularLeft| as real
    ensures var r := ChorusRead(s, i, p, delayLeft, delayRight);
      var wetLeft := Tapped(r.circularLeft, s.writeHead, delayLeft);
      var wetRight := Tapped(r.circularRight, s.writeHead, delayRight);
      && r.feedbackLeft == wetLeft * p.feedback
      && r.feedbackRight == wetRight * p.feedback
      && r.left[i] == Mix(s.left[i], wetLeft, p.dryWet)
      && r.right[i] == Mix(s.right[i], wetRight, p.dryWet)
  {
    var length := |s.circularLeft|;
    var w := WriteStep(s, i).(lfoPhase := WrapPhase(s.lfoPhase + p.rate / s.sampleRate));
    ReadPositionNearRange(s.writeHead, delayLeft, length);
    ReadPositionNearRange(s.writeHead, delayRight, length);
    var posLeft := ReadPosition(s.writeHead, delayLeft, length);
    var posRight := ReadPosition(s.writeHead, delayRight, length);
    ChorusReadSteps(s, i, p, delayLeft, delayRight);
    ReadStepOutput(w, i, posLeft, posRight, p.feedback, p.dryWet);
  }

  /** Feedback decays through the delay stage: for a delay of at most the
      buffer length, each new feedback sample is at most the feedback gain
      times the larger magnitude of the two samples it interpolates in the
      buffer as the stage leaves it (the buffer just written). */
  lemma DelayFeedbackBound(s: State, i: int, p: DelayParams)
    requires WellFormed(s) && 0 <= i < |s.left| && DelayInRange(p)
    requires 0.0 <= s.delayTimeInSamples <= s.sampleRate * 2.0
    requires s.delayTimeInSamples <= |s.circularLeft| as real
    ensures var length := |s.circularLeft|;
      var t := Locate(ReadPosition(s.writeHead, s.delayTimeInSamples, length), length);
      0 <= t.x < length && 0 <= t.x1 < length
    ensures var length := |s.circularLeft|;
      var t := Locate(ReadPosition(s.writeHead, s.delayTimeInSamples, length), length);
      var r := DelayStage(s, i, p);
      WithinGain(r.feedbackLeft, p.feedback, r.circularLeft[t.x], r.circularLeft[t.x1])
    ensures var length := |s.circularLeft|;
      var t := Locate(ReadPosition(s.writeHead, s.delayTimeInSamples, length), length);
      var r := DelayStage(s, i, p);
      WithinGain(r.feedbackRight, p.feedback, r.circularRight[t.x], r.circularRight[t.x1])
  {
    var r := DelayStage(s, i, p);
    var d := s.delayTimeInSamples;
    DelayStageOutput(s, i, p);
    TappedFeedbackBound(r.circularLeft, s.writeHead, d, p.feedback, r.feedbackLeft);
    TappedFeedbackBound(r.circularRight, s.writeHead, d, p.feedback, r.feedbackRight);
  }

  /** A tapped sample times a non-negative gain is at most the gain times
      the larger magnitude of its two taps. */
  lemma TappedFeedbackBound(buffer: seq<real>, writeHead: int, delay: real, gain: real,
                            feedback: real)
    requires 0 <= writeHead < |buffer| && 0.0 <= delay <= |buffer| as real
    requires 0.0 <= gain && feedback == Tapped(buffer, writeHead, delay) * gain
    ensures var t := Locate(ReadPosition(writeHead, delay, |buffer|), |buffer|);
      && 0 <= t.x < |buffer| && 0 <= t.x1 < |buffer|
      && WithinGain(feedback, gain, buffer[t.x], buffer[t.x1])
  {
    var t := Locate(ReadPosition(writeHead, delay, |buffer|), |buffer|);
    TappedBetween(buffer, writeHead, delay);
    ScaledBetween(Tapped(buffer, writeHead, delay), buffer[t.x], buffer[t.x1], gain);
  }
}
