/** The audio processor object: the circular buffers it owns, the shared
    write head, feedback pair and LFO phase, and the delay stage's delay and
    read head, updated in place by `prepareToPlay` and `processBlock`. Each
    stage and loop method is proved to leave the object in the state the
    functions of `Effects` and `Chain` compute from the state it started
    in; the two read helpers return the value of a function, and the
    constructor, `PrepareToPlay` and the other scalar helpers state their
    new fields one by one. */
module PluginProcessor {
  import opened DspMath
  import opened DelayLine
  import opened Effects
  import opened Chain
  import opened Preparation

  class Processor {
    var circularLeft: array?<real>
    var circularRight: array?<real>
    var circularLength: int
    var writeHead: int
    var feedbackLeft: real
    var feedbackRight: real
    var lfoPhase: real
    var delayTimeInSamples: real
    var delayReadHead: real
    /** The host's sample rate, as `getSampleRate()` reports it; it is the
        rate the host last passed to `PrepareToPlay`. */
    var sampleRate: real

    /** Prepared for playing: two distinct buffers of at least the prepared
        length, which holds the longest delay up to less than one sample,
        and a write head inside it. */
    ghost predicate Valid()
      reads this
    {
      && circularLeft != null && circularRight != null
      && circularLeft != circularRight
      && 1 <= circularLength <= circularLeft.Length
      && circularLength <= circularRight.Length
      && 0.0 < sampleRate
      && sampleRate * 2.0 < circularLength as real + 1.0
      && 0 <= writeHead < circularLength
    }

    /** The two channels of an audio block are distinct from each other and
        from the circular buffers. */
    predicate Separate(left: array<real>, right: array<real>)
      reads this
    {
      left != right
      && left != circularLeft && left != circularRight
      && right != circularLeft && right != circularRight
    }

    /** The object and an audio block as a value: the prepared part of each
        circular buffer, the scalar fields and both channels. */
    ghost function Snapshot(left: array<real>, right: array<real>): State
      requires Valid()
      reads this, circularLeft, circularRight, left, right
    {
      State(circularLeft[..circularLength], circularRight[..circularLength],
            writeHead, feedbackLeft, feedbackRight, lfoPhase,
            delayTimeInSamples, delayReadHead, sampleRate, left[..], right[..])
    }

    /** No buffers yet and every scalar at zero. */
    constructor ()
      ensures circularLeft == null && circularRight == null
      ensures circularLength == 0 && writeHead == 0
      ensures feedbackLeft == 0.0 && feedbackRight == 0.0
      ensures delayTimeInSamples == 0.0 && delayReadHead == 0.0
      ensures lfoPhase == 0.0 && sampleRate == 0.0
    {
      circularLeft := null;
      circularRight := null;
      writeHead := 0;
      circularLength := 0;
      feedbackLeft := 0.0;
      feedbackRight := 0.0;
      delayTimeInSamples := 0.0;
      delayReadHead := 0.0;
      lfoPhase := 0.0;
      sampleRate := 0.0;
    }

    /** Resets the phase and the write head, sets the buffer length for the
        sample rate, allocates each buffer that is missing (or, unlike the
        code as written, too short) and clears the prepared part of both.
        The feedback pair and the delay stage's fields keep their values. */
    method PrepareToPlay(rate: real, samplesPerBlock: int)
      requires 0.5 <= rate
      requires circularLeft == null || circularLeft != circularRight
      modifies this, circularLeft, circularRight
      ensures Valid()
      ensures sampleRate == rate && circularLength == BufferLength(rate)
      ensures writeHead == 0 && lfoPhase == 0.0
      ensures forall k :: 0 <= k < circularLength ==>
        circularLeft[k] == 0.0 && circularRight[k] == 0.0
      ensures feedbackLeft == old(feedbackLeft) && feedbackRight == old(feedbackRight)
      ensures delayTimeInSamples == old(delayTimeInSamples)
      ensures delayReadHead == old(delayReadHead)
      ensures circularLeft.Length
           == CapacityCorrected(if old(circularLeft) == null then NoBuffer
                                else Allocated(old(circularLeft.Length)), rate)
      ensures circularRight.Length
           == CapacityCorrected(if old(circularRight) == null then NoBuffer
                                else Allocated(old(circularRight.Length)), rate)
      ensures old(circularLeft) != null && BufferLength(rate) <= old(circularLeft.Length) ==>
        circularLeft == old(circularLeft)
      ensures old(circularRight) != null && BufferLength(rate) <= old(circularRight.Length) ==>
        circularRight == old(circularRight)
      ensures circularLeft != old(circularLeft) ==>
        fresh(circularLeft) && circularLeft.Length == BufferLength(rate)
      ensures circularRight != old(circularRight) ==>
        fresh(circularRight) && circularRight.Length == BufferLength(rate)
    {
      sampleRate := rate;
      lfoPhase := 0.0;
      writeHead := 0;
      BufferLengthFits(rate);
      circularLength := Trunc(rate * 2.0);

      if circularLeft == null || circularLeft.Length < circularLength {
        circularLeft := new real[circularLength];
      }
      forall k | 0 <= k < circularLength {
        circularLeft[k] := 0.0;
      }

      if circularRight == null || circularRight.Length < circularLength {
        circularRight := new real[circularLength];
      }
      forall k | 0 <= k < circularLength {
        circularRight[k] := 0.0;
      }
    }

    /** The interpolated sample at a read position: the integer part by a
        cast, the next index wrapped by the buffer length, and `lin_interp`
        of the two by the fractional part. */
    method ReadTap(buffer: array<real>, readHead: real) returns (sample: real)
      requires 1 <= circularLength <= buffer.Length
      requires -1.0 < readHead < circularLength as real
      ensures sample == ReadAt(buffer[..circularLength], readHead)
    {
      LocateInBounds(readHead, circularLength);
      var x := Trunc(readHead);
      var x1 := x + 1;
      var frac := readHead - x as real;
      if x1 >= circularLength {
        x1 := x1 - circularLength;
      }
      sample := LinInterp(buffer[x], buffer[x1], frac);
    }

    /** Each channel's sample `i` plus its feedback is written at the write
        head. */
    method WriteInput(left: array<real>, right: array<real>, i: int)
      requires Valid() && Separate(left, right) && left.Length == right.Length
      requires 0 <= i < left.Length
      modifies circularLeft, circularRight
      ensures Snapshot(left, right) == WriteStep(old(Snapshot(left, right)), i)
    {
      circularLeft[writeHead] := left[i] + feedbackLeft;
      circularRight[writeHead] := right[i] + feedbackRight;
    }

    /** The LFO of the modulation stage: the delays (in samples) it maps
        the current phase and the phase shifted by the offset to, for the
        left and the right channel; the phase then advances by rate /
        sample rate, wrapping once above one. */
    method RunLfo(p: ModulationParams, sin: real -> real) returns (delayLeft: real, delayRight: real)
      requires Valid() && ModulationInRange(p)
      modifies this`lfoPhase
      ensures Valid()
      ensures lfoPhase == WrapPhase(old(lfoPhase) + p.rate / sampleRate)
      ensures delayLeft == ModulationDelay(sampleRate, circularLength, old(lfoPhase), p, sin)
      ensures delayRight
           == ModulationDelay(sampleRate, circularLength, WrapPhase(old(lfoPhase) + p.offset), p, sin)
    {
      delayLeft := ModulationDelay(sampleRate, circularLength, lfoPhase, p, sin);
      var lfoPhaseRight := lfoPhase + p.offset;
      if lfoPhaseRight > 1.0 {
        lfoPhaseRight := lfoPhaseRight - 1.0;
      }
      delayRight := ModulationDelay(sampleRate, circularLength, lfoPhaseRight, p, sin);

      lfoPhase := lfoPhase + p.rate / sampleRate;
      if lfoPhase > 1.0 {
        lfoPhase := lfoPhase - 1.0;
      }
    }

    /** Both buffers are read at their read heads; the read samples times
        the gain become the feedback pair, the write head advances, and the
        read samples are mixed into sample `i` of the block by `dryWet`. */
    method TapAndMix(left: array<real>, right: array<real>, i: int,
                     readLeft: real, readRight: real, gain: real, dryWet: real)
      requires Valid() && Separate(left, right) && left.Length == right.Length
      requires 0 <= i < left.Length
      requires -1.0 < readLeft < circularLength as real
      requires -1.0 < readRight < circularLength as real
      modifies this`feedbackLeft, this`feedbackRight, this`writeHead, left, right
      ensures Valid()
      ensures Snapshot(left, right)
           == ReadStep(old(Snapshot(left, right)), i, readLeft, readRight, gain, dryWet)
    {
      ghost var s := Snapshot(left, right);
      var sampleLeft := ReadTap(circularLeft, readLeft);
      var sampleRight := ReadTap(circularRight, readRight);

      StoreFeedback(sampleLeft, sampleRight, gain);

      AdvanceWriteHead();

      MixInto(left, i, sampleLeft, dryWet);
      MixInto(right, i, sampleRight, dryWet);
      ReadStepFields(s, i, readLeft, readRight, gain, dryWet, sampleLeft, sampleRight,
                     Snapshot(left, right));
    }

    /** The write head moves one place, back to 0 past the end. */
    method AdvanceWriteHead()
      requires Valid()
      modifies this`writeHead
      ensures Valid() && writeHead == Advance(old(writeHead), circularLength)
    {
      writeHead := writeHead + 1;
      if writeHead >= circularLength {
        writeHead := 0;
      }
    }

    /** The feedback pair becomes the read samples times the gain. */
    method StoreFeedback(sampleLeft: real, sampleRight: real, gain: real)
      modifies this`feedbackLeft, this`feedbackRight
      ensures feedbackLeft == sampleLeft * gain && feedbackRight == sampleRight * gain
    {
      feedbackLeft := sampleLeft * gain;
      feedbackRight := sampleRight * gain;
    }

    /** Sample `i` of a channel becomes its mix with the wet sample by
        `dryWet`; the rest of the channel stays as it is. */
    method MixInto(channelData: array<real>, i: int, wet: real, dryWet: real)
      requires 0 <= i < channelData.Length
      modifies channelData
      ensures channelData[..] == old(channelData[..])[i := Mix(old(channelData[i]), wet, dryWet)]
    {
      channelData[i] := channelData[i] * (1.0 - dryWet) + wet * dryWet;
    }

    /** The position `delay` samples behind the write head, wrapped once by
        the buffer length when negative. */
    method ReadHead(delay: real) returns (pos: real)
      requires Valid() && 0.0 <= delay < circularLength as real + 1.0
      ensures pos == ReadPosition(writeHead, delay, circularLength)
      ensures -1.0 < pos < circularLength as real
    {
      pos := writeHead as real - delay;
      if pos < 0.0 {
        pos := pos + circularLength as real;
      }
    }

    /** The modulation stage on sample `i`: the input plus feedback is
        written at the write head, the LFO gives the two delays and advances,
        and each channel is read that far behind the write head. */
    method ChorusSample(left: array<real>, right: array<real>, i: int,
                        p: ModulationParams, sin: real -> real)
      requires Valid() && Separate(left, right) && left.Length == right.Length
      requires 0 <= i < left.Length && ModulationInRange(p)
      modifies this, circularLeft, circularRight, left, right
      ensures Valid() && Separate(left, right)
      ensures circularLeft == old(circularLeft) && circularRight == old(circularRight)
      ensures Snapshot(left, right) == ChorusStage(old(Snapshot(left, right)), i, p, sin)
    {
      ghost var s := Snapshot(left, right);
      WriteInput(left, right, i);
      ghost var w := Snapshot(left, right);
      assert w.lfoPhase == s.lfoPhase && w.sampleRate == s.sampleRate;
      var delayLeft, delayRight := RunLfo(p, sin);
      assert Snapshot(left, right) == w.(lfoPhase := lfoPhase);
      ghost var u := Snapshot(left, right);

      var readHeadLeft := ReadHead(delayLeft);
      var readHeadRight := ReadHead(delayRight);

      TapAndMix(left, right, i, readHeadLeft, readHeadRight, p.feedback, p.dryWet);
      ghost var length := |s.circularLeft|;
      assert delayLeft == ModulationDelay(s.sampleRate, length, s.lfoPhase, p, sin);
      assert delayRight
          == ModulationDelay(s.sampleRate, length, WrapPhase(s.lfoPhase + p.offset), p, sin);
      assert u == WriteStep(s, i).(lfoPhase := WrapPhase(s.lfoPhase + p.rate / s.sampleRate));
      assert readHeadLeft == ReadPosition(s.writeHead, delayLeft, length);
      assert readHeadRight == ReadPosition(s.writeHead, delayRight, length);
      ChorusStageDelays(s, i, p, sin);
      ChorusReadSteps(s, i, p, delayLeft, delayRight);
    }

    /** The delay stage on sample `i`: the input plus feedback is written
        at the write head and both channels are read the delay time in
        samples behind it. */
    method DelaySample(left: array<real>, right: array<real>, i: int, p: DelayParams)
      requires Valid() && Separate(left, right) && left.Length == right.Length
      requires 0 <= i < left.Length && DelayInRange(p)
      requires 0.0 <= delayTimeInSamples <= sampleRate * 2.0
      modifies this, circularLeft, circularRight, left, right
      ensures Valid() && Separate(left, right)
      ensures circularLeft == old(circularLeft) && circularRight == old(circularRight)
      ensures Snapshot(left, right) == DelayStage(old(Snapshot(left, right)), i, p)
    {
      ghost var s := Snapshot(left, right);
      WriteInput(left, right, i);
      ghost var w := Snapshot(left, right);
      delayReadHead := ReadHead(delayTimeInSamples);
      assert Snapshot(left, right) == w.(delayReadHead := delayReadHead);
      TapAndMix(left, right, i, delayReadHead, delayReadHead, p.feedback, p.dryWet);
    }

    /** The overdrive stage on sample `i` of the channel pass's own channel,
        when it is enabled. */
    method DriveChannel(left: array<real>, right: array<real>, channel: int, i: int,
                        st: Settings, atan: real -> real)
      requires Valid() && Separate(left, right) && left.Length == right.Length
      requires (channel == 0 || channel == 1) && 0 <= i < left.Length
      requires StepReady(Snapshot(left, right), st)
      modifies left, right
      ensures Snapshot(left, right) == DriveStep(old(Snapshot(left, right)), channel, i, st, atan)
    {
      if st.overdrive.enabled {
        var channelData := if channel == 0 then left else right;
        channelData[i] := Overdrive(channelData[i], st.overdrive, atan);
      }
    }

    /** One iteration of the sample loop in channel pass `channel`. */
    method ProcessSample(left: array<real>, right: array<real>, channel: int, i: int,
                         st: Settings, sin: real -> real, atan: real -> real)
      requires Valid() && Separate(left, right) && left.Length == right.Length
      requires (channel == 0 || channel == 1) && 0 <= i < left.Length
      requires StepReady(Snapshot(left, right), st)
      modifies this, circularLeft, circularRight, left, right
      ensures Valid() && Separate(left, right)
      ensures circularLeft == old(circularLeft) && circularRight == old(circularRight)
      ensures Snapshot(left, right)
           == SampleStep(old(Snapshot(left, right)), channel, i, st, sin, atan)
    {
      ghost var s := Snapshot(left, right);
      DriveChannel(left, right, channel, i, st, atan);
      ghost var s1 := Snapshot(left, right);
      if st.modulation.enabled {
        ChorusSample(left, right, i, st.modulation, sin);
      }
      assert Snapshot(left, right) == ModulationStep(s1, i, st, sin);
      ghost var s2 := Snapshot(left, right);
      if st.delay.enabled {
        DelaySample(left, right, i, st.delay);
      }
      assert Snapshot(left, right) == DelayStep(s2, i, st);
      SampleStepStages(s, channel, i, st, sin, atan);
    }

    /** The delay time in samples: the delay parameter, in seconds, times
        the host's sample rate. */
    method SetDelayTime(p: DelayParams)
      requires Valid() && DelayInRange(p)
      modifies this`delayTimeInSamples
      ensures Valid() && delayTimeInSamples == DelaySamples(sampleRate, p.time)
    {
      delayTimeInSamples := sampleRate * p.time;
    }

    /** One pass of the channel loop: the delay time in samples is set from
        its parameter, then every sample of the block goes through the
        three stages. */
    method ChannelLoop(left: array<real>, right: array<real>, channel: int, st: Settings,
                       sin: real -> real, atan: real -> real)
      requires Valid() && Separate(left, right) && left.Length == right.Length
      requires SettingsInRange(st) && (channel == 0 || channel == 1)
      modifies this, circularLeft, circularRight, left, right
      ensures Valid() && Separate(left, right)
      ensures circularLeft == old(circularLeft) && circularRight == old(circularRight)
      ensures Snapshot(left, right) == ChannelPass(old(Snapshot(left, right)), channel, st, sin, atan)
    {
      ghost var s := Snapshot(left, right);
      SetDelayTime(st.delay);
      ghost var b := BeginPass(s, st);
      assert Snapshot(left, right) == b;
      var i := 0;
      while i < left.Length
        invariant 0 <= i <= left.Length
        invariant Valid() && Separate(left, right)
        invariant circularLeft == old(circularLeft) && circularRight == old(circularRight)
        invariant Snapshot(left, right) == Pass(b, channel, i, st, sin, atan)
      {
        ProcessSample(left, right, channel, i, st, sin, atan);
        i := i + 1;
      }
    }

    /** `processBlock` on a stereo block: for each channel the delay time is
        set from its parameter and every sample goes through overdrive (on
        that channel), the modulation stage and the delay stage. */
    method ProcessBlock(left: array<real>, right: array<real>, st: Settings,
                        sin: real -> real, atan: real -> real)
      requires Valid() && Separate(left, right) && left.Length == right.Length
      requires SettingsInRange(st)
      modifies this, circularLeft, circularRight, left, right
      ensures Valid() && Separate(left, right)
      ensures circularLeft == old(circularLeft) && circularRight == old(circularRight)
      ensures Snapshot(left, right) == ProcessedBlock(old(Snapshot(left, right)), st, sin, atan)
    {
      ghost var s0 := Snapshot(left, right);
      var channel := 0;
      while channel < 2
        invariant 0 <= channel <= 2
        invariant Valid() && Separate(left, right)
        invariant circularLeft == old(circularLeft) && circularRight == old(circularRight)
        invariant Snapshot(left, right)
               == if channel == 0 then s0
                  else if channel == 1 then ChannelPass(s0, 0, st, sin, atan)
                  else ProcessedBlock(s0, st, sin, atan)
      {
        ChannelLoop(left, right, channel, st, sin, atan);
        channel := channel + 1;
      }
    }
  }
}
