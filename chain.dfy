/** The block processor as functions: per sample, overdrive on the current
    channel, then the modulation stage, then the delay stage; per channel of
    the input, one pass over every sample of the block. With stereo input
    the modulation and delay stages therefore run twice per sample index,
    once in each channel pass, sharing one write head. */
module Chain {
  import opened DspMath
  import opened DelayLine
  import opened Effects

  /** Number of enabled stages that write into the circular buffers. */
  function DelayLineStages(st: Settings): nat
  {
    (if st.modulation.enabled then 1 else 0) + (if st.delay.enabled then 1 else 0)
  }

  /** Channel `c` of the audio block. */
  function Channel(s: State, c: int): seq<real>
  {
    if c == 0 then s.left else s.right
  }

  /** Everything but the audio block: buffers, write head, feedback, phase
      and the delay stage's read head and delay. */
  predicate SameEngine(a: State, b: State)
  {
    && a.circularLeft == b.circularLeft && a.circularRight == b.circularRight
    && a.writeHead == b.writeHead
    && a.feedbackLeft == b.feedbackLeft && a.feedbackRight == b.feedbackRight
    && a.lfoPhase == b.lfoPhase
    && a.delayTimeInSamples == b.delayTimeInSamples
    && a.delayReadHead == b.delayReadHead
    && a.sampleRate == b.sampleRate
  }

  /** The requirements of one sample step: a well-formed state, parameters
      in their registered ranges and a delay of at most the longest delay. */
  predicate StepReady(s: State, st: Settings)
  {
    && WellFormed(s) && SettingsInRange(st)
    && 0.0 <= s.delayTimeInSamples <= s.sampleRate * 2.0
  }

  /** The overdrive stage applied to sample `i` of channel `c`. */
  function DriveSample(s: State, c: int, i: int, p: OverdriveParams, atan: real -> real): (r: State)
    requires 0 <= i < |s.left| == |s.right| && (c == 0 || c == 1)
    ensures SameEngine(r, s) && |r.left| == |r.right| == |s.left|
    ensures Channel(r, c) == Channel(s, c)[i := Overdrive(Channel(s, c)[i], p, atan)]
    ensures Channel(r, 1 - c) == Channel(s, 1 - c)
  {
    if c == 0 then s.(left := s.left[i := Overdrive(s.left[i], p, atan)])
    else s.(right := s.right[i := Overdrive(s.right[i], p, atan)])
  }

  /** The overdrive stage: when enabled it overdrives sample `i` of channel
      `c` and nothing else; no engine state changes. */
  function DriveStep(s: State, c: int, i: int, st: Settings, atan: real -> real): (r: State)
    requires StepReady(s, st) && (c == 0 || c == 1) && 0 <= i < |s.left|
    ensures StepReady(r, st)
    ensures r.sampleRate == s.sampleRate && |r.left| == |s.left|
    ensures |r.circularLeft| == |s.circularLeft|
    ensures SameEngine(r, s)
    ensures Channel(r, c)
         == if st.overdrive.enabled
            then Channel(s, c)[i := Overdrive(Channel(s, c)[i], st.overdrive, atan)]
            else Channel(s, c)
    ensures Channel(r, 1 - c) == Channel(s, 1 - c)
    ensures !st.overdrive.enabled ==> r == s
  {
    if st.overdrive.enabled then DriveSample(s, c, i, st.overdrive, atan) else s
  }

  /** The modulation stage: when enabled, one write-head advance and the
      LFO phase kept in [0, 1]; when disabled, nothing changes. */
  function ModulationStep(s: State, i: int, st: Settings, sin: real -> real): (r: State)
    requires StepReady(s, st) && 0 <= i < |s.left|
    ensures StepReady(r, st)
    ensures r.sampleRate == s.sampleRate && |r.left| == |s.left|
    ensures |r.circularLeft| == |s.circularLeft|
    ensures r.writeHead
         == if st.modulation.enabled then Advance(s.writeHead, |s.circularLeft|) else s.writeHead
    ensures 0.0 <= s.lfoPhase <= 1.0 && st.modulation.rate <= s.sampleRate ==>
      0.0 <= r.lfoPhase <= 1.0
    ensures !st.modulation.enabled ==> r == s
  {
    if st.modulation.enabled then ChorusStage(s, i, st.modulation, sin)
    else s
  }

  /** The delay stage: when enabled, one write-head advance and the LFO
      phase untouched; when disabled, nothing changes. */
  function DelayStep(s: State, i: int, st: Settings): (r: State)
    requires StepReady(s, st) && 0 <= i < |s.left|
    ensures StepReady(r, st)
    ensures r.sampleRate == s.sampleRate && |r.left| == |s.left|
    ensures |r.circularLeft| == |s.circularLeft|
    ensures r.writeHead
         == if st.delay.enabled then Advance(s.writeHead, |s.circularLeft|) else s.writeHead
    ensures r.lfoPhase == s.lfoPhase
    ensures !st.delay.enabled ==> r == s
  {
    if st.delay.enabled then DelayStage(s, i, st.delay)
    else s
  }

  /** One iteration of the sample loop in channel pass `c`: overdrive on
      that channel, then the modulation stage, then the delay stage. Each
      enabled delay-line stage advances the write head once; with both of
      them disabled nothing but the overdriven sample changes. */
  function SampleStep(s: State, c: int, i: int, st: Settings, sin: real -> real,
                      atan: real -> real): (r: State)
    requires StepReady(s, st) && (c == 0 || c == 1) && 0 <= i < |s.left|
    ensures StepReady(r, st)
    ensures r.sampleRate == s.sampleRate && |r.left| == |s.left|
    ensures |r.circularLeft| == |s.circularLeft|
    ensures r.writeHead == AdvanceTimes(s.writeHead, |s.circularLeft|, DelayLineStages(st))
    ensures 0.0 <= s.lfoPhase <= 1.0 && st.modulation.rate <= s.sampleRate ==>
      0.0 <= r.lfoPhase <= 1.0
  {
    var s2 := ModulationStep(DriveStep(s, c, i, st, atan), i, st, sin);
    assert AdvanceTimes(s.writeHead, |s.circularLeft|, 1) == Advance(s.writeHead, |s.circularLeft|);
    assert AdvanceTimes(s.writeHead, |s.circularLeft|, 2)
        == Advance(Advance(s.writeHead, |s.circularLeft|), |s.circularLeft|);
    DelayStep(s2, i, st)
  }

  /** A sample step is the delay stage after the modulation stage after
      the overdrive stage. */
  lemma SampleStepStages(s: State, c: int, i: int, st: Settings, sin: real -> real,
                         atan: real -> real)
    requires StepReady(s, st) && (c == 0 || c == 1) && 0 <= i < |s.left|
    ensures SampleStep(s, c, i, st, sin, atan)
         == DelayStep(ModulationStep(DriveStep(s, c, i, st, atan), i, st, sin), i, st)
  {
  }

  /** With both delay-line stages disabled a sample step only overdrives
      sample `i` of channel `c`. */
  lemma SampleStepBypass(s: State, c: int, i: int, st: Settings, sin: real -> real,
                         atan: real -> real)
    requires StepReady(s, st) && (c == 0 || c == 1) && 0 <= i < |s.left|
    requires !st.modulation.enabled && !st.delay.enabled
    ensures SampleStep(s, c, i, st, sin, atan) == DriveSample(s, c, i, st.overdrive, atan)
  {
    if !st.overdrive.enabled {
      var d := DriveSample(s, c, i, st.overdrive, atan);
      assert Channel(d, c) == Channel(s, c);
      assert d == s;
    }
  }

  /** The first `k` iterations of the sample loop in channel pass `c`. */
  function Pass(s: State, c: int, k: nat, st: Settings, sin: real -> real,
                atan: real -> real): (r: State)
    requires StepReady(s, st) && (c == 0 || c == 1) && k <= |s.left|
    ensures StepReady(r, st)
    ensures r.sampleRate == s.sampleRate && |r.left| == |s.left|
    ensures |r.circularLeft| == |s.circularLeft|
    ensures 0.0 <= s.lfoPhase <= 1.0 && st.modulation.rate <= s.sampleRate ==>
      0.0 <= r.lfoPhase <= 1.0
  {
    if k == 0 then s
    else SampleStep(Pass(s, c, k - 1, st, sin, atan), c, k - 1, st, sin, atan)
  }

  /** The delay time in samples is set from the delay parameter at the start
      of every channel pass. */
  function BeginPass(s: State, st: Settings): (r: State)
    requires WellFormed(s) && SettingsInRange(st)
    ensures StepReady(r, st)
  {
    s.(delayTimeInSamples := DelaySamples(s.sampleRate, st.delay.time))
  }

  /** One pass of the channel loop: the delay time is set, then the sample
      loop runs over the whole block for channel `c`. */
  function ChannelPass(s: State, c: int, st: Settings, sin: real -> real, atan: real -> real): (r: State)
    requires WellFormed(s) && SettingsInRange(st) && (c == 0 || c == 1)
    ensures WellFormed(r)
    ensures r.sampleRate == s.sampleRate && |r.left| == |s.left|
    ensures |r.circularLeft| == |s.circularLeft|
    ensures 0.0 <= s.lfoPhase <= 1.0 && st.modulation.rate <= s.sampleRate ==>
      0.0 <= r.lfoPhase <= 1.0
  {
    Pass(BeginPass(s, st), c, |s.left|, st, sin, atan)
  }

  /** `processBlock` on a stereo block: the left channel pass, then the
      right one. */
  function ProcessedBlock(s: State, st: Settings, sin: real -> real, atan: real -> real): (r: State)
    requires WellFormed(s) && SettingsInRange(st)
    ensures WellFormed(r)
    ensures r.sampleRate == s.sampleRate && |r.left| == |s.left|
    ensures |r.circularLeft| == |s.circularLeft|
    ensures 0.0 <= s.lfoPhase <= 1.0 && st.modulation.rate <= s.sampleRate ==>
      0.0 <= r.lfoPhase <= 1.0
  {
    ChannelPass(ChannelPass(s, 0, st, sin, atan), 1, st, sin, atan)
  }

  // ---------------------------------------------------------------------
  // Write head

  /** `k` iterations of a pass advance the write head once per enabled
      delay-line stage per iteration. */
  lemma {:induction false} PassWriteHead(s: State, c: int, k: nat, st: Settings,
                                         sin: real -> real, atan: real -> real)
    requires StepReady(s, st) && (c == 0 || c == 1) && k <= |s.left|
    ensures Pass(s, c, k, st, sin, atan).writeHead
         == AdvanceRounds(s.writeHead, |s.circularLeft|, k, DelayLineStages(st))
  {
    if k > 0 {
      var prev := Pass(s, c, k - 1, st, sin, atan);
      PassWriteHead(s, c, k - 1, st, sin, atan);
      var len, e := |s.circularLeft|, DelayLineStages(st);
      assert Pass(s, c, k, st, sin, atan) == SampleStep(prev, c, k - 1, st, sin, atan);
      assert |prev.circularLeft| == len;
      assert SampleStep(prev, c, k - 1, st, sin, atan).writeHead
          == AdvanceTimes(prev.writeHead, len, e);
      assert AdvanceRounds(s.writeHead, len, k, e)
          == AdvanceTimes(AdvanceRounds(s.writeHead, len, k - 1, e), len, e);
    }
  }

  /** A block of `n` samples on stereo input is `2 * n` rounds of advances
      of the write head, one round per sample per channel pass and one
      advance per enabled delay-line stage in each round; with both stages
      disabled the write head does not move. */
  lemma BlockWriteHead(s: State, st: Settings, sin: real -> real, atan: real -> real)
    requires WellFormed(s) && SettingsInRange(st)
    ensures ProcessedBlock(s, st, sin, atan).writeHead
         == AdvanceRounds(s.writeHead, |s.circularLeft|, 2 * |s.left|, DelayLineStages(st))
    ensures DelayLineStages(st) == 0 ==>
      ProcessedBlock(s, st, sin, atan).writeHead == s.writeHead
  {
    var n, e, len := |s.left|, DelayLineStages(st), |s.circularLeft|;
    var p1 := ChannelPass(s, 0, st, sin, atan);
    PassWriteHead(BeginPass(s, st), 0, n, st, sin, atan);
    PassWriteHead(BeginPass(p1, st), 1, n, st, sin, atan);
    AdvanceRoundsAdd(s.writeHead, len, n, n, e);
    if e == 0 {
      AdvanceRoundsIdle(s.writeHead, len, 2 * n);
    }
  }

  // ---------------------------------------------------------------------
  // Bypass

  /** The first `k` samples of channel `c` overdriven, nothing else. */
  function DrivePass(s: State, c: int, k: nat, p: OverdriveParams, atan: real -> real): (r: State)
    requires k <= |s.left| == |s.right| && (c == 0 || c == 1)
    ensures SameEngine(r, s) && |r.left| == |r.right| == |s.left|
    ensures forall j :: 0 <= j < k ==> Channel(r, c)[j] == Overdrive(Channel(s, c)[j], p, atan)
    ensures forall j :: k <= j < |s.left| ==> Channel(r, c)[j] == Channel(s, c)[j]
    ensures Channel(r, 1 - c) == Channel(s, 1 - c)
  {
    if k == 0 then s else DriveSample(DrivePass(s, c, k - 1, p, atan), c, k - 1, p, atan)
  }

  /** With both delay-line stages disabled, a pass only overdrives the
      samples of its own channel it has reached. */
  lemma {:induction false} BypassPass(s: State, c: int, k: nat, st: Settings,
                                      sin: real -> real, atan: real -> real)
    requires StepReady(s, st) && (c == 0 || c == 1) && k <= |s.left|
    requires !st.modulation.enabled && !st.delay.enabled
    ensures Pass(s, c, k, st, sin, atan) == DrivePass(s, c, k, st.overdrive, atan)
  {
    if k > 0 {
      BypassPass(s, c, k - 1, st, sin, atan);
      BypassStep(s, c, k, st, sin, atan);
    }
  }

  lemma BypassStep(s: State, c: int, k: nat, st: Settings, sin: real -> real, atan: real -> real)
    requires StepReady(s, st) && (c == 0 || c == 1) && 0 < k <= |s.left|
    requires !st.modulation.enabled && !st.delay.enabled
    requires Pass(s, c, k - 1, st, sin, atan) == DrivePass(s, c, k - 1, st.overdrive, atan)
    ensures Pass(s, c, k, st, sin, atan) == DrivePass(s, c, k, st.overdrive, atan)
  {
    var prev := Pass(s, c, k - 1, st, sin, atan);
    SampleStepBypass(prev, c, k - 1, st, sin, atan);
  }

  /** With both delay-line stages disabled a block changes no engine state
      (the delay time in samples is only re-read from its parameter) and
      each sample is just overdriven; with overdrive disabled as well the
      block is left exactly as it was. */
  lemma BypassBlock(s: State, st: Settings, sin: real -> real, atan: real -> real)
    requires WellFormed(s) && SettingsInRange(st)
    requires !st.modulation.enabled && !st.delay.enabled
    ensures var r := ProcessedBlock(s, st, sin, atan);
      && SameEngine(r, BeginPass(s, st))
      && |r.left| == |s.left|
      && (forall j :: 0 <= j < |s.left| ==>
            r.left[j] == Overdrive(s.left[j], st.overdrive, atan)
            && r.right[j] == Overdrive(s.right[j], st.overdrive, atan))
      && (!st.overdrive.enabled ==> r.left == s.left && r.right == s.right)
  {
    var n := |s.left|;
    var p1 := ChannelPass(s, 0, st, sin, atan);
    BypassPass(BeginPass(s, st), 0, n, st, sin, atan);
    BypassPass(BeginPass(p1, st), 1, n, st, sin, atan);
    var r := ProcessedBlock(s, st, sin, atan);
    assert Channel(p1, 1) == s.right;
    if !st.overdrive.enabled {
      assert r.left == s.left;
      assert r.right == s.right;
    }
  }
}
