/** The buffer allocation of `prepareToPlay`, as capacities: each circular
    buffer is either not allocated yet or allocated with some number of
    samples, and each call clears the first `BufferLength(rate)` of them.
    As written, a buffer that exists is kept whatever its size, so a second
    call at a higher sample rate clears past its end; the corrected
    allocation, which the processor uses, also replaces a buffer that is too
    short. */
module Preparation {
  import opened Effects

  /** A circular buffer as a call of `prepareToPlay` finds it. */
  datatype Allocation = NoBuffer | Allocated(capacity: nat)

  /** The samples a buffer holds after a call at `sampleRate`, with the
      allocation as written: a new buffer of the prepared length only when
      there is none. */
  function CapacityAsWritten(b: Allocation, sampleRate: real): (c: nat)
    requires 0.5 <= sampleRate
    ensures b.NoBuffer? ==> c == BufferLength(sampleRate)
    ensures b.Allocated? ==> c == b.capacity
  {
    match b
    case NoBuffer => BufferLength(sampleRate)
    case Allocated(n) => n
  }

  /** Preparing at 44.1 kHz and then at 96 kHz: the second call keeps the
      buffer of 88200 samples and clears 192000 of them. */
  lemma AsWrittenOverrun()
    ensures var first := CapacityAsWritten(NoBuffer, 44100.0);
      && first == 88200
      && BufferLength(96000.0) == 192000
      && CapacityAsWritten(Allocated(first), 96000.0) < BufferLength(96000.0)
  {
    assert BufferLength(44100.0) == 88200;
    assert BufferLength(96000.0) == 192000;
  }

  /** The samples a buffer holds after a call at `sampleRate`, with the
      corrected allocation: a missing or too short buffer is replaced by one
      of the prepared length, a long enough one is kept. The prepared
      length always fits. */
  function CapacityCorrected(b: Allocation, sampleRate: real): (c: nat)
    requires 0.5 <= sampleRate
    ensures BufferLength(sampleRate) <= c
    ensures b.Allocated? && BufferLength(sampleRate) <= b.capacity ==> c == b.capacity
    ensures (b.NoBuffer? || b.capacity < BufferLength(sampleRate)) ==>
      c == BufferLength(sampleRate)
  {
    match b
    case NoBuffer => BufferLength(sampleRate)
    case Allocated(n) => if n < BufferLength(sampleRate) then BufferLength(sampleRate) else n
  }

  /** The correction changes nothing where the allocation as written does
      not overrun. */
  lemma CorrectedAgrees(b: Allocation, sampleRate: real)
    requires 0.5 <= sampleRate
    ensures BufferLength(sampleRate) <= CapacityAsWritten(b, sampleRate)
        <==> CapacityCorrected(b, sampleRate) == CapacityAsWritten(b, sampleRate)
  {
  }

  /** A buffer's capacity after successive calls at the given rates, with
      the corrected allocation. */
  function CapacityAfter(b: Allocation, rates: seq<real>): (c: nat)
    requires forall k :: 0 <= k < |rates| ==> 0.5 <= rates[k]
  {
    if |rates| == 0 then (match b case NoBuffer => 0 case Allocated(n) => n)
    else CapacityCorrected(Allocated(CapacityAfter(b, rates[..|rates| - 1])), rates[|rates| - 1])
  }

  /** After any sequence of calls the buffer holds the prepared length of
      every rate in it: a buffer is only ever replaced by a longer one. */
  lemma {:induction false} CapacityAfterHoldsAll(b: Allocation, rates: seq<real>)
    requires forall k :: 0 <= k < |rates| ==> 0.5 <= rates[k]
    ensures forall k :: 0 <= k < |rates| ==> BufferLength(rates[k]) <= CapacityAfter(b, rates)
  {
    if |rates| > 0 {
      var init := rates[..|rates| - 1];
      CapacityAfterHoldsAll(b, init);
      var before := CapacityAfter(b, init);
      assert before <= CapacityAfter(b, rates);
      forall k | 0 <= k < |rates|
        ensures BufferLength(rates[k]) <= CapacityAfter(b, rates)
      {
        if k < |rates| - 1 {
          assert rates[k] == init[k];
        }
      }
    }
  }
}
