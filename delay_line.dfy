/** Index arithmetic of the circular delay buffers: the fractional read
    position behind the write head, the two interpolation taps taken from
    it, and the wrapping advance of the write head. */
module DelayLine {
  import opened DspMath

  /** `writeHead - delay`, wrapped once by adding the buffer length when it
      is negative. */
  function ReadPosition(writeHead: int, delay: real, length: int): (pos: real)
    ensures 0 <= writeHead < length && 0.0 <= delay <= length as real ==>
      0.0 <= pos < length as real
  {
    var p := writeHead as real - delay;
    if p < 0.0 then p + length as real else p
  }

  /** The two buffer indices read for interpolation and the weight of the
      second one. */
  datatype Taps = Taps(x: int, x1: int, frac: real)

  /** Integer part by a C++ cast, the next index wrapped once by the
      length, and the remainder as the interpolation weight. */
  function Locate(pos: real, length: int): (t: Taps)
    ensures t.x as real + t.frac == pos
  {
    var x := Trunc(pos);
    var x1 := x + 1;
    Taps(x, if x1 >= length then x1 - length else x1, pos - x as real)
  }

  /** A read position less than one sample below zero and less than the
      length gives two valid taps, the second the successor of the first
      around the ring. */
  lemma LocateInBounds(pos: real, length: int)
    requires 1 <= length && -1.0 < pos < length as real
    ensures var t := Locate(pos, length);
      0 <= t.x < length && 0 <= t.x1 < length && t.x1 == (t.x + 1) % length
  {
    var x := Trunc(pos);
    assert 0 <= x < length;
    if x + 1 == length {
      ModUnique(x + 1, length, 1, 0);
    } else {
      ModUnique(x + 1, length, 0, x + 1);
    }
  }

  /** A delay less than one sample beyond the buffer length puts the read
      position less than one sample below zero. */
  lemma ReadPositionNearRange(writeHead: int, delay: real, length: int)
    requires 0 <= writeHead < length
    requires 0.0 <= delay < length as real + 1.0
    ensures -1.0 < ReadPosition(writeHead, delay, length) < length as real
  {
  }

  /** A delay beyond the buffer length, by less than one sample, makes the
      read position negative exactly when the write head is at the start of
      the ring; anywhere else it wraps to a position above zero. */
  lemma NegativeOnlyAtZero(writeHead: int, delay: real, length: int)
    requires 0 <= writeHead < length
    requires length as real < delay < length as real + 1.0
    ensures ReadPosition(writeHead, delay, length) < 0.0 <==> writeHead == 0
  {
  }

  /** Both taps are valid buffer indices whenever the delay is less than one
      sample beyond the buffer length, and the second is the successor of
      the first around the ring. */
  lemma ReadTapsInBounds(writeHead: int, delay: real, length: int)
    requires 0 <= writeHead < length
    requires 0.0 <= delay < length as real + 1.0
    ensures var t := Locate(ReadPosition(writeHead, delay, length), length);
      0 <= t.x < length && 0 <= t.x1 < length && t.x1 == (t.x + 1) % length
  {
    ReadPositionNearRange(writeHead, delay, length);
    LocateInBounds(ReadPosition(writeHead, delay, length), length);
  }

  /** With a delay of at most the buffer length the read position needs no
      further wrapping: the first tap is its floor and the weight lies in
      [0, 1). */
  lemma ReadTapsExact(writeHead: int, delay: real, length: int)
    requires 0 <= writeHead < length
    requires 0.0 <= delay <= length as real
    ensures var pos := ReadPosition(writeHead, delay, length);
      var t := Locate(pos, length);
      t.x == pos.Floor && 0.0 <= t.frac < 1.0
  {
  }

  /** One step of the write head: increment, and back to 0 at the end. */
  function Advance(writeHead: int, length: int): (next: int)
    ensures 0 <= writeHead < length ==> 0 <= next < length
  {
    var n := writeHead + 1;
    if n >= length then 0 else n
  }

  /** An advance moves the write head one place around the ring. */
  lemma AdvanceModular(writeHead: int, length: int)
    requires 0 <= writeHead < length
    ensures Advance(writeHead, length) == (writeHead + 1) % length
  {
    if writeHead + 1 == length {
      ModUnique(writeHead + 1, length, 1, 0);
    } else {
      ModUnique(writeHead + 1, length, 0, writeHead + 1);
    }
  }

  /** `k` successive advances. */
  function AdvanceTimes(writeHead: int, length: int, k: nat): int
  {
    if k == 0 then writeHead else Advance(AdvanceTimes(writeHead, length, k - 1), length)
  }

  /** `k` advances move the write head `k` places around the ring. */
  lemma {:induction false} AdvanceTimesModular(writeHead: int, length: int, k: nat)
    requires 0 <= writeHead < length
    ensures AdvanceTimes(writeHead, length, k) == (writeHead + k) % length
  {
    if k > 0 {
      AdvanceTimesModular(writeHead, length, k - 1);
      var prev := (writeHead + k - 1) % length;
      AdvanceModular(prev, length);
      ModSucc(writeHead + k - 1, length);
    }
  }

  lemma ModSucc(a: int, length: int)
    requires 0 <= a && 0 < length
    ensures (a % length + 1) % length == (a + 1) % length
  {
    var q, r := a / length, a % length;
    assert a == q * length + r;
    if r + 1 == length {
      ModUnique(a + 1, length, q + 1, 0);
      ModUnique(r + 1, length, 1, 0);
    } else {
      ModUnique(a + 1, length, q, r + 1);
      ModUnique(r + 1, length, 0, r + 1);
    }
  }

  /** Euclidean division is unique: a quotient and remainder in range are
      the ones `/` and `%` give. */
  lemma ModUnique(x: int, d: int, q: int, r: int)
    requires 0 < d && 0 <= r < d && x == q * d + r
    ensures x % d == r
  {
    var q', r' := x / d, x % d;
    assert x == q' * d + r';
    assert (q - q') * d == r' - r;
    SmallMultipleIsZero(q - q', d);
  }

  lemma SmallMultipleIsZero(k: int, d: int)
    requires 0 < d && -d < k * d < d
    ensures k == 0
  {
    if k > 0 {
      MultipleAtLeast(k, d);
      assert false;
    } else if k < 0 {
      MultipleAtLeast(-k, d);
      assert false;
    }
  }

  lemma {:induction false} MultipleAtLeast(k: int, d: int)
    requires 1 <= k && 0 < d
    ensures d <= k * d
  {
    if k > 1 {
      MultipleAtLeast(k - 1, d);
      assert k * d == (k - 1) * d + d;
    }
  }

  /** `rounds` rounds of `perRound` advances each. */
  function AdvanceRounds(writeHead: int, length: int, rounds: nat, perRound: nat): int
  {
    if rounds == 0 then writeHead
    else AdvanceTimes(AdvanceRounds(writeHead, length, rounds - 1, perRound), length, perRound)
  }

  /** Rounds of advances move the write head the product of the two counts
      around the ring. */
  lemma {:induction false} AdvanceRoundsModular(writeHead: int, length: int, rounds: nat,
                                                perRound: nat)
    requires 0 <= writeHead < length
    ensures AdvanceRounds(writeHead, length, rounds, perRound)
         == AdvanceTimes(writeHead, length, rounds * perRound)
    ensures AdvanceRounds(writeHead, length, rounds, perRound)
         == (writeHead + rounds * perRound) % length
  {
    if rounds > 0 {
      AdvanceRoundsModular(writeHead, length, rounds - 1, perRound);
      AdvanceTimesAdd(writeHead, length, (rounds - 1) * perRound, perRound);
      assert (rounds - 1) * perRound + perRound == rounds * perRound;
    }
    AdvanceTimesModular(writeHead, length, rounds * perRound);
  }

  /** Rounds of advances compose by adding their counts. */
  lemma {:induction false} AdvanceRoundsAdd(writeHead: int, length: int, a: nat, b: nat,
                                            perRound: nat)
    ensures AdvanceRounds(AdvanceRounds(writeHead, length, a, perRound), length, b, perRound)
         == AdvanceRounds(writeHead, length, a + b, perRound)
  {
    if b > 0 {
      AdvanceRoundsAdd(writeHead, length, a, b - 1, perRound);
    }
  }

  /** Rounds of no advance leave the write head where it is. */
  lemma {:induction false} AdvanceRoundsIdle(writeHead: int, length: int, rounds: nat)
    ensures AdvanceRounds(writeHead, length, rounds, 0) == writeHead
  {
    if rounds > 0 {
      AdvanceRoundsIdle(writeHead, length, rounds - 1);
    }
  }

  /** After exactly `length` advances the write head is back where it
      started. */
  lemma AdvanceFullTurn(writeHead: int, length: int)
    requires 0 <= writeHead < length
    ensures AdvanceTimes(writeHead, length, length) == writeHead
  {
    AdvanceTimesModular(writeHead, length, length);
    ModUnique(writeHead + length, length, 1, writeHead);
  }

  /** Advances compose by adding their counts. */
  lemma {:induction false} AdvanceTimesAdd(writeHead: int, length: int, a: nat, b: nat)
    ensures AdvanceTimes(AdvanceTimes(writeHead, length, a), length, b)
         == AdvanceTimes(writeHead, length, a + b)
  {
    if b > 0 {
      AdvanceTimesAdd(writeHead, length, a, b - 1);
    }
  }
}
