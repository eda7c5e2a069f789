/** When the packets of one access unit leave: the spread of the unit, the batch times inside it,
    and the batch loop of the pacer thread. Times are integer nanoseconds. */
module RtpPacing {
  import opened RtpPacketizer
  import opened Wrappers

  const BATCH := 32
  const GUARD := 4_000_000
  const BITS_PER_BYTE_SECOND := 8 * 1_000_000_000

  function Max(a: int, b: int): int { if a >= b then a else b }

  function CeilingDivide(a: nat, b: nat): nat
    requires b > 0
  {
    (a + b - 1) / b
  }

  /** Time the unit takes at the pacing bit rate. */
  function Configured(bytes: nat, pacing: nat): nat
    requires pacing > 0
  {
    Max(1, CeilingDivide(bytes * BITS_PER_BYTE_SECOND, pacing))
  }

  function FrameBudget(framePeriod: nat): nat {
    Max(1, framePeriod - Min(GUARD, framePeriod / 4))
  }

  function Spread(bytes: nat, pacing: nat, framePeriod: nat): nat
    requires pacing > 0
  {
    Min(Configured(bytes, pacing), FrameBudget(framePeriod))
  }

  lemma CeilingIsTight(a: nat, b: nat)
    requires b > 0
    ensures b * CeilingDivide(a, b) >= a
    ensures a > 0 ==> b * (CeilingDivide(a, b) - 1) < a
  {
    var q: int := CeilingDivide(a, b);
    var m := a + b - 1;
    assert m == b * (m / b) + m % b;
    assert b * (q - 1) == b * q - b;
  }

  /** The unit takes as long as at the pacing rate, to the nanosecond, or it is cut: then 4 ms or a quarter of the
      frame period are left free behind it, whichever is less. That much is always left. */
  lemma SpreadBounds(bytes: nat, pacing: nat, framePeriod: nat)
    requires pacing > 0 && framePeriod > 0
    ensures var s := Spread(bytes, pacing, framePeriod);
            var left := framePeriod - s;
            && 1 <= s <= framePeriod
            && (left >= 4_000_000 || 4 * (left + 1) > framePeriod)
            && (s > 1 ==> pacing * (s - 1) < bytes * 8_000_000_000)
            && (bytes * 8_000_000_000 <= pacing * s || (left <= 4_000_000 && 4 * left <= framePeriod))
  {
    var all := bytes * 8_000_000_000;
    CeilingIsTight(all, pacing);
    if bytes == 0 {
      assert (pacing - 1) / pacing == 0;
    }
    var s, c := Spread(bytes, pacing, framePeriod), Configured(bytes, pacing);
    if 1 < s {
      ProductIsMonotone(s - 1, c - 1, pacing);
    }
  }

  /** No other time does all that. */
  lemma OneSpread(bytes: nat, pacing: nat, framePeriod: nat, s: nat)
    requires pacing > 0 && framePeriod > 0
    requires var left := framePeriod - s;
             && 1 <= s <= framePeriod
             && (left >= 4_000_000 || 4 * (left + 1) > framePeriod)
             && (s > 1 ==> pacing * (s - 1) < bytes * 8_000_000_000)
             && (bytes * 8_000_000_000 <= pacing * s || (left <= 4_000_000 && 4 * left <= framePeriod))
    ensures s == Spread(bytes, pacing, framePeriod)
  {
    var t := Spread(bytes, pacing, framePeriod);
    SpreadBounds(bytes, pacing, framePeriod);
    if s < t {
      ProductIsMonotone(s, t - 1, pacing);
    } else if t < s {
      ProductIsMonotone(t, s - 1, pacing);
    }
  }

  function BatchCount(packets: nat): nat { (packets + BATCH - 1) / BATCH }

  function BatchTime(start: int, spread: nat, batch: nat, batchCount: nat): int
    requires batchCount > 0
  {
    if batchCount == 1 then start + spread else start + spread * batch / (batchCount - 1)
  }

  lemma QuotientIsMonotone(a: nat, b: nat, d: nat)
    requires a <= b && d > 0
    ensures a / d <= b / d
  {
    var x, y := a / d, b / d;
    assert a == d * x + a % d && b == d * y + b % d;
    assert x > y ==> d * x >= d * (y + 1);
    assert d * (y + 1) == d * y + d;
  }

  lemma ProductIsMonotone(a: nat, b: nat, k: nat)
    requires a <= b
    ensures k * a <= k * b
  {
  }

  lemma MultipleBelow(z: int, r: nat, d: nat)
    requires d * z == r < d
    ensures z == 0
  {
    if z > 0 {
      ProductIsMonotone(1, z, d);
      assert false;
    }
  }

  lemma Distribute(d: int, x: int, y: int)
    ensures d * (x - y) == d * x - d * y
  {
  }

  lemma ExactQuotient(k: nat, d: nat)
    requires d > 0
    ensures k * d / d == k
  {
    var n := k * d;
    Distribute(d, k, n / d);
    MultipleBelow(k - n / d, n % d, d);
  }

  /** Batch times never go back, start no earlier than the unit, and end exactly one spread later. */
  lemma BatchTimesFillTheSpread(start: int, spread: nat, a: nat, b: nat, batchCount: nat)
    requires a <= b < batchCount
    ensures start <= BatchTime(start, spread, a, batchCount) <= BatchTime(start, spread, b, batchCount)
         <= start + spread
    ensures BatchTime(start, spread, batchCount - 1, batchCount) == start + spread
    ensures batchCount > 1 ==> BatchTime(start, spread, 0, batchCount) == start
  {
    if batchCount > 1 {
      var d := batchCount - 1;
      ProductIsMonotone(a, b, spread);
      ProductIsMonotone(b, d, spread);
      QuotientIsMonotone(spread * a, spread * b, d);
      QuotientIsMonotone(spread * b, spread * d, d);
      ExactQuotient(spread, d);
      assert spread * 0 == 0;
    }
  }

  lemma QuotientRoundsDown(n: nat, d: nat)
    requires d > 0
    ensures d * (n / d) <= n < d * (n / d) + d
  {
  }

  /** The times of several batches lie evenly: each is its share of the spread, rounded down, so that any two gaps
      between them differ by at most a nanosecond. */
  lemma BatchTimesAreEven(start: int, spread: nat, a: nat, b: nat, batchCount: nat)
    requires a < batchCount - 1 && b < batchCount - 1
    ensures var d, t := batchCount - 1, BatchTime(start, spread, a, batchCount) - start;
            d * t <= spread * a < d * t + d
    ensures var gapA := BatchTime(start, spread, a + 1, batchCount) - BatchTime(start, spread, a, batchCount);
            var gapB := BatchTime(start, spread, b + 1, batchCount) - BatchTime(start, spread, b, batchCount);
            -1 <= gapA - gapB <= 1
  {
    BatchTimeRounds(start, spread, a, batchCount);
    OneGap(start, spread, a, batchCount);
    OneGap(start, spread, b, batchCount);
    hide BatchTime;
  }

  lemma BatchTimeRounds(start: int, spread: nat, batch: nat, batchCount: nat)
    requires batchCount > 1
    ensures var d, t := batchCount - 1, BatchTime(start, spread, batch, batchCount) - start;
            d * t <= spread * batch < d * t + d
  {
    QuotientRoundsDown(spread * batch, batchCount - 1);
  }

  lemma OneGap(start: int, spread: nat, batch: nat, batchCount: nat)
    requires batchCount > 1
    ensures 0 <= BatchTime(start, spread, batch + 1, batchCount) - BatchTime(start, spread, batch, batchCount)
                 - spread / (batchCount - 1) <= 1
  {
    var d := batchCount - 1;
    var x := BatchTime(start, spread, batch, batchCount) - start;
    var y := BatchTime(start, spread, batch + 1, batchCount) - start;
    BatchTimeRounds(start, spread, batch, batchCount);
    BatchTimeRounds(start, spread, batch + 1, batchCount);
    QuotientRoundsDown(spread, d);
    hide BatchTime;
    assert spread * (batch + 1) == spread * batch + spread;
    GapIsEven(d, spread * batch, spread, x, y, spread / d);
  }

  /** The quotients of `n` and `n + m` differ by that of `m`, or by one more. */
  lemma GapIsEven(d: nat, n: nat, m: nat, x: int, y: int, q: int)
    requires d > 0 && d * x <= n < d * x + d && d * y <= n + m < d * y + d && d * q <= m < d * q + d
    ensures 0 <= y - x - q <= 1
  {
    var z := y - x - q;
    Distribute(d, y, x);
    Distribute(d, y - x, q);
    FarFromZero(d, z);
  }

  lemma FarFromZero(d: nat, z: int)
    ensures z < 0 ==> d * z + d <= 0
    ensures z > 1 ==> d * z >= 2 * d
  {
    if z < 0 {
      ProductIsMonotone(1, -z, d);
      Distribute(d, 0, z);
    }
    if z > 1 {
      ProductIsMonotone(2, z, d);
    }
  }

  /** A packet that left, and when. */
  datatype Departure = Departure(packet: Packet, at: int)

  function NextSequence(sequence: uint16, n: nat): uint16 { (sequence + n) % 0x1_0000 }

  lemma NextAfterNext(sequence: uint16, n: nat)
    ensures (NextSequence(sequence, n) + 1) % 0x1_0000 == NextSequence(sequence, n + 1)
  {
  }

  /** Number of batches sent: those before the first closed gate. */
  function OpenGates(gates: seq<bool>): (n: nat)
    ensures n <= |gates|
    ensures forall k :: 0 <= k < n ==> gates[k]
    ensures n < |gates| ==> !gates[n]
  {
    if gates == [] || !gates[0] then 0 else 1 + OpenGates(gates[1..])
  }

  lemma {:induction false} OpenGatesUnique(gates: seq<bool>, n: nat)
    requires n <= |gates| && (forall k :: 0 <= k < n ==> gates[k]) && (n < |gates| ==> !gates[n])
    ensures OpenGates(gates) == n
  {
    if n > 0 {
      OpenGatesUnique(gates[1..], n - 1);
    }
  }

  function BatchTimes(start: int, spread: nat, batchCount: nat): (times: seq<int>)
    ensures |times| == batchCount
  {
    seq(batchCount, b requires 0 <= b < batchCount => BatchTime(start, spread, b, batchCount))
  }

  /** The packets that left are the first ones, in order, under consecutive sequence numbers and at the
      times of their batches. */
  ghost predicate LeftInOrder(departures: seq<Departure>, packets: seq<Packet>, times: seq<int>, sequence: uint16)
    requires |times| == BatchCount(|packets|)
  {
    && |departures| <= |packets|
    && forall k :: 0 <= k < |departures| ==>
         departures[k] == Departure(Stamp(packets[k], NextSequence(sequence, k)), times[k / 32])
  }

  lemma NothingLeft(packets: seq<Packet>, times: seq<int>, sequence: uint16)
    requires |times| == BatchCount(|packets|)
    ensures LeftInOrder([], packets, times, sequence) && NextSequence(sequence, 0) == sequence
  {
  }

  lemma OneMoreLeft(departures: seq<Departure>, packets: seq<Packet>, times: seq<int>, sequence: uint16)
    requires |times| == BatchCount(|packets|) && |departures| < |packets|
    requires LeftInOrder(departures, packets, times, sequence)
    ensures var n := |departures|;
            LeftInOrder(departures + [Departure(Stamp(packets[n], NextSequence(sequence, n)), times[n / 32])],
                        packets, times, sequence)
  {
    hide NextSequence;
  }

  /** The batch loop. `gates[b]` is what the pacer finds under the lock before batch `b`: the unit is
      still wanted. The packets leave as a prefix cut only at a closed gate. */
  method SendPacedAccessUnit(packets: seq<Packet>, start: int, spread: nat, sequence: uint16, gates: seq<bool>)
    returns (departures: seq<Departure>, next: uint16)
    requires |gates| == BatchCount(|packets|)
    ensures |departures| == Min(|packets|, 32 * OpenGates(gates))
    ensures OpenGates(gates) == |gates| ==> |departures| == |packets|
    ensures LeftInOrder(departures, packets, BatchTimes(start, spread, |gates|), sequence)
    ensures next == NextSequence(sequence, |departures|)
  {
    hide LeftInOrder, NextSequence, BatchTime;
    departures, next := [], sequence;
    NothingLeft(packets, BatchTimes(start, spread, |gates|), sequence);
    var batchCount := (|packets| + BATCH - 1) / BATCH;
    var batch := 0;
    while batch < batchCount
      invariant 0 <= batch <= batchCount
      invariant forall b :: 0 <= b < batch ==> gates[b]
      invariant |departures| == Min(|packets|, BATCH * batch)
      invariant LeftInOrder(departures, packets, BatchTimes(start, spread, batchCount), sequence)
      invariant next == NextSequence(sequence, |departures|)
    {
      var batchAt := BatchTime(start, spread, batch, batchCount);
      if !gates[batch] { break; }
      departures, next := SendBatch(departures, packets, BatchTimes(start, spread, batchCount), sequence,
                                    batch, batchAt, next);
      batch := batch + 1;
    }
    OpenGatesUnique(gates, batch);
  }

  method SendBatch(done: seq<Departure>, packets: seq<Packet>, ghost times: seq<int>, ghost sequence: uint16,
                   batch: nat, batchAt: int, from: uint16)
    returns (departures: seq<Departure>, next: uint16)
    requires batch < |times| == BatchCount(|packets|) && |done| == BATCH * batch && batchAt == times[batch]
    requires LeftInOrder(done, packets, times, sequence)
    requires from == NextSequence(sequence, |done|)
    ensures |departures| == Min(|packets|, 32 * (batch + 1))
    ensures LeftInOrder(departures, packets, times, sequence)
    ensures next == NextSequence(sequence, |departures|)
  {
    hide LeftInOrder, NextSequence;
    departures, next := done, from;
    var index := batch * BATCH;
    var end := Min(|packets|, index + BATCH);
    while index < end
      invariant batch * BATCH <= index <= end
      invariant |departures| == index
      invariant LeftInOrder(departures, packets, times, sequence)
      invariant next == NextSequence(sequence, |departures|)
    {
      OneMoreLeft(departures, packets, times, sequence);
      departures := departures + [Departure(Stamp(packets[index], next), batchAt)];
      NextAfterNext(sequence, index);
      next := (next + 1) % 0x1_0000;
      index := index + 1;
    }
  }
}
