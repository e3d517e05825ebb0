/** Buffer sizes of the ALSA playback and capture engine: the default size and
    latency of a stream, and the search for a size that the device accepts. */
module AlsaBuffer {
  import opened Common

  const UINT32: nat := 0x1_0000_0000
  const MILLION: nat := 1_000_000

  // ----- the default size -----

  predicate IsPowerOfTwo(n: nat) {
    n == 1 || (n > 1 && n % 2 == 0 && IsPowerOfTwo(n / 2))
  }

  /** size & ~i, for a power of two i. */
  function ClearBit(size: nat, i: nat): int
    requires i > 0
  {
    if (size / i) % 2 == 1 then size - i else size
  }

  lemma ProductOrder(a: nat, b: nat, c: nat)
    ensures a <= b ==> a * c <= b * c
    ensures a * c < b * c ==> a < b
  {
  }

  lemma Quotient(a: nat, b: nat)
    requires b > 0
    ensures a / b * b <= a < (a / b + 1) * b
  {
  }

  lemma QuotientOf(k: nat, i: nat, a: nat)
    requires i > 0 && k * i <= a < (k + 1) * i
    ensures a / i == k
  {
    Quotient(a, i);
    ProductOrder(k, a / i + 1, i);
    ProductOrder(a / i, k + 1, i);
  }

  lemma ClearBitHalves(k: nat, i: nat)
    requires i > 0
    ensures ClearBit(k * i, i) == k / 2 * (2 * i) == k * i - k % 2 * i
  {
    QuotientOf(k, i, k * i);
    assert k == 2 * (k / 2) + k % 2;
    assert k / 2 * (2 * i) == 2 * (k / 2) * i;
  }

  /** Latency of a whole number of frames, in microseconds. */
  function LatencyOf(size: nat, rate: nat): nat
    requires rate > 0
  {
    size * MILLION / rate
  }

  /** Frames of a latency. */
  function FramesOf(latency: nat, rate: nat): nat {
    latency * rate / MILLION
  }

  /** Microseconds and frames a second: both conversions round down. */
  lemma Conversions(latency: nat, size: nat, rate: nat)
    requires rate > 0
    ensures FramesOf(latency, rate) * 1_000_000 <= latency * rate < (FramesOf(latency, rate) + 1) * 1_000_000
    ensures LatencyOf(size, rate) * rate <= size * 1_000_000 < (LatencyOf(size, rate) + 1) * rate
  {
    Quotient(latency * rate, 1_000_000);
    Quotient(size * 1_000_000, rate);
  }

  lemma LatencyShrinks(latency: nat, rate: nat, size: nat)
    requires rate > 0 && size <= FramesOf(latency, rate)
    ensures LatencyOf(size, rate) <= latency
  {
    Quotient(latency * rate, MILLION);
    Quotient(size * MILLION, rate);
    ProductOrder(size, FramesOf(latency, rate), MILLION);
    ProductOrder(LatencyOf(size, rate), latency + 1, rate);
    assert (latency + 1) * rate == latency * rate + rate;
  }

  lemma LatencyHalvesAtMost(latency: nat, rate: nat, size: nat)
    requires rate > 0 && FramesOf(latency, rate) < 2 * size
    ensures latency < 2 * (LatencyOf(size, rate) + 1)
  {
    var after := LatencyOf(size, rate);
    Quotient(latency * rate, MILLION);
    Quotient(size * MILLION, rate);
    ProductOrder(FramesOf(latency, rate) + 1, 2 * size, MILLION);
    assert 2 * size * MILLION == 2 * (size * MILLION);
    assert 2 * ((after + 1) * rate) == (2 * (after + 1)) * rate;
    ProductOrder(latency, 2 * (after + 1), rate);
  }

  lemma FramesSurvive(rate: nat, size: nat)
    requires 0 < rate <= MILLION
    ensures size - 1 <= FramesOf(LatencyOf(size, rate), rate) <= size
  {
    var after := LatencyOf(size, rate);
    Quotient(size * MILLION, rate);
    Quotient(after * rate, MILLION);
    assert (after + 1) * rate == after * rate + rate;
    ProductOrder(FramesOf(after, rate), size + 1, MILLION);
    if size > 0 {
      ProductOrder(size - 1, FramesOf(after, rate) + 1, MILLION);
    }
  }

  /** Default latency (microseconds) and periods of each direction. */
  datatype Defaults = Defaults(outLatency: nat, outPeriods: nat, inLatency: nat, inPeriods: nat)

  /** What the loop keeps: the bits below i are cleared, and nothing else. */
  ghost predicate Clearing(size0: nat, size: nat, i: nat, bits: nat) {
    && i > 0 && IsPowerOfTwo(i) && size == bits * i && size <= size0 < size + i && (size0 > 0 ==> bits > 0)
  }

  lemma ClearOne(size0: nat, size: nat, i: nat, bits: nat)
    requires Clearing(size0, size, i, bits) && ClearBit(size, i) != 0
    ensures ClearBit(size, i) > 0 && Clearing(size0, ClearBit(size, i), 2 * i, bits / 2) && i < size0
  {
    ClearBitHalves(bits, i);
    ProductOrder(1, bits / 2, 2 * i);
    assert (2 * i) % 2 == 0 && (2 * i) / 2 == i;
  }

  lemma ClearedAll(size0: nat, size: nat, i: nat, bits: nat)
    requires Clearing(size0, size, i, bits) && ClearBit(size, i) == 0
    ensures size0 == 0 ==> size == 0
    ensures size0 > 0 ==> IsPowerOfTwo(size) && size <= size0 < 2 * size
  {
    ClearBitHalves(bits, i);
    ProductOrder(1, bits / 2, 2 * i);
  }

  /** Clears bits from the lowest up until at most one is left. */
  method ClearAllButTop(size0: nat) returns (size: nat)
    ensures size0 == 0 ==> size == 0
    ensures size0 > 0 ==> IsPowerOfTwo(size) && size <= size0 < 2 * size
  {
    size := size0;
    var i := 1;
    ghost var bits := size;
    while ClearBit(size, i) != 0
      invariant Clearing(size0, size, i, bits)
      decreases size0 - i
    {
      ClearOne(size0, size, i, bits);
      size := ClearBit(size, i);
      bits := bits / 2;
      i := 2 * i;
    }
    ClearedAll(size0, size, i, bits);
  }

  class AlsaDev {
    const playback: bool
    const sampleRate: nat
    var latency: nat
    var periods: nat
    var bufferSize: nat

    constructor (playback: bool, sampleRate: nat)
      ensures this.playback == playback && this.sampleRate == sampleRate
    {
      this.playback, this.sampleRate := playback, sampleRate;
      latency, periods, bufferSize := 0, 0, 0;
    }

    /** The size is the largest power of two not above the wanted frames (taken
        mod 2^32), and the latency is what that size then lasts. */
    method ResetAlsaBufferParams(defaults: Defaults)
      requires sampleRate > 0
      modifies this
      ensures periods == (if playback then defaults.outPeriods else defaults.inPeriods)
      ensures
        var wanted := if playback then defaults.outLatency else defaults.inLatency;
        var frames := FramesOf(wanted, sampleRate);
        && (frames % UINT32 > 0 ==> IsPowerOfTwo(bufferSize) && bufferSize <= frames % UINT32 < 2 * bufferSize)
        && (frames % UINT32 == 0 ==> bufferSize == 0)
        && latency == LatencyOf(bufferSize, sampleRate) <= wanted
        && (0 < frames < UINT32 ==> wanted < 2 * (latency + 1))
        && (sampleRate <= MILLION ==> bufferSize - 1 <= FramesOf(latency, sampleRate) <= bufferSize)
    {
      if playback {
        latency, periods := defaults.outLatency, defaults.outPeriods;
      } else {
        latency, periods := defaults.inLatency, defaults.inPeriods;
      }
      ghost var wanted := latency;
      var frames := FramesOf(latency, sampleRate);
      bufferSize := ClearAllButTop(frames % UINT32);
      latency := LatencyOf(bufferSize, sampleRate);
      LatencyShrinks(wanted, sampleRate, bufferSize);
      if 0 < frames < UINT32 {
        LatencyHalvesAtMost(wanted, sampleRate, bufferSize);
      }
      if sampleRate <= MILLION {
        FramesSurvive(sampleRate, bufferSize);
      }
    }
  }

  // ----- the search -----

  const RANGE: nat := 96

  /** Above the base first, then below it; unsigned arithmetic wraps. */
  function Candidate(base: nat, i: nat): nat
    requires base < UINT32
  {
    (base + (if i <= RANGE then i else RANGE - i)) % UINT32
  }

  /** `found` is the first accepted candidate, after `tries` tries. */
  ghost predicate FirstAccepted(base: nat, accepts: nat -> bool, found: Option<nat>, tries: nat)
    requires base < UINT32
  {
    && 1 <= tries <= 2 * RANGE
    && (found.Some? ==> found.value == Candidate(base, tries - 1) && accepts(found.value))
    && (found.None? ==> tries == 2 * RANGE && !accepts(Candidate(base, tries - 1)))
    && (forall j :: 0 <= j < tries - 1 ==> !accepts(Candidate(base, j)))
  }

  /** The do-while loop of setHardwareParams. `accepts` is what the device answers. */
  method SearchBufferSize(base: nat, accepts: nat -> bool) returns (found: Option<nat>, tries: nat)
    requires base < UINT32
    ensures FirstAccepted(base, accepts, found, tries)
  {
    var i := 0;
    var bufferSize := Candidate(base, i);
    i := i + 1;
    while !accepts(bufferSize) && i < 2 * RANGE
      invariant 1 <= i <= 2 * RANGE && bufferSize == Candidate(base, i - 1)
      invariant forall j :: 0 <= j < i - 1 ==> !accepts(Candidate(base, j))
    {
      bufferSize := Candidate(base, i);
      i := i + 1;
    }
    tries := i;
    found := if accepts(bufferSize) then Some(bufferSize) else None;
  }

  /** No size is tried twice. */
  lemma CandidatesDiffer(base: nat, i: nat, j: nat)
    requires base < UINT32 && i < j < 2 * RANGE
    ensures Candidate(base, i) != Candidate(base, j)
  {
  }

  /** The turn in which a size is tried. */
  function Turn(base: nat, size: nat): nat {
    if size >= base then size - base else RANGE + (base - size)
  }

  lemma CandidateAt(base: nat, size: nat)
    requires base < UINT32 && base - 95 <= size <= base + 96 && size < UINT32
    ensures Turn(base, size) < 2 * RANGE && Candidate(base, Turn(base, size)) == size
  {
  }

  /** A size that the sum reaches only by wrapping round, for a base near 2^32. */
  predicate Wrapped(base: nat, size: nat) {
    size + UINT32 <= base + RANGE
  }

  /** What the search finds when some size in reach is accepted: the smallest
      accepted size from the base up, else the largest accepted one below (unless the
      base is so near 2^32 that a wrapped size is tried before). */
  lemma SearchOrder(base: nat, accepts: nat -> bool, found: Option<nat>, tries: nat, size: nat)
    requires base < UINT32 && FirstAccepted(base, accepts, found, tries)
    requires base - 95 <= size <= base + 96 && size < UINT32 && accepts(size)
    ensures found.Some? && accepts(found.value)
    ensures base - 95 <= found.value <= base + 96 || Wrapped(base, found.value)
    ensures size >= base ==> base <= found.value <= size
    ensures size < base && found.value < base ==> size <= found.value || Wrapped(base, found.value)
  {
    CandidateAt(base, size);
    var turn := Turn(base, size);
    assert accepts(Candidate(base, turn));
    assert tries - 1 <= turn;
  }

  /** A device that accepts the multiples of a, up to 97, gets the base rounded up,
      or 0 if that does not fit in 32 bits. */
  lemma SearchFindsMultiple(base: nat, a: nat, accepts: nat -> bool, found: Option<nat>, tries: nat)
    requires base < UINT32 && 0 < a <= 97 && FirstAccepted(base, accepts, found, tries)
    requires forall s: nat :: accepts(s) <==> s % a == 0
    ensures
      var up := (base + a - 1) / a * a;
      found == Some(if up < UINT32 then up else 0)
  {
    RoundUp(base, a);
    var up := (base + a - 1) / a * a;
    if up < UINT32 {
      SearchOrder(base, accepts, found, tries, up);
      NoMultipleBefore(base, a, found.value);
    } else {
      var turn := UINT32 - base;
      assert Candidate(base, turn) == 0 && accepts(0);
      assert tries - 1 <= turn;
      if tries - 1 < turn {
        assert found.value == base + (tries - 1) < UINT32;
        NoMultipleBefore(base, a, found.value);
      }
    }
  }

  lemma RoundUp(base: nat, a: nat)
    requires 0 < a
    ensures base <= (base + a - 1) / a * a <= base + a - 1 && (base + a - 1) / a * a % a == 0
  {
    Quotient(base + a - 1, a);
    MultipleLeavesNothing((base + a - 1) / a, a);
    assert ((base + a - 1) / a + 1) * a == (base + a - 1) / a * a + a;
  }

  lemma MultipleLeavesNothing(k: nat, a: nat)
    requires 0 < a
    ensures k * a % a == 0
  {
    QuotientOf(k, a, k * a);
  }

  lemma NoMultipleBefore(base: nat, a: nat, s: nat)
    requires 0 < a && base <= s <= (base + a - 1) / a * a && s % a == 0
    ensures s == (base + a - 1) / a * a
  {
    var k, up := s / a, (base + a - 1) / a;
    assert s == k * a;
    Quotient(base + a - 1, a);
    ProductOrder(k, up, a);
    ProductOrder(up, k + 1, a);
    ProductOrder(up, k, a);
    assert (k + 1) * a == s + a;
  }
}
