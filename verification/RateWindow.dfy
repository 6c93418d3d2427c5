// The transfer rate shown for a download: an average over a short window of recent
// chunks. clock(k) is the k-th reading of the run-time clock, which never goes back.

module RateWindow {

  const MAXIMUM_TRANSFER_SAMPLES: nat := 32
  const RATE_WINDOW_MICROSECONDS: nat := 5_000_000
  const TWO_TO_32: nat := 0x1_0000_0000
  const TWO_TO_63: nat := 0x8000_0000_0000_0000
  const TWO_TO_64: nat := 0x1_0000_0000_0000_0000

  datatype Sample = Sample(when: nat, byteCount: nat)

  /** The sample queue, and how often the clock has been read. */
  datatype Window = Window(samples: seq<Sample>, ticks: nat)

  ghost predicate Monotone(clock: nat -> nat) {
    forall i, j | 0 <= i <= j :: clock(i) <= clock(j)
  }

  /** The trimming loop: the clock is read each time the age of the head matters. */
  function Trimmed(w: Window, clock: nat -> nat): Window
    decreases |w.samples|
  {
    if |w.samples| > MAXIMUM_TRANSFER_SAMPLES then Trimmed(w.(samples := w.samples[1..]), clock)
    else if |w.samples| <= 1 then w
    else if clock(w.ticks) - w.samples[0].when > RATE_WINDOW_MICROSECONDS
    then Trimmed(Window(w.samples[1..], w.ticks + 1), clock)
    else w.(ticks := w.ticks + 1)
  }

  function ChunkArrived(w: Window, clock: nat -> nat, byteCount: nat): Window {
    Trimmed(Window(w.samples + [Sample(clock(w.ticks), byteCount)], w.ticks + 1), clock)
  }

  function After(clock: nat -> nat, chunks: seq<nat>): Window {
    if chunks == [] then Window([], 0)
    else ChunkArrived(After(clock, chunks[..|chunks| - 1]), clock, chunks[|chunks| - 1])
  }

  ghost predicate InOrder(w: Window, clock: nat -> nat) {
    && (forall i, j | 0 <= i < j < |w.samples| :: w.samples[i].when <= w.samples[j].when)
    && (forall i | 0 <= i < |w.samples| :: w.ticks > 0 && w.samples[i].when <= clock(w.ticks - 1))
  }

  ghost predicate Recent(w: Window, clock: nat -> nat) {
    && 1 <= |w.samples| <= MAXIMUM_TRANSFER_SAMPLES
    && w.ticks > 0
    && (|w.samples| > 1 ==> clock(w.ticks - 1) - w.samples[0].when <= RATE_WINDOW_MICROSECONDS)
  }

  lemma InOrderLater(w: Window, clock: nat -> nat)
    requires Monotone(clock) && InOrder(w, clock) && w.samples != []
    ensures InOrder(w.(ticks := w.ticks + 1), clock)
    ensures InOrder(w.(samples := w.samples[1..]), clock)
    ensures w.samples[0].when <= clock(w.ticks)
  {
    assert clock(w.ticks - 1) <= clock(w.ticks);
  }

  lemma {:induction false} TrimmedIsRecent(w: Window, clock: nat -> nat)
    requires Monotone(clock) && InOrder(w, clock) && w.samples != [] && w.ticks > 0
    ensures var r := Trimmed(w, clock);
      && InOrder(r, clock) && Recent(r, clock)
      && |r.samples| <= |w.samples| && r.samples == w.samples[|w.samples| - |r.samples|..]
    decreases |w.samples|
  {
    hide InOrder, Monotone;
    InOrderLater(w, clock);
    if |w.samples| > MAXIMUM_TRANSFER_SAMPLES {
      TrimmedIsRecent(w.(samples := w.samples[1..]), clock);
    } else if |w.samples| > 1 && clock(w.ticks) - w.samples[0].when > RATE_WINDOW_MICROSECONDS {
      var later := w.(ticks := w.ticks + 1);
      InOrderLater(later, clock);
      TrimmedIsRecent(Window(w.samples[1..], w.ticks + 1), clock);
    }
  }

  lemma AddedInOrder(w: Window, clock: nat -> nat, byteCount: nat)
    requires Monotone(clock) && InOrder(w, clock)
    ensures InOrder(Window(w.samples + [Sample(clock(w.ticks), byteCount)], w.ticks + 1), clock)
  {
    assert w.ticks > 0 ==> clock(w.ticks - 1) <= clock(w.ticks);
  }

  lemma {:induction false} RunInOrder(clock: nat -> nat, chunks: seq<nat>)
    requires Monotone(clock)
    ensures InOrder(After(clock, chunks), clock)
    ensures chunks != [] ==> Recent(After(clock, chunks), clock)
  {
    if chunks != [] {
      var before := After(clock, chunks[..|chunks| - 1]);
      var byteCount := chunks[|chunks| - 1];
      RunInOrder(clock, chunks[..|chunks| - 1]);
      AddedInOrder(before, clock, byteCount);
      hide InOrder, Monotone, Recent;
      TrimmedIsRecent(Window(before.samples + [Sample(clock(before.ticks), byteCount)], before.ticks + 1), clock);
    }
  }

  /** After every chunk the queue holds between one and 32 samples in time order, and all
      of them but a lone one lie within the window at the last reading of the clock. No
      sample is ever newer than the clock, so the age of the head never wraps. */
  lemma WindowStaysRecent(clock: nat -> nat, chunks: seq<nat>)
    requires Monotone(clock) && chunks != []
    ensures var w := After(clock, chunks);
      && 1 <= |w.samples| <= MAXIMUM_TRANSFER_SAMPLES && w.ticks > 0
      && (forall i, j | 0 <= i < j < |w.samples| :: w.samples[i].when <= w.samples[j].when)
      && (forall i | 0 <= i < |w.samples| :: w.samples[i].when <= clock(w.ticks - 1))
      && (|w.samples| > 1 ==> forall i | 0 <= i < |w.samples| ::
            clock(w.ticks - 1) - w.samples[i].when <= RATE_WINDOW_MICROSECONDS)
  {
    hide After, Monotone;
    RunInOrder(clock, chunks);
  }

  /** Only what has to go: the newest sample stays, and if any is dropped then the last one
      dropped made them more than 32 or was too old when the clock was read last. */
  lemma {:induction false} OnlyOldSamplesGo(w: Window, clock: nat -> nat)
    requires Monotone(clock) && w.samples != [] && w.ticks > 0
    ensures var r := Trimmed(w, clock);
      && w.ticks <= r.ticks && 1 <= |r.samples| <= |w.samples|
      && r.samples == w.samples[|w.samples| - |r.samples|..]
      && (|r.samples| < |w.samples| ==>
            || |r.samples| >= MAXIMUM_TRANSFER_SAMPLES
            || clock(r.ticks - 1) - w.samples[|w.samples| - |r.samples| - 1].when > RATE_WINDOW_MICROSECONDS)
    decreases |w.samples|
  {
    if |w.samples| > MAXIMUM_TRANSFER_SAMPLES {
      OnlyOldSamplesGo(w.(samples := w.samples[1..]), clock);
    } else if |w.samples| > 1 && clock(w.ticks) - w.samples[0].when > RATE_WINDOW_MICROSECONDS {
      OnlyOldSamplesGo(Window(w.samples[1..], w.ticks + 1), clock);
    }
  }

  /** Every chunk that arrives is in the window, as its newest sample. */
  lemma NewestSampleStays(clock: nat -> nat, chunks: seq<nat>)
    requires Monotone(clock) && chunks != []
    ensures var before, w := After(clock, chunks[..|chunks| - 1]), After(clock, chunks);
      && w.samples != []
      && w.samples[|w.samples| - 1] == Sample(clock(before.ticks), chunks[|chunks| - 1])
  {
    var before := After(clock, chunks[..|chunks| - 1]);
    OnlyOldSamplesGo(Window(before.samples + [Sample(clock(before.ticks), chunks[|chunks| - 1])], before.ticks + 1),
                     clock);
  }

  // ----- The estimate -----

  function Total(samples: seq<Sample>): nat {
    if samples == [] then 0 else Total(samples[..|samples| - 1]) + samples[|samples| - 1].byteCount
  }

  /** Each sample counts once, wherever it is. */
  lemma {:induction false} EachSampleCounts(a: seq<Sample>, s: Sample, b: seq<Sample>)
    ensures Total(a + [s] + b) == Total(a) + s.byteCount + Total(b)
  {
    var all := a + [s] + b;
    if b == [] {
      assert all[..|a|] == a && all[|a|] == s;
    } else {
      assert all[..|all| - 1] == a + [s] + b[..|b| - 1] && all[|all| - 1] == b[|b| - 1];
      EachSampleCounts(a, s, b[..|b| - 1]);
    }
  }

  /** GetBytesPerSecond, in exact arithmetic. */
  function BytesPerSecond(samples: seq<Sample>, now: nat): nat {
    if |samples| < 2 || now <= samples[0].when then 0
    else Total(samples) * 1_000_000 / (now - samples[0].when)
  }

  /** The estimate is the average since the oldest sample, in whole bytes per second: so
      many bytes a second over that time are no more than have arrived, and one more would
      be. With fewer than two samples, or no time, there is none. */
  lemma EstimateIsAverage(samples: seq<Sample>, now: nat)
    ensures |samples| < 2 || now <= samples[0].when ==> BytesPerSecond(samples, now) == 0
    ensures |samples| >= 2 && now > samples[0].when ==>
      var rate, elapsed := BytesPerSecond(samples, now), now - samples[0].when;
      rate * elapsed <= Total(samples) * 1_000_000 < (rate + 1) * elapsed
  {
    if |samples| >= 2 && now > samples[0].when {
      QuotientBounds(Total(samples) * 1_000_000, now - samples[0].when);
    }
  }

  lemma QuotientBounds(a: nat, d: nat)
    requires d > 0
    ensures a / d * d <= a < (a / d + 1) * d
  {
    var q := a / d;
    assert a == q * d + a % d;
    assert (q + 1) * d == q * d + d;
  }

  ghost predicate CountsFit(samples: seq<Sample>) {
    forall s | s in samples :: s.byteCount < TWO_TO_32
  }

  lemma {:induction false} TotalBounded(samples: seq<Sample>)
    requires CountsFit(samples)
    ensures Total(samples) <= |samples| * (TWO_TO_32 - 1)
  {
    if samples != [] {
      assert samples[|samples| - 1] in samples;
      TotalBounded(samples[..|samples| - 1]);
    }
  }

  /** For any 32-bit byte counts in a window of at most 32 samples, neither the sum nor the
      product wraps in 64 bits, and the quotient is a non-negative 64-bit result. */
  lemma EstimateNeverWraps(samples: seq<Sample>, now: nat)
    requires CountsFit(samples) && |samples| <= MAXIMUM_TRANSFER_SAMPLES
    ensures Total(samples) * 1_000_000 < TWO_TO_64
    ensures BytesPerSecond(samples, now) < TWO_TO_63
  {
    TotalBounded(samples);
    if |samples| >= 2 && now > samples[0].when {
      QuotientAtMost(Total(samples) * 1_000_000, now - samples[0].when);
    }
  }

  lemma QuotientAtMost(a: nat, d: nat)
    requires d > 0
    ensures a / d <= a
  {
    var q := a / d;
    assert a == q * d + a % d;
    ProductAtLeast(q, d - 1);
    assert q * d == q * (d - 1) + q;
  }

  lemma ProductAtLeast(q: nat, e: nat)
    ensures q * e >= 0
  {
  }

  class RateEstimate {
    var samples: seq<Sample>
    var ticks: nat
    const clock: nat -> nat

    function State(): Window
      reads this
    {
      Window(samples, ticks)
    }

    constructor (clock: nat -> nat)
      ensures State() == Window([], 0) && this.clock == clock
    {
      this.clock, samples, ticks := clock, [], 0;
    }

    method GetRunTime() returns (now: nat)
      modifies this`ticks
      ensures now == clock(old(ticks)) && ticks == old(ticks) + 1
    {
      now := clock(ticks);
      ticks := ticks + 1;
    }

    method AddChunk(byteCount: nat)
      modifies this
      ensures State() == ChunkArrived(old(State()), clock, byteCount)
    {
      var when := GetRunTime();
      samples := samples + [Sample(when, byteCount)];
      ghost var added := State();
      var trimming := true;
      while trimming
        invariant trimming ==> Trimmed(State(), clock) == Trimmed(added, clock)
        invariant !trimming ==> State() == Trimmed(added, clock)
        decreases trimming, |samples|
      {
        if |samples| <= MAXIMUM_TRANSFER_SAMPLES {
          trimming := false;
          if |samples| > 1 {
            var now := GetRunTime();
            trimming := now - samples[0].when > RATE_WINDOW_MICROSECONDS;
          }
        }
        if trimming {
          samples := samples[1..];
        }
      }
    }

    /** In 64-bit words, as the program computes it. */
    method GetBytesPerSecond() returns (rate: nat)
      requires CountsFit(samples) && |samples| <= MAXIMUM_TRANSFER_SAMPLES
      modifies this`ticks
      ensures rate == BytesPerSecond(samples, clock(old(ticks)))
    {
      EstimateNeverWraps(samples, clock(ticks));
      if |samples| < 2 {
        return 0;
      }
      var now := GetRunTime();
      var oldest := samples[0].when;
      var elapsed := if now > oldest then now - oldest else 0;
      if elapsed == 0 {
        return 0;
      }
      var total := 0;
      for i := 0 to |samples|
        invariant total == Total(samples[..i])
      {
        assert samples[..i + 1][..i] == samples[..i];
        TotalBounded(samples[..i + 1]);
        total := (total + samples[i].byteCount) % TWO_TO_64;
      }
      assert samples[..|samples|] == samples;
      rate := (total * 1_000_000) % TWO_TO_64 / elapsed;
    }
  }
}
