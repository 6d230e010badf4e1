/**
 * The bandwidth speed test page. A test measures the round-trip time of one
 * request, then the download rate, then the upload rate. Each rate phase moves
 * 1 MiB blocks until 5 seconds have passed, keeps a running byte count, shows
 * an instantaneous rate now and then, and ends with the average rate over the
 * whole phase. The results are graded Excellent, Good, Fair or Poor.
 *
 * Time is in whole milliseconds; rates are reals, in megabits (2^20 bits)
 * per second as on the page, and what the page stores is rounded to
 * hundredths.
 */
module SpeedTest {
  import opened Wrappers

  /** The size of one transfer block, in bytes. */
  const MiB: nat := 1024 * 1024
  /** How long each rate phase keeps starting new blocks. */
  const TestDurationMs: int := 5000
  /** The shortest interval between two live download samples. */
  const SampleIntervalMs: int := 100

  // ---------------------------------------------------------------------------
  // Grading the results
  // ---------------------------------------------------------------------------

  datatype Status = Poor | Fair | Good | Excellent

  /** Grades in increasing order of quality. */
  function Rank(s: Status): nat
  {
    match s
    case Poor => 0
    case Fair => 1
    case Good => 2
    case Excellent => 3
  }

  datatype Direction = Download | Upload

  /** A grade, the colour it is shown in and the advice shown with it. */
  datatype Analysis = Analysis(status: Status, color: string, message: string)

  /** Grading of a download or upload rate; the grade is shown in its own colour. */
  function SpeedAnalysis(speed: real, dir: Direction): (r: Analysis)
    ensures r.color == StatusColor(r.status)
  {
    if dir == Download then
      if speed >= 100.0 then Analysis(Excellent, "text-green-600", "Perfect for 4K streaming and heavy downloads")
      else if speed >= 50.0 then Analysis(Good, "text-blue-600", "Suitable for HD streaming and gaming")
      else if speed >= 25.0 then Analysis(Fair, "text-yellow-600", "Good for basic streaming and browsing")
      else Analysis(Poor, "text-red-600", "May struggle with streaming and downloads")
    else
      if speed >= 50.0 then Analysis(Excellent, "text-green-600", "Perfect for video calls and file uploads")
      else if speed >= 25.0 then Analysis(Good, "text-blue-600", "Good for most upload tasks")
      else if speed >= 10.0 then Analysis(Fair, "text-yellow-600", "Suitable for basic uploads")
      else Analysis(Poor, "text-red-600", "May struggle with large file uploads")
  }

  /** Grading of a round-trip time in milliseconds; the grade is shown in its own colour. */
  function PingAnalysis(ping: real): (r: Analysis)
    ensures r.color == StatusColor(r.status)
  {
    if ping < 20.0 then Analysis(Excellent, "text-green-600", "Perfect for competitive gaming")
    else if ping < 50.0 then Analysis(Good, "text-blue-600", "Great for online gaming")
    else if ping < 100.0 then Analysis(Fair, "text-yellow-600", "Acceptable for most applications")
    else Analysis(Poor, "text-red-600", "May experience lag in real-time applications")
  }

  /** The colour of each grade, the same on all three gradings. */
  function StatusColor(s: Status): string
  {
    match s
    case Excellent => "text-green-600"
    case Good => "text-blue-600"
    case Fair => "text-yellow-600"
    case Poor => "text-red-600"
  }

  /** The download grade's bands: [100, inf) Excellent, [50, 100) Good, [25, 50) Fair, below 25 Poor. */
  lemma DownloadBands(speed: real)
    ensures SpeedAnalysis(speed, Download).status == Excellent <==> speed >= 100.0
    ensures SpeedAnalysis(speed, Download).status == Good <==> 50.0 <= speed < 100.0
    ensures SpeedAnalysis(speed, Download).status == Fair <==> 25.0 <= speed < 50.0
    ensures SpeedAnalysis(speed, Download).status == Poor <==> speed < 25.0
  {
  }

  /** The upload grade's bands: [50, inf) Excellent, [25, 50) Good, [10, 25) Fair, below 10 Poor. */
  lemma UploadBands(speed: real)
    ensures SpeedAnalysis(speed, Upload).status == Excellent <==> speed >= 50.0
    ensures SpeedAnalysis(speed, Upload).status == Good <==> 25.0 <= speed < 50.0
    ensures SpeedAnalysis(speed, Upload).status == Fair <==> 10.0 <= speed < 25.0
    ensures SpeedAnalysis(speed, Upload).status == Poor <==> speed < 10.0
  {
  }

  /** The ping grade's bands: below 20 Excellent, [20, 50) Good, [50, 100) Fair, [100, inf) Poor. */
  lemma PingBands(ping: real)
    ensures PingAnalysis(ping).status == Excellent <==> ping < 20.0
    ensures PingAnalysis(ping).status == Good <==> 20.0 <= ping < 50.0
    ensures PingAnalysis(ping).status == Fair <==> 50.0 <= ping < 100.0
    ensures PingAnalysis(ping).status == Poor <==> ping >= 100.0
  {
  }

  /** A faster rate never gets a worse grade. */
  lemma SpeedGradeMonotone(slower: real, faster: real, dir: Direction)
    requires slower <= faster
    ensures Rank(SpeedAnalysis(slower, dir).status) <= Rank(SpeedAnalysis(faster, dir).status)
  {
  }

  /** A shorter round trip never gets a worse grade. */
  lemma PingGradeMonotone(shorter: real, longer: real)
    requires shorter <= longer
    ensures Rank(PingAnalysis(shorter).status) >= Rank(PingAnalysis(longer).status)
  {
  }

  /** The upload bands are lower: a rate graded for upload never gets a worse grade than for download. */
  lemma UploadGradedNoHarsher(speed: real)
    ensures Rank(SpeedAnalysis(speed, Upload).status) >= Rank(SpeedAnalysis(speed, Download).status)
  {
  }

  // ---------------------------------------------------------------------------
  // Rates
  // ---------------------------------------------------------------------------

  /** The rate, in megabits per second, of `bytes` moved in `ms` milliseconds. */
  function RateMbps(bytes: int, ms: int): (r: real)
    requires ms > 0
    ensures bytes >= 0 ==> r >= 0.0
  {
    ((bytes as real) * 8.0) / ((ms as real) / 1000.0) / (MiB as real)
  }

  /** The rate times the time in seconds is the bits moved, counted in units of 2^20 bits. */
  lemma RateTimesTime(bytes: int, ms: int)
    requires ms > 0
    ensures RateMbps(bytes, ms) * (ms as real) * (MiB as real) == (bytes as real) * 8000.0
  {
  }

  /** 5 MiB in 2 seconds is 20 megabits per second. */
  lemma FiveMiBInTwoSeconds()
    ensures RateMbps(5 * MiB, 2000) == 20.0
  {
  }

  /** More bytes in the same time is a higher rate; the same bytes in more time a lower one. */
  lemma RateMonotone(bytes: int, moreBytes: int, ms: int, moreMs: int)
    requires 0 <= bytes <= moreBytes && 0 < ms <= moreMs
    ensures RateMbps(bytes, ms) <= RateMbps(moreBytes, ms)
    ensures RateMbps(bytes, moreMs) <= RateMbps(bytes, ms)
  {
    RateGrowsWithBytes(bytes, moreBytes, ms);
    RateFallsWithTime(bytes, ms, moreMs);
  }

  lemma RateGrowsWithBytes(bytes: int, moreBytes: int, ms: int)
    requires bytes <= moreBytes && 0 < ms
    ensures RateMbps(bytes, ms) <= RateMbps(moreBytes, ms)
  {
    var k := 8000.0 / (MiB as real);
    RateForm(bytes, ms);
    RateForm(moreBytes, ms);
    ScaleMonotone(bytes as real, moreBytes as real, k);
    DivideMonotone((bytes as real) * k, (moreBytes as real) * k, ms as real);
  }

  lemma RateFallsWithTime(bytes: int, ms: int, moreMs: int)
    requires 0 <= bytes && 0 < ms <= moreMs
    ensures RateMbps(bytes, moreMs) <= RateMbps(bytes, ms)
  {
    var k := 8000.0 / (MiB as real);
    RateForm(bytes, ms);
    RateForm(bytes, moreMs);
    DivideAntitone((bytes as real) * k, ms as real, moreMs as real);
  }

  lemma ScaleMonotone(a: real, b: real, k: real)
    requires a <= b && k >= 0.0
    ensures a * k <= b * k
  {
    assert b * k - a * k == (b - a) * k;
  }

  /** The rate is the byte count times a constant, over the time. */
  lemma RateForm(bytes: int, ms: int)
    requires ms > 0
    ensures RateMbps(bytes, ms) == (bytes as real) * (8000.0 / (MiB as real)) / (ms as real)
  {
    var b, t, m := bytes as real, ms as real, MiB as real;
    assert (b * 8.0) / (t / 1000.0) == b * 8000.0 / t;
    assert b * 8000.0 / t / m == b * (8000.0 / m) / t;
  }

  lemma DivideMonotone(a: real, b: real, c: real)
    requires a <= b && c > 0.0
    ensures a / c <= b / c
  {
    assert b / c - a / c == (b - a) / c;
  }

  lemma DivideAntitone(a: real, c: real, d: real)
    requires a >= 0.0 && 0.0 < c <= d
    ensures a / d <= a / c
  {
    assert a / c - a / d == a * (d - c) / (c * d);
  }

  /** `Math.round`: the nearest integer, halves rounded up. */
  function RoundHalfUp(y: real): (n: int)
    ensures y - 0.5 < n as real <= y + 0.5
  {
    (y + 0.5).Floor
  }

  /** A rate as the page stores and shows it: a whole number of hundredths, the nearest one, halves going up. */
  function RoundToHundredths(x: real): (r: real)
    ensures (r * 100.0).Floor as real == r * 100.0
    ensures x - 0.005 < r <= x + 0.005
    ensures x >= 0.0 ==> r >= 0.0
  {
    (RoundHalfUp(x * 100.0) as real) / 100.0
  }

  /** Rounding a rounded rate changes nothing. */
  lemma RoundingIdempotent(x: real)
    ensures RoundToHundredths(RoundToHundredths(x)) == RoundToHundredths(x)
  {
    var n := RoundHalfUp(x * 100.0);
    assert RoundToHundredths(x) * 100.0 == n as real;
    assert (n as real + 0.5).Floor == n;
  }

  /** Rounding keeps the order of rates. */
  lemma RoundingMonotone(x: real, y: real)
    requires x <= y
    ensures RoundToHundredths(x) <= RoundToHundredths(y)
  {
    var m, n := RoundHalfUp(x * 100.0), RoundHalfUp(y * 100.0);
    assert m as real < n as real + 1.0;
    assert m <= n;
    DivideMonotone(m as real, n as real, 100.0);
  }

  // ---------------------------------------------------------------------------
  // Per-block and per-chunk bookkeeping
  // ---------------------------------------------------------------------------

  /**
   * The running counters of a rate phase: bytes moved so far, the count at
   * the last live sample and the time of the last live sample (or the start).
   */
  datatype Meter = Meter(total: nat, lastBytes: nat, lastUpdate: int)

  /** A live rate, rounded to hundredths, shown at time `at`. */
  datatype Sample = Sample(at: int, mbps: real)

  /** The counters after a step, and the live sample the step shows, if any. */
  datatype Tick = Tick(meter: Meter, sample: Option<Sample>)

  /**
   * An upload block has been accepted (the count grows by one block), and the
   * live rate is updated at time `now`: shown only if time has passed since
   * the last update, while the counters move on in any case, so that they
   * agree (`lastBytes == total`) afterwards. When they agreed before, the live
   * rate shown is one block over the time since the previous update.
   */
  function UploadBlockDone(m: Meter, now: int): (r: Tick)
    ensures r.meter == Meter(m.total + MiB, m.total + MiB, now)
    ensures r.sample.Some? <==> now > m.lastUpdate
    ensures m.lastBytes == m.total && now > m.lastUpdate ==>
      r.sample == Some(Sample(now, RoundToHundredths(RateMbps(MiB, now - m.lastUpdate))))
  {
    var total := m.total + MiB;
    var timeDelta := now - m.lastUpdate;
    var sample := if timeDelta > 0 then Some(Sample(now, RoundToHundredths(RateMbps(total - m.lastBytes, timeDelta)))) else None;
    Tick(Meter(total, total, now), sample)
  }

  /**
   * A download chunk of `len` bytes has arrived at time `now`: the count grows
   * by `len`; a live sample is shown exactly when 100 ms have passed since the
   * last sample, and then the last-sample counters move to the present;
   * otherwise they stay. `lastBytes <= total` is kept, so every live download
   * rate is non-negative.
   */
  function DownloadChunk(m: Meter, len: nat, now: int): (r: Tick)
    ensures r.meter.total == m.total + len
    ensures r.sample.Some? <==> now - m.lastUpdate >= SampleIntervalMs
    ensures r.sample.Some? ==> r.meter == Meter(m.total + len, m.total + len, now) && r.sample.value.at == now
    ensures r.sample.None? ==> r.meter == Meter(m.total + len, m.lastBytes, m.lastUpdate)
    ensures m.lastBytes <= m.total ==> r.meter.lastBytes <= r.meter.total
    ensures r.sample.Some? ==>
      r.sample.value.mbps == RoundToHundredths(RateMbps(m.total + len - m.lastBytes, now - m.lastUpdate))
    ensures m.lastBytes <= m.total && r.sample.Some? ==> r.sample.value.mbps >= 0.0
  {
    var total := m.total + len;
    var timeDelta := now - m.lastUpdate;
    if timeDelta >= SampleIntervalMs then
      Tick(Meter(total, total, now), Some(Sample(now, RoundToHundredths(RateMbps(total - m.lastBytes, timeDelta)))))
    else
      Tick(Meter(total, m.lastBytes, m.lastUpdate), None)
  }

  // ---------------------------------------------------------------------------
  // The clock
  // ---------------------------------------------------------------------------

  /**
   * Reading number `k` of the clock, given the successive readings a phase
   * sees; past the last given reading the clock stays at the last one.
   */
  function Reading(clock: seq<int>, k: nat): int
    requires |clock| > 0
  {
    if k < |clock| then clock[k] else clock[|clock| - 1]
  }

  /**
   * What a phase's clock satisfies: it never runs backwards and, by its last
   * reading, the phase's 5 seconds have passed.
   */
  predicate ClockOk(clock: seq<int>)
  {
    && |clock| > 0
    && (forall i, j :: 0 <= i <= j < |clock| ==> clock[i] <= clock[j])
    && clock[|clock| - 1] - clock[0] >= TestDurationMs
  }

  lemma ReadingMonotone(clock: seq<int>, i: nat, j: nat)
    requires ClockOk(clock) && i <= j
    ensures Reading(clock, i) <= Reading(clock, j)
  {
  }

  // ---------------------------------------------------------------------------
  // The two rate phases
  // ---------------------------------------------------------------------------

  /**
   * The result of a rate phase: its average rate (`None` when a transfer
   * failed), the blocks completed, the bytes counted and the live samples
   * shown, in order.
   */
  datatype PhaseReport = PhaseReport(speed: Option<real>, blocks: nat, totalBytes: nat, samples: seq<Sample>)

  /**
   * The live samples of the first `b` upload blocks. Block `j` (from 0)
   * starts with loop test reading `2 * j + 1` and is followed by update
   * reading `2 * j + 2`; the previous update was reading `2 * j`.
   */
  function UploadSamples(clock: seq<int>, b: nat): (r: seq<Sample>)
    requires |clock| > 0
    ensures |r| <= b
  {
    if b == 0 then []
    else
      var prev, now := Reading(clock, 2 * b - 2), Reading(clock, 2 * b);
      UploadSamples(clock, b - 1) + (if now > prev then [Sample(now, RoundToHundredths(RateMbps(MiB, now - prev)))] else [])
  }

  /**
   * Each live upload sample is non-negative, none is later than the last
   * update, and they come strictly in time order.
   */
  lemma {:induction false} UploadSamplesOrdered(clock: seq<int>, b: nat)
    requires ClockOk(clock)
    ensures forall i :: 0 <= i < |UploadSamples(clock, b)| ==>
      UploadSamples(clock, b)[i].mbps >= 0.0 && UploadSamples(clock, b)[i].at <= Reading(clock, 2 * b)
    ensures forall i :: 0 <= i < |UploadSamples(clock, b)| - 1 ==>
      UploadSamples(clock, b)[i].at < UploadSamples(clock, b)[i + 1].at
  {
    if b > 0 {
      UploadSamplesOrdered(clock, b - 1);
      ReadingMonotone(clock, 2 * b - 2, 2 * b);
    }
  }

  /**
   * What the upload phase reports. Every block it started began before the 5
   * seconds were up, and each completed block counts one MiB. The phase has no
   * rate exactly when the request of a block it started threw; otherwise the
   * loop stopped at the 5 seconds, and the rate is the rounded average over
   * the whole phase, up to the reading after the failing loop test. The live
   * samples are those of the completed blocks.
   */
  predicate UploadOutcome(clock: seq<int>, failAt: Option<nat>, report: PhaseReport)
    requires ClockOk(clock)
  {
    && report.totalBytes == report.blocks * MiB
    && (forall j :: 0 <= j < report.blocks ==> Reading(clock, 2 * j + 1) - clock[0] < TestDurationMs)
    && (failAt.Some? ==> report.blocks <= failAt.value)
    && (report.speed.None? <==>
          failAt == Some(report.blocks) && Reading(clock, 2 * report.blocks + 1) - clock[0] < TestDurationMs)
    && (report.speed.Some? ==>
          && Reading(clock, 2 * report.blocks + 1) - clock[0] >= TestDurationMs
          && Reading(clock, 2 * report.blocks + 2) - clock[0] >= TestDurationMs
          && report.speed.value == RoundToHundredths(RateMbps(report.totalBytes, Reading(clock, 2 * report.blocks + 2) - clock[0])))
    && report.samples == UploadSamples(clock, report.blocks)
  }

  /**
   * The upload phase. `clock` holds the successive clock readings: the start,
   * then per block the loop test and the update after the block, then, after
   * the failing loop test, the end. `failAt` is the block whose upload request
   * throws, if any.
   */
  method MeasureUpload(clock: seq<int>, failAt: Option<nat>) returns (report: PhaseReport)
    requires ClockOk(clock)
    ensures UploadOutcome(clock, failAt, report)
  {
    // Reading 0 is the start; the loop condition for block `blocks` reads `2 * blocks + 1`.
    var startTime := Reading(clock, 0);
    var meter := Meter(0, 0, startTime);
    var samples: seq<Sample> := [];
    var blocks: nat := 0;
    while Reading(clock, 2 * blocks + 1) - startTime < TestDurationMs
      invariant meter == Meter(blocks * MiB, blocks * MiB, Reading(clock, 2 * blocks))
      invariant samples == UploadSamples(clock, blocks)
      invariant forall j :: 0 <= j < blocks ==> Reading(clock, 2 * j + 1) - startTime < TestDurationMs
      invariant failAt.Some? ==> blocks <= failAt.value
      decreases |clock| - 2 * blocks
    {
      if failAt == Some(blocks) {
        // the upload request threw: the phase reports no rate
        return PhaseReport(None, blocks, meter.total, samples);
      }
      var now := Reading(clock, 2 * blocks + 2);
      var tick := UploadBlockDone(meter, now);
      assert (blocks + 1) * MiB == blocks * MiB + MiB;
      meter := tick.meter;
      if tick.sample.Some? {
        samples := samples + [tick.sample.value];
      }
      blocks := blocks + 1;
    }
    // the failing loop test was reading `2 * blocks + 1`; the end time is the next one
    var endTime := Reading(clock, 2 * blocks + 2);
    ReadingMonotone(clock, 2 * blocks + 1, 2 * blocks + 2);
    report := PhaseReport(Some(RoundToHundredths(RateMbps(meter.total, endTime - startTime))), blocks, meter.total, samples);
  }

  /** The sum of a list of chunk lengths. */
  function Sum(s: seq<nat>): nat
  {
    if s == [] then 0 else Sum(s[..|s| - 1]) + s[|s| - 1]
  }

  /**
   * The download phase's clock schedule: the index of the reading taken by
   * the loop test before block `j` (the start is reading 0, and each block
   * reads the clock once per chunk).
   */
  function TestReading(chunksOf: nat -> seq<nat>, j: nat): nat
  {
    if j == 0 then 1 else TestReading(chunksOf, j - 1) + 1 + |chunksOf(j - 1)|
  }

  /** The bytes in the first `j` download blocks. */
  function Received(chunksOf: nat -> seq<nat>, j: nat): nat
  {
    if j == 0 then 0 else Received(chunksOf, j - 1) + Sum(chunksOf(j - 1))
  }

  /** The time of the last sample, or `start` when there was none. */
  function LastSampleTime(samples: seq<Sample>, start: int): int
  {
    if samples == [] then start else samples[|samples| - 1].at
  }

  /** Every live sample comes at least 100 ms after the previous one (or the start). */
  predicate SpacedSamples(samples: seq<Sample>, start: int)
  {
    && (forall i :: 0 <= i < |samples| ==> samples[i].mbps >= 0.0)
    && (|samples| > 0 ==> samples[0].at - start >= SampleIntervalMs)
    && (forall i :: 0 <= i < |samples| - 1 ==> samples[i + 1].at - samples[i].at >= SampleIntervalMs)
  }

  /** The live-sample invariant of the download phase: the counters agree with the samples shown. */
  predicate MeterTracks(m: Meter, samples: seq<Sample>, start: int)
  {
    m.lastBytes <= m.total && m.lastUpdate == LastSampleTime(samples, start) && SpacedSamples(samples, start)
  }

  /** The counters of a rate phase together with the live samples shown so far. */
  datatype Progress = Progress(meter: Meter, samples: seq<Sample>)

  /** The live sample a step shows, as a list of zero or one samples. */
  function Shown(tick: Tick): (r: seq<Sample>)
    ensures |r| <= 1
  {
    if tick.sample.Some? then [tick.sample.value] else []
  }

  /**
   * The counters and the samples after the chunks `chunks` of a download block
   * went through the sampling gate one by one, chunk `c` at clock reading
   * `k0 + c`: the samples so far are kept, and at most one is added per chunk.
   */
  function ReadChunks(clock: seq<int>, k0: nat, m: Meter, samples: seq<Sample>, chunks: seq<nat>): (r: Progress)
    requires |clock| > 0
    ensures |r.samples| <= |samples| + |chunks|
    decreases |chunks|
  {
    if chunks == [] then Progress(m, samples)
    else
      var tick := DownloadChunk(m, chunks[0], Reading(clock, k0));
      ReadChunks(clock, k0 + 1, tick.meter, samples + Shown(tick), chunks[1..])
  }

  /** Reading a block keeps the samples shown before it, in front of the new ones. */
  lemma {:induction false} ReadChunksKeeps(clock: seq<int>, k0: nat, m: Meter, samples: seq<Sample>, chunks: seq<nat>)
    requires |clock| > 0
    ensures var r := ReadChunks(clock, k0, m, samples, chunks); |samples| <= |r.samples| && r.samples[..|samples|] == samples
    decreases |chunks|
  {
    if chunks != [] {
      var tick := DownloadChunk(m, chunks[0], Reading(clock, k0));
      var more := samples + Shown(tick);
      ReadChunksKeeps(clock, k0 + 1, tick.meter, more, chunks[1..]);
      var r := ReadChunks(clock, k0, m, samples, chunks);
      assert r.samples[..|more|] == more;
      assert r.samples[..|samples|] == r.samples[..|more|][..|samples|];
    }
  }

  /** Reading from chunk `c` on is one gate step, then reading from chunk `c + 1` on. */
  lemma ReadChunksStep(clock: seq<int>, k: nat, m: Meter, samples: seq<Sample>, chunks: seq<nat>, c: nat)
    requires |clock| > 0 && c < |chunks|
    ensures var tick := DownloadChunk(m, chunks[c], Reading(clock, k));
      ReadChunks(clock, k, m, samples, chunks[c..]) == ReadChunks(clock, k + 1, tick.meter, samples + Shown(tick), chunks[c + 1..])
  {
    assert chunks[c..][0] == chunks[c] && chunks[c..][1..] == chunks[c + 1..];
  }

  /**
   * The counters and the samples after the first `b` download blocks, block
   * `j` reading the clock once per chunk right after its loop test.
   */
  function DownloadRun(clock: seq<int>, chunksOf: nat -> seq<nat>, b: nat): (r: Progress)
    requires |clock| > 0
    ensures r.meter.total == Received(chunksOf, b)
    decreases b
  {
    if b == 0 then Progress(Meter(0, 0, clock[0]), [])
    else
      var before := DownloadRun(clock, chunksOf, b - 1);
      ReadChunksTotal(clock, TestReading(chunksOf, b - 1) + 1, before.meter, before.samples, chunksOf(b - 1));
      ReadChunks(clock, TestReading(chunksOf, b - 1) + 1, before.meter, before.samples, chunksOf(b - 1))
  }

  /** Block `b` takes the run of the first `b` blocks through the gate. */
  lemma DownloadRunNext(clock: seq<int>, chunksOf: nat -> seq<nat>, b: nat, m: Meter, samples: seq<Sample>)
    requires |clock| > 0 && Progress(m, samples) == DownloadRun(clock, chunksOf, b)
    ensures DownloadRun(clock, chunksOf, b + 1) == ReadChunks(clock, TestReading(chunksOf, b) + 1, m, samples, chunksOf(b))
  {
  }

  /** Going through the gate adds every chunk length to the count. */
  lemma {:induction false} ReadChunksTotal(clock: seq<int>, k0: nat, m: Meter, samples: seq<Sample>, chunks: seq<nat>)
    requires |clock| > 0
    ensures ReadChunks(clock, k0, m, samples, chunks).meter.total == m.total + Sum(chunks)
    decreases |chunks|
  {
    if chunks != [] {
      var tick := DownloadChunk(m, chunks[0], Reading(clock, k0));
      ReadChunksTotal(clock, k0 + 1, tick.meter, samples + Shown(tick), chunks[1..]);
      SumCons(chunks);
    }
  }

  /** One chunk through the gate keeps the counters in step with the samples, spaced 100 ms apart. */
  lemma GateTracks(m: Meter, samples: seq<Sample>, len: nat, now: int, start: int)
    requires MeterTracks(m, samples, start)
    ensures var tick := DownloadChunk(m, len, now); MeterTracks(tick.meter, samples + Shown(tick), start)
  {
    var tick := DownloadChunk(m, len, now);
    if tick.sample.Some? {
      var s := samples + [tick.sample.value];
      assert s[|s| - 1] == tick.sample.value && s[..|samples|] == samples;
      assert forall i :: 0 <= i < |samples| ==> s[i] == samples[i];
    }
  }

  /** The chunks of a block going through the gate keep the counters in step with the samples. */
  lemma {:induction false} ReadChunksTracks(clock: seq<int>, k0: nat, m: Meter, samples: seq<Sample>, chunks: seq<nat>, start: int)
    requires |clock| > 0 && MeterTracks(m, samples, start)
    ensures var r := ReadChunks(clock, k0, m, samples, chunks); MeterTracks(r.meter, r.samples, start)
    decreases |chunks|
  {
    if chunks != [] {
      var tick := DownloadChunk(m, chunks[0], Reading(clock, k0));
      GateTracks(m, samples, chunks[0], Reading(clock, k0), start);
      ReadChunksTracks(clock, k0 + 1, tick.meter, samples + Shown(tick), chunks[1..], start);
    }
  }

  /** The sum of a list is its first element plus the sum of the rest. */
  lemma {:induction false} SumCons(s: seq<nat>)
    requires s != []
    ensures Sum(s) == s[0] + Sum(s[1..])
    decreases |s|
  {
    if |s| > 1 {
      SumCons(s[..|s| - 1]);
      assert s[..|s| - 1][1..] == s[1..][..|s| - 2];
    }
  }

  /**
   * The body of one download block: the chunks arrive one by one, the clock
   * is read once per chunk (readings `k0`, `k0 + 1`, ...), and each chunk goes
   * through the sampling gate.
   */
  method ReadBlock(clock: seq<int>, k0: nat, m0: Meter, s0: seq<Sample>, start: int, chunks: seq<nat>)
    returns (meter: Meter, samples: seq<Sample>)
    requires |clock| > 0
    requires MeterTracks(m0, s0, start)
    ensures Progress(meter, samples) == ReadChunks(clock, k0, m0, s0, chunks)
    ensures meter.total == m0.total + Sum(chunks)
    ensures MeterTracks(meter, samples, start)
  {
    meter, samples := m0, s0;
    var c := 0;
    while c < |chunks|
      invariant 0 <= c <= |chunks|
      invariant ReadChunks(clock, k0 + c, meter, samples, chunks[c..]) == ReadChunks(clock, k0, m0, s0, chunks)
    {
      var tick := DownloadChunk(meter, chunks[c], Reading(clock, k0 + c));
      ReadChunksStep(clock, k0 + c, meter, samples, chunks, c);
      meter := tick.meter;
      samples := samples + Shown(tick);
      c := c + 1;
    }
    assert chunks[c..] == [];
    ReadChunksTotal(clock, k0, m0, s0, chunks);
    ReadChunksTracks(clock, k0, m0, s0, chunks, start);
  }

  /** Download block `b`: its fetch, then its chunks, read one per clock reading right after the loop test. */
  method DownloadBlock(clock: seq<int>, chunksOf: nat -> seq<nat>, b: nat, m: Meter, s: seq<Sample>)
    returns (meter: Meter, samples: seq<Sample>)
    requires |clock| > 0
    requires Progress(m, s) == DownloadRun(clock, chunksOf, b)
    ensures Progress(meter, samples) == DownloadRun(clock, chunksOf, b + 1)
  {
    DownloadRunTracks(clock, chunksOf, b);
    DownloadRunNext(clock, chunksOf, b, m, s);
    meter, samples := ReadBlock(clock, TestReading(chunksOf, b) + 1, m, s, clock[0], chunksOf(b));
  }

  /** After any number of download blocks the counters are in step with the samples, spaced 100 ms apart. */
  lemma {:induction false} DownloadRunTracks(clock: seq<int>, chunksOf: nat -> seq<nat>, b: nat)
    requires |clock| > 0
    ensures var r := DownloadRun(clock, chunksOf, b); MeterTracks(r.meter, r.samples, clock[0])
  {
    if b > 0 {
      DownloadRunTracks(clock, chunksOf, b - 1);
      var before := DownloadRun(clock, chunksOf, b - 1);
      ReadChunksTracks(clock, TestReading(chunksOf, b - 1) + 1, before.meter, before.samples, chunksOf(b - 1), clock[0]);
    }
  }

  /** Each of the first `b` download blocks passed its loop test within the 5 seconds. */
  predicate StartedInTime(clock: seq<int>, chunksOf: nat -> seq<nat>, b: nat)
    requires |clock| > 0
  {
    forall j :: 0 <= j < b ==> Reading(clock, TestReading(chunksOf, j)) - clock[0] < TestDurationMs
  }

  lemma StartedInTimeNext(clock: seq<int>, chunksOf: nat -> seq<nat>, b: nat)
    requires |clock| > 0 && StartedInTime(clock, chunksOf, b)
    requires Reading(clock, TestReading(chunksOf, b)) - clock[0] < TestDurationMs
    ensures StartedInTime(clock, chunksOf, b + 1)
  {
  }

  /**
   * What the download phase reports: as for upload, with the clock schedule of
   * `TestReading`, the byte count of the chunks received, and the live samples
   * of the chunk-by-chunk gate, which come at least 100 ms apart.
   */
  predicate DownloadOutcome(clock: seq<int>, failAt: Option<nat>, chunksOf: nat -> seq<nat>, report: PhaseReport)
    requires ClockOk(clock)
  {
    && report.totalBytes == Received(chunksOf, report.blocks)
    && StartedInTime(clock, chunksOf, report.blocks)
    && (failAt.Some? ==> report.blocks <= failAt.value)
    && (report.speed.None? <==>
          failAt == Some(report.blocks) && Reading(clock, TestReading(chunksOf, report.blocks)) - clock[0] < TestDurationMs)
    && (report.speed.Some? ==>
          && Reading(clock, TestReading(chunksOf, report.blocks)) - clock[0] >= TestDurationMs
          && Reading(clock, TestReading(chunksOf, report.blocks) + 1) - clock[0] >= TestDurationMs
          && report.speed.value ==
             RoundToHundredths(RateMbps(report.totalBytes, Reading(clock, TestReading(chunksOf, report.blocks) + 1) - clock[0])))
    && report.samples == DownloadRun(clock, chunksOf, report.blocks).samples
    && SpacedSamples(report.samples, clock[0])
  }

  /**
   * The download phase. `clock` holds the successive clock readings: the
   * start, then per block the loop test and one reading per arriving chunk,
   * then, after the failing loop test, the end. `chunksOf(j)` lists the chunk
   * lengths in which block `j` arrives; `failAt` is the block whose fetch
   * throws, if any.
   */
  method MeasureDownload(clock: seq<int>, failAt: Option<nat>, chunksOf: nat -> seq<nat>) returns (report: PhaseReport)
    requires ClockOk(clock)
    ensures DownloadOutcome(clock, failAt, chunksOf, report)
  {
    var blocks, meter, samples, threw := DownloadBlocks(clock, failAt, chunksOf);
    if threw {
      // the fetch threw: the phase reports no rate
      report := PhaseReport(None, blocks, meter.total, samples);
      DownloadThrew(clock, failAt, chunksOf, Progress(meter, samples), report);
    } else {
      // the failing loop test was reading `TestReading(chunksOf, blocks)`; the end time is the next one
      var last := TestReading(chunksOf, blocks);
      var endTime := Reading(clock, last + 1);
      ReadingMonotone(clock, last, last + 1);
      report := PhaseReport(Some(RoundToHundredths(RateMbps(meter.total, endTime - clock[0]))), blocks, meter.total, samples);
      DownloadTimedOut(clock, failAt, chunksOf, Progress(meter, samples), report);
    }
  }

  /**
   * How the download loop ends: with the counters and samples of the blocks
   * it completed, all started in time, and either a throwing fetch (`threw`)
   * or a loop test that found the 5 seconds up.
   */
  predicate DownloadStopped(clock: seq<int>, failAt: Option<nat>, chunksOf: nat -> seq<nat>, blocks: nat, run: Progress, threw: bool)
    requires |clock| > 0
  {
    && run == DownloadRun(clock, chunksOf, blocks)
    && StartedInTime(clock, chunksOf, blocks)
    && (failAt.Some? ==> blocks <= failAt.value)
    && (threw <==> failAt == Some(blocks) && Reading(clock, TestReading(chunksOf, blocks)) - clock[0] < TestDurationMs)
    && (!threw ==> Reading(clock, TestReading(chunksOf, blocks)) - clock[0] >= TestDurationMs)
  }

  /**
   * The loop of the download phase: blocks are fetched and read while the
   * loop test finds time left, until a fetch throws (`threw`).
   */
  method DownloadBlocks(clock: seq<int>, failAt: Option<nat>, chunksOf: nat -> seq<nat>)
    returns (blocks: nat, meter: Meter, samples: seq<Sample>, threw: bool)
    requires ClockOk(clock)
    ensures DownloadStopped(clock, failAt, chunksOf, blocks, Progress(meter, samples), threw)
  {
    // Reading 0 is the start; the loop condition for block `blocks` reads `TestReading(chunksOf, blocks)`.
    var startTime := Reading(clock, 0);
    meter, samples, blocks := Meter(0, 0, startTime), [], 0;
    while Reading(clock, TestReading(chunksOf, blocks)) - startTime < TestDurationMs
      invariant Progress(meter, samples) == DownloadRun(clock, chunksOf, blocks)
      invariant StartedInTime(clock, chunksOf, blocks)
      invariant failAt.Some? ==> blocks <= failAt.value
      decreases |clock| - TestReading(chunksOf, blocks)
    {
      if failAt == Some(blocks) {
        return blocks, meter, samples, true;
      }
      meter, samples := DownloadBlock(clock, chunksOf, blocks, meter, samples);
      StartedInTimeNext(clock, chunksOf, blocks);
      blocks := blocks + 1;
    }
    threw := false;
  }

  /** A download phase whose fetch throws in block `blocks`, started in time, reports no rate. */
  lemma DownloadThrew(clock: seq<int>, failAt: Option<nat>, chunksOf: nat -> seq<nat>, run: Progress, report: PhaseReport)
    requires ClockOk(clock) && DownloadStopped(clock, failAt, chunksOf, report.blocks, run, true)
    requires report == PhaseReport(None, report.blocks, run.meter.total, run.samples)
    ensures DownloadOutcome(clock, failAt, chunksOf, report)
  {
    DownloadRunTracks(clock, chunksOf, report.blocks);
  }

  /** A download phase whose loop test finds the 5 seconds up before block `blocks` reports the average rate. */
  lemma DownloadTimedOut(clock: seq<int>, failAt: Option<nat>, chunksOf: nat -> seq<nat>, run: Progress, report: PhaseReport)
    requires ClockOk(clock) && DownloadStopped(clock, failAt, chunksOf, report.blocks, run, false)
    requires Reading(clock, TestReading(chunksOf, report.blocks) + 1) - clock[0] >= TestDurationMs
    requires report == PhaseReport(
      Some(RoundToHundredths(RateMbps(run.meter.total, Reading(clock, TestReading(chunksOf, report.blocks) + 1) - clock[0]))),
      report.blocks, run.meter.total, run.samples)
    ensures DownloadOutcome(clock, failAt, chunksOf, report)
  {
    DownloadRunTracks(clock, chunksOf, report.blocks);
  }

  // ---------------------------------------------------------------------------
  // The page
  // ---------------------------------------------------------------------------

  datatype Phase = PingPhase | DownloadPhase | UploadPhase

  /** The latency probe: when it was sent, when its answer came, and whether it failed. */
  datatype PingProbe = PingProbe(sentAt: int, answeredAt: int, failed: bool)

  /** Both times come from a clock that never runs backwards. */
  predicate ProbeOk(probe: PingProbe)
  {
    probe.sentAt <= probe.answeredAt
  }

  /** The speed test page's state. */
  class SpeedTestPage {
    var downloadSpeed: Option<real>
    var uploadSpeed: Option<real>
    var ping: Option<int>
    var isTesting: bool
    var currentSpeed: Option<real>
    var testPhase: Direction
    /** The phases run so far, each with whether a test was marked running at the time. */
    ghost var phasesRun: seq<(Phase, bool)>

    constructor ()
      ensures downloadSpeed == None && uploadSpeed == None && ping == None
      ensures !isTesting && currentSpeed == None && testPhase == Download
      ensures phasesRun == []
    {
      downloadSpeed, uploadSpeed, ping := None, None, None;
      isTesting, currentSpeed, testPhase := false, None, Download;
      phasesRun := [];
    }

    /** The latency probe: the elapsed time, or no value if the request failed. */
    method MeasurePing(probe: PingProbe)
      requires ProbeOk(probe)
      modifies this
      ensures ping == if probe.failed then None else Some(probe.answeredAt - probe.sentAt)
      ensures ping.Some? ==> ping.value >= 0
      ensures phasesRun == old(phasesRun) + [(PingPhase, isTesting)]
      ensures downloadSpeed == old(downloadSpeed) && uploadSpeed == old(uploadSpeed)
      ensures isTesting == old(isTesting) && currentSpeed == old(currentSpeed) && testPhase == old(testPhase)
    {
      phasesRun := phasesRun + [(PingPhase, isTesting)];
      if probe.failed {
        ping := None;
      } else {
        ping := Some(probe.answeredAt - probe.sentAt);
      }
    }

    /** The download phase: its result replaces the shown download rate; the live rate is cleared at the end. */
    method MeasureDownloadSpeed(clock: seq<int>, failAt: Option<nat>, chunksOf: nat -> seq<nat>) returns (report: PhaseReport)
      requires ClockOk(clock)
      modifies this
      ensures DownloadOutcome(clock, failAt, chunksOf, report)
      ensures failAt.None? ==> report.speed.Some?
      ensures report.speed.Some? ==> report.speed.value >= 0.0
      ensures downloadSpeed == report.speed && currentSpeed == None && testPhase == Download
      ensures phasesRun == old(phasesRun) + [(DownloadPhase, isTesting)]
      ensures ping == old(ping) && uploadSpeed == old(uploadSpeed) && isTesting == old(isTesting)
    {
      testPhase := Download;
      phasesRun := phasesRun + [(DownloadPhase, isTesting)];
      report := MeasureDownload(clock, failAt, chunksOf);
      downloadSpeed := report.speed;
      currentSpeed := None;
    }

    /** The upload phase: its result replaces the shown upload rate; the live rate is cleared at the end. */
    method MeasureUploadSpeed(clock: seq<int>, failAt: Option<nat>) returns (report: PhaseReport)
      requires ClockOk(clock)
      modifies this
      ensures UploadOutcome(clock, failAt, report)
      ensures failAt.None? ==> report.speed.Some?
      ensures report.speed.Some? ==> report.speed.value >= 0.0
      ensures uploadSpeed == report.speed && currentSpeed == None && testPhase == Upload
      ensures phasesRun == old(phasesRun) + [(UploadPhase, isTesting)]
      ensures ping == old(ping) && downloadSpeed == old(downloadSpeed) && isTesting == old(isTesting)
    {
      testPhase := Upload;
      phasesRun := phasesRun + [(UploadPhase, isTesting)];
      report := MeasureUpload(clock, failAt);
      uploadSpeed := report.speed;
      currentSpeed := None;
    }

    /**
     * The Start button (disabled while a test runs): ping, then download, then
     * upload, all while the test is marked running; a failure in one phase
     * leaves the others' results alone.
     */
    method StartSpeedTest(probe: PingProbe, downClock: seq<int>, downFailAt: Option<nat>, chunksOf: nat -> seq<nat>,
                          upClock: seq<int>, upFailAt: Option<nat>)
      returns (down: PhaseReport, up: PhaseReport)
      requires !isTesting
      requires ProbeOk(probe) && ClockOk(downClock) && ClockOk(upClock)
      modifies this
      ensures phasesRun == old(phasesRun) + [(PingPhase, true), (DownloadPhase, true), (UploadPhase, true)]
      ensures !isTesting && currentSpeed == None && testPhase == Upload
      ensures ping == if probe.failed then None else Some(probe.answeredAt - probe.sentAt)
      ensures ping.Some? ==> ping.value >= 0
      ensures downloadSpeed == down.speed && DownloadOutcome(downClock, downFailAt, chunksOf, down)
      ensures uploadSpeed == up.speed && UploadOutcome(upClock, upFailAt, up)
      ensures downFailAt.None? ==> down.speed.Some?
      ensures upFailAt.None? ==> up.speed.Some?
    {
      isTesting := true;
      MeasurePing(probe);
      down := MeasureDownloadSpeed(downClock, downFailAt, chunksOf);
      up := MeasureUploadSpeed(upClock, upFailAt);
      isTesting := false;
    }
  }
}
