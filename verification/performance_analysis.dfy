/** The per-thread wakeup-timestamp analyser of `PerformanceAnalysis.h`
    (namespace `ReportPerformance`): raw timestamps are gathered into a bounded
    series; when the series is full, or when audio switches on or off, it is
    compressed into a histogram, scanned for outliers, and emptied.

    `Analyzer` is the analyser's state as a value, with the pure transition
    functions `Flush`, `LogTs` and `StateChange`; class `PerformanceAnalysis`
    holds the same state in fields and updates it in place, each method proved
    to perform the corresponding transition. `PerformanceAnalysisMap` holds the
    analysers by value, keyed by thread and then by source-location hash. */
module ReportPerformance {
  import opened BoundedDeque
  import opened OutlierScan

  /** Number of short-term histograms kept (`kHistsCapacity`). */
  const kHistsCapacity: nat := 20
  /** Samples gathered before the series is processed and flushed (`kHistSize`). */
  const kHistSize: nat := 1000
  /** Outlier records kept (`kOutlierSeriesSize`). */
  const kOutlierSeriesSize: nat := 100
  /** Peak timestamps kept (`kPeakSeriesSize`). */
  const kPeakSeriesSize: nat := 100

  /** A buffer-period histogram; its bucketing is not part of this model. */
  type Histogram(==)

  /** The two computations this model takes as given: the period in
      milliseconds between two raw timestamps, and the histogram of a series. */
  datatype Env = Env(periodMs: PeriodMs, histogram: seq<nat> -> Histogram)

  /** The state of one analyser. */
  datatype Analyzer = Analyzer(
    series: seq<nat>,                 // mTimeStampSeries
    hists: seq<(nat, Histogram)>,     // mHists: <first sample, histogram>
    outliers: seq<Outlier>,           // mOutlierData
    peaks: seq<nat>,                  // mPeakTimestamps
    scan: Scanner)                    // mElapsed, mPrevNs

  /** A newly constructed analyser. */
  const Fresh: Analyzer := Analyzer([], [], [], [], OutlierScan.Initial)

  /** Every deque within its capacity. */
  predicate DequesBounded(a: Analyzer)
  {
    |a.hists| <= kHistsCapacity && |a.outliers| <= kOutlierSeriesSize && |a.peaks| <= kPeakSeriesSize
  }

  /** The analyser's invariant between calls: the deques are bounded and the
      raw series is below the size at which it is flushed. */
  predicate Bounded(a: Analyzer)
  {
    DequesBounded(a) && |a.series| < kHistSize
  }

  /** The histogram entry a non-empty series is compressed into. */
  function HistEntry(env: Env, series: seq<nat>): (nat, Histogram)
    requires series != []
  {
    (series[0], env.histogram(series))
  }

  /** `processAndFlushTimeStampSeries`: scan the series for outliers, compress
      it into one histogram paired with its first sample, and empty it. */
  function Flush(env: Env, a: Analyzer): (r: Analyzer)
    requires DequesBounded(a)
    ensures DequesBounded(r)
    ensures r.series == [] && r.peaks == a.peaks
    ensures a.series == [] ==> r.hists == a.hists
    ensures a.series != [] ==> r.hists == Newest(a.hists + [HistEntry(env, a.series)], kHistsCapacity)
    ensures a.series != [] ==> r.hists[|r.hists| - 1] == HistEntry(env, a.series)
    ensures a.series != [] && |a.hists| < kHistsCapacity ==> |r.hists| == |a.hists| + 1
    ensures r.outliers == Newest(a.outliers + Scan(env.periodMs, a.scan, a.series).1, kOutlierSeriesSize)
    ensures r.scan == Scan(env.periodMs, a.scan, a.series).0
  {
    var scanned := Scan(env.periodMs, a.scan, a.series);
    var hists := if a.series == [] then a.hists
                 else PushBounded(a.hists, HistEntry(env, a.series), kHistsCapacity);
    PushAllNewest(a.outliers, scanned.1, kOutlierSeriesSize);
    Analyzer([], hists, PushAll(a.outliers, scanned.1, kOutlierSeriesSize), a.peaks, scanned.0)
  }

  /** `logTsEntry`: append the timestamp; once the series has reached
      `kHistSize` samples, process and flush it. */
  function LogTs(env: Env, a: Analyzer, ts: nat): (r: Analyzer)
    requires Bounded(a)
    ensures Bounded(r)
    ensures |a.series| + 1 < kHistSize ==> r == a.(series := a.series + [ts])
    ensures |a.series| + 1 == kHistSize ==>
              && r.series == []
              && r.hists == Newest(a.hists + [HistEntry(env, a.series + [ts])], kHistsCapacity)
              && r.hists[|r.hists| - 1] == ((a.series + [ts])[0], env.histogram(a.series + [ts]))
    ensures |a.series| + 1 == kHistSize ==> r == Flush(env, a.(series := a.series + [ts]))
  {
    var grown := a.(series := a.series + [ts]);
    if |grown.series| >= kHistSize then Flush(env, grown) else grown
  }

  /** `handleStateChange`: flush what was gathered up to the audio on/off
      event, and forget the last timestamp, so that the idle interval after
      the event is never measured as a period. */
  function StateChange(env: Env, a: Analyzer): (r: Analyzer)
    requires DequesBounded(a)
    ensures Bounded(r)
    ensures r.series == [] && r.scan.prevNs < 0 && r.peaks == a.peaks
    ensures r.hists == Flush(env, a).hists && r.outliers == Flush(env, a).outliers
    ensures r.scan.elapsedMs == Scan(env.periodMs, a.scan, a.series).0.elapsedMs
  {
    var flushed := Flush(env, a);
    flushed.(scan := flushed.scan.(prevNs := kNoPrevNs))
  }

  /** Logging a stream one timestamp at a time. */
  function LogAll(env: Env, a: Analyzer, tss: seq<nat>): (r: Analyzer)
    requires Bounded(a)
    ensures Bounded(r)
    decreases |tss|
  {
    if tss == [] then a else LogAll(env, LogTs(env, a, tss[0]), tss[1..])
  }

  /** One logging step, whether or not it flushes, leaves what a later flush
      would find unchanged. */
  lemma LogStepKeepsPending(env: Env, a: Analyzer, t: nat, rest: seq<nat>)
    requires Bounded(a)
    ensures var a' := LogTs(env, a, t);
            var after := Flush(env, a'.(series := a'.series + rest));
            var before := Flush(env, a.(series := a.series + [t] + rest));
            after.outliers == before.outliers && after.scan == before.scan
  {
    var a' := LogTs(env, a, t);
    if |a.series| + 1 < kHistSize {
      assert a'.(series := a'.series + rest) == a.(series := a.series + [t] + rest);
    } else {
      var first := Scan(env.periodMs, a.scan, a.series + [t]);
      var second := Scan(env.periodMs, first.0, rest);
      assert a'.outliers == Newest(a.outliers + first.1, kOutlierSeriesSize);
      assert a'.scan == first.0;
      assert a'.series + rest == rest;
      StoreChunks(env.periodMs, a.outliers, a.scan, a.series + [t], rest, kOutlierSeriesSize);
    }
  }

  /** Automatic flushes do not change which outliers are found: logging a
      stream and then flushing leaves the same outlier store and accumulators
      as one flush of every sample gathered, wherever the automatic flushes fell. */
  lemma {:induction false} LoggingIsChunkInvariant(env: Env, a: Analyzer, tss: seq<nat>)
    requires Bounded(a)
    ensures var logged := Flush(env, LogAll(env, a, tss));
            var once := Flush(env, a.(series := a.series + tss));
            logged.outliers == once.outliers && logged.scan == once.scan
    decreases |tss|
  {
    if tss == [] {
      assert a.(series := a.series + tss) == a;
    } else {
      var t, rest := tss[0], tss[1..];
      var a' := LogTs(env, a, t);
      assert LogAll(env, a, tss) == LogAll(env, a', rest);
      LoggingIsChunkInvariant(env, a', rest);
      LogStepKeepsPending(env, a, t, rest);
      assert a.series + [t] + rest == a.series + tss;
    }
  }

  /** Two flushes of consecutive chunks leave the same outlier store and
      accumulators as one flush of both chunks together. */
  lemma FlushIsChunkInvariant(env: Env, a: Analyzer, s1: seq<nat>, s2: seq<nat>)
    requires DequesBounded(a)
    ensures var b := Flush(env, a.(series := s1));
            var c := Flush(env, b.(series := s2));
            var d := Flush(env, a.(series := s1 + s2));
            c.outliers == d.outliers && c.scan == d.scan
  {
    var b := Flush(env, a.(series := s1));
    var first := Scan(env.periodMs, a.scan, s1);
    var second := Scan(env.periodMs, first.0, s2);
    assert b.outliers == Newest(a.outliers + first.1, kOutlierSeriesSize) && b.scan == first.0;
    var c := Flush(env, b.(series := s2));
    assert c.outliers == Newest(b.outliers + second.1, kOutlierSeriesSize) && c.scan == second.0;
    StoreChunks(env.periodMs, a.outliers, a.scan, s1, s2, kOutlierSeriesSize);
  }

  /** After an audio on/off event, the outliers found in the samples gathered
      next are exactly those among their own consecutive periods: the first
      sample only sets the baseline, so the idle gap yields no record. */
  lemma IdleGapNotScanned(env: Env, a: Analyzer, tss: seq<nat>)
    requires DequesBounded(a) && tss != []
    ensures var b := StateChange(env, a);
            Times(Scan(env.periodMs, b.scan, tss).1) == Flagged(env.periodMs, tss[0], tss[1..])
  {
    var b := StateChange(env, a);
    ScanFlagsOutliers(env.periodMs, b.scan, tss);
    FlaggedWithoutBaseline(env.periodMs, b.scan.prevNs, tss);
  }

  /** The analyser of `PerformanceAnalysis.h`, updated in place. */
  class PerformanceAnalysis {
    const env: Env
    var mOutlierData: seq<Outlier>
    var mPeakTimestamps: seq<nat>
    var mHists: seq<(nat, Histogram)>
    var mTimeStampSeries: seq<nat>
    var mElapsed: nat
    var mPrevNs: int

    /** The fields read as one state value. */
    function Model(): Analyzer
      reads this
    {
      Analyzer(mTimeStampSeries, mHists, mOutlierData, mPeakTimestamps, Scanner(mElapsed, mPrevNs))
    }

    predicate Valid()
      reads this
    {
      Bounded(Model())
    }

    constructor (env: Env)
      ensures this.env == env && Model() == Fresh && Valid()
    {
      this.env := env;
      mOutlierData, mPeakTimestamps, mHists, mTimeStampSeries := [], [], [], [];
      mElapsed, mPrevNs := 0, kNoPrevNs;
    }

    /** `storeOutlierData`: scans `timestamps`, continuing from the
        accumulators left by the previous call, and pushes one record per
        outlier into the bounded outlier store. */
    method StoreOutlierData(timestamps: seq<nat>)
      requires |mOutlierData| <= kOutlierSeriesSize
      modifies this`mOutlierData, this`mElapsed, this`mPrevNs
      ensures Scanner(mElapsed, mPrevNs) == Scan(env.periodMs, old(Scanner(mElapsed, mPrevNs)), timestamps).0
      ensures mOutlierData == Newest(old(mOutlierData) + Scan(env.periodMs, old(Scanner(mElapsed, mPrevNs)), timestamps).1,
                                     kOutlierSeriesSize)
    {
      ghost var s0, d0 := Scanner(mElapsed, mPrevNs), mOutlierData;
      ghost var records: seq<Outlier> := [];
      var i := 0;
      assert timestamps[..0] == [];
      while i < |timestamps|
        invariant 0 <= i <= |timestamps|
        invariant Scan(env.periodMs, s0, timestamps[..i]) == (Scanner(mElapsed, mPrevNs), records)
        invariant mOutlierData == PushAll(d0, records, kOutlierSeriesSize)
      {
        ghost var step := Step(env.periodMs, Scanner(mElapsed, mPrevNs), timestamps[i]);
        ScanSnoc(env.periodMs, s0, timestamps, i);
        PushAllAppend(d0, records, step.1, kOutlierSeriesSize);
        ScanTimestamp(timestamps[i]);
        records := records + step.1;
        i := i + 1;
      }
      assert timestamps[..i] == timestamps;
      PushAllNewest(d0, records, kOutlierSeriesSize);
    }

    /** One iteration of the scan in `storeOutlierData`. */
    method ScanTimestamp(ts: nat)
      requires |mOutlierData| <= kOutlierSeriesSize
      modifies this`mOutlierData, this`mElapsed, this`mPrevNs
      ensures var step := Step(env.periodMs, old(Scanner(mElapsed, mPrevNs)), ts);
              && Scanner(mElapsed, mPrevNs) == step.0
              && mOutlierData == PushAll(old(mOutlierData), step.1, kOutlierSeriesSize)
    {
      ghost var step := Step(env.periodMs, Scanner(mElapsed, mPrevNs), ts);
      if step.1 != [] {
        PushAllOne(mOutlierData, step.1[0], kOutlierSeriesSize);
      }
      if mPrevNs >= 0 {
        var period := env.periodMs(mPrevNs, ts);
        if period >= kOutlierMs {
          PushOutlier(Outlier(mElapsed, ts));
          mElapsed := 0;
        } else {
          mElapsed := mElapsed + period;
        }
      }
      mPrevNs := ts;
    }

    /** `mOutlierData.push_back(o)`, then `pop_front()` once past capacity. */
    method PushOutlier(o: Outlier)
      requires |mOutlierData| <= kOutlierSeriesSize
      modifies this`mOutlierData
      ensures mOutlierData == PushBounded(old(mOutlierData), o, kOutlierSeriesSize)
    {
      mOutlierData := mOutlierData + [o];
      if |mOutlierData| > kOutlierSeriesSize {
        mOutlierData := mOutlierData[1..];
      }
    }

    /** `processAndFlushTimeStampSeries`. */
    method ProcessAndFlushTimeStampSeries()
      requires DequesBounded(Model())
      modifies this
      ensures Model() == Flush(env, old(Model()))
      ensures Valid()
    {
      StoreOutlierData(mTimeStampSeries);
      if |mTimeStampSeries| > 0 {
        mHists := mHists + [(mTimeStampSeries[0], env.histogram(mTimeStampSeries))];
        if |mHists| > kHistsCapacity {
          mHists := mHists[1..];
        }
      }
      mTimeStampSeries := [];
    }

    /** `handleStateChange`. */
    method HandleStateChange()
      requires Valid()
      modifies this
      ensures Model() == StateChange(env, old(Model()))
      ensures Valid()
    {
      ProcessAndFlushTimeStampSeries();
      mPrevNs := kNoPrevNs;
    }

    /** `logTsEntry`. */
    method LogTsEntry(ts: nat)
      requires Valid()
      modifies this
      ensures Model() == LogTs(env, old(Model()), ts)
      ensures Valid()
    {
      mTimeStampSeries := mTimeStampSeries + [ts];
      if |mTimeStampSeries| >= kHistSize {
        ProcessAndFlushTimeStampSeries();
      }
    }

    /** The write half of `detectPeaks`: records the timestamp of a detected
        peak in the bounded peak store. */
    method StorePeak(ts: nat)
      requires Valid()
      modifies this
      ensures mPeakTimestamps == Newest(old(mPeakTimestamps) + [ts], kPeakSeriesSize)
      ensures Model() == old(Model()).(peaks := mPeakTimestamps)
      ensures Valid()
    {
      mPeakTimestamps := mPeakTimestamps + [ts];
      if |mPeakTimestamps| > kPeakSeriesSize {
        mPeakTimestamps := mPeakTimestamps[1..];
      }
    }
  }

  /** `PerformanceAnalysisMap`: thread, then source-location hash, to an
      analyser held by value. */
  type PerformanceAnalysisMap = map<int, map<nat, Analyzer>>

  predicate AllBounded(m: PerformanceAnalysisMap)
  {
    forall thread, hash | thread in m && hash in m[thread] :: Bounded(m[thread][hash])
  }

  /** The analyser for a key; a missing one is created fresh, as `operator[]`
      of `std::map` does. */
  function Lookup(m: PerformanceAnalysisMap, thread: int, hash: nat): (a: Analyzer)
    requires AllBounded(m)
    ensures Bounded(a)
    ensures thread !in m || hash !in m[thread] ==> a == Fresh
    ensures thread in m && hash in m[thread] ==> a == m[thread][hash]
  {
    if thread in m && hash in m[thread] then m[thread][hash] else Fresh
  }

  function Store(m: PerformanceAnalysisMap, thread: int, hash: nat, a: Analyzer): PerformanceAnalysisMap
  {
    var inner := if thread in m then m[thread] else map[];
    m[thread := inner[hash := a]]
  }

  /** Storing an analyser for one key leaves every other key as it was. */
  lemma StoreTouchesOnlyItsKey(m: PerformanceAnalysisMap, thread: int, hash: nat, a: Analyzer)
    ensures var r := Store(m, thread, hash, a);
            && r.Keys == m.Keys + {thread}
            && r[thread].Keys == (if thread in m then m[thread].Keys else {}) + {hash}
            && r[thread][hash] == a
            && (forall t :: t in m && t != thread ==> r[t] == m[t])
            && (forall h :: thread in m && h in m[thread] && h != hash ==> r[thread][h] == m[thread][h])
  {
  }

  /** Routes a timestamp to the analyser of its (thread, hash) key. */
  function LogTsAt(env: Env, m: PerformanceAnalysisMap, thread: int, hash: nat, ts: nat): (r: PerformanceAnalysisMap)
    requires AllBounded(m)
    ensures AllBounded(r)
    ensures r.Keys == m.Keys + {thread}
    ensures r[thread].Keys == (if thread in m then m[thread].Keys else {}) + {hash}
    ensures r[thread][hash] == LogTs(env, Lookup(m, thread, hash), ts)
    ensures forall t :: t in m && t != thread ==> r[t] == m[t]
    ensures forall h :: thread in m && h in m[thread] && h != hash ==> r[thread][h] == m[thread][h]
  {
    StoreTouchesOnlyItsKey(m, thread, hash, LogTs(env, Lookup(m, thread, hash), ts));
    Store(m, thread, hash, LogTs(env, Lookup(m, thread, hash), ts))
  }

  /** Routes an audio on/off event to the analyser of its (thread, hash) key. */
  function HandleStateChangeAt(env: Env, m: PerformanceAnalysisMap, thread: int, hash: nat): (r: PerformanceAnalysisMap)
    requires AllBounded(m)
    ensures AllBounded(r)
    ensures r.Keys == m.Keys + {thread}
    ensures r[thread].Keys == (if thread in m then m[thread].Keys else {}) + {hash}
    ensures r[thread][hash] == StateChange(env, Lookup(m, thread, hash))
    ensures forall t :: t in m && t != thread ==> r[t] == m[t]
    ensures forall h :: thread in m && h in m[thread] && h != hash ==> r[thread][h] == m[thread][h]
  {
    StoreTouchesOnlyItsKey(m, thread, hash, StateChange(env, Lookup(m, thread, hash)));
    Store(m, thread, hash, StateChange(env, Lookup(m, thread, hash)))
  }
}
