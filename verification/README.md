# Audio wakeup-timestamp analysis and minijail policy assembly, in Dafny

This project models two pieces of the Android media framework.

**`ReportPerformance::PerformanceAnalysis`** (`media/libnbaio/include/media/nbaio/PerformanceAnalysis.h`)
is the per-thread analyser of audio wakeup timestamps read from NBLog:

- `logTsEntry` appends a raw timestamp to `mTimeStampSeries`.
- When the series reaches `kHistSize` (1000) samples, `processAndFlushTimeStampSeries` runs. It
  scans the series for outliers (`storeOutlierData`), compresses it into a histogram paired with
  its first sample, pushes that pair onto `mHists`, and empties the series.
- `handleStateChange` (an audio on/off event) flushes the same way, early.
- `storeOutlierData` is a streaming scan. A period of at least `kOutlierMs` (7 ms) between
  consecutive wakeups is an outlier. Each outlier pushes `<ms elapsed, outlier timestamp>` onto
  `mOutlierData`, where the elapsed value is the value of `mElapsed` (see the choices below). The accumulators `mElapsed` and `mPrevNs` carry over
  from one call to the next.
- `mHists`, `mOutlierData` and `mPeakTimestamps` are deques bounded by `kHistsCapacity` (20),
  `kOutlierSeriesSize` (100) and `kPeakSeriesSize` (100). Pushing onto a full deque drops its
  oldest entry.
- `PerformanceAnalysisMap` keeps one analyser per thread and source-location hash.

**`WritePolicyToPipe` / `SetUpMinijail`** (`services/minijail/minijail.cpp`) join the base
seccomp policy and an optional additional policy, and write the result to a pipe.

Files:

- `bounded_deque.dfy`, module `BoundedDeque`: drop-oldest insertion (`PushBounded`), repeated
  insertion (`PushAll`), and the "newest n entries" reference (`Newest`) with its lemmas.
- `outlier_scan.dfy`, module `OutlierScan`: the outlier scan as pure transitions (`Step`, `Scan`
  over `Scanner` = `mElapsed`/`mPrevNs`). It also holds two front-to-back reference definitions,
  `Flagged` and `SumPeriods`, and the lemmas that connect them to the scan.
- `performance_analysis.dfy`, module `ReportPerformance`:
  - the analyser state as a value (`Analyzer`) and its transitions `Flush`, `LogTs` and
    `StateChange`;
  - the class `PerformanceAnalysis`, whose fields are the header's modelled fields
    (`mTimeStampSeries`, `mHists`, `mOutlierData`, `mPeakTimestamps`, `mElapsed`, `mPrevNs`)
    plus `env`, the conversions taken as given. Its methods update the fields in place, each
    proved to perform the matching transition. The peak-detector state and `kPeriodMs`/`kPeriodMsCPU`
    are not fields of the model (see "## Left out");
  - the map of maps with its routing functions.
- `minijail.dfy`, module `Minijail`: the policy text and the return-code decision.

Two computations are defined in `ReportPerformance.h` and `PerformanceAnalysis.cpp`, which are
not part of this model. They are parameters, bundled in `ReportPerformance.Env`:

- how two raw timestamps become a period in milliseconds (`periodMs`);
- how a series is bucketed into a `Histogram` (`histogram`, an opaque type).

Behaviour the header leaves open. `PerformanceAnalysis.cpp` is not part of this model, so the
following are choices, made to satisfy the header's comments:

- A flush of an empty series appends no histogram, because there is no first sample to pair it
  with.
- `handleStateChange` flushes, then clears `mPrevNs` to -1 ("no previous timestamp"). The next
  timestamp therefore only sets a new baseline, and the idle interval is never measured as a
  period (lines 55-59). `mElapsed` is kept. The header itself says only that `handleStateChange`
  flushes the series, and a flush alone leaves `mPrevNs` at the last sample (`Flush`'s contract).
  Without this reset the first sample after the event would be measured against the last one
  before it, and a gap of at least `kOutlierMs` would be recorded as an outlier.
  `IdleGapNotScanned` rests entirely on this reset.
- An outlier record carries the value of `mElapsed` before the reset and the timestamp that ends
  the long period. After that, `mElapsed` restarts from 0. Otherwise it grows by each period.
  The elapsed value therefore runs from the end of the previous record's long period up to the
  start of this outlier's long period: the outlier's own period is not counted in it, nor in the
  next record's. It is not the full gap between the two outlier timestamps that the header's
  phrase "elapsed time between outliers" (lines 74 and 91) may suggest; with periods taken as
  differences, scanning `0, 4, 8, 20, 24, 28, 40` gives the records `<8, 20>` and `<8, 40>`.
- A deque pushes first and then drops its front when it holds more than its capacity. A full
  deque therefore holds exactly its capacity.
- An outlier is a period greater than or equal to `kOutlierMs`, as the comment at line 113 says,
  not a strictly greater one.
- On an audio state change, the buffered series is processed (histogram and outlier scan), not
  discarded, as the comment at lines 57-58 says.

`PerformanceAnalysisMap` holds its analysers by value (`std::map<…, PerformanceAnalysis>`). The
model's map therefore holds `Analyzer` values. `operator[]` default-constructs a missing entry, so
the model uses a fresh analyser for a missing key (`Lookup`).

## Model

| member | source | states |
|---|---|---|
| `BoundedDeque.PushBounded` | media/libnbaio/include/media/nbaio/PerformanceAnalysis.h:121-126 | inserting into a bounded deque leaves at most `cap` entries, ends with the new one, and keeps exactly the newest `min(len+1, cap)` entries of old contents plus the new one |
| `BoundedDeque.PushFullDropsOldest` | media/libnbaio/include/media/nbaio/PerformanceAnalysis.h:121-126 | on a full deque, only the oldest entry is dropped; all others survive in order, shifted by one, and the new entry is last |
| `BoundedDeque.PushNotFullKeepsAll` | media/libnbaio/include/media/nbaio/PerformanceAnalysis.h:121-126 | on a deque below capacity, insertion is a plain append |
| `BoundedDeque.PushAll` | media/libnbaio/include/media/nbaio/PerformanceAnalysis.h:91-100 | pushing a batch one entry at a time never leaves more than `cap` entries |
| `BoundedDeque.PushAllAppend` | media/libnbaio/include/media/nbaio/PerformanceAnalysis.h:91-100 | pushing two batches in turn equals pushing their concatenation |
| `BoundedDeque.PushAllNewest` | media/libnbaio/include/media/nbaio/PerformanceAnalysis.h:121-126 | after any number of drop-oldest pushes the deque holds exactly the newest `cap` entries of its whole history |
| `BoundedDeque.NewestAppend` | media/libnbaio/include/media/nbaio/PerformanceAnalysis.h:121-126 | truncating to the newest `n` between batches does not change what a bounded store finally holds |
| `OutlierScan.Step` | media/libnbaio/include/media/nbaio/PerformanceAnalysis.h:72-75 | one timestamp emits a record iff there is a previous timestamp and the period is at least `kOutlierMs`; the record is `<mElapsed, ts>` and resets `mElapsed`, otherwise the period is added; `mPrevNs` becomes `ts` |
| `OutlierScan.Scan` | media/libnbaio/include/media/nbaio/PerformanceAnalysis.h:72-75 | scanning a series leaves `mPrevNs` at its last timestamp and emits at most one record per timestamp; an empty series changes nothing |
| `OutlierScan.ScanChunks` | media/libnbaio/include/media/nbaio/PerformanceAnalysis.h:130-137 | scanning a series in two chunks with the accumulators carried over gives the same records and final accumulators as one scan |
| `OutlierScan.FirstTimestampSetsBaseline` | media/libnbaio/include/media/nbaio/PerformanceAnalysis.h:136-137 | with `mPrevNs` = -1 the first timestamp only becomes the baseline: no record, `mElapsed` unchanged |
| `OutlierScan.ScanFlagsOutliers` | media/libnbaio/include/media/nbaio/PerformanceAnalysis.h:72-75 | the timestamps of the emitted records are exactly those whose period from their predecessor is at least `kOutlierMs`, in order (against the front-to-back reference `Flagged`) |
| `OutlierScan.QuietScanAccumulates` | media/libnbaio/include/media/nbaio/PerformanceAnalysis.h:135-136 | a series that emits no record adds the sum of all its periods to `mElapsed` |
| `OutlierScan.RecordCarriesElapsed` | media/libnbaio/include/media/nbaio/PerformanceAnalysis.h:91-92 | a record's first component is `mElapsed` plus the sum of the periods of the quiet stretch before the outlier, excluding the outlier's own long period; `mElapsed` is 0 right after it |
| `ReportPerformance.Flush` | media/libnbaio/include/media/nbaio/PerformanceAnalysis.h:50-53 | the series ends empty; a non-empty series adds one `<first sample, histogram>` entry as the newest of `mHists` (length grows by one below capacity); the outlier store is the newest 100 of old records plus the scan's; peaks unchanged; deques stay bounded |
| `ReportPerformance.LogTs` | media/libnbaio/include/media/nbaio/PerformanceAnalysis.h:61-64 | the series never reaches `kHistSize` between calls; the timestamp is appended, and the sample that completes 1000 triggers a flush of the whole series (histogram entry newest in `mHists`, outliers scanned, accumulators carried on, peaks kept) |
| `ReportPerformance.StateChange` | media/libnbaio/include/media/nbaio/PerformanceAnalysis.h:55-59 | flushes the series gathered up to the event (same histograms and outliers as a flush, `mElapsed` as the scan leaves it, peaks unchanged) and leaves no previous timestamp |
| `ReportPerformance.LogAll` | media/libnbaio/include/media/nbaio/PerformanceAnalysis.h:102-104 | logging any stream keeps the analyser bounded (series below 1000, deques within capacity) |
| `ReportPerformance.LogStepKeepsPending` | media/libnbaio/include/media/nbaio/PerformanceAnalysis.h:130-131 | one logging step, flushing or not, does not change what a later flush would record |
| `ReportPerformance.LoggingIsChunkInvariant` | media/libnbaio/include/media/nbaio/PerformanceAnalysis.h:130-131 | after logging a stream and flushing, the outlier store and accumulators equal those of one scan over all gathered samples, wherever the automatic flushes fell |
| `ReportPerformance.FlushIsChunkInvariant` | media/libnbaio/include/media/nbaio/PerformanceAnalysis.h:130-137 | two flushes of consecutive chunks leave the same outlier store and accumulators as one flush of both |
| `ReportPerformance.IdleGapNotScanned` | media/libnbaio/include/media/nbaio/PerformanceAnalysis.h:55-59 | after an audio on/off event, the outliers among the next samples are exactly those of their own consecutive periods, so the idle gap yields no record |
| `ReportPerformance.PerformanceAnalysis.constructor` | media/libnbaio/include/media/nbaio/PerformanceAnalysis.h:133-137 | a new analyser has empty stores, `mElapsed` = 0 and `mPrevNs` = -1 |
| `ReportPerformance.PerformanceAnalysis.StoreOutlierData` | media/libnbaio/include/media/nbaio/PerformanceAnalysis.h:72-75 | the loop leaves the accumulators and outlier store exactly as the pure scan says, continuing from the previous call's accumulators; other fields untouched |
| `ReportPerformance.PerformanceAnalysis.ScanTimestamp` | media/libnbaio/include/media/nbaio/PerformanceAnalysis.h:72-75 | one loop iteration performs exactly `Step` on the fields |
| `ReportPerformance.PerformanceAnalysis.PushOutlier` | media/libnbaio/include/media/nbaio/PerformanceAnalysis.h:91-92 | push-back then pop-front past 100 is drop-oldest insertion into `mOutlierData` |
| `ReportPerformance.PerformanceAnalysis.ProcessAndFlushTimeStampSeries` | media/libnbaio/include/media/nbaio/PerformanceAnalysis.h:50-53 | the fields after the call are `Flush` of the fields before, and the invariant holds |
| `ReportPerformance.PerformanceAnalysis.HandleStateChange` | media/libnbaio/include/media/nbaio/PerformanceAnalysis.h:55-59 | the fields after the call are `StateChange` of the fields before |
| `ReportPerformance.PerformanceAnalysis.LogTsEntry` | media/libnbaio/include/media/nbaio/PerformanceAnalysis.h:61-64 | the fields after the call are `LogTs` of the fields before; the series stays below 1000 |
| `ReportPerformance.PerformanceAnalysis.StorePeak` | media/libnbaio/include/media/nbaio/PerformanceAnalysis.h:94-96 | a detected peak's timestamp is inserted drop-oldest into `mPeakTimestamps` (at most 100); nothing else changes |
| `ReportPerformance.Lookup` | media/libnbaio/include/media/nbaio/PerformanceAnalysis.h:34-36 | a present (thread, hash) entry reads as its stored analyser; a missing one reads as a fresh analyser; every entry read is bounded |
| `ReportPerformance.StoreTouchesOnlyItsKey` | media/libnbaio/include/media/nbaio/PerformanceAnalysis.h:34-36 | storing one (thread, hash) analyser adds exactly that key and leaves all others equal |
| `ReportPerformance.LogTsAt` | media/libnbaio/include/media/nbaio/PerformanceAnalysis.h:34-36 | logging for one key applies `LogTs` to that key's analyser (created if missing) and leaves every other thread's map and every other hash of the same thread unchanged |
| `ReportPerformance.HandleStateChangeAt` | media/libnbaio/include/media/nbaio/PerformanceAnalysis.h:55-59 | an on/off event for one key applies `StateChange` to that analyser only; all other entries unchanged |
| `Minijail.PolicyContent` | services/minijail/minijail.cpp:41-46 | the base policy is always a prefix; with an empty additional policy the text is the base alone, otherwise base, newline, additional, of length `|base| + 1 + |additional|` |
| `Minijail.AdditionalRoundTrip` | services/minijail/minijail.cpp:43-46 | the additional policy can be read back from the written text: joining loses nothing |
| `Minijail.PolicyContentInjective` | services/minijail/minijail.cpp:43-46 | two different additional policies never produce the same text for one base |
| `Minijail.WritePolicyToPipe` | services/minijail/minijail.cpp:31-54 | pipe failure returns -1 with no write; otherwise the joined policy text is written; a failed write returns -1; success returns the read end, never the write end |
| `Minijail.SetUpMinijail` | services/minijail/minijail.cpp:56-60 | has no effect; its only output is the warning, whatever the paths |

## Left out

- Peak detection (`detectPeaks`, `mPeakDetectorMean`, `mPeakDetectorSd`, `kStddevThreshold`, `kRatio`) is left out. It is a running mean and standard deviation over `double`, i.e. floating point. Only its write into the bounded `mPeakTimestamps` is modelled (`StorePeak`). When a peak is detected is not modelled. The header ties `detectPeaks` to the outlier data (the FIXME at line 66) and says a flush analyzes the series, but the model's `Flush` never writes `mPeakTimestamps`: its "peaks unchanged" holds only because detection is left out.
- `reportPerformance`, `dump` and `dumpLine` are left out. They are text rendering to a file descriptor.
- `testFunction` and `alertIfGlitch` are left out. They are temporary or unused helpers whose bodies are not shown.
- The constants `kMsPerSec`, `kNumBuff`, `kPeriodMs`, `kPeriodMsCPU` and `kMaxHistTimespanMs` are left out. The header uses them in none of the modelled behaviour.
- Histogram bucketing and the nanosecond-to-millisecond period are parameters (`Env`), not definitions. `ReportPerformance.h` and `PerformanceAnalysis.cpp` are not part of this model.
- The conversion from `timestamp_raw` to `timestamp` is not modelled. The series holds `timestamp_raw` samples (line 104) while `mHists` and `mOutlierData` hold `timestamp` values (lines 92 and 100); both types and any conversion between them are in `ReportPerformance.h`, which is not part of this model. `HistEntry` and `Step` store the raw sample unchanged.
- Integer widths are not modelled. Timestamps and periods take their C++ types from `ReportPerformance.h`, which is not part of this model; they are unbounded `nat` here. `mElapsed` (`uint64_t`, line 136) is modelled as `nat` and `mPrevNs` (`int64_t`, line 137) as `int`, so the 64-bit wrap-around of `mElapsed` and any overflow are not captured.
- Out-of-order timestamps are not modelled. A timestamp earlier than its predecessor yields whatever non-negative period the conversion parameter gives; the model defines no separate policy for it.
- The mutex and thread-safety notes are left out, because concurrency is out of scope. The map is modelled as values updated one call at a time.
- `pipe()`, `WriteStringToFd` and the closing of the write end by `unique_fd` are represented only as their outcomes: the `PipeOutcome` and `writeSucceeds` inputs and the `written` output. `SetUpMinijail`'s warning is its `warning` output. The two error log lines of `WritePolicyToPipe` (minijail.cpp:36 and 49) are dropped: the model has no output for them.
- Descriptor ownership in `WritePolicyToPipe` is not modelled. Only the write end is held by `unique_fd` (minijail.cpp:40); when the write fails (minijail.cpp:48-51) the function returns -1 without closing the read end, which therefore leaks. The model returns -1 there and does not track open descriptors.
- `services/mediaanalytics/MetricsSummarizerCodec.h` is left out. It declares `mergeRecord` only; the merge body and its base class are not part of this model.
