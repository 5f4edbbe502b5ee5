/** The streaming outlier classifier behind `storeOutlierData`: a scan over
    wakeup timestamps whose two accumulators (`mElapsed`, `mPrevNs`) persist
    from one call to the next. */
module OutlierScan {
  import opened BoundedDeque

  /** Periods of at least this many milliseconds count as outliers (`kOutlierMs`). */
  const kOutlierMs: nat := 7

  /** `mPrevNs` before any timestamp has been seen. */
  const kNoPrevNs: int := -1

  /** One entry of `mOutlierData`: the milliseconds elapsed since the previous
      outlier, and the timestamp of this outlier. */
  datatype Outlier = Outlier(elapsedMs: nat, ts: nat)

  /** The accumulators carried across calls: `mElapsed` and `mPrevNs`
      (negative means no previous timestamp). */
  datatype Scanner = Scanner(elapsedMs: nat, prevNs: int)

  /** How a pair of raw timestamps becomes a period in milliseconds is not part
      of this model; it is a parameter. */
  type PeriodMs = (nat, nat) -> nat

  const Initial: Scanner := Scanner(0, kNoPrevNs)

  function Times(rs: seq<Outlier>): (ts: seq<nat>)
    ensures |ts| == |rs|
    ensures forall i :: 0 <= i < |rs| ==> ts[i] == rs[i].ts
  {
    if rs == [] then [] else Times(rs[..|rs| - 1]) + [rs[|rs| - 1].ts]
  }

  /** Scanning one timestamp: returns the new accumulators and the records it
      emits (none or one). */
  function Step(periodMs: PeriodMs, s: Scanner, ts: nat): (r: (Scanner, seq<Outlier>))
    ensures r.0.prevNs == ts
    ensures |r.1| <= 1
    ensures r.1 != [] <==> 0 <= s.prevNs && periodMs(s.prevNs, ts) >= kOutlierMs
    ensures r.1 != [] ==> r.1[0] == Outlier(s.elapsedMs, ts) && r.0.elapsedMs == 0
    ensures r.1 == [] && 0 <= s.prevNs ==> r.0.elapsedMs == s.elapsedMs + periodMs(s.prevNs, ts)
    ensures s.prevNs < 0 ==> r.0.elapsedMs == s.elapsedMs
  {
    if s.prevNs < 0 then
      (Scanner(s.elapsedMs, ts), [])
    else
      var period := periodMs(s.prevNs, ts);
      if period >= kOutlierMs then
        (Scanner(0, ts), [Outlier(s.elapsedMs, ts)])
      else
        (Scanner(s.elapsedMs + period, ts), [])
  }

  /** Scanning a whole series: the accumulators afterwards and the records
      emitted, in order. */
  function Scan(periodMs: PeriodMs, s: Scanner, tss: seq<nat>): (r: (Scanner, seq<Outlier>))
    ensures tss == [] ==> r == (s, [])
    ensures tss != [] ==> r.0.prevNs == tss[|tss| - 1]
    ensures |r.1| <= |tss|
  {
    if tss == [] then (s, [])
    else
      var before := Scan(periodMs, s, tss[..|tss| - 1]);
      var after := Step(periodMs, before.0, tss[|tss| - 1]);
      (after.0, before.1 + after.1)
  }

  /** Scanning one more timestamp is one more step. */
  lemma ScanSnoc(periodMs: PeriodMs, s: Scanner, tss: seq<nat>, i: nat)
    requires i < |tss|
    ensures var before := Scan(periodMs, s, tss[..i]);
            var step := Step(periodMs, before.0, tss[i]);
            Scan(periodMs, s, tss[..i + 1]) == (step.0, before.1 + step.1)
  {
    assert tss[..i + 1][..i] == tss[..i];
  }

  /** Reference definition, read front to back: the timestamps whose period
      from their predecessor (the one given for the first) is an outlier. */
  function Flagged(periodMs: PeriodMs, prevNs: int, tss: seq<nat>): seq<nat>
    decreases |tss|
  {
    if tss == [] then []
    else
      (if 0 <= prevNs && periodMs(prevNs, tss[0]) >= kOutlierMs then [tss[0]] else [])
      + Flagged(periodMs, tss[0], tss[1..])
  }

  /** Reference definition: the sum of all consecutive periods of the series,
      the first measured from `prevNs` when there is one. */
  function SumPeriods(periodMs: PeriodMs, prevNs: int, tss: seq<nat>): nat
    decreases |tss|
  {
    if tss == [] then 0
    else
      (if 0 <= prevNs then periodMs(prevNs, tss[0]) else 0)
      + SumPeriods(periodMs, tss[0], tss[1..])
  }

  /** Scanning a series in two chunks, carrying the accumulators over, gives
      the same records and the same final accumulators as scanning it at once. */
  lemma {:induction false} ScanChunks(periodMs: PeriodMs, s: Scanner, a: seq<nat>, b: seq<nat>)
    ensures var first := Scan(periodMs, s, a);
            var second := Scan(periodMs, first.0, b);
            Scan(periodMs, s, a + b) == (second.0, first.1 + second.1)
    decreases |b|
  {
    if b == [] {
      assert a + b == a;
      var first := Scan(periodMs, s, a);
      assert first.1 + [] == first.1;
    } else {
      var b', last := b[..|b| - 1], b[|b| - 1];
      ScanChunks(periodMs, s, a, b');
      assert (a + b)[..|a + b| - 1] == a + b';
      assert (a + b)[|a + b| - 1] == last;
      var first := Scan(periodMs, s, a);
      var mid := Scan(periodMs, first.0, b');
      var step := Step(periodMs, mid.0, last);
      assert Scan(periodMs, first.0, b) == (step.0, mid.1 + step.1);
      assert Scan(periodMs, s, a + b) == (step.0, (first.1 + mid.1) + step.1);
      assert (first.1 + mid.1) + step.1 == first.1 + (mid.1 + step.1);
    }
  }

  /** A bounded record store fed by two chunk scans holds what it holds when
      fed by one scan of both chunks. */
  lemma StoreChunks(periodMs: PeriodMs, store: seq<Outlier>, s: Scanner, a: seq<nat>, b: seq<nat>, cap: nat)
    ensures var first := Scan(periodMs, s, a);
            var second := Scan(periodMs, first.0, b);
            && Newest(Newest(store + first.1, cap) + second.1, cap) == Newest(store + Scan(periodMs, s, a + b).1, cap)
            && second.0 == Scan(periodMs, s, a + b).0
  {
    var first := Scan(periodMs, s, a);
    var second := Scan(periodMs, first.0, b);
    var whole := Scan(periodMs, s, a + b);
    assert whole == (second.0, first.1 + second.1) by {
      ScanChunks(periodMs, s, a, b);
    }
    var joined := store + first.1;
    assert store + whole.1 == joined + second.1;
    assert Newest(Newest(joined, cap) + second.1, cap) == Newest(joined + second.1, cap) by {
      NewestAppend(joined, second.1, cap);
    }
  }

  /** Scanning `[t] + rest` is stepping over `t`, then scanning `rest`. */
  lemma ScanFront(periodMs: PeriodMs, s: Scanner, t: nat, rest: seq<nat>)
    ensures var head := Step(periodMs, s, t);
            var tail := Scan(periodMs, head.0, rest);
            Scan(periodMs, s, [t] + rest) == (tail.0, head.1 + tail.1)
  {
    ScanChunks(periodMs, s, [t], rest);
    assert [t][..0] == [];
    var head := Step(periodMs, s, t);
    assert Scan(periodMs, s, [t]) == (head.0, [] + head.1);
    assert [] + head.1 == head.1;
  }

  /** With no previous timestamp, the first one seen only sets the baseline:
      it emits no record and leaves `mElapsed` as it was. */
  lemma FirstTimestampSetsBaseline(periodMs: PeriodMs, s: Scanner, t: nat, rest: seq<nat>)
    requires s.prevNs < 0
    ensures Scan(periodMs, s, [t] + rest) == Scan(periodMs, Scanner(s.elapsedMs, t), rest)
  {
    ScanFront(periodMs, s, t, rest);
    var tail := Scan(periodMs, Scanner(s.elapsedMs, t), rest);
    assert [] + tail.1 == tail.1;
  }

  /** With no previous timestamp, the first timestamp is never flagged. */
  lemma FlaggedWithoutBaseline(periodMs: PeriodMs, prevNs: int, tss: seq<nat>)
    requires prevNs < 0 && tss != []
    ensures Flagged(periodMs, prevNs, tss) == Flagged(periodMs, tss[0], tss[1..])
  {
  }

  /** A record is emitted exactly for the timestamps whose period from their
      predecessor is at least `kOutlierMs`, and each carries that timestamp. */
  lemma {:induction false} ScanFlagsOutliers(periodMs: PeriodMs, s: Scanner, tss: seq<nat>)
    ensures Times(Scan(periodMs, s, tss).1) == Flagged(periodMs, s.prevNs, tss)
    decreases |tss|
  {
    if tss != [] {
      var t, rest := tss[0], tss[1..];
      var head := Step(periodMs, s, t);
      var tail := Scan(periodMs, head.0, rest);
      ScanFront(periodMs, s, t, rest);
      assert [t] + rest == tss;
      ScanFlagsOutliers(periodMs, head.0, rest);
      TimesAppend(head.1, tail.1);
      StepFlags(periodMs, s, t);
    }
  }

  /** One step emits a record for `t` exactly when the reference flags `t`. */
  lemma StepFlags(periodMs: PeriodMs, s: Scanner, t: nat)
    ensures Times(Step(periodMs, s, t).1)
            == if 0 <= s.prevNs && periodMs(s.prevNs, t) >= kOutlierMs then [t] else []
  {
  }

  lemma TimesAppend(a: seq<Outlier>, b: seq<Outlier>)
    ensures Times(a + b) == Times(a) + Times(b)
  {
  }

  /** Between outliers, `mElapsed` accumulates every period: a series that
      emits no record adds the sum of its periods to it. */
  lemma {:induction false} QuietScanAccumulates(periodMs: PeriodMs, s: Scanner, tss: seq<nat>)
    requires Scan(periodMs, s, tss).1 == []
    ensures Scan(periodMs, s, tss).0.elapsedMs == s.elapsedMs + SumPeriods(periodMs, s.prevNs, tss)
    decreases |tss|
  {
    if tss != [] {
      var head := Step(periodMs, s, tss[0]);
      ScanFront(periodMs, s, tss[0], tss[1..]);
      assert [tss[0]] + tss[1..] == tss;
      QuietScanAccumulates(periodMs, head.0, tss[1..]);
    }
  }

  /** Each record's elapsed time is what `mElapsed` had accumulated since the
      previous record (or since the scan began), and `mElapsed` restarts from
      zero after it. */
  lemma {:induction false} RecordCarriesElapsed(periodMs: PeriodMs, s: Scanner, quiet: seq<nat>, t: nat)
    requires Scan(periodMs, s, quiet).1 == []
    requires 0 <= Scan(periodMs, s, quiet).0.prevNs
    requires periodMs(Scan(periodMs, s, quiet).0.prevNs, t) >= kOutlierMs
    ensures Scan(periodMs, s, quiet + [t]).1
            == [Outlier(s.elapsedMs + SumPeriods(periodMs, s.prevNs, quiet), t)]
    ensures Scan(periodMs, s, quiet + [t]).0.elapsedMs == 0
  {
    QuietScanAccumulates(periodMs, s, quiet);
    assert (quiet + [t])[..|quiet|] == quiet;
  }
}
