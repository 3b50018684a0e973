/** What the aggregated day and week bars are, bar by bar
    (src/modules/market-data/canonical-history.js). */
module CanonicalBars {
  import opened Common
  import opened Timeframes
  import opened CanonicalHistory

  /** Every field a bar needs is a number. */
  predicate IsReadable(r: RawBar) {
    r.openMs.Some? && r.open.Some? && r.high.Some? && r.low.Some? && r.close.Some?
  }

  /** The last readable row of an open time is the bar that is used for it, field by field. */
  lemma {:induction false} LastRowCounts(raws: seq<RawBar>, k: nat)
    requires k < |raws| && IsReadable(raws[k])
    requires forall j :: k < j < |raws| ==> !(IsReadable(raws[j]) && raws[j].openMs == raws[k].openMs)
    ensures var r, m := raws[k], ByTime(raws);
      && r.openMs.value in m
      && m[r.openMs.value] == Bar(r.openMs.value, r.open.value, r.high.value, r.low.value, r.close.value, r.volume)
  {
    var init := raws[..|raws| - 1];
    if k < |raws| - 1 {
      assert forall j :: k < j < |init| ==> init[j] == raws[j];
      LastRowCounts(init, k);
    }
  }

  /** And there is no bar at a time without a readable row. */
  lemma {:induction false} RowsOnly(raws: seq<RawBar>, t: int)
    requires t in ByTime(raws)
    ensures exists k :: 0 <= k < |raws| && IsReadable(raws[k]) && raws[k].openMs == Some(t)
  {
    var init, last := raws[..|raws| - 1], |raws| - 1;
    if IsReadable(raws[last]) && raws[last].openMs == Some(t) {
    } else {
      RowsOnly(init, t);
      var k :| 0 <= k < |init| && IsReadable(init[k]) && init[k].openMs == Some(t);
      assert raws[k] == init[k];
    }
  }

  // ---- the bars of a bucket --------------------------------------------------------------

  function BarsIn(bs: seq<Bar>, tf: Timeframe, openMs: int): (xs: seq<Bar>) {
    if bs == [] then []
    else
      var b := bs[|bs| - 1];
      BarsIn(bs[..|bs| - 1], tf, openMs) + if BucketOpen(b.openMs, tf) == openMs then [b] else []
  }

  function VolumeGiven(b: Bar, k: ()): (x: real) { if b.volume.Some? then b.volume.value else 0.0 }

  predicate HasVolume(b: Bar) { b.volume.Some? && b.volume.value >= 0.0 }

  /** First open, last close, the extremes and the count; a volume only if every bar has one. */
  ghost predicate Summarises(xs: seq<Bar>, open: real, high: real, low: real, close: real, volume: Option<real>,
      count: nat)
  {
    && xs != [] && open == xs[0].open && close == xs[|xs| - 1].close && count == |xs|
    && (forall i :: 0 <= i < |xs| ==> low <= xs[i].low && xs[i].high <= high)
    && (exists i :: 0 <= i < |xs| && xs[i].high == high) && (exists i :: 0 <= i < |xs| && xs[i].low == low)
    && (volume.Some? <==> forall i :: 0 <= i < |xs| ==> HasVolume(xs[i]))
    && (volume.Some? ==> volume.value == Total(xs, (), VolumeGiven))
  }

  ghost predicate IsGroup(g: Group, xs: seq<Bar>) {
    Summarises(xs, g.open, g.high, g.low, g.close, if g.complete then Some(g.volume) else None, g.sourceBarCount)
  }

  lemma NewGroupIs(openMs: int, b: Bar)
    ensures IsGroup(NewGroup(openMs, b), [b])
  {
    var g, xs := NewGroup(openMs, b), [b];
    TotalAppend([], b, (), VolumeGiven);
    assert [] + [b] == xs;
    assert xs[0].high == g.high && xs[0].low == g.low;
    assert g.complete <==> HasVolume(xs[0]);
  }

  lemma ExtendedIs(g: Group, xs: seq<Bar>, b: Bar)
    requires IsGroup(g, xs)
    ensures IsGroup(Extended(g, b), xs + [b])
  {
    var h, ys := Extended(g, b), xs + [b];
    TotalAppend(xs, b, (), VolumeGiven);
    hide Total;
    var i :| 0 <= i < |xs| && xs[i].high == g.high;
    var j :| 0 <= j < |xs| && xs[j].low == g.low;
    assert ys[i] == xs[i] && ys[j] == xs[j] && ys[|xs|] == b;
    assert ys[if b.high >= g.high then |xs| else i].high == h.high;
    assert ys[if b.low <= g.low then |xs| else j].low == h.low;
    assert forall l :: 0 <= l < |xs| ==> ys[l] == xs[l];
    assert h.complete <==> g.complete && HasVolume(b);
    assert (forall l :: 0 <= l < |ys| ==> HasVolume(ys[l]))
      <==> (forall l :: 0 <= l < |xs| ==> HasVolume(xs[l])) && HasVolume(b);
  }

  lemma {:induction false} NoBarsAhead(bs: seq<Bar>, tf: Timeframe, openMs: int)
    requires SortedByTime(bs) && (bs != [] ==> BucketOpen(bs[|bs| - 1].openMs, tf) < openMs)
    ensures BarsIn(bs, tf, openMs) == []
  {
    hide BucketOpen;
    if bs != [] {
      var init := bs[..|bs| - 1];
      if init != [] { BucketMonotone(init[|init| - 1].openMs, bs[|bs| - 1].openMs, tf); }
      NoBarsAhead(init, tf, openMs);
    }
  }

  ghost predicate AllGroups(gs: seq<Group>, bs: seq<Bar>, tf: Timeframe) {
    forall i :: 0 <= i < |gs| ==> IsGroup(gs[i], BarsIn(bs, tf, gs[i].openMs))
  }

  /** Every group is made of the bars of its bucket. */
  lemma {:induction false} GroupsAre(bs: seq<Bar>, tf: Timeframe)
    requires SortedByTime(bs)
    ensures AllGroups(Groups(tf, bs), bs, tf)
  {
    hide AllGroups, BucketOpen, AddBar, Ascends;
    if bs == [] {
      NoGroups(Groups(tf, bs), bs, tf);
    } else {
      var init, b := bs[..|bs| - 1], bs[|bs| - 1];
      GroupsAre(init, tf);
      GroupsAscend(tf, init);
      if init != [] { BucketMonotone(init[|init| - 1].openMs, b.openMs, tf); }
      if init == [] || BucketOpen(init[|init| - 1].openMs, tf) < BucketOpen(b.openMs, tf) {
        NoBarsAhead(init, tf, BucketOpen(b.openMs, tf));
      }
      OneMoreBar(Groups(tf, init), bs, tf);
    }
  }

  lemma NoGroups(gs: seq<Group>, bs: seq<Bar>, tf: Timeframe)
    requires gs == []
    ensures AllGroups(gs, bs, tf)
  {
  }

  lemma OneMoreBar(gs: seq<Group>, bs: seq<Bar>, tf: Timeframe)
    requires bs != [] && AllGroups(gs, bs[..|bs| - 1], tf)
    requires Ascends(Opens(gs)) && (gs != [] ==> gs[|gs| - 1].openMs <= BucketOpen(bs[|bs| - 1].openMs, tf))
    requires var bucket := BucketOpen(bs[|bs| - 1].openMs, tf);
      gs == [] || gs[|gs| - 1].openMs < bucket ==> BarsIn(bs[..|bs| - 1], tf, bucket) == []
    ensures AllGroups(AddBar(gs, tf, bs[|bs| - 1]), bs, tf)
  {
    var init, b := bs[..|bs| - 1], bs[|bs| - 1];
    var bucket := BucketOpen(b.openMs, tf);
    OneMoreIn(bs, tf);
    hide BucketOpen, IsGroup, Extended, NewGroup, Ascends, BarsIn;
    NewGroupIs(bucket, b);
    NewGroupOpens(bucket, b);
    var n := if gs != [] && gs[|gs| - 1].openMs == bucket then |gs| - 1 else |gs|;
    EarlierGroups(gs, bs, tf, n);
    if n < |gs| {
      ExtendedIs(gs[n], BarsIn(init, tf, bucket), b);
      ExtendedOpens(gs[n], b);
    } else {
      assert [] + [b] == [b];
    }
  }

  lemma OneMoreIn(bs: seq<Bar>, tf: Timeframe)
    requires bs != []
    ensures var b := bs[|bs| - 1];
      BarsIn(bs, tf, BucketOpen(b.openMs, tf)) == BarsIn(bs[..|bs| - 1], tf, BucketOpen(b.openMs, tf)) + [b]
  {
    hide BucketOpen;
  }

  /** The groups before the last bar's keep their bars. */
  lemma EarlierGroups(gs: seq<Group>, bs: seq<Bar>, tf: Timeframe, n: nat)
    requires bs != [] && n <= |gs| && AllGroups(gs, bs[..|bs| - 1], tf)
    requires Ascends(Opens(gs)) && (gs != [] ==> gs[|gs| - 1].openMs <= BucketOpen(bs[|bs| - 1].openMs, tf))
    requires n == |gs| ==> gs == [] || gs[|gs| - 1].openMs < BucketOpen(bs[|bs| - 1].openMs, tf)
    ensures forall i :: 0 <= i < n ==> IsGroup(gs[i], BarsIn(bs, tf, gs[i].openMs))
  {
    hide BucketOpen, IsGroup;
    forall i | 0 <= i < n ensures IsGroup(gs[i], BarsIn(bs, tf, gs[i].openMs)) {
      assert Opens(gs)[i] == gs[i].openMs && Opens(gs)[|gs| - 1] == gs[|gs| - 1].openMs;
      assert BarsIn(bs, tf, gs[i].openMs) == BarsIn(bs[..|bs| - 1], tf, gs[i].openMs);
    }
  }

  /** Main result: only days and weeks are aggregated, and each of their bars is the summary of the
      bars that its bucket holds, with a volume exactly when all of them have one. */
  lemma BarsAre(raws: seq<RawBar>, tf: Timeframe, i: nat)
    ensures tf != D1 && tf != W1 ==> Aggregated(raws, tf) == []
    ensures (tf == D1 || tf == W1) && i < |Aggregated(raws, tf)| ==>
      var h := Aggregated(raws, tf)[i];
      && h.closeMs == h.openMs + StepMs(tf)
      && Summarises(BarsIn(SortedBars(raws), tf, h.openMs), h.open, h.high, h.low, h.close, h.volume,
                    h.sourceBarCount)
  {
    GroupsAre(SortedBars(raws), tf);
    hide Groups, SortedBars, BarsIn, Summarises;
  }

  /** And every bar is in one of them. */
  lemma {:induction false} EveryBarIsIn(tf: Timeframe, bs: seq<Bar>, k: nat)
    requires k < |bs|
    ensures exists i :: 0 <= i < |Groups(tf, bs)| && Groups(tf, bs)[i].openMs == BucketOpen(bs[k].openMs, tf)
  {
    hide BucketOpen, NewGroup, Extended;
    var init, b := bs[..|bs| - 1], bs[|bs| - 1];
    var gs, bucket := Groups(tf, init), BucketOpen(b.openMs, tf);
    var hs := Groups(tf, bs);
    NewGroupOpens(bucket, b);
    if gs != [] { ExtendedOpens(gs[|gs| - 1], b); }
    if k == |bs| - 1 {
      assert hs[|hs| - 1].openMs == bucket;
    } else {
      EveryBarIsIn(tf, init, k);
      var i :| 0 <= i < |gs| && gs[i].openMs == BucketOpen(init[k].openMs, tf);
      assert hs[i].openMs == gs[i].openMs;
    }
  }
}
