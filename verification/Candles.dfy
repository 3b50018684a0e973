/** The live candle engine: one series of candles per symbol and timeframe, built
    tick by tick and closed by ticks and flushes. Volume is not modelled. */
module Candles {
  import opened Common
  import opened Timeframes

  datatype Candle = Candle(openMs: int, closeMs: int, open: real, high: real, low: real, close: real, tickCount: nat,
      synthetic: bool)

  datatype PricedTick = PricedTick(timeMs: int, price: real)

  // ---- candles as a fold of ticks ----------------------------------------------

  function FromTick(tf: Timeframe, openMs: int, price: real): (c: Candle) {
    Candle(openMs, openMs + StepMs(tf), price, price, price, price, 1, false)
  }

  function WithPrice(c: Candle, price: real): (d: Candle) {
    c.(high := MaxReal(c.high, price), low := MinReal(c.low, price), close := price, tickCount := c.tickCount + 1)
  }

  function AddTick(cs: seq<Candle>, tf: Timeframe, t: PricedTick): (ds: seq<Candle>) {
    var bucket := BucketOpen(t.timeMs, tf);
    if cs != [] && cs[|cs| - 1].openMs == bucket then cs[..|cs| - 1] + [WithPrice(cs[|cs| - 1], t.price)]
    else cs + [FromTick(tf, bucket, t.price)]
  }

  /** The candles of a tick history. */
  function Direct(tf: Timeframe, ticks: seq<PricedTick>): (cs: seq<Candle>) {
    if ticks == [] then [] else AddTick(Direct(tf, ticks[..|ticks| - 1]), tf, ticks[|ticks| - 1])
  }

  /** The prices of the ticks of one bucket, in arrival order. */
  function Prices(tf: Timeframe, ticks: seq<PricedTick>, bucket: int): (ps: seq<real>) {
    if ticks == [] then []
    else
      var t := ticks[|ticks| - 1];
      Prices(tf, ticks[..|ticks| - 1], bucket) + (if BucketOpen(t.timeMs, tf) == bucket then [t.price] else [])
  }

  /** First, greatest, least, last and count of the prices. */
  predicate Summarises(c: Candle, ps: seq<real>) {
    && |ps| > 0 && c.tickCount == |ps| && c.open == ps[0] && c.close == ps[|ps| - 1]
    && c.high in ps && c.low in ps && forall i :: 0 <= i < |ps| ==> c.low <= ps[i] <= c.high
  }

  predicate InTimeOrder(ticks: seq<PricedTick>) {
    forall i, j :: 0 <= i < j < |ticks| ==> ticks[i].timeMs <= ticks[j].timeMs
  }

  predicate Increasing(cs: seq<Candle>) {
    forall i, j :: 0 <= i < j < |cs| ==> cs[i].openMs < cs[j].openMs
  }

  predicate OnGrid(cs: seq<Candle>, tf: Timeframe) {
    forall i :: 0 <= i < |cs| ==> Aligned(cs[i].openMs, tf) && cs[i].closeMs == cs[i].openMs + StepMs(tf)
  }

  lemma SummaryGrows(c: Candle, ps: seq<real>, price: real)
    requires Summarises(c, ps)
    ensures Summarises(WithPrice(c, price), ps + [price])
  {
    var d, qs := WithPrice(c, price), ps + [price];
    var h :| 0 <= h < |ps| && ps[h] == c.high;
    var l :| 0 <= l < |ps| && ps[l] == c.low;
    assert qs[h] == c.high && qs[l] == c.low && qs[|ps|] == price;
  }

  predicate HasCandle(cs: seq<Candle>, openMs: int) { exists j :: 0 <= j < |cs| && cs[j].openMs == openMs }

  /** Every bucket with a tick has a candle, the newest tick's being the last. */
  predicate Covers(cs: seq<Candle>, tf: Timeframe, ticks: seq<PricedTick>) {
    && (cs == [] <==> ticks == [])
    && (cs != [] ==> cs[|cs| - 1].openMs == BucketOpen(ticks[|ticks| - 1].timeMs, tf))
    && forall i :: 0 <= i < |ticks| ==> HasCandle(cs, BucketOpen(ticks[i].timeMs, tf))
  }

  predicate AllSummarise(cs: seq<Candle>, tf: Timeframe, ticks: seq<PricedTick>) {
    forall i :: 0 <= i < |cs| ==> !cs[i].synthetic && Summarises(cs[i], Prices(tf, ticks, cs[i].openMs))
  }

  lemma PricesAppend(tf: Timeframe, ticks: seq<PricedTick>, t: PricedTick, bucket: int)
    ensures Prices(tf, ticks + [t], bucket)
            == Prices(tf, ticks, bucket) + (if BucketOpen(t.timeMs, tf) == bucket then [t.price] else [])
  {
    assert (ticks + [t])[..|ticks|] == ticks;
  }

  lemma AddTickCovers(cs: seq<Candle>, tf: Timeframe, ticks: seq<PricedTick>, t: PricedTick)
    requires Covers(cs, tf, ticks)
    ensures Covers(AddTick(cs, tf, t), tf, ticks + [t])
  {
    hide BucketOpen, StepMs;
    var ds := AddTick(cs, tf, t);
    forall i | 0 <= i <= |ticks| ensures HasCandle(ds, BucketOpen((ticks + [t])[i].timeMs, tf)) {
      if i < |ticks| {
        assert HasCandle(cs, BucketOpen(ticks[i].timeMs, tf));
        var j :| 0 <= j < |cs| && cs[j].openMs == BucketOpen(ticks[i].timeMs, tf);
        assert ds[j].openMs == cs[j].openMs;
      } else {
        assert ds[|ds| - 1].openMs == BucketOpen(t.timeMs, tf);
      }
    }
  }

  lemma AddTickSummarises(cs: seq<Candle>, tf: Timeframe, ticks: seq<PricedTick>, t: PricedTick)
    requires Covers(cs, tf, ticks) && AllSummarise(cs, tf, ticks) && Increasing(cs)
    requires cs != [] ==> cs[|cs| - 1].openMs <= BucketOpen(t.timeMs, tf)
    ensures AllSummarise(AddTick(cs, tf, t), tf, ticks + [t])
  {
    hide Summarises, BucketOpen, StepMs, Prices, Covers;
    var ds, bucket := AddTick(cs, tf, t), BucketOpen(t.timeMs, tf);
    forall i | 0 <= i < |ds| ensures !ds[i].synthetic && Summarises(ds[i], Prices(tf, ticks + [t], ds[i].openMs)) {
      PricesAppend(tf, ticks, t, ds[i].openMs);
      if i < |ds| - 1 {
        assert ds[i] == cs[i] && ds[i].openMs < bucket;
        assert Prices(tf, ticks + [t], ds[i].openMs) == Prices(tf, ticks, ds[i].openMs);
      } else if i < |cs| {
        SummaryGrows(cs[i], Prices(tf, ticks, bucket), t.price);
        assert ds[i] == WithPrice(cs[i], t.price);
      } else {
        assert !HasCandle(cs, bucket);
        NoPrices(tf, ticks, cs, bucket);
        FirstSummary(tf, bucket, t.price);
        assert ds[i] == FromTick(tf, bucket, t.price);
        assert [] + [t.price] == [t.price];
      }
    }
  }

  lemma FirstSummary(tf: Timeframe, bucket: int, price: real)
    ensures Summarises(FromTick(tf, bucket, price), [] + [price])
  {
    assert ([] + [price])[0] == price;
  }

  /** A bucket without a candle has no price. */
  lemma {:induction false} NoPrices(tf: Timeframe, ticks: seq<PricedTick>, cs: seq<Candle>, bucket: int)
    requires Covers(cs, tf, ticks) && !HasCandle(cs, bucket)
    ensures Prices(tf, ticks, bucket) == []
  {
    hide BucketOpen;
    NoPricesBefore(tf, ticks, cs, bucket, |ticks|);
    assert ticks[..|ticks|] == ticks;
  }

  lemma {:induction false} NoPricesBefore(tf: Timeframe, ticks: seq<PricedTick>, cs: seq<Candle>, bucket: int, n: nat)
    requires Covers(cs, tf, ticks) && !HasCandle(cs, bucket) && n <= |ticks|
    ensures Prices(tf, ticks[..n], bucket) == []
  {
    hide BucketOpen;
    if n > 0 {
      NoPricesBefore(tf, ticks, cs, bucket, n - 1);
      assert HasCandle(cs, BucketOpen(ticks[n - 1].timeMs, tf));
      assert ticks[..n] == ticks[..n - 1] + [ticks[n - 1]];
      PricesAppend(tf, ticks[..n - 1], ticks[n - 1], bucket);
    }
  }

  lemma AddTickPlaced(cs: seq<Candle>, tf: Timeframe, t: PricedTick)
    requires Increasing(cs) && OnGrid(cs, tf)
    requires cs != [] ==> cs[|cs| - 1].openMs <= BucketOpen(t.timeMs, tf)
    ensures Increasing(AddTick(cs, tf, t)) && OnGrid(AddTick(cs, tf, t), tf)
  {
    BucketHolds(t.timeMs, 0, tf);
    hide BucketOpen, StepMs;
  }

  /** Main result: the fold has one candle for each bucket with a tick, in strictly
      increasing order on the grid, and each is the first, greatest, least, last
      and count of the prices of its bucket. */
  lemma {:induction false} DirectIsSummary(tf: Timeframe, ticks: seq<PricedTick>)
    requires InTimeOrder(ticks)
    ensures var cs := Direct(tf, ticks);
            Increasing(cs) && OnGrid(cs, tf) && Covers(cs, tf, ticks) && AllSummarise(cs, tf, ticks)
  {
    if ticks != [] {
      var init, t := ticks[..|ticks| - 1], ticks[|ticks| - 1];
      DirectIsSummary(tf, init);
      var cs := Direct(tf, init);
      if init != [] {
        BucketMonotone(init[|init| - 1].timeMs, t.timeMs, tf);
      }
      assert ticks == init + [t];
      hide AddTick, BucketOpen, StepMs, Summarises, Increasing, OnGrid, AllSummarise;
      AddTickPlaced(cs, tf, t);
      AddTickCovers(cs, tf, init, t);
      AddTickSummarises(cs, tf, init, t);
    }
  }
}
