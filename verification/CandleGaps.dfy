/** When synthetic candles are made and when they are not: across the gap before a tick, and
    at a flush (src/modules/market-data/candle-engine.js). */
module CandleGaps {
  import opened Common
  import opened Timeframes
  import opened Candles
  import opened CandleSeries
  import opened CandleEngine

  /** The opening of the n-th bucket after this one. */
  function Later(openMs: int, n: nat, tf: Timeframe): (t: int) { openMs + n * StepMs(tf) }

  lemma LaterMoves(openMs: int, n: nat, tf: Timeframe)
    ensures Later(openMs + StepMs(tf), n, tf) == Later(openMs, n + 1, tf)
    ensures Later(openMs, 0, tf) == openMs && Later(openMs, 1, tf) == openMs + StepMs(tf)
    ensures openMs < Later(openMs, n + 1, tf)
  {
    var step := StepMs(tf);
    assert (n + 1) * step == n * step + step;
    assert n * step >= 0;
  }

  /** A closed candle without a tick, flat at a price. */
  predicate IsFlat(c: Candle, openMs: int, tf: Timeframe, price: real) {
    && c.openMs == openMs && c.closeMs == openMs + StepMs(tf)
    && c.open == c.high == c.low == c.close == price && c.tickCount == 0 && c.synthetic
  }

  // ---- the gap before a tick -------------------------------------------------------

  /** The time opens one of the n buckets from the first on. */
  predicate InGap(x: int, first: int, n: nat, tf: Timeframe) {
    first <= x < Later(first, n, tf) && (x - first) % StepMs(tf) == 0
  }

  lemma GapMoves(x: int, first: int, n: nat, tf: Timeframe)
    ensures !InGap(x, first, 0, tf)
    ensures InGap(x, first, n + 1, tf) <==> x == first || InGap(x, first + StepMs(tf), n, tf)
  {
    hide StepMs;
    LaterMoves(first, n, tf);
    GapStep(x - first, n, StepMs(tf));
    assert x - first - StepMs(tf) == x - (first + StepMs(tf));
  }

  lemma GapStep(d: int, n: nat, step: int)
    requires step > 0
    ensures 0 <= d < (n + 1) * step && d % step == 0
      <==> d == 0 || (0 <= d - step < n * step && (d - step) % step == 0)
  {
    SameRest(d, step);
    assert (n + 1) * step == n * step + step && n * step >= 0;
    if 0 < d && d % step == 0 {
      assert d == d / step * step;
      MultiplesOrder(1, d / step, step);
      MultiplesOrder(d / step, 0, step);
    }
  }

  lemma SameRest(d: int, step: int)
    requires step > 0
    ensures (d - step) % step == d % step
  {
    var q := d / step;
    assert d == q * step + d % step;
    assert d - step == (q - 1) * step + d % step;
    RestIs(d - step, q - 1, d % step, step);
  }

  lemma RestIs(d: int, q: int, r: int, step: int)
    requires step > 0 && d == q * step + r && 0 <= r < step
    ensures d % step == r
  {
    var p := d / step;
    assert d == p * step + d % step;
    if p < q {
      MultiplesOrder(q, p, step);
      assert false;
    } else if p > q {
      MultiplesOrder(p, q, step);
      assert false;
    }
  }

  /** The candle is flat and its bucket is one of the gap's, in session. */
  predicate Fills(cfg: Config, k: SeriesKey, c: Candle, first: int, n: nat, price: real) {
    InGap(c.openMs, first, n, k.tf) && cfg.session(k.symbol, c.openMs) && IsFlat(c, c.openMs, k.tf, price)
  }

  predicate HasCandleAt(cs: seq<Candle>, x: int) { exists i :: 0 <= i < |cs| && cs[i].openMs == x }

  /** In order of time, one candle for every bucket of the gap that is in session, and no other. */
  ghost predicate FillsGap(cfg: Config, k: SeriesKey, added: seq<Candle>, first: int, n: nat, price: real) {
    && Increasing(added)
    && (forall i :: 0 <= i < |added| ==> Fills(cfg, k, added[i], first, n, price))
    && (forall x :: InGap(x, first, n, k.tf) && cfg.session(k.symbol, x) ==> HasCandleAt(added, x))
  }

  lemma {:induction false} FillBarsFills(cfg: Config, k: SeriesKey, s: Series, first: int, n: nat)
    requires s.lastClose.Some? && k.tf in cfg.synthetic && cfg.maxGap > 0
    ensures var r := FillBars(cfg, k, s, first, n);
            && s.closed <= r.closed && r.current == s.current
            && FillsGap(cfg, k, r.closed[|s.closed|..], first, n, s.lastClose.value)
    decreases n
  {
    hide StepMs, FillsGap;
    var r, price := FillBars(cfg, k, s, first, n), s.lastClose.value;
    if n == 0 {
      assert r.closed[|s.closed|..] == [];
      NothingMissing(cfg, k, first, price);
    } else {
      var open := cfg.session(k.symbol, first);
      var c := SyntheticCandle(k.tf, first, price);
      var next := if open then Finalize(cfg, k, s, c) else s;
      FillBarsFills(cfg, k, next, first + StepMs(k.tf), n - 1);
      var rest := r.closed[|next.closed|..];
      assert r.closed[|s.closed|..] == (if open then [c] else []) + rest;
      OneBucketMore(cfg, k, rest, first, n, price);
    }
  }

  lemma OneBucketMore(cfg: Config, k: SeriesKey, rest: seq<Candle>, first: int, n: nat, price: real)
    requires n > 0 && FillsGap(cfg, k, rest, first + StepMs(k.tf), n - 1, price)
    ensures var c := SyntheticCandle(k.tf, first, price);
            FillsGap(cfg, k, (if cfg.session(k.symbol, first) then [c] else []) + rest, first, n, price)
  {
    hide StepMs, InGap;
    var c := SyntheticCandle(k.tf, first, price);
    var head := if cfg.session(k.symbol, first) then [c] else [];
    var added := head + rest;
    forall i | 0 <= i < |added|
      ensures Fills(cfg, k, added[i], first, n, price)
      ensures i >= |head| ==> first < added[i].openMs
    {
      GapMoves(added[i].openMs, first, n - 1, k.tf);
      if i >= |head| {
        assert Fills(cfg, k, rest[i - |head|], first + StepMs(k.tf), n - 1, price);
        GapStarts(added[i].openMs, first + StepMs(k.tf), n - 1, k.tf);
      }
    }
    forall x | InGap(x, first, n, k.tf) && cfg.session(k.symbol, x) ensures HasCandleAt(added, x) {
      GapMoves(x, first, n - 1, k.tf);
      if x == first {
        assert added[0].openMs == x;
      } else {
        var i :| 0 <= i < |rest| && rest[i].openMs == x;
        assert added[i + |head|].openMs == x;
      }
    }
  }

  lemma GapStarts(x: int, first: int, n: nat, tf: Timeframe)
    requires InGap(x, first, n, tf)
    ensures first <= x
  {
  }

  /** The last candle of a series, closed or not, before the tick. */
  function LastOf(s: Series): (c: Candle)
    requires All(s) != []
  {
    All(s)[|All(s)| - 1]
  }

  /** A tick opens a new bucket of the series. */
  predicate OpensBucket(k: SeriesKey, s: Series, t: PricedTick) {
    s.current.Some? ==> s.current.value.openMs < BucketOpen(t.timeMs, k.tf)
  }

  /** Main result on ticks: one that opens a bucket closes what was open and starts a candle of
      its own. The n buckets missing in between are filled, each in-session one with one flat
      candle at the last close, exactly when the feed did not break, the timeframe is synthetic
      and n is within the limit; otherwise nothing is added. */
  lemma TickFillsGapIff(cfg: Config, k: SeriesKey, s: Series, broken: bool, t: PricedTick, n: nat)
    requires Kept(cfg, k, s) && Counted(cfg, s) && OpensBucket(k, s, t) && All(s) != []
    requires BucketOpen(t.timeMs, k.tf) == Later(LastOf(s).openMs, n + 1, k.tf)
    ensures var r, before, last := AfterTick(cfg, k, s, broken, t), All(s), LastOf(s);
            && r.current == Some(FromTick(k.tf, BucketOpen(t.timeMs, k.tf), t.price))
            && before <= r.closed
            && (if !broken && k.tf in cfg.synthetic && n <= cfg.maxGap
                then FillsGap(cfg, k, r.closed[|before|..], Later(last.openMs, 1, k.tf), n, last.close)
                else r.closed == before)
  {
    hide BucketOpen, StepMs, RunsWithin, Real, Trailing, Placed, FillsGap, Later;
    var closed, bucket := CloseCurrent(cfg, k, s), BucketOpen(t.timeMs, k.tf);
    CloseKeeps(cfg, k, s);
    AllIs(s);
    AllIs(closed);
    assert closed.closed == All(s);
    var last := LastOf(s);
    assert closed.lastClosedOpenMs == Some(last.openMs) && closed.lastClose == Some(last.close);
    MissingBuckets(last.openMs, n, k.tf);
    if n == 0 {
      NothingMissing(cfg, k, Later(last.openMs, 1, k.tf), last.close);
    } else if n <= cfg.maxGap && k.tf in cfg.synthetic {
      FillBarsFills(cfg, k, closed, Later(last.openMs, 1, k.tf), n);
    }
  }

  lemma MissingBuckets(openMs: int, n: nat, tf: Timeframe)
    ensures var first, bucket := Later(openMs, 1, tf), Later(openMs, n + 1, tf);
            && first == openMs + StepMs(tf) && (bucket - first) / StepMs(tf) == n && (bucket > first <==> n > 0)
  {
    hide StepMs;
    var step := StepMs(tf);
    assert (n + 1) * step == n * step + step;
    Quotient(n, step);
    MultiplesOrder(n, 0, step);
  }

  lemma NothingMissing(cfg: Config, k: SeriesKey, first: int, price: real)
    ensures FillsGap(cfg, k, [], first, 0, price)
  {
    forall x ensures !InGap(x, first, 0, k.tf) {
      GapMoves(x, first, 0, k.tf);
    }
  }

  /** How many buckets lie between is a whole number. */
  lemma GapIsWhole(cfg: Config, k: SeriesKey, s: Series, t: PricedTick) returns (n: nat)
    requires Kept(cfg, k, s) && Counted(cfg, s) && OpensBucket(k, s, t) && All(s) != []
    requires LastOf(s).closeMs <= BucketOpen(t.timeMs, k.tf)
    ensures BucketOpen(t.timeMs, k.tf) == Later(LastOf(s).openMs, n + 1, k.tf)
  {
    hide StepMs, RunsWithin, Real, Trailing, BucketOpen;
    var last, bucket, step := LastOf(s), BucketOpen(t.timeMs, k.tf), StepMs(k.tf);
    assert Aligned(last.openMs, k.tf) && last.closeMs == last.openMs + step;
    BucketHolds(t.timeMs, 0, k.tf);
    var m := StepsBetween(last.openMs, bucket, k.tf);
    MultiplesOrder(1, m, step);
    n := m - 1;
  }

  lemma StepsBetween(a: int, b: int, tf: Timeframe) returns (m: int)
    requires Aligned(a, tf) && Aligned(b, tf) && a + StepMs(tf) <= b
    ensures b == a + m * StepMs(tf) && m >= 1
  {
    hide StepMs;
    var step := StepMs(tf);
    var anchor := if tf == W1 then WEEK_ANCHOR_UTC_MS else 0;
    m := (b - anchor) / step - (a - anchor) / step;
    assert b - a == ((b - anchor) / step) * step - ((a - anchor) / step) * step;
    assert ((b - anchor) / step) * step - ((a - anchor) / step) * step == m * step;
    if m < 1 {
      MultiplesOrder(m, 0, step);
      assert false;
    }
  }

  /** A tick of the candle's own bucket updates it, and one of an earlier bucket is ignored. */
  lemma TickWithinBucket(cfg: Config, k: SeriesKey, s: Series, broken: bool, t: PricedTick)
    requires s.current.Some?
    ensures var r, c, bucket := AfterTick(cfg, k, s, broken, t), s.current.value, BucketOpen(t.timeMs, k.tf);
            && (bucket < c.openMs ==> r == s)
            && (bucket == c.openMs && c.synthetic && c.tickCount == 0 ==>
                  r == s.(current := Some(Candle(c.openMs, c.closeMs, t.price, t.price, t.price, t.price, 1, false))))
            && (bucket == c.openMs && !(c.synthetic && c.tickCount == 0) ==>
                  && r == s.(current := r.current) && r.current.Some?
                  && var d := r.current.value;
                     && d == c.(high := d.high, low := d.low, close := t.price, tickCount := c.tickCount + 1)
                     && d.high >= c.high && d.high >= t.price && (d.high == c.high || d.high == t.price)
                     && d.low <= c.low && d.low <= t.price && (d.low == c.low || d.low == t.price))
  {
    hide BucketOpen;
  }

  // ---- a flush ---------------------------------------------------------------------

  /** A candle may be carried forward into this bucket, after so many synthetic ones in a row. */
  predicate MayCarry(cfg: Config, k: SeriesKey, live: bool, broken: bool, nowMs: int, openMs: int, row: nat) {
    live && !broken && k.tf in cfg.synthetic && cfg.session(k.symbol, openMs) && openMs <= nowMs && row < cfg.maxGap
  }

  /** The synthetic candles in a row that the closed ones end with once the current one closes. */
  function RowAfter(s: Series): (n: nat)
    requires s.current.Some?
  {
    if s.current.value.synthetic then s.consecutiveSynthetic + 1 else 0
  }

  /** The candle is flat in the j-th bucket after this one, and may be carried there. */
  predicate IsCarried(cfg: Config, k: SeriesKey, c: Candle, openMs: int, j: nat, price: real,
                      live: bool, broken: bool, nowMs: int, row: nat)
  {
    && IsFlat(c, Later(openMs, j + 1, k.tf), k.tf, price)
    && MayCarry(cfg, k, live, broken, nowMs, Later(openMs, j + 1, k.tf), row + j)
  }

  /** Flat candles from the next bucket on, each of which may be carried, up to the first that may not. */
  predicate Carries(cfg: Config, k: SeriesKey, cs: seq<Candle>, openMs: int, price: real,
                    live: bool, broken: bool, nowMs: int, row: nat)
  {
    && (forall j :: 0 <= j < |cs| ==> IsCarried(cfg, k, cs[j], openMs, j, price, live, broken, nowMs, row))
    && !MayCarry(cfg, k, live, broken, nowMs, Later(openMs, |cs| + 1, k.tf), row + |cs|)
  }

  /** Main result on flushes: an open candle whose time is over is closed, and the close is carried
      forward bucket by bucket exactly as long as the feed is up and unbroken, the timeframe is
      synthetic, the bucket has begun and is in session, and fewer than the limit are in a row. All
      of them are closed but a last one whose time is not over. */
  lemma FlushCarriesIff(cfg: Config, k: SeriesKey, s: Series, live: bool, broken: bool, nowMs: int)
    requires Kept(cfg, k, s) && s.current.Some? && nowMs >= s.current.value.closeMs
    ensures var r, c := AfterFlush(cfg, k, s, live, broken, nowMs), s.current.value;
            && All(s) <= All(r)
            && Carries(cfg, k, All(r)[|All(s)|..], c.openMs, c.close, live, broken, nowMs, RowAfter(s))
            && (r.current.Some? ==> |All(r)| > |All(s)| && nowMs < r.current.value.closeMs)
  {
    hide StepMs, Kept, FlushFrom, Carries;
    CurrentAligned(cfg, k, s);
    FlushFromCarries(cfg, k, s, live, broken, nowMs, 0);
  }

  /** A candle that is still running is left alone, and so is a series without one. */
  lemma FlushLeavesRunning(cfg: Config, k: SeriesKey, s: Series, live: bool, broken: bool, nowMs: int)
    requires s.current.Some? ==> nowMs < s.current.value.closeMs
    ensures AfterFlush(cfg, k, s, live, broken, nowMs) == s
  {
  }

  lemma {:induction false} FlushFromCarries(cfg: Config, k: SeriesKey, s: Series, live: bool, broken: bool, nowMs: int,
      safety: nat)
    requires s.current.Some? && nowMs >= s.current.value.closeMs
    requires s.current.value.closeMs == s.current.value.openMs + StepMs(k.tf)
    requires safety <= cfg.maxGap
    requires safety > 0 ==> s.current.value.synthetic && s.consecutiveSynthetic + 1 >= safety
    ensures var r, c := FlushFrom(cfg, k, s, live, broken, nowMs, safety), s.current.value;
            && All(s) <= All(r)
            && Carries(cfg, k, All(r)[|All(s)|..], c.openMs, c.close, live, broken, nowMs, RowAfter(s))
            && (r.current.Some? ==> |All(r)| > |All(s)| && nowMs < r.current.value.closeMs)
    decreases cfg.maxGap + 2 - safety
  {
    var r, c, row := FlushFrom(cfg, k, s, live, broken, nowMs, safety), s.current.value, RowAfter(s);
    var closed, next := CloseCurrent(cfg, k, s), c.openMs + StepMs(k.tf);
    var d := SyntheticCandle(k.tf, next, c.close);
    var s1 := closed.(current := Some(d));
    ClosedMayCarry(cfg, k, s, live, broken, nowMs);
    StopsOr(cfg, k, s, live, broken, nowMs, safety);
    LaterMoves(c.openMs, 0, k.tf);
    hide StepMs, Later, Carries, MayCarry, MayContinue, CloseCurrent, FlushFrom, RowAfter;
    if next > nowMs || !MayContinue(cfg, k, closed, live, broken, next) {
      assert All(r)[|All(s)|..] == [];
      CarriesNone(cfg, k, c.openMs, c.close, live, broken, nowMs, row);
    } else if nowMs < d.closeMs {
      assert All(r)[|All(s)|..] == [d];
      CarriesOne(cfg, k, d, c.openMs, c.close, live, broken, nowMs, row);
    } else {
      FlushFromCarries(cfg, k, s1, live, broken, nowMs, safety + 1);
      var rest := All(r)[|All(s1)|..];
      assert All(r)[|All(s)|..] == [d] + rest;
      OneMoreCarried(cfg, k, d, rest, c.openMs, c.close, live, broken, nowMs, row);
    }
  }

  /** A flush step by step. */
  lemma StopsOr(cfg: Config, k: SeriesKey, s: Series, live: bool, broken: bool, nowMs: int, safety: nat)
    requires s.current.Some? && nowMs >= s.current.value.closeMs && safety <= cfg.maxGap
    ensures var closed, next := CloseCurrent(cfg, k, s), s.current.value.openMs + StepMs(k.tf);
      var d := SyntheticCandle(k.tf, next, s.current.value.close);
      var s1, r := closed.(current := Some(d)), FlushFrom(cfg, k, s, live, broken, nowMs, safety);
      && (next > nowMs || !MayContinue(cfg, k, closed, live, broken, next) ==> r == closed)
      && (next <= nowMs && MayContinue(cfg, k, closed, live, broken, next) ==>
            r == if nowMs < d.closeMs then s1 else FlushFrom(cfg, k, s1, live, broken, nowMs, safety + 1))
  {
    hide StepMs;
  }

  lemma ClosedMayCarry(cfg: Config, k: SeriesKey, s: Series, live: bool, broken: bool, nowMs: int)
    requires s.current.Some?
    ensures var c, closed := s.current.value, CloseCurrent(cfg, k, s);
      var next := c.openMs + StepMs(k.tf);
      var s1 := closed.(current := Some(SyntheticCandle(k.tf, next, c.close)));
      && (next <= nowMs && MayContinue(cfg, k, closed, live, broken, next)
          <==> MayCarry(cfg, k, live, broken, nowMs, next, RowAfter(s)))
      && closed.current.None? && All(closed) == All(s) && All(s1) == All(s) + [s1.current.value]
      && closed.consecutiveSynthetic == RowAfter(s) && RowAfter(s1) == RowAfter(s) + 1
      && (s.current.value.synthetic ==> RowAfter(s) == s.consecutiveSynthetic + 1)
  {
    hide StepMs;
  }

  lemma CarriesNone(cfg: Config, k: SeriesKey, openMs: int, price: real, live: bool, broken: bool, nowMs: int,
                    row: nat)
    requires !MayCarry(cfg, k, live, broken, nowMs, Later(openMs, 1, k.tf), row)
    ensures Carries(cfg, k, [], openMs, price, live, broken, nowMs, row)
  {
  }

  lemma CarriesOne(cfg: Config, k: SeriesKey, d: Candle, openMs: int, price: real, live: bool, broken: bool,
                   nowMs: int, row: nat)
    requires IsFlat(d, Later(openMs, 1, k.tf), k.tf, price) && nowMs < d.closeMs
    requires MayCarry(cfg, k, live, broken, nowMs, Later(openMs, 1, k.tf), row)
    ensures Carries(cfg, k, [d], openMs, price, live, broken, nowMs, row)
  {
    LaterMoves(openMs, 1, k.tf);
    LaterMoves(openMs + StepMs(k.tf), 0, k.tf);
  }

  lemma OneMoreCarried(cfg: Config, k: SeriesKey, d: Candle, rest: seq<Candle>, openMs: int, price: real,
                       live: bool, broken: bool, nowMs: int, row: nat)
    requires IsFlat(d, Later(openMs, 1, k.tf), k.tf, price)
    requires MayCarry(cfg, k, live, broken, nowMs, Later(openMs, 1, k.tf), row)
    requires Carries(cfg, k, rest, openMs + StepMs(k.tf), price, live, broken, nowMs, row + 1)
    ensures Carries(cfg, k, [d] + rest, openMs, price, live, broken, nowMs, row)
  {
    hide StepMs, Later;
    var cs := [d] + rest;
    LaterMoves(openMs, |cs|, k.tf);
    assert row + |cs| == row + 1 + |rest|;
    forall j | 0 <= j < |cs| ensures IsCarried(cfg, k, cs[j], openMs, j, price, live, broken, nowMs, row) {
      if j > 0 {
        LaterMoves(openMs, j, k.tf);
        assert IsCarried(cfg, k, rest[j - 1], openMs + StepMs(k.tf), j - 1, price, live, broken, nowMs, row + 1);
      }
    }
  }

  // ---- over runs of the engine -----------------------------------------------------

  predicate IsPositive(x: Option<real>) { x.Some? && x.value > 0.0 }

  /** The price a candle takes from a tick: the provider's, else the reference, the mid, the bid. */
  lemma ChartPriceIsFirst(t: RawTick)
    ensures ChartPrice(t) ==
            if IsPositive(t.price) then t.price
            else if IsPositive(t.referencePrice) then t.referencePrice
            else if IsPositive(t.mid) then t.mid
            else if IsPositive(t.bid) then t.bid
            else None
  {
    FirstOf(t.bid, []);
    FirstOf(t.mid, [t.bid]);
    FirstOf(t.referencePrice, [t.mid, t.bid]);
    FirstOf(t.price, [t.referencePrice, t.mid, t.bid]);
    assert [t.price] + [t.referencePrice, t.mid, t.bid] == [t.price, t.referencePrice, t.mid, t.bid];
    assert [t.referencePrice] + [t.mid, t.bid] == [t.referencePrice, t.mid, t.bid];
    assert [t.mid] + [t.bid] == [t.mid, t.bid] && [t.bid] + [] == [t.bid];
  }

  lemma FirstOf(x: Option<real>, xs: seq<Option<real>>)
    ensures FirstPositive([x] + xs) == if IsPositive(x) then x else FirstPositive(xs)
    ensures FirstPositive([]) == None
  {
    assert ([x] + xs)[1..] == xs;
  }

  predicate IsTickOf(ev: Event, symbol: string) {
    ev.Tick? && ev.tick.symbol == symbol
    && (IsPositive(ev.tick.price) || IsPositive(ev.tick.referencePrice) || IsPositive(ev.tick.mid)
        || IsPositive(ev.tick.bid))
  }

  /** The feed of a symbol is up from a tick on, or from when it is said to be, until it is said to be down. */
  predicate IsUp(es: seq<Event>, symbol: string) {
    if es == [] then false
    else
      var ev := es[|es| - 1];
      if IsTickOf(ev, symbol) then true
      else if ev.SetLive? && ev.symbol == symbol then ev.isLive
      else IsUp(es[..|es| - 1], symbol)
  }

  /** It was up and went down after the symbol's last tick. */
  predicate WentDown(es: seq<Event>, symbol: string) {
    if es == [] || IsTickOf(es[|es| - 1], symbol) then false
    else
      var ev, init := es[|es| - 1], es[..|es| - 1];
      (ev.SetLive? && ev.symbol == symbol && !ev.isLive && IsUp(init, symbol)) || WentDown(init, symbol)
  }

  lemma {:induction false} FeedIs(cfg: Config, es: seq<Event>, symbol: string)
    ensures symbol in Run(cfg, es).live <==> IsUp(es, symbol)
    ensures symbol in Run(cfg, es).broken <==> WentDown(es, symbol)
  {
    hide AfterTick, AfterFlush, ChartPrice;
    if es != [] {
      var ev := es[|es| - 1];
      FeedIs(cfg, es[..|es| - 1], symbol);
      if ev.Tick? {
        ChartPriceIsFirst(ev.tick);
      }
    }
  }

  /** So over every run in non-decreasing time: a tick fills the gap before it exactly when the
      symbol's feed has not gone down since its last tick. */
  lemma RunFillsGapIff(cfg: Config, start: int, es: seq<Event>, raw: RawTick, price: real, k: SeriesKey, n: nat)
    requires TimeOrdered(start, es) && ChartPrice(raw) == Some(price)
    requires k.symbol == raw.symbol && k.tf in cfg.timeframes
    requires var s := StateOf(Run(cfg, es).states, k);
             && All(s) != [] && OpensBucket(k, s, PricedTick(raw.timeMs, price))
             && BucketOpen(raw.timeMs, k.tf) == Later(LastOf(s).openMs, n + 1, k.tf)
    ensures var s, after := StateOf(Run(cfg, es).states, k), Run(cfg, es + [Tick(raw)]).states;
            && k in after
            && var r, before, last := after[k], All(s), LastOf(s);
               && r.current == Some(FromTick(k.tf, BucketOpen(raw.timeMs, k.tf), price)) && before <= r.closed
               && (if !WentDown(es, raw.symbol) && k.tf in cfg.synthetic && n <= cfg.maxGap
                   then FillsGap(cfg, k, r.closed[|before|..], Later(last.openMs, 1, k.tf), n, last.close)
                   else r.closed == before)
  {
    hide AfterTick, ChartPrice, FillsGap, SeriesOk, Kept, Counted, BucketOpen, WentDown, Later, All;
    var e, s := Run(cfg, es), StateOf(Run(cfg, es).states, k);
    RunIsOk(cfg, start, es);
    NewIsOk(cfg, k, Clock(start, es));
    FeedIs(cfg, es, raw.symbol);
    assert (es + [Tick(raw)])[..|es|] == es;
    SeriesIsKept(cfg, k, s, if k in e.states then TicksOf(es, k.symbol) else [], Clock(start, es));
    TickFillsGapIff(cfg, k, s, raw.symbol in e.broken, PricedTick(raw.timeMs, price), n);
    assert k in KeysOf(cfg, raw.symbol);
  }

  lemma SeriesIsKept(cfg: Config, k: SeriesKey, s: Series, ticks: seq<PricedTick>, clock: int)
    requires SeriesOk(cfg, k, s, ticks, clock)
    ensures Kept(cfg, k, s) && Counted(cfg, s)
  {
    hide Kept, Counted, Direct, Real, All;
  }

  /** And a flush carries a close forward exactly while the symbol's feed is up and has not gone
      down since its last tick. */
  lemma RunCarriesIff(cfg: Config, start: int, es: seq<Event>, nowMs: int, k: SeriesKey)
    requires TimeOrdered(start, es) && k in Run(cfg, es).states
    requires var s := Run(cfg, es).states[k]; s.current.Some? && nowMs >= s.current.value.closeMs
    ensures var s, after := Run(cfg, es).states[k], Run(cfg, es + [Flush(nowMs)]).states;
            && k in after
            && var r, c, up, down := after[k], s.current.value, IsUp(es, k.symbol), WentDown(es, k.symbol);
               && All(s) <= All(r)
               && Carries(cfg, k, All(r)[|All(s)|..], c.openMs, c.close, up, down, nowMs, RowAfter(s))
               && (r.current.Some? ==> nowMs < r.current.value.closeMs)
  {
    hide AfterFlush, Carries, SeriesOk, Kept, Counted, WentDown, IsUp, All;
    var e := Run(cfg, es);
    RunIsOk(cfg, start, es);
    FeedIs(cfg, es, k.symbol);
    assert (es + [Flush(nowMs)])[..|es|] == es;
    SeriesIsKept(cfg, k, e.states[k], TicksOf(es, k.symbol), Clock(start, es));
    FlushCarriesIff(cfg, k, e.states[k], k.symbol in e.live, k.symbol in e.broken, nowMs);
  }
}
