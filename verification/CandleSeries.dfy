/** One symbol's candles on one timeframe: what a tick and a flush do to them, and
    what every run keeps when events arrive in non-decreasing time. */
module CandleSeries {
  import opened Common
  import opened Timeframes
  import opened Candles

  /** `session` is the instrument's calendar, false when it is not configured. */
  datatype Config = Config(timeframes: seq<Timeframe>, persist: set<Timeframe>, synthetic: set<Timeframe>, maxGap: nat,
                           session: (string, int) -> bool)

  datatype SeriesKey = SeriesKey(symbol: string, tf: Timeframe)

  /** `closed` and `persisted` are the candles announced as closed and written out. */
  datatype Series = Series(
    current: Option<Candle>, lastClose: Option<real>, lastClosedOpenMs: Option<int>, consecutiveSynthetic: nat,
    closed: seq<Candle>, persisted: seq<Candle>)

  const NEW_SERIES: Series := Series(None, None, None, 0, [], [])

  function SyntheticCandle(tf: Timeframe, openMs: int, price: real): (c: Candle) {
    Candle(openMs, openMs + StepMs(tf), price, price, price, price, 0, true)
  }

  function Finalize(cfg: Config, k: SeriesKey, s: Series, c: Candle): (r: Series) {
    Series(s.current, Some(c.close), Some(c.openMs), if c.synthetic then s.consecutiveSynthetic + 1
        else 0, s.closed + [c], if !c.synthetic && k.tf in cfg.persist then s.persisted + [c] else s.persisted)
  }

  function CloseCurrent(cfg: Config, k: SeriesKey, s: Series): (r: Series) {
    if s.current.None? then s else Finalize(cfg, k, s.(current := None), s.current.value)
  }

  predicate SyntheticAllowed(cfg: Config, k: SeriesKey, openMs: int) {
    k.tf in cfg.synthetic && cfg.maxGap > 0 && cfg.session(k.symbol, openMs)
  }

  /** One closed synthetic candle for each open-session bucket of the gap. */
  function FillBars(cfg: Config, k: SeriesKey, s: Series, openMs: int, n: nat): (r: Series)
    requires s.lastClose.Some?
    decreases n
  {
    if n == 0 then s
    else
      var next :=
        if SyntheticAllowed(cfg, k, openMs)
        then Finalize(cfg, k, s, SyntheticCandle(k.tf, openMs, s.lastClose.value))
        else s;
      FillBars(cfg, k, next, openMs + StepMs(k.tf), n - 1)
  }

  function FillShortGap(cfg: Config, k: SeriesKey, s: Series, bucket: int): (r: Series) {
    if k.tf !in cfg.synthetic || s.lastClosedOpenMs.None? || s.lastClose.None? then s
    else
      var firstMissing := s.lastClosedOpenMs.value + StepMs(k.tf);
      if bucket <= firstMissing then s
      else
        var missing := (bucket - firstMissing) / StepMs(k.tf);
        if missing <= 0 || missing > cfg.maxGap then s else FillBars(cfg, k, s, firstMissing, missing)
  }

  /** The first tick of a synthetic candle's bucket takes the candle over. */
  function MadeReal(c: Candle, price: real): (d: Candle) {
    c.(open := price, high := price, low := price, close := price, tickCount := 1, synthetic := false)
  }

  function AfterTick(cfg: Config, k: SeriesKey, s: Series, broken: bool, t: PricedTick): (r: Series) {
    var bucket := BucketOpen(t.timeMs, k.tf);
    if s.current.Some? && bucket < s.current.value.openMs then s
    else if s.current.Some? && bucket == s.current.value.openMs then
      var c := s.current.value;
      s.(current := Some(if c.synthetic && c.tickCount == 0 then MadeReal(c, t.price) else WithPrice(c, t.price)))
    else
      var closed := CloseCurrent(cfg, k, s);
      var filled := if broken then closed else FillShortGap(cfg, k, closed, bucket);
      filled.(current := Some(FromTick(k.tf, bucket, t.price)))
  }

  predicate MayContinue(cfg: Config, k: SeriesKey, s: Series, live: bool, broken: bool, openMs: int) {
    && live && !broken && s.lastClose.Some? && s.lastClosedOpenMs.Some? && s.consecutiveSynthetic < cfg.maxGap
    && SyntheticAllowed(cfg, k, openMs)
  }

  /** The loop of flushExpired from its safety counter on. */
  function FlushFrom(cfg: Config, k: SeriesKey, s: Series, live: bool, broken: bool, nowMs: int,
      safety: nat): (r: Series)
    decreases cfg.maxGap + 2 - safety
  {
    if s.current.None? || nowMs < s.current.value.closeMs || safety > cfg.maxGap + 1 then s
    else
      var closed := CloseCurrent(cfg, k, s);
      var next := closed.lastClosedOpenMs.value + StepMs(k.tf);
      if next > nowMs || !MayContinue(cfg, k, closed, live, broken, next) then closed
      else FlushFrom(cfg, k, closed.(current := Some(SyntheticCandle(k.tf, next, closed.lastClose.value))), live,
          broken, nowMs, safety + 1)
  }

  function AfterFlush(cfg: Config, k: SeriesKey, s: Series, live: bool, broken: bool, nowMs: int): (r: Series) {
    FlushFrom(cfg, k, s, live, broken, nowMs, 0)
  }

  // ---- what every step keeps ---------------------------------------------------

  function All(s: Series): (cs: seq<Candle>) { s.closed + (if s.current.Some? then [s.current.value] else []) }

  function Real(cs: seq<Candle>): (rs: seq<Candle>) {
    if cs == [] then []
    else Real(cs[..|cs| - 1]) + (if cs[|cs| - 1].synthetic then [] else [cs[|cs| - 1]])
  }

  /** How many synthetic candles the sequence ends with. */
  function Trailing(cs: seq<Candle>): (n: nat) {
    if cs == [] || !cs[|cs| - 1].synthetic then 0 else Trailing(cs[..|cs| - 1]) + 1
  }

  /** A synthetic candle is flat at the close before it and holds no tick. */
  predicate CarriesForward(cs: seq<Candle>) {
    forall i :: 0 <= i < |cs| && cs[i].synthetic ==>
      i > 0 && cs[i].tickCount == 0 && cs[i].open == cs[i].high == cs[i].low == cs[i].close == cs[i - 1].close
  }

  /** No more than n synthetic candles in a row. */
  ghost predicate RunsWithin(cs: seq<Candle>, n: nat) {
    forall i, j :: 0 <= i <= j <= |cs| && AllSynthetic(cs[i..j]) ==> j - i <= n
  }

  predicate AllSynthetic(cs: seq<Candle>) { forall i :: 0 <= i < |cs| ==> cs[i].synthetic }

  predicate ClosedBy(s: Series, clock: int) {
    && (forall i :: 0 <= i < |s.closed| ==> s.closed[i].closeMs <= clock)
    && (s.current.Some? ==> s.current.value.openMs <= clock)
  }

  predicate LastIsKnown(s: Series) {
    && s.lastClosedOpenMs == (if s.closed == [] then None else Some(s.closed[|s.closed| - 1].openMs))
    && s.lastClose == (if s.closed == [] then None else Some(s.closed[|s.closed| - 1].close))
    && s.consecutiveSynthetic == Trailing(s.closed)
  }

  predicate Counted(cfg: Config, s: Series) {
    match s.current
    case None => s.consecutiveSynthetic <= cfg.maxGap
    case Some(c) =>
      if c.synthetic then s.consecutiveSynthetic < cfg.maxGap else s.consecutiveSynthetic <= 2 * cfg.maxGap
  }

  predicate Placed(cs: seq<Candle>, tf: Timeframe) { Increasing(cs) && OnGrid(cs, tf) && CarriesForward(cs) }

  ghost predicate Kept(cfg: Config, k: SeriesKey, s: Series) {
    && Placed(All(s), k.tf) && LastIsKnown(s) && RunsWithin(s.closed, 2 * cfg.maxGap)
    && s.persisted == (if k.tf in cfg.persist then Real(s.closed) else [])
  }

  /** Everything at once: the real candles are the fold of the ticks seen. */
  ghost predicate SeriesOk(cfg: Config, k: SeriesKey, s: Series, ticks: seq<PricedTick>, clock: int) {
    Kept(cfg, k, s) && Counted(cfg, s) && ClosedBy(s, clock) && Real(All(s)) == Direct(k.tf, ticks)
  }

  lemma RealAppend(cs: seq<Candle>, c: Candle)
    ensures Real(cs + [c]) == Real(cs) + (if c.synthetic then [] else [c])
    ensures Trailing(cs + [c]) == if c.synthetic then Trailing(cs) + 1 else 0
  {
    assert (cs + [c])[..|cs|] == cs;
  }

  lemma {:induction false} RunIsTrailing(cs: seq<Candle>, i: nat)
    requires i <= |cs| && AllSynthetic(cs[i..])
    ensures |cs| - i <= Trailing(cs)
  {
    if i < |cs| {
      var init := cs[..|cs| - 1];
      assert cs[i..][|cs| - 1 - i] == cs[|cs| - 1];
      assert init[i..] == cs[i..][..|cs| - 1 - i];
      RunIsTrailing(init, i);
    }
  }

  lemma RunsAppend(cs: seq<Candle>, c: Candle, n: nat)
    requires RunsWithin(cs, n) && Trailing(cs + [c]) <= n
    ensures RunsWithin(cs + [c], n)
  {
    var ds := cs + [c];
    forall i, j | 0 <= i <= j <= |ds| && AllSynthetic(ds[i..j]) ensures j - i <= n {
      if j <= |cs| {
        assert ds[i..j] == cs[i..j];
      } else {
        assert ds[i..j] == ds[i..];
        RunIsTrailing(ds, i);
      }
    }
  }

  /** A candle that fits behind the closed ones. */
  predicate Fits(k: SeriesKey, s: Series, c: Candle) {
    && Aligned(c.openMs, k.tf) && c.closeMs == c.openMs + StepMs(k.tf)
    && (s.lastClosedOpenMs.Some? ==> s.lastClosedOpenMs.value < c.openMs)
    && (c.synthetic ==> s.lastClose == Some(c.open) && c.open == c.high == c.low == c.close && c.tickCount == 0)
  }

  lemma AppendFits(k: SeriesKey, s: Series, c: Candle)
    requires Placed(s.closed, k.tf) && LastIsKnown(s) && Fits(k, s, c)
    ensures Placed(s.closed + [c], k.tf)
  {
    hide BucketOpen, StepMs, Trailing;
    assert s.closed != [] ==> s.closed[|s.closed| - 1].openMs < c.openMs;
  }

  lemma AllIs(s: Series)
    ensures s.current.None? ==> All(s) == s.closed
    ensures s.current.Some? ==> All(s) == s.closed + [s.current.value]
  {
  }

  lemma FinalizeKeeps(cfg: Config, k: SeriesKey, s: Series, c: Candle)
    requires Kept(cfg, k, s) && s.current.None? && Fits(k, s, c)
    requires c.synthetic ==> s.consecutiveSynthetic < 2 * cfg.maxGap
    ensures var r := Finalize(cfg, k, s, c);
            Kept(cfg, k, r) && r.current.None? && r.closed == s.closed + [c]
  {
    hide BucketOpen, StepMs, RunsWithin, Real, Trailing, Placed, Fits, All;
    var r := Finalize(cfg, k, s, c);
    AllIs(s);
    AllIs(r);
    AppendFits(k, s, c);
    RealAppend(s.closed, c);
    RunsAppend(s.closed, c, 2 * cfg.maxGap);
  }

  lemma OpenKeeps(cfg: Config, k: SeriesKey, s: Series, c: Candle)
    requires Kept(cfg, k, s) && s.current.None? && Fits(k, s, c)
    ensures Kept(cfg, k, s.(current := Some(c)))
  {
    hide BucketOpen, StepMs, RunsWithin, Real, Trailing, Placed, Fits, All;
    AllIs(s);
    AllIs(s.(current := Some(c)));
    AppendFits(k, s, c);
  }

  lemma PlacedPrefix(cs: seq<Candle>, c: Candle, tf: Timeframe)
    requires Placed(cs + [c], tf)
    ensures Placed(cs, tf)
  {
    hide BucketOpen, StepMs;
    assert forall i :: 0 <= i < |cs| ==> (cs + [c])[i] == cs[i];
  }

  lemma CloseKeeps(cfg: Config, k: SeriesKey, s: Series)
    requires Kept(cfg, k, s) && Counted(cfg, s)
    ensures var r := CloseCurrent(cfg, k, s);
            && Kept(cfg, k, r) && r.current.None? && r.consecutiveSynthetic <= cfg.maxGap && All(r) == All(s)
            && (s.current.Some? ==>
                  r.closed == s.closed + [s.current.value] && r.lastClosedOpenMs == Some(s.current.value.openMs))
            && (s.current.None? ==> r == s)
  {
    hide BucketOpen, StepMs, RunsWithin, Real, Trailing, Placed, Fits, All, LastIsKnown;
    if s.current.Some? {
      var c, s0 := s.current.value, s.(current := None);
      AllIs(s);
      AllIs(s0);
      AllIs(CloseCurrent(cfg, k, s));
      PlacedPrefix(s.closed, c, k.tf);
      assert Kept(cfg, k, s0) by { Uncurrent(cfg, k, s); }
      CurrentFits(cfg, k, s);
      FinalizeKeeps(cfg, k, s0, c);
    }
  }

  lemma Uncurrent(cfg: Config, k: SeriesKey, s: Series)
    requires Kept(cfg, k, s) && Placed(s.closed, k.tf)
    ensures Kept(cfg, k, s.(current := None))
  {
    hide BucketOpen, StepMs, RunsWithin, Real, Trailing, Placed, All;
    AllIs(s.(current := None));
  }

  /** The current candle is placed behind the last closed one. */
  lemma CurrentFits(cfg: Config, k: SeriesKey, s: Series)
    requires Kept(cfg, k, s) && s.current.Some?
    ensures Fits(k, s, s.current.value) && Fits(k, s.(current := None), s.current.value)
  {
    hide BucketOpen, StepMs, RunsWithin, Real, Trailing;
    assert All(s)[|s.closed|] == s.current.value;
    assert s.closed != [] ==> All(s)[|s.closed| - 1] == s.closed[|s.closed| - 1];
  }

  /** Filling adds at most n synthetic candles, all before `limit`. */
  lemma {:induction false} FillBarsKeeps(cfg: Config, k: SeriesKey, s: Series, openMs: int, n: nat, limit: int)
    requires Kept(cfg, k, s) && s.current.None? && s.lastClose.Some? && s.lastClosedOpenMs.Some?
    requires s.lastClosedOpenMs.value < openMs && Aligned(openMs, k.tf)
    requires s.consecutiveSynthetic + n <= 2 * cfg.maxGap
    requires openMs + n * StepMs(k.tf) <= limit
    requires forall i :: 0 <= i < |s.closed| ==> s.closed[i].closeMs <= limit
    ensures var r := FillBars(cfg, k, s, openMs, n);
            && Kept(cfg, k, r) && r.current.None? && r.consecutiveSynthetic <= s.consecutiveSynthetic + n
            && Real(r.closed) == Real(s.closed) && r.lastClosedOpenMs.Some? && r.lastClosedOpenMs.value < limit
            && (forall i :: 0 <= i < |r.closed| ==> r.closed[i].closeMs <= limit)
    decreases n
  {
    hide Kept, BucketOpen, Real;
    var step := StepMs(k.tf);
    if n > 0 {
      var c := SyntheticCandle(k.tf, openMs, s.lastClose.value);
      var next := if SyntheticAllowed(cfg, k, openMs) then Finalize(cfg, k, s, c) else s;
      assert (n - 1) * step + step == n * step;
      assert (n - 1) * step >= 0;
      assert Aligned(openMs + step, k.tf) by { BucketHolds(0, openMs, k.tf); }
      if SyntheticAllowed(cfg, k, openMs) {
        FinalizeKeeps(cfg, k, s, c);
        RealAppend(s.closed, c);
      }
      FillBarsKeeps(cfg, k, next, openMs + step, n - 1, limit);
    }
  }

  /** The real ones among candles that open before a time open before it. */
  lemma {:induction false} RealBelow(cs: seq<Candle>, openMs: int)
    requires forall i :: 0 <= i < |cs| ==> cs[i].openMs < openMs
    ensures Real(cs) != [] ==> Real(cs)[|Real(cs)| - 1].openMs < openMs
  {
    if cs != [] {
      RealBelow(cs[..|cs| - 1], openMs);
    }
  }

  lemma AllBelow(k: SeriesKey, s: Series, openMs: int)
    requires Placed(s.closed, k.tf) && LastIsKnown(s)
    requires (s.lastClosedOpenMs.Some? ==> s.lastClosedOpenMs.value < openMs)
    ensures forall i :: 0 <= i < |s.closed| ==> s.closed[i].openMs < openMs
  {
    hide BucketOpen, StepMs, Trailing;
    forall i | 0 <= i < |s.closed| ensures s.closed[i].openMs < openMs {
      assert s.closed[i].openMs <= s.closed[|s.closed| - 1].openMs;
    }
  }

  lemma DirectAppend(tf: Timeframe, ticks: seq<PricedTick>, t: PricedTick)
    ensures Direct(tf, ticks + [t]) == AddTick(Direct(tf, ticks), tf, t)
  {
    assert (ticks + [t])[..|ticks|] == ticks;
  }

  lemma AddsNew(rs: seq<Candle>, tf: Timeframe, t: PricedTick)
    requires rs != [] ==> rs[|rs| - 1].openMs < BucketOpen(t.timeMs, tf)
    ensures AddTick(rs, tf, t) == rs + [FromTick(tf, BucketOpen(t.timeMs, tf), t.price)]
  {
    hide BucketOpen, FromTick;
  }

  lemma AddsToLast(rs: seq<Candle>, c: Candle, tf: Timeframe, t: PricedTick)
    requires c.openMs == BucketOpen(t.timeMs, tf)
    ensures AddTick(rs + [c], tf, t) == rs + [WithPrice(c, t.price)]
  {
    hide BucketOpen, WithPrice;
    assert (rs + [c])[..|rs|] == rs;
  }

  /** A tick opens a candle behind everything closed. */
  lemma OpensCandle(cfg: Config, k: SeriesKey, s: Series, t: PricedTick, ticks: seq<PricedTick>)
    requires Kept(cfg, k, s) && s.current.None? && s.consecutiveSynthetic <= 2 * cfg.maxGap
    requires Real(s.closed) == Direct(k.tf, ticks)
    requires s.lastClosedOpenMs.Some? ==> s.lastClosedOpenMs.value < BucketOpen(t.timeMs, k.tf)
    requires forall i :: 0 <= i < |s.closed| ==> s.closed[i].closeMs <= t.timeMs
    ensures SeriesOk(cfg, k, s.(current := Some(FromTick(k.tf, BucketOpen(t.timeMs, k.tf), t.price))), ticks + [t],
        t.timeMs)
  {
    hide BucketOpen, StepMs, RunsWithin, Real, Trailing, Placed, Fits, All, Direct, AddTick, LastIsKnown;
    var bucket := BucketOpen(t.timeMs, k.tf);
    var c := FromTick(k.tf, bucket, t.price);
    var r := s.(current := Some(c));
    BucketHolds(t.timeMs, 0, k.tf);
    FirstFits(k, s, t);
    AllIs(s);
    AllIs(r);
    AllBelow(k, s, bucket);
    RealBelow(s.closed, bucket);
    RealAppend(s.closed, c);
    DirectAppend(k.tf, ticks, t);
    AddsNew(Real(s.closed), k.tf, t);
    OpenKeeps(cfg, k, s, c);
  }

  lemma FirstFits(k: SeriesKey, s: Series, t: PricedTick)
    requires s.lastClosedOpenMs.Some? ==> s.lastClosedOpenMs.value < BucketOpen(t.timeMs, k.tf)
    ensures Fits(k, s, FromTick(k.tf, BucketOpen(t.timeMs, k.tf), t.price))
  {
    BucketHolds(t.timeMs, 0, k.tf);
    hide BucketOpen, StepMs;
  }

  /** What a tick in the bucket of the current candle puts in its place. */
  lemma UpdateFits(k: SeriesKey, s: Series, c: Candle, t: PricedTick)
    requires Fits(k, s, c) && BucketOpen(t.timeMs, k.tf) == c.openMs
    ensures c.synthetic ==> c.tickCount == 0 && MadeReal(c, t.price) == FromTick(k.tf, c.openMs, t.price)
    ensures Fits(k, s, FromTick(k.tf, c.openMs, t.price)) && (!c.synthetic ==> Fits(k, s, WithPrice(c, t.price)))
  {
    hide BucketOpen, StepMs;
  }

  /** A tick in the bucket of the current candle. */
  lemma UpdatesCandle(cfg: Config, k: SeriesKey, s: Series, broken: bool, t: PricedTick, ticks: seq<PricedTick>,
      clock: int)
    requires SeriesOk(cfg, k, s, ticks, clock) && clock <= t.timeMs
    requires s.current.Some? && BucketOpen(t.timeMs, k.tf) == s.current.value.openMs
    ensures SeriesOk(cfg, k, AfterTick(cfg, k, s, broken, t), ticks + [t], t.timeMs)
  {
    hide BucketOpen, StepMs, RunsWithin, Real, Trailing, Placed, Fits, All, Direct, AddTick, LastIsKnown;
    hide FromTick, WithPrice, MadeReal, CloseCurrent, FillShortGap;
    var c, s0 := s.current.value, s.(current := None);
    CurrentFits(cfg, k, s);
    UpdateFits(k, s0, c, t);
    FromTickIs(k.tf, c.openMs, t.price);
    AllIs(s);
    PlacedPrefix(s.closed, c, k.tf);
    Uncurrent(cfg, k, s);
    AllBelowCurrent(k, s0, c);
    RealBelow(s.closed, c.openMs);
    RealAppend(s.closed, c);
    DirectAppend(k.tf, ticks, t);
    var d := if c.synthetic then FromTick(k.tf, c.openMs, t.price) else WithPrice(c, t.price);
    var r := s0.(current := Some(d));
    assert AfterTick(cfg, k, s, broken, t) == r;
    AllIs(r);
    OpenKeeps(cfg, k, s0, d);
    WithPriceIs(c, t.price);
    RealAppend(s.closed, d);
    if c.synthetic {
      AddsNew(Real(s.closed), k.tf, t);
      assert Real(s.closed) + [] == Real(s.closed);
    } else {
      AddsToLast(Real(s.closed), c, k.tf, t);
    }
    assert Real(All(r)) == Direct(k.tf, ticks + [t]);
  }

  lemma FromTickIs(tf: Timeframe, openMs: int, price: real)
    ensures !FromTick(tf, openMs, price).synthetic && FromTick(tf, openMs, price).openMs == openMs
  {
  }

  lemma WithPriceIs(c: Candle, price: real)
    ensures WithPrice(c, price).synthetic == c.synthetic && WithPrice(c, price).openMs == c.openMs
  {
  }

  lemma AllBelowCurrent(k: SeriesKey, s: Series, c: Candle)
    requires Placed(s.closed, k.tf) && LastIsKnown(s) && Fits(k, s, c)
    ensures forall i :: 0 <= i < |s.closed| ==> s.closed[i].openMs < c.openMs
  {
    hide BucketOpen, StepMs, Trailing, Placed;
    AllBelow(k, s, c.openMs);
  }

  lemma FillKeeps(cfg: Config, k: SeriesKey, s: Series, bucket: int)
    requires Kept(cfg, k, s) && s.current.None? && s.consecutiveSynthetic <= cfg.maxGap
    requires s.lastClosedOpenMs.Some? ==> s.lastClosedOpenMs.value + StepMs(k.tf) <= bucket
    requires forall i :: 0 <= i < |s.closed| ==> s.closed[i].closeMs <= bucket
    ensures var r := FillShortGap(cfg, k, s, bucket);
            && Kept(cfg, k, r) && r.current.None? && r.consecutiveSynthetic <= 2 * cfg.maxGap
            && Real(r.closed) == Real(s.closed) && (r.lastClosedOpenMs.Some? ==> r.lastClosedOpenMs.value < bucket)
            && (forall i :: 0 <= i < |r.closed| ==> r.closed[i].closeMs <= bucket)
  {
    hide Kept, RunsWithin, Real, Trailing, FillBars, BucketOpen;
    var step := StepMs(k.tf);
    if s.lastClosedOpenMs.Some? && s.lastClose.Some? && bucket > s.lastClosedOpenMs.value + step {
      var firstMissing := s.lastClosedOpenMs.value + step;
      FloorOf(bucket - firstMissing, step);
      assert Aligned(firstMissing, k.tf) by { LastOnGrid(cfg, k, s); }
      var missing := (bucket - firstMissing) / step;
      if 0 < missing <= cfg.maxGap {
        FillBarsKeeps(cfg, k, s, firstMissing, missing, bucket);
      }
    }
  }

  /** The last closed candle is on the grid, and so is the end of its bucket. */
  lemma LastOnGrid(cfg: Config, k: SeriesKey, s: Series)
    requires Kept(cfg, k, s) && s.lastClosedOpenMs.Some?
    ensures var c := s.lastClosedOpenMs.value;
            && s.closed != [] && s.closed[|s.closed| - 1].closeMs == c + StepMs(k.tf)
            && Aligned(c, k.tf) && Aligned(c + StepMs(k.tf), k.tf)
  {
    hide BucketOpen, StepMs, RunsWithin, Real, Trailing;
    assert All(s)[|s.closed| - 1] == s.closed[|s.closed| - 1];
    BucketHolds(0, s.lastClosedOpenMs.value, k.tf);
  }

  lemma TickKeeps(cfg: Config, k: SeriesKey, s: Series, broken: bool, t: PricedTick, ticks: seq<PricedTick>, clock: int)
    requires SeriesOk(cfg, k, s, ticks, clock) && clock <= t.timeMs
    ensures SeriesOk(cfg, k, AfterTick(cfg, k, s, broken, t), ticks + [t], t.timeMs)
  {
    hide BucketOpen, StepMs, RunsWithin, Real, Trailing, Placed, Fits, All, Direct, Kept;
    var bucket := BucketOpen(t.timeMs, k.tf);
    if s.current.Some? {
      CurrentAligned(cfg, k, s);
      BucketHolds(t.timeMs, s.current.value.openMs, k.tf);
      BucketHolds(s.current.value.openMs, bucket, k.tf);
    }
    if s.current.Some? && bucket == s.current.value.openMs {
      UpdatesCandle(cfg, k, s, broken, t, ticks, clock);
    } else {
      var closed := CloseCurrent(cfg, k, s);
      CloseKeeps(cfg, k, s);
      AllIs(closed);
      BucketHolds(t.timeMs, 0, k.tf);
      if closed.lastClosedOpenMs.Some? {
        LastOnGrid(cfg, k, closed);
        BucketHolds(t.timeMs, closed.lastClosedOpenMs.value + StepMs(k.tf), k.tf);
      }
      ClosedBefore(cfg, k, closed, bucket);
      FillKeeps(cfg, k, closed, bucket);
      var filled := if broken then closed else FillShortGap(cfg, k, closed, bucket);
      OpensCandle(cfg, k, filled, t, ticks);
    }
  }

  lemma CurrentAligned(cfg: Config, k: SeriesKey, s: Series)
    requires Kept(cfg, k, s) && s.current.Some?
    ensures Aligned(s.current.value.openMs, k.tf) && s.current.value.closeMs == s.current.value.openMs + StepMs(k.tf)
  {
    hide BucketOpen, StepMs, Kept;
    CurrentFits(cfg, k, s);
  }

  /** Earlier candles close before the last one does. */
  lemma ClosedBefore(cfg: Config, k: SeriesKey, s: Series, time: int)
    requires Kept(cfg, k, s)
    requires s.lastClosedOpenMs.Some? ==> s.lastClosedOpenMs.value + StepMs(k.tf) <= time
    ensures forall i :: 0 <= i < |s.closed| ==> s.closed[i].closeMs <= time
  {
    hide BucketOpen, StepMs, RunsWithin, Real, Trailing;
    forall i | 0 <= i < |s.closed| ensures s.closed[i].closeMs <= time {
      assert All(s)[i] == s.closed[i] && All(s)[|s.closed| - 1] == s.closed[|s.closed| - 1];
    }
  }

  lemma {:induction false} FlushFromKeeps(cfg: Config, k: SeriesKey, s: Series, live: bool, broken: bool, nowMs: int,
      safety: nat, ticks: seq<PricedTick>)
    requires SeriesOk(cfg, k, s, ticks, nowMs)
    ensures SeriesOk(cfg, k, FlushFrom(cfg, k, s, live, broken, nowMs, safety), ticks, nowMs)
    decreases cfg.maxGap + 2 - safety
  {
    hide BucketOpen, StepMs, RunsWithin, Real, Trailing, Placed, Fits, All, Direct, Kept;
    if s.current.Some? && nowMs >= s.current.value.closeMs && safety <= cfg.maxGap + 1 {
      var closed := CloseCurrent(cfg, k, s);
      CloseKeeps(cfg, k, s);
      AllIs(closed);
      LastOnGrid(cfg, k, closed);
      ClosedBefore(cfg, k, closed, nowMs);
      var next := closed.lastClosedOpenMs.value + StepMs(k.tf);
      if next <= nowMs && MayContinue(cfg, k, closed, live, broken, next) {
        var c := SyntheticCandle(k.tf, next, closed.lastClose.value);
        var r := closed.(current := Some(c));
        assert Fits(k, closed, c) by { NextFits(k, closed); }
        OpenKeeps(cfg, k, closed, c);
        AllIs(r);
        RealAppend(closed.closed, c);
        FlushFromKeeps(cfg, k, r, live, broken, nowMs, safety + 1, ticks);
      }
    }
  }

  lemma NextFits(k: SeriesKey, s: Series)
    requires s.lastClosedOpenMs.Some? && s.lastClose.Some? && Aligned(s.lastClosedOpenMs.value + StepMs(k.tf), k.tf)
    ensures Fits(k, s, SyntheticCandle(k.tf, s.lastClosedOpenMs.value + StepMs(k.tf), s.lastClose.value))
  {
    hide BucketOpen;
  }

  lemma FlushKeeps(cfg: Config, k: SeriesKey, s: Series, live: bool, broken: bool, nowMs: int, ticks: seq<PricedTick>,
      clock: int)
    requires SeriesOk(cfg, k, s, ticks, clock) && clock <= nowMs
    ensures SeriesOk(cfg, k, AfterFlush(cfg, k, s, live, broken, nowMs), ticks, nowMs)
  {
    hide FlushFrom, Kept, Counted, All, Real, Direct;
    FlushFromKeeps(cfg, k, s, live, broken, nowMs, 0, ticks);
  }

  /** The safety counter of the flush loop is never what ends it: no candle whose
      time is over is left open. */
  lemma {:induction false} FlushLeavesNoneExpired(cfg: Config, k: SeriesKey, s: Series, live: bool, broken: bool,
      nowMs: int, safety: nat)
    requires safety <= cfg.maxGap + 1
    requires safety > 0 && s.current.Some? ==> s.current.value.synthetic && s.consecutiveSynthetic + 1 >= safety
    ensures var r := FlushFrom(cfg, k, s, live, broken, nowMs, safety);
            r.current.Some? ==> nowMs < r.current.value.closeMs
    decreases cfg.maxGap + 2 - safety
  {
    hide SyntheticAllowed, StepMs;
    if s.current.Some? && nowMs >= s.current.value.closeMs {
      var closed := CloseCurrent(cfg, k, s);
      var next := closed.lastClosedOpenMs.value + StepMs(k.tf);
      if next <= nowMs && MayContinue(cfg, k, closed, live, broken, next) {
        FlushLeavesNoneExpired(cfg, k, closed.(current := Some(SyntheticCandle(k.tf, next, closed.lastClose.value))),
            live, broken, nowMs, safety + 1);
      }
    }
  }
}
