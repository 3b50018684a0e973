/** The candle engine over all symbols and timeframes, and its runs. */
module CandleEngine {
  import opened Common
  import opened Timeframes
  import opened Candles
  import opened CandleSeries

  datatype RawTick = RawTick(symbol: string, timeMs: int, price: Option<real>, referencePrice: Option<real>,
      mid: Option<real>, bid: Option<real>)

  function FirstPositive(xs: seq<Option<real>>): (x: Option<real>) {
    if xs == [] then None else if xs[0].Some? && xs[0].value > 0.0 then xs[0] else FirstPositive(xs[1..])
  }

  /** The provider's price series first, the other quotes as a fallback. */
  function ChartPrice(t: RawTick): (x: Option<real>) { FirstPositive([t.price, t.referencePrice, t.mid, t.bid]) }

  /** `live` are the symbols whose feed is up, `broken` those whose feed went down
      since their last tick. */
  datatype Engine = Engine(states: map<SeriesKey, Series>, live: set<string>, broken: set<string>)

  datatype Event = Tick(tick: RawTick) | Flush(nowMs: int) | SetLive(symbol: string, isLive: bool)

  function StateOf(states: map<SeriesKey, Series>, k: SeriesKey): (s: Series) {
    if k in states then states[k] else NEW_SERIES
  }

  function KeysOf(cfg: Config, symbol: string): (ks: set<SeriesKey>) {
    set tf | tf in cfg.timeframes :: SeriesKey(symbol, tf)
  }

  function AfterProcessTick(cfg: Config, e: Engine, raw: RawTick): (r: Engine) {
    match ChartPrice(raw)
    case None => e
    case Some(price) =>
      var t := PricedTick(raw.timeMs, price);
      Engine(map k | k in e.states.Keys + KeysOf(cfg, raw.symbol) ::
               if k in KeysOf(cfg, raw.symbol)
               then AfterTick(cfg, k, StateOf(e.states, k), raw.symbol in e.broken, t)
               else e.states[k],
             e.live + {raw.symbol}, e.broken - {raw.symbol})
  }

  function AfterFlushExpired(cfg: Config, e: Engine, nowMs: int): (r: Engine) {
    e.(states := map k | k in e.states ::
                   AfterFlush(cfg, k, e.states[k], k.symbol in e.live, k.symbol in e.broken, nowMs))
  }

  function AfterSetLive(e: Engine, symbol: string, isLive: bool): (r: Engine) {
    e.(live := if isLive then e.live + {symbol} else e.live - {symbol},
       broken := if symbol in e.live && !isLive then e.broken + {symbol} else e.broken)
  }

  function Step(cfg: Config, e: Engine, ev: Event): (r: Engine) {
    match ev
    case Tick(raw) => AfterProcessTick(cfg, e, raw)
    case Flush(nowMs) => AfterFlushExpired(cfg, e, nowMs)
    case SetLive(symbol, isLive) => AfterSetLive(e, symbol, isLive)
  }

  const IDLE: Engine := Engine(map[], {}, {})

  function Run(cfg: Config, es: seq<Event>): (r: Engine) {
    if es == [] then IDLE else Step(cfg, Run(cfg, es[..|es| - 1]), es[|es| - 1])
  }

  // ---- event time --------------------------------------------------------------

  function EventTime(ev: Event): (t: Option<int>) {
    match ev
    case Tick(raw) => if ChartPrice(raw).Some? then Some(raw.timeMs) else None
    case Flush(nowMs) => Some(nowMs)
    case SetLive(_, _) => None
  }

  function Clock(start: int, es: seq<Event>): (t: int) {
    if es == [] then start
    else
      var at := EventTime(es[|es| - 1]);
      if at.Some? then at.value else Clock(start, es[..|es| - 1])
  }

  /** Ticks and flushes arrive in non-decreasing time. */
  predicate TimeOrdered(start: int, es: seq<Event>) {
    es == [] ||
    var init, at := es[..|es| - 1], EventTime(es[|es| - 1]);
    TimeOrdered(start, init) && (at.Some? ==> Clock(start, init) <= at.value)
  }

  /** The accepted ticks of a symbol, in arrival order. */
  function TicksOf(es: seq<Event>, symbol: string): (ts: seq<PricedTick>) {
    if es == [] then []
    else
      var ts := TicksOf(es[..|es| - 1], symbol);
      match es[|es| - 1]
      case Tick(raw) =>
        if raw.symbol == symbol && ChartPrice(raw).Some?
        then ts + [PricedTick(raw.timeMs, ChartPrice(raw).value)]
        else ts
      case _ => ts
  }

  lemma {:induction false} TicksInOrder(start: int, es: seq<Event>, symbol: string)
    requires TimeOrdered(start, es)
    ensures InTimeOrder(TicksOf(es, symbol))
    ensures forall i :: 0 <= i < |TicksOf(es, symbol)| ==> TicksOf(es, symbol)[i].timeMs <= Clock(start, es)
  {
    if es != [] {
      hide ChartPrice;
      TicksInOrder(start, es[..|es| - 1], symbol);
    }
  }

  // ---- runs --------------------------------------------------------------------

  ghost predicate EngineOk(cfg: Config, e: Engine, es: seq<Event>, clock: int) {
    && (forall k :: k in e.states ==>
        k.tf in cfg.timeframes && SeriesOk(cfg, k, e.states[k], TicksOf(es, k.symbol), clock))
    && (forall k: SeriesKey :: k.tf in cfg.timeframes && k !in e.states ==> TicksOf(es, k.symbol) == [])
  }

  lemma NewIsOk(cfg: Config, k: SeriesKey, clock: int)
    ensures SeriesOk(cfg, k, NEW_SERIES, [], clock)
  {
    hide BucketOpen, StepMs;
    assert All(NEW_SERIES) == [];
  }

  lemma TickIsOk(cfg: Config, e: Engine, es: seq<Event>, raw: RawTick, clock: int)
    requires EngineOk(cfg, e, es, clock) && ChartPrice(raw).Some? && clock <= raw.timeMs
    ensures EngineOk(cfg, AfterProcessTick(cfg, e, raw), es + [Tick(raw)], raw.timeMs)
  {
    hide SeriesOk, AfterTick, ChartPrice;
    var r, t := AfterProcessTick(cfg, e, raw), PricedTick(raw.timeMs, ChartPrice(raw).value);
    assert (es + [Tick(raw)])[..|es|] == es;
    forall k | k in r.states
      ensures k.tf in cfg.timeframes
      ensures SeriesOk(cfg, k, r.states[k], TicksOf(es + [Tick(raw)], k.symbol), raw.timeMs)
    {
      if k in KeysOf(cfg, raw.symbol) {
        NewIsOk(cfg, k, clock);
        TickKeeps(cfg, k, StateOf(e.states, k), raw.symbol in e.broken, t, TicksOf(es, k.symbol), clock);
      } else {
        assert k.symbol == raw.symbol ==> k in KeysOf(cfg, raw.symbol);
        ClockMoves(cfg, k, e.states[k], TicksOf(es, k.symbol), clock, raw.timeMs);
      }
    }
    forall k: SeriesKey | k.tf in cfg.timeframes && k !in r.states ensures TicksOf(es + [Tick(raw)], k.symbol) == [] {
      assert k.symbol == raw.symbol ==> k in KeysOf(cfg, raw.symbol);
    }
  }

  lemma ClockMoves(cfg: Config, k: SeriesKey, s: Series, ticks: seq<PricedTick>, clock: int, later: int)
    requires SeriesOk(cfg, k, s, ticks, clock) && clock <= later
    ensures SeriesOk(cfg, k, s, ticks, later)
  {
    hide Kept, Counted, All, Real, Direct;
  }

  lemma FlushIsOk(cfg: Config, e: Engine, es: seq<Event>, nowMs: int, clock: int)
    requires EngineOk(cfg, e, es, clock) && clock <= nowMs
    ensures EngineOk(cfg, AfterFlushExpired(cfg, e, nowMs), es + [Flush(nowMs)], nowMs)
  {
    hide SeriesOk, AfterFlush;
    var r := AfterFlushExpired(cfg, e, nowMs);
    assert (es + [Flush(nowMs)])[..|es|] == es;
    forall k | k in r.states ensures SeriesOk(cfg, k, r.states[k], TicksOf(es + [Flush(nowMs)], k.symbol), nowMs) {
      FlushKeeps(cfg, k, e.states[k], k.symbol in e.live, k.symbol in e.broken, nowMs, TicksOf(es, k.symbol), clock);
    }
  }

  /** Events without a time, and ticks without a price, add no tick. */
  lemma SilentIsOk(cfg: Config, e: Engine, r: Engine, es: seq<Event>, ev: Event, clock: int)
    requires EngineOk(cfg, e, es, clock) && r.states == e.states && EventTime(ev).None?
    ensures EngineOk(cfg, r, es + [ev], clock)
  {
    hide SeriesOk, ChartPrice;
    assert (es + [ev])[..|es|] == es;
  }

  lemma StepIsOk(cfg: Config, e: Engine, es: seq<Event>, ev: Event, clock: int)
    requires EngineOk(cfg, e, es, clock) && (EventTime(ev).Some? ==> clock <= EventTime(ev).value)
    ensures EngineOk(cfg, Step(cfg, e, ev), es + [ev], if EventTime(ev).Some? then EventTime(ev).value else clock)
  {
    hide EngineOk, SeriesOk, ChartPrice, AfterFlushExpired;
    match ev
    case Tick(raw) =>
      if ChartPrice(raw).Some? {
        TickIsOk(cfg, e, es, raw, clock);
      } else {
        SilentIsOk(cfg, e, e, es, ev, clock);
      }
    case Flush(nowMs) => FlushIsOk(cfg, e, es, nowMs, clock);
    case SetLive(symbol, isLive) => SilentIsOk(cfg, e, AfterSetLive(e, symbol, isLive), es, ev, clock);
  }

  lemma {:induction false} RunIsOk(cfg: Config, start: int, es: seq<Event>)
    requires TimeOrdered(start, es)
    ensures EngineOk(cfg, Run(cfg, es), es, Clock(start, es))
  {
    if es == [] {
      assert EngineOk(cfg, IDLE, [], start);
    } else {
      hide EngineOk, Step, EventTime;
      var init, ev := es[..|es| - 1], es[|es| - 1];
      RunIsOk(cfg, start, init);
      assert es == init + [ev];
      StepIsOk(cfg, Run(cfg, init), init, ev, Clock(start, init));
    }
  }

  lemma {:induction false} RealMembers(cs: seq<Candle>, c: Candle)
    ensures c in Real(cs) <==> c in cs && !c.synthetic
  {
    if cs != [] {
      RealMembers(cs[..|cs| - 1], c);
      assert cs == cs[..|cs| - 1] + [cs[|cs| - 1]];
    }
  }

  lemma OpensAlone(cs: seq<Candle>, i: nat, c: Candle)
    requires Increasing(cs) && i < |cs| && c in cs && c != cs[i]
    ensures c.openMs != cs[i].openMs
  {
    var j :| 0 <= j < |cs| && cs[j] == c;
    assert j < i || i < j;
  }

  /** A tick's bucket has a real candle, so a synthetic one never shares it. */
  lemma SyntheticHasNoTick(cfg: Config, k: SeriesKey, s: Series, ticks: seq<PricedTick>, clock: int, i: nat)
    requires SeriesOk(cfg, k, s, ticks, clock) && InTimeOrder(ticks)
    requires i < |All(s)| && All(s)[i].synthetic
    ensures Prices(k.tf, ticks, All(s)[i].openMs) == []
  {
    hide BucketOpen, StepMs, Real, Summarises, RunsWithin, Trailing, Direct, Prices;
    var cs, bucket := Direct(k.tf, ticks), All(s)[i].openMs;
    DirectIsSummary(k.tf, ticks);
    forall j | 0 <= j < |cs| ensures cs[j].openMs != bucket {
      RealMembers(All(s), cs[j]);
      OpensAlone(All(s), i, cs[j]);
    }
    NoPrices(k.tf, ticks, cs, bucket);
  }

  /** Main result, for every run in non-decreasing time and every series: closed
      candles are strictly increasing and on the grid; a real one is the first,
      greatest, least, last and count of the accepted ticks of its bucket; a
      synthetic one has no tick and is not written out; no more than twice the
      permitted gap of them close in a row. */
  lemma RunKeepsCandles(cfg: Config, start: int, es: seq<Event>, k: SeriesKey)
    requires TimeOrdered(start, es) && k in Run(cfg, es).states
    ensures var s, ticks := Run(cfg, es).states[k], TicksOf(es, k.symbol);
            && Increasing(s.closed) && OnGrid(s.closed, k.tf)
            && (forall i :: 0 <= i < |s.closed| ==>
                  if s.closed[i].synthetic then Prices(k.tf, ticks, s.closed[i].openMs) == []
                  else Summarises(s.closed[i], Prices(k.tf, ticks, s.closed[i].openMs)))
            && s.persisted == (if k.tf in cfg.persist then Real(s.closed) else [])
            && RunsWithin(s.closed, 2 * cfg.maxGap)
            && Real(All(s)) == Direct(k.tf, ticks)
  {
    RunIsOk(cfg, start, es);
    TicksInOrder(start, es, k.symbol);
    SeriesMeaning(cfg, k, Run(cfg, es).states[k], TicksOf(es, k.symbol), Clock(start, es));
  }

  lemma SeriesMeaning(cfg: Config, k: SeriesKey, s: Series, ticks: seq<PricedTick>, clock: int)
    requires SeriesOk(cfg, k, s, ticks, clock) && InTimeOrder(ticks)
    ensures Increasing(s.closed) && OnGrid(s.closed, k.tf)
    ensures forall i :: 0 <= i < |s.closed| ==>
              if s.closed[i].synthetic then Prices(k.tf, ticks, s.closed[i].openMs) == []
              else Summarises(s.closed[i], Prices(k.tf, ticks, s.closed[i].openMs))
  {
    hide BucketOpen, StepMs, Real, Summarises, RunsWithin, Trailing, Direct, Prices, Covers;
    assert forall i :: 0 <= i < |s.closed| ==> All(s)[i] == s.closed[i];
    DirectIsSummary(k.tf, ticks);
    forall i | 0 <= i < |s.closed|
      ensures if s.closed[i].synthetic then Prices(k.tf, ticks, s.closed[i].openMs) == []
              else Summarises(s.closed[i], Prices(k.tf, ticks, s.closed[i].openMs))
    {
      if s.closed[i].synthetic {
        SyntheticHasNoTick(cfg, k, s, ticks, clock, i);
      } else {
        RealMembers(All(s), s.closed[i]);
      }
    }
  }

  // ---- the engine, updating its series -----------------------------------------

  predicate Distinct(tfs: seq<Timeframe>) { forall i, j :: 0 <= i < j < |tfs| ==> tfs[i] != tfs[j] }

  predicate Reached(k: SeriesKey, symbol: string, tfs: seq<Timeframe>) { k.symbol == symbol && k.tf in tfs }

  class CandleEngine {
    const cfg: Config
    var states: map<SeriesKey, Series>
    var live: set<string>
    var broken: set<string>

    constructor (cfg: Config)
      requires Distinct(cfg.timeframes)
      ensures View() == IDLE && this.cfg == cfg
    {
      this.cfg := cfg;
      states, live, broken := map[], {}, {};
    }

    ghost function View(): (e: Engine)
      reads this
    {
      Engine(states, live, broken)
    }

    method ProcessTick(raw: RawTick)
      requires Distinct(cfg.timeframes)
      modifies this
      ensures View() == AfterProcessTick(cfg, old(View()), raw)
    {
      hide AfterTick, ChartPrice;
      var price := ChartPrice(raw);
      if price.None? {
        return;
      }
      var t := PricedTick(raw.timeMs, price.value);
      var continuityBroken := raw.symbol in broken;
      live := live + {raw.symbol};
      for i := 0 to |cfg.timeframes|
        invariant live == old(live) + {raw.symbol} && broken == old(broken)
        invariant forall k :: k in states <==> k in old(states) || Reached(k, raw.symbol, cfg.timeframes[..i])
        invariant forall k :: k in states && Reached(k, raw.symbol, cfg.timeframes[..i]) ==>
          states[k] == AfterTick(cfg, k, StateOf(old(states), k), continuityBroken, t)
        invariant forall k :: k in states && !Reached(k, raw.symbol, cfg.timeframes[..i]) ==>
            states[k] == old(states)[k]
      {
        var k := SeriesKey(raw.symbol, cfg.timeframes[i]);
        assert !Reached(k, raw.symbol, cfg.timeframes[..i]);
        var next := TickSeries(cfg, k, StateOf(states, k), continuityBroken, t);
        states := states[k := next];
        assert cfg.timeframes[..i + 1] == cfg.timeframes[..i] + [k.tf];
        assert forall x :: Reached(x, raw.symbol, cfg.timeframes[..i + 1])
                           <==> Reached(x, raw.symbol, cfg.timeframes[..i]) || x == k;
      }
      assert cfg.timeframes[..|cfg.timeframes|] == cfg.timeframes;
      assert forall k :: k in KeysOf(cfg, raw.symbol) <==> Reached(k, raw.symbol, cfg.timeframes);
      broken := broken - {raw.symbol};
    }

    method FlushExpired(nowMs: int)
      modifies this
      ensures View() == AfterFlushExpired(cfg, old(View()), nowMs)
    {
      var todo := states.Keys;
      while todo != {}
        invariant todo <= states.Keys == old(states).Keys
        invariant live == old(live) && broken == old(broken)
        invariant forall k :: k in states ==>
          states[k] == if k in todo then old(states)[k] else AfterFlush(cfg, k, old(states)[k], k.symbol in live,
              k.symbol in broken, nowMs)
        decreases |todo|
      {
        var k :| k in todo;
        var next := FlushSeries(cfg, k, states[k], k.symbol in live, k.symbol in broken, nowMs);
        states := states[k := next];
        todo := todo - {k};
      }
    }

    method SetSymbolLive(symbol: string, isLive: bool)
      modifies this
      ensures View() == AfterSetLive(old(View()), symbol, isLive)
    {
      var previous := symbol in live;
      live := if isLive then live + {symbol} else live - {symbol};
      if previous && !isLive {
        broken := broken + {symbol};
      }
    }
  }

  method TickSeries(cfg: Config, k: SeriesKey, s: Series, continuityBroken: bool, t: PricedTick) returns (r: Series)
    ensures r == AfterTick(cfg, k, s, continuityBroken, t)
  {
    var bucket := BucketOpen(t.timeMs, k.tf);
    r := s;
    if r.current.Some? && bucket < r.current.value.openMs {
      return;
    }
    if r.current.Some? && bucket == r.current.value.openMs {
      var c := r.current.value;
      if c.synthetic && c.tickCount == 0 {
        c := c.(open := t.price, high := t.price, low := t.price, close := t.price, tickCount := 1, synthetic := false);
      } else {
        c := c.(high := MaxReal(c.high, t.price), low := MinReal(c.low, t.price), close := t.price,
            tickCount := c.tickCount + 1);
      }
      r := r.(current := Some(c));
      return;
    }
    if r.current.Some? {
      r := CloseCurrent(cfg, k, r);
    }
    if !continuityBroken {
      r := FillGap(cfg, k, r, bucket);
    }
    r := r.(current := Some(FromTick(k.tf, bucket, t.price)));
  }

  method FillGap(cfg: Config, k: SeriesKey, s: Series, bucket: int) returns (r: Series)
    ensures r == FillShortGap(cfg, k, s, bucket)
  {
    r := s;
    if k.tf !in cfg.synthetic || s.lastClosedOpenMs.None? || s.lastClose.None? {
      return;
    }
    var firstMissing := s.lastClosedOpenMs.value + StepMs(k.tf);
    if bucket <= firstMissing {
      return;
    }
    var missing := (bucket - firstMissing) / StepMs(k.tf);
    if missing <= 0 || missing > cfg.maxGap {
      return;
    }
    var openMs := firstMissing;
    for index := 0 to missing
      invariant r.lastClose.Some?
      invariant FillBars(cfg, k, r, openMs, missing - index) == FillBars(cfg, k, s, firstMissing, missing)
    {
      if SyntheticAllowed(cfg, k, openMs) {
        r := Finalize(cfg, k, r, SyntheticCandle(k.tf, openMs, r.lastClose.value));
      }
      openMs := openMs + StepMs(k.tf);
    }
  }

  method FlushSeries(cfg: Config, k: SeriesKey, s: Series, isLive: bool, isBroken: bool, nowMs: int) returns (r: Series)
    ensures r == AfterFlush(cfg, k, s, isLive, isBroken, nowMs)
  {
    r := s;
    var safety := 0;
    while r.current.Some? && nowMs >= r.current.value.closeMs && safety <= cfg.maxGap + 1
      invariant 0 <= safety <= cfg.maxGap + 2
      invariant FlushFrom(cfg, k, r, isLive, isBroken, nowMs, safety) == AfterFlush(cfg, k, s, isLive, isBroken, nowMs)
      decreases cfg.maxGap + 2 - safety
    {
      var closed := CloseCurrent(cfg, k, r);
      var next := closed.lastClosedOpenMs.value + StepMs(k.tf);
      if next > nowMs || !MayContinue(cfg, k, closed, isLive, isBroken, next) {
        return closed;
      }
      r := closed.(current := Some(SyntheticCandle(k.tf, next, closed.lastClose.value)));
      safety := safety + 1;
    }
  }
}
