/** src/modules/trading/valuation-calculator.js: the value of a position at a quote
    and of an account over its positions. */
module ValuationCalculator {
  import opened Common
  import opened Decimal
  import opened DecimalDivision
  import opened Conversion
  import opened TradingTypes

  datatype OpenPosition = OpenPosition(
    id: string, accountId: string, symbol: string, side: Side, openVolume: real, entryPrice: real, contractSize: real,
    quoteCurrency: string, margin: real)

  datatype ValuationStatus = LIVE | STALE | WAITING

  datatype PositionValuation = PositionValuation(position: OpenPosition, floatingPnl: Option<real>,
      status: ValuationStatus)

  datatype AccountBase = AccountBase(currency: string, balance: real, financialRevision: int)

  datatype AccountValuation = AccountValuation(
    balance: real, floatingPnl: Option<real>, equity: Option<real>, usedMargin: real, freeMargin: Option<real>,
    marginLevel: Option<real>, positionCount: nat, status: ValuationStatus, complete: bool, staleSymbols: set<string>)

  function CalculatePositionValuation(p: OpenPosition, quote: Option<Quote>): (v: PositionValuation) {
    var price := if quote.None? then None else if p.side == BUY then quote.value.bid else quote.value.ask;
    if price.None? || price.value <= 0.0 then PositionValuation(p, None, WAITING)
    else
      var difference := if p.side == BUY then price.value - p.entryPrice else p.entryPrice - price.value;
      var status := if quote.value.isStale then STALE else LIVE;
      PositionValuation(p, Some(difference * p.contractSize * p.openVolume), status)
  }

  /** A long position is worth what the bid is above its entry, a short one what the ask is below
      it; without that side of the quote, or with a price that is not positive, it waits. */
  lemma ProfitAtQuote(p: OpenPosition, quote: Option<Quote>)
    ensures var v := CalculatePositionValuation(p, quote);
            && v.position == p
            && (v.status == WAITING <==> v.floatingPnl.None?)
            && (v.floatingPnl.Some? <==>
                  quote.Some? && (p.side == BUY ==> quote.value.bid.Some? && quote.value.bid.value > 0.0)
                  && (p.side == SELL ==> quote.value.ask.Some? && quote.value.ask.value > 0.0))
            && (v.floatingPnl.Some? ==>
                  && (v.status == STALE <==> quote.value.isStale)
                  && (p.side == BUY ==>
                        v.floatingPnl.value == (quote.value.bid.value - p.entryPrice) * p.contractSize * p.openVolume)
                  && (p.side == SELL ==>
                        v.floatingPnl.value == (p.entryPrice - quote.value.ask.value) * p.contractSize * p.openVolume))
  {
  }

  function ConvertPnl(cv: Converter, store: QuoteStore, amount: real, from: string, to: string,
      nowMs: int): (r: Option<real>) {
    if from != "" && to != "" && from == to then Some(amount) else Convert(cv, store, amount, from, to, nowMs)
  }

  /** The accumulators of the loop over the position valuations. */
  datatype Sum = Sum(floatingPnl: real, usedMargin: real, hasUnpriced: bool, hasStale: bool, staleSymbols: set<string>)

  function AddValuation(s: Sum, v: PositionValuation, currency: string, cv: Converter, store: QuoteStore,
      nowMs: int): (t: Sum) {
    var margined := s.(usedMargin := s.usedMargin + v.position.margin);
    var converted :=
      if v.floatingPnl.None? then None
      else ConvertPnl(cv, store, v.floatingPnl.value, v.position.quoteCurrency, currency, nowMs);
    if converted.None? then margined.(hasUnpriced := true, staleSymbols := s.staleSymbols + {v.position.symbol})
    else
      var priced := margined.(floatingPnl := s.floatingPnl + converted.value);
      if v.status != LIVE then priced.(hasStale := true, staleSymbols := s.staleSymbols + {v.position.symbol})
      else priced
  }

  const NOTHING: Sum := Sum(0.0, 0.0, false, false, {})

  function SumUp(vs: seq<PositionValuation>, currency: string, cv: Converter, store: QuoteStore, nowMs: int): (s: Sum) {
    if vs == [] then NOTHING
    else AddValuation(SumUp(vs[..|vs| - 1], currency, cv, store, nowMs), vs[|vs| - 1], currency, cv, store, nowMs)
  }

  function Conclude(base: AccountBase, s: Sum, count: nat): (a: AccountValuation) {
    var complete := !s.hasUnpriced;
    var equity := base.balance + s.floatingPnl;
    AccountValuation(
      base.balance, if complete then Some(s.floatingPnl) else None, if complete then Some(equity) else None,
      s.usedMargin,
      if complete then Some(equity - s.usedMargin) else None,
      if complete && s.usedMargin > 0.0 then Some(RoundAt(equity / s.usedMargin, 8, HALF_UP) * 100.0) else None,
      count, if s.hasUnpriced then WAITING else if s.hasStale then STALE else LIVE, complete, s.staleSymbols)
  }

  function Aggregate(base: AccountBase, vs: seq<PositionValuation>, cv: Converter, store: QuoteStore,
      nowMs: int): (a: AccountValuation) {
    Conclude(base, SumUp(vs, base.currency, cv, store, nowMs), |vs|)
  }

  method AggregateAccountValuation(base: AccountBase, vs: seq<PositionValuation>, cv: Converter, store: QuoteStore,
      nowMs: int)
    returns (a: AccountValuation)
    ensures a == Aggregate(base, vs, cv, store, nowMs)
  {
    hide Convert;
    var floatingPnl, usedMargin, hasUnpriced, hasStale := 0.0, 0.0, false, false;
    var staleSymbols: set<string> := {};
    for i := 0 to |vs|
      invariant Sum(floatingPnl, usedMargin, hasUnpriced, hasStale, staleSymbols)
             == SumUp(vs[..i], base.currency, cv, store, nowMs)
    {
      assert vs[..i + 1][..i] == vs[..i];
      var v := vs[i];
      usedMargin := usedMargin + v.position.margin;
      if v.floatingPnl.None? {
        hasUnpriced := true;
        staleSymbols := staleSymbols + {v.position.symbol};
        continue;
      }
      var converted := ConvertPnl(cv, store, v.floatingPnl.value, v.position.quoteCurrency, base.currency, nowMs);
      if converted.None? {
        hasUnpriced := true;
        staleSymbols := staleSymbols + {v.position.symbol};
        continue;
      }
      floatingPnl := floatingPnl + converted.value;
      if v.status != LIVE {
        hasStale := true;
        staleSymbols := staleSymbols + {v.position.symbol};
      }
    }
    assert vs[..|vs|] == vs;
    a := Conclude(base, Sum(floatingPnl, usedMargin, hasUnpriced, hasStale, staleSymbols), |vs|);
  }

  predicate IsPriced(v: PositionValuation, currency: string, cv: Converter, store: QuoteStore, nowMs: int) {
    v.floatingPnl.Some? && ConvertPnl(cv, store, v.floatingPnl.value, v.position.quoteCurrency, currency, nowMs).Some?
  }

  predicate IsLive(v: PositionValuation, currency: string, cv: Converter, store: QuoteStore, nowMs: int) {
    IsPriced(v, currency, cv, store, nowMs) && v.status == LIVE
  }

  /** Where conversions are made: the account's currency, the quotes and the time. */
  datatype Place = Place(currency: string, cv: Converter, store: QuoteStore, nowMs: int)

  /** The profit of a position in the account's currency. */
  function ProfitOf(v: PositionValuation, k: Place): (x: real) {
    if IsPriced(v, k.currency, k.cv, k.store, k.nowMs)
    then ConvertPnl(k.cv, k.store, v.floatingPnl.value, v.position.quoteCurrency, k.currency, k.nowMs).value
    else 0.0
  }

  lemma {:induction false} SumMeaning(vs: seq<PositionValuation>, k: Place)
    ensures var s := SumUp(vs, k.currency, k.cv, k.store, k.nowMs);
            && (s.hasUnpriced <==> exists i :: 0 <= i < |vs| && !IsPriced(vs[i], k.currency, k.cv, k.store, k.nowMs))
            && (s.hasStale <==> exists i :: 0 <= i < |vs| && IsPriced(vs[i], k.currency, k.cv, k.store, k.nowMs)
                                            && !IsLive(vs[i], k.currency, k.cv, k.store, k.nowMs))
            && s.usedMargin == Total(vs, (), MarginOf)
            && s.floatingPnl == Total(vs, k, ProfitOf)
  {
    hide ConvertPnl;
    if vs != [] {
      SumMeaning(vs[..|vs| - 1], k);
    }
  }

  /** The symbol belongs to a position that is not live. */
  predicate IsStaleSymbol(vs: seq<PositionValuation>, k: Place, x: string) {
    exists i :: 0 <= i < |vs| && !IsLive(vs[i], k.currency, k.cv, k.store, k.nowMs) && vs[i].position.symbol == x
  }

  lemma {:induction false} StaleSymbolsAre(vs: seq<PositionValuation>, k: Place, x: string)
    ensures x in SumUp(vs, k.currency, k.cv, k.store, k.nowMs).staleSymbols <==> IsStaleSymbol(vs, k, x)
  {
    hide ConvertPnl;
    if vs != [] {
      var init := vs[..|vs| - 1];
      StaleSymbolsAre(init, k, x);
      assert forall i :: 0 <= i < |init| ==> init[i] == vs[i];
    }
  }

  /** What an aggregate says. It is complete exactly when every position is priced in the
      account's currency, and LIVE exactly when each is priced from a quote that is not stale; the
      stale symbols are those of the others. A complete one adds the converted profits to the
      balance and takes the margins off; an incomplete one says nothing of the kind. */
  lemma AggregateMeaning(base: AccountBase, vs: seq<PositionValuation>, cv: Converter, store: QuoteStore, nowMs: int)
    ensures var a := Aggregate(base, vs, cv, store, nowMs);
            && a.balance == base.balance && a.positionCount == |vs| && a.usedMargin == Total(vs, (), MarginOf)
            && (a.complete <==> forall i :: 0 <= i < |vs| ==> IsPriced(vs[i], base.currency, cv, store, nowMs))
            && (a.status == WAITING <==> !a.complete)
            && (a.status == LIVE <==> forall i :: 0 <= i < |vs| ==> IsLive(vs[i], base.currency, cv, store, nowMs))
            && (forall x :: x in a.staleSymbols <==> IsStaleSymbol(vs, Place(base.currency, cv, store, nowMs), x))
    ensures var a := Aggregate(base, vs, cv, store, nowMs);
            if a.complete then
              && a.floatingPnl == Some(Total(vs, Place(base.currency, cv, store, nowMs), ProfitOf))
              && a.equity == Some(base.balance + a.floatingPnl.value)
              && a.freeMargin == Some(a.equity.value - a.usedMargin)
              && (a.usedMargin <= 0.0 ==> a.marginLevel == None)
              && (a.usedMargin > 0.0 ==>
                    a.marginLevel == Some(RoundAt(a.equity.value / a.usedMargin, 8, HALF_UP) * 100.0))
            else
              a.floatingPnl == None && a.equity == None && a.freeMargin == None && a.marginLevel == None
  {
    hide ConvertPnl, RoundAt, Total, SumUp, IsStaleSymbol;
    var k := Place(base.currency, cv, store, nowMs);
    SumMeaning(vs, k);
    forall x ensures x in SumUp(vs, k.currency, k.cv, k.store, k.nowMs).staleSymbols <==> IsStaleSymbol(vs, k, x) {
      StaleSymbolsAre(vs, k, x);
    }
  }

  function MarginOf(v: PositionValuation, k: ()): (x: real) { v.position.margin }

  /** An aggregate reads no quote but the conversion symbols of its positions. */
  lemma {:induction false} AggregateReadsOnly(base: AccountBase, vs: seq<PositionValuation>, cv: Converter,
      s: QuoteStore, t: QuoteStore, nowMs: int)
    requires forall i, k :: 0 <= i < |vs| && k in ConversionSymbols(vs[i].position.quoteCurrency, base.currency)
               ==> (k in s <==> k in t) && (k in s ==> s[k] == t[k])
    ensures Aggregate(base, vs, cv, s, nowMs) == Aggregate(base, vs, cv, t, nowMs)
  {
    SumReadsOnly(base.currency, vs, cv, s, t, nowMs);
  }

  lemma {:induction false} SumReadsOnly(currency: string, vs: seq<PositionValuation>, cv: Converter, s: QuoteStore,
      t: QuoteStore, nowMs: int)
    requires forall i, k :: 0 <= i < |vs| && k in ConversionSymbols(vs[i].position.quoteCurrency, currency)
               ==> (k in s <==> k in t) && (k in s ==> s[k] == t[k])
    ensures SumUp(vs, currency, cv, s, nowMs) == SumUp(vs, currency, cv, t, nowMs)
  {
    hide Convert, ConversionSymbols;
    if vs != [] {
      var v := vs[|vs| - 1];
      SumReadsOnly(currency, vs[..|vs| - 1], cv, s, t, nowMs);
      if v.floatingPnl.Some? {
        ConvertReadsOnly(cv, s, t, v.floatingPnl.value, v.position.quoteCurrency, currency, nowMs);
      }
    }
  }
}
