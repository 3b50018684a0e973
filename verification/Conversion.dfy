/** src/modules/trading/currency-conversion-engine.js, and the index key set
    conversionSymbols of src/modules/trading/valuation-engine.js. Currency codes
    arrive trimmed and upper-cased. A price that is absent or not a finite
    number is None. */
module Conversion {
  import opened Common
  import opened Decimal
  import opened DecimalDivision

  datatype Quote = Quote(bid: Option<real>, ask: Option<real>, receivedAtMs: Option<int>, isStale: bool)

  type QuoteStore = map<string, Quote>

  datatype Converter = Converter(symbols: set<string>, maxQuoteAgeMs: int)

  const USD := "USD"

  predicate IsCurrency(code: string) {
    |code| == 3 && forall i :: 0 <= i < 3 ==> 'A' <= code[i] <= 'Z'
  }

  predicate Usable(quote: Quote, maxAgeMs: int, nowMs: int) {
    && !quote.isStale
    && quote.bid.Some? && quote.ask.Some? && quote.bid.value > 0.0 && quote.ask.value > 0.0
    && quote.receivedAtMs.Some?
    && Max(0, nowMs - quote.receivedAtMs.value) <= maxAgeMs
  }

  /** The quote a leg may use: listed, present and usable. */
  function LegQuote(cv: Converter, store: QuoteStore, symbol: string, nowMs: int): (q: Option<Quote>)
    ensures q.Some? ==> symbol in store && Usable(q.value, cv.maxQuoteAgeMs, nowMs)
  {
    if (cv.symbols == {} || symbol in cv.symbols) && symbol in store && Usable(store[symbol], cv.maxQuoteAgeMs, nowMs)
    then Some(store[symbol]) else None
  }

  function ConvertLeg(cv: Converter, store: QuoteStore, amount: real, from: string, to: string,
      nowMs: int): (r: Option<real>) {
    match LegQuote(cv, store, from + to, nowMs)
    case Some(q) => Some(amount * (if amount >= 0.0 then q.bid.value else q.ask.value))
    case None =>
      match LegQuote(cv, store, to + from, nowMs)
      case Some(q) => Some(RoundAt(amount / (if amount >= 0.0 then q.ask.value else q.bid.value), 12, HALF_UP))
      case None => None
  }

  /** None is the source's ACCOUNT_CURRENCY_CONVERSION_UNAVAILABLE. */
  function Convert(cv: Converter, store: QuoteStore, amount: real, from: string, to: string,
      nowMs: int): (r: Option<real>) {
    if !IsCurrency(from) || !IsCurrency(to) then None
    else if from == to || amount == 0.0 then Some(amount)
    else
      match ConvertLeg(cv, store, amount, from, to, nowMs)
      case Some(direct) => Some(direct)
      case None =>
        if from == USD || to == USD then None
        else
          match ConvertLeg(cv, store, amount, from, USD, nowMs)
          case None => None
          case Some(usd) => ConvertLeg(cv, store, usd, USD, to, nowMs)
  }

  function ConversionSymbols(from: string, to: string): (s: set<string>) {
    if !IsCurrency(from) || !IsCurrency(to) || from == to then {}
    else if from == USD || to == USD then {from + to, to + from}
    else {from + to, to + from, from + USD, USD + from, USD + to, to + USD}
  }

  /** A currency code is three capital letters. */
  lemma CurrencyIff(code: string)
    ensures IsCurrency(code) <==>
      && |code| == 3 && code[0] in LETTERS && code[1] in LETTERS && code[2] in LETTERS
  {
    LettersAre();
    if |code| == 3 { assert code == [code[0], code[1], code[2]]; }
  }

  const LETTERS: string := "ABCDEFGHIJKLMNOPQRSTUVWXYZ"

  lemma LettersAre()
    ensures forall c: char :: c in LETTERS <==> 'A' <= c <= 'Z'
  {
    assert forall i :: 0 <= i < 26 ==> LETTERS[i] as int == 'A' as int + i;
    forall c: char | 'A' <= c <= 'Z' ensures c in LETTERS {
      assert LETTERS[c as int - 'A' as int] == c;
    }
  }

  /** The pair both ways, and unless one of them is the dollar each with the dollar both ways. */
  lemma SymbolsAre(from: string, to: string, x: string)
    ensures x in ConversionSymbols(from, to) <==>
      && IsCurrency(from) && IsCurrency(to) && from != to
      && (x == from + to || x == to + from
          || (from != "USD" && to != "USD"
              && (x == from + "USD" || x == "USD" + from || x == to + "USD" || x == "USD" + to)))
  {
  }

  /** conversionSymbols names every quote a conversion can look at. */
  lemma ConvertReadsOnly(cv: Converter, s: QuoteStore, t: QuoteStore, amount: real, from: string, to: string,
      nowMs: int)
    requires forall k :: k in ConversionSymbols(from, to) ==> (k in s <==> k in t) && (k in s ==> s[k] == t[k])
    ensures Convert(cv, s, amount, from, to, nowMs) == Convert(cv, t, amount, from, to, nowMs)
  {
    if IsCurrency(from) && IsCurrency(to) && from != to {
      hide RoundAt;
      SameLeg(cv, s, t, amount, from, to, nowMs);
      if from != USD && to != USD {
        SameLeg(cv, s, t, amount, from, USD, nowMs);
        match ConvertLeg(cv, s, amount, from, USD, nowMs) {
          case None =>
          case Some(usd) => SameLeg(cv, s, t, usd, USD, to, nowMs);
        }
      }
    }
  }

  lemma SameLeg(cv: Converter, s: QuoteStore, t: QuoteStore, amount: real, from: string, to: string, nowMs: int)
    requires forall k :: k == from + to || k == to + from ==> (k in s <==> k in t) && (k in s ==> s[k] == t[k])
    ensures ConvertLeg(cv, s, amount, from, to, nowMs) == ConvertLeg(cv, t, amount, from, to, nowMs)
  {
    hide RoundAt;
    assert LegQuote(cv, s, from + to, nowMs) == LegQuote(cv, t, from + to, nowMs);
    assert LegQuote(cv, s, to + from, nowMs) == LegQuote(cv, t, to + from, nowMs);
  }

  /** A conversion keeps the sign of the amount; zero stays zero. */
  lemma ConvertSign(cv: Converter, store: QuoteStore, amount: real, from: string, to: string, nowMs: int)
    ensures Convert(cv, store, amount, from, to, nowMs).Some? ==>
      var r := Convert(cv, store, amount, from, to, nowMs).value;
      (amount >= 0.0 ==> r >= 0.0) && (amount <= 0.0 ==> r <= 0.0)
  {
    hide RoundAt;
    LegSign(cv, store, amount, from, to, nowMs);
    LegSign(cv, store, amount, from, USD, nowMs);
    match ConvertLeg(cv, store, amount, from, USD, nowMs) {
      case None =>
      case Some(usd) => LegSign(cv, store, usd, USD, to, nowMs);
    }
  }

  lemma LegSign(cv: Converter, store: QuoteStore, amount: real, from: string, to: string, nowMs: int)
    ensures ConvertLeg(cv, store, amount, from, to, nowMs).Some? ==>
      var r := ConvertLeg(cv, store, amount, from, to, nowMs).value;
      (amount >= 0.0 ==> r >= 0.0) && (amount <= 0.0 ==> r <= 0.0)
  {
    hide RoundAt;
    match LegQuote(cv, store, from + to, nowMs) {
      case Some(q) => ProductSign(amount, if amount >= 0.0 then q.bid.value else q.ask.value);
      case None =>
        match LegQuote(cv, store, to + from, nowMs) {
          case None =>
          case Some(q) =>
            var price := if amount >= 0.0 then q.ask.value else q.bid.value;
            QuotientSign(amount, price);
            RoundAtSign(amount / price, 12, HALF_UP);
        }
    }
  }

  lemma ProductSign(x: real, y: real)
    requires y >= 0.0
    ensures x >= 0.0 ==> x * y >= 0.0
    ensures x <= 0.0 ==> x * y <= 0.0
  {
  }

  lemma QuotientSign(x: real, y: real)
    requires y > 0.0
    ensures x >= 0.0 ==> x / y >= 0.0
    ensures x <= 0.0 ==> x / y <= 0.0
  {
    SideOf(x / y, 0.0, y, x, 0.0);
  }
}
