/** The valuation engine's position map, its symbol and account indexes, and the
    two conversion indexes. An index maps a key to the members of a set in
    insertion order and keeps no empty set. */
module ValuationIndex {
  import opened Common
  import opened Conversion
  import opened ValuationCalculator
  import T = TradingTypes

  type Index = map<string, seq<string>>

  function Members(m: Index, key: string): (s: seq<string>) { if key in m then m[key] else [] }

  function AddTo(m: Index, key: string, value: string): (r: Index) {
    if key == "" || value in Members(m, key) then m else m[key := Members(m, key) + [value]]
  }

  function Drop(s: seq<string>, value: string): (r: seq<string>)
    ensures forall x :: x in r <==> x in s && x != value
  {
    if s == [] then []
    else
      assert s == s[..|s| - 1] + [s[|s| - 1]];
      Drop(s[..|s| - 1], value) + (if s[|s| - 1] == value then [] else [s[|s| - 1]])
  }

  function RemoveFrom(m: Index, key: string, value: string): (r: Index) {
    if key !in m then m
    else if Drop(m[key], value) == [] then m - {key}
    else m[key := Drop(m[key], value)]
  }

  ghost predicate NoEmptySets(m: Index) { forall k :: k in m ==> k != "" && m[k] != [] }

  lemma AddMembers(m: Index, key: string, value: string, k: string, v: string)
    ensures v in Members(AddTo(m, key, value), k) <==> v in Members(m, k) || (key != "" && k == key && v == value)
    ensures NoEmptySets(m) ==> NoEmptySets(AddTo(m, key, value))
  {
  }

  lemma RemoveMembers(m: Index, key: string, value: string, k: string, v: string)
    ensures v in Members(RemoveFrom(m, key, value), k) <==> v in Members(m, k) && !(k == key && v == value)
    ensures NoEmptySets(m) ==> NoEmptySets(RemoveFrom(m, key, value))
  {
  }

  /** An account under every symbol of a list, or under none. */
  function AddUnderAll(m: Index, keys: seq<string>, value: string): (r: Index) {
    if keys == [] then m else AddTo(AddUnderAll(m, keys[..|keys| - 1], value), keys[|keys| - 1], value)
  }

  function RemoveUnderAll(m: Index, keys: seq<string>, value: string): (r: Index) {
    if keys == [] then m else RemoveFrom(RemoveUnderAll(m, keys[..|keys| - 1], value), keys[|keys| - 1], value)
  }

  lemma {:induction false} AddUnderAllMembers(m: Index, keys: seq<string>, value: string, k: string, v: string)
    ensures v in Members(AddUnderAll(m, keys, value), k) <==> v in Members(m, k) || (k != "" && k in keys && v == value)
    ensures NoEmptySets(m) ==> NoEmptySets(AddUnderAll(m, keys, value))
  {
    hide AddTo, Members, NoEmptySets;
    if keys != [] {
      AddUnderAllMembers(m, keys[..|keys| - 1], value, k, v);
      AddMembers(AddUnderAll(m, keys[..|keys| - 1], value), keys[|keys| - 1], value, k, v);
      assert keys == keys[..|keys| - 1] + [keys[|keys| - 1]];
    }
  }

  lemma {:induction false} RemoveUnderAllMembers(m: Index, keys: seq<string>, value: string, k: string, v: string)
    ensures v in Members(RemoveUnderAll(m, keys, value), k) <==> v in Members(m, k) && !(k in keys && v == value)
    ensures NoEmptySets(m) ==> NoEmptySets(RemoveUnderAll(m, keys, value))
  {
    hide RemoveFrom, Members, NoEmptySets;
    if keys != [] {
      RemoveUnderAllMembers(m, keys[..|keys| - 1], value, k, v);
      RemoveMembers(RemoveUnderAll(m, keys[..|keys| - 1], value), keys[|keys| - 1], value, k, v);
      assert keys == keys[..|keys| - 1] + [keys[|keys| - 1]];
    }
  }

  // ---- the symbols an account's conversions can read ---------------------------

  /** conversionSymbols in the order the source lists them. */
  function SymbolList(from: string, to: string): (s: seq<string>)
    ensures forall k :: k in s <==> k in ConversionSymbols(from, to)
    ensures "" !in s
  {
    if !IsCurrency(from) || !IsCurrency(to) || from == to then []
    else if from == USD || to == USD then [from + to, to + from]
    else [from + to, to + from, from + USD, USD + from, USD + to, to + USD]
  }

  function AddNew(s: seq<string>, xs: seq<string>): (r: seq<string>)
    ensures forall k :: k in r <==> k in s || k in xs
  {
    if xs == [] then s
    else
      var r, x := AddNew(s, xs[..|xs| - 1]), xs[|xs| - 1];
      assert xs == xs[..|xs| - 1] + [x];
      if x in r then r else r + [x]
  }

  function QuoteCurrencyOf(positions: map<string, OpenPosition>, id: string): (c: string) {
    if id in positions then positions[id].quoteCurrency else ""
  }

  function NextSymbols(positions: map<string, OpenPosition>, ids: seq<string>, currency: string): (s: seq<string>) {
    if ids == [] then []
    else
      var id := ids[|ids| - 1];
      AddNew(NextSymbols(positions, ids[..|ids| - 1], currency), SymbolList(QuoteCurrencyOf(positions, id), currency))
  }

  // ---- the engine --------------------------------------------------------------

  /** `loaded` marks the accounts whose currency a snapshot request has changed since
      their conversion index was last refreshed; it is not part of the engine. */
  datatype Engine = Engine(
    positions: map<string, OpenPosition>, positionValuations: map<string, PositionValuation>,
    bases: map<string, AccountBase>, accountValuations: map<string, AccountValuation>,
    bySymbol: Index, byAccount: Index, accountsByConversion: Index, conversionsByAccount: Index, loaded: set<string>)

  const IDLE: Engine := Engine(map[], map[], map[], map[], map[], map[], map[], map[], {})

  datatype Market = Market(cv: Converter, store: QuoteStore, nowMs: int)

  function CurrencyOf(e: Engine, account: string): (c: string) {
    if account in e.bases then e.bases[account].currency else ""
  }

  function RefreshConversionIndex(e: Engine, account: string): (r: Engine) {
    if account == "" then e
    else
      var removed := RemoveUnderAll(e.accountsByConversion, Members(e.conversionsByAccount, account), account);
      var next := NextSymbols(e.positions, Members(e.byAccount, account), CurrencyOf(e, account));
      e.(conversionsByAccount := if next != [] then e.conversionsByAccount[account := next]
          else e.conversionsByAccount - {account}, accountsByConversion := AddUnderAll(removed, next, account),
              loaded := e.loaded - {account})
  }

  function Unindex(e: Engine, p: OpenPosition): (r: Engine) {
    e.(bySymbol := RemoveFrom(e.bySymbol, p.symbol, p.id), byAccount := RemoveFrom(e.byAccount, p.accountId, p.id))
  }

  /** The position map and its two indexes with the position replaced, or gone. */
  function Reindexed(e: Engine, id: string, next: Option<OpenPosition>): (r: Engine) {
    var u := if id in e.positions then Unindex(e, e.positions[id]) else e;
    match next
    case None => u.(positions := e.positions - {id})
    case Some(p) =>
      u.(positions := e.positions[id := p], bySymbol := AddTo(u.bySymbol, p.symbol, id),
          byAccount := AddTo(u.byAccount, p.accountId, id))
  }

  function StorePosition(e: Engine, p: OpenPosition): (r: Engine) {
    if p.id == "" then e
    else
      var r := RefreshConversionIndex(Reindexed(e, p.id, Some(p)), p.accountId);
      if p.id in e.positions && e.positions[p.id].accountId != p.accountId
      then RefreshConversionIndex(r, e.positions[p.id].accountId)
      else r
  }

  function QuoteOf(store: QuoteStore, symbol: string): (q: Option<Quote>) {
    if symbol in store then Some(store[symbol]) else None
  }

  function RevaluePosition(e: Engine, id: string, quote: Option<Quote>): (r: Engine) {
    if id !in e.positions then e
    else e.(positionValuations := e.positionValuations[id := CalculatePositionValuation(e.positions[id], quote)])
  }

  /** A position event; the account's snapshot is recomputed in a later microtask. */
  function UpsertPosition(e: Engine, p: OpenPosition, isOpen: bool, store: QuoteStore): (r: Engine) {
    if p.id == "" || !isOpen then RemovePosition(e, p.id, p.accountId)
    else RevaluePosition(StorePosition(e, p), p.id, QuoteOf(store, p.symbol))
  }

  function RemovePosition(e: Engine, id: string, eventAccount: string): (r: Engine) {
    if id == "" then e
    else
      var account := if id in e.positions && e.positions[id].accountId != "" then e.positions[id].accountId
          else eventAccount;
      RefreshConversionIndex(Reindexed(e, id, None).(positionValuations := e.positionValuations - {id}), account)
  }

  function ValuationsOf(e: Engine, ids: seq<string>): (vs: seq<PositionValuation>) {
    if ids == [] then []
    else
      var id := ids[|ids| - 1];
      ValuationsOf(e, ids[..|ids| - 1]) + (if id in e.positionValuations then [e.positionValuations[id]] else [])
  }

  /** What the aggregate of an account is, computed from everything there is. */
  function Recompute(e: Engine, account: string, m: Market): (a: AccountValuation)
    requires account in e.bases
  {
    Aggregate(e.bases[account], ValuationsOf(e, Members(e.byAccount, account)), m.cv, m.store, m.nowMs)
  }

  function RecalculateAccount(e: Engine, account: string, m: Market): (r: Engine) {
    if account !in e.bases then e else e.(accountValuations := e.accountValuations[account := Recompute(e, account, m)])
  }

  function UpsertAccount(e: Engine, account: string, base: AccountBase, m: Market): (r: Engine) {
    if account == "" then e
    else RecalculateAccount(RefreshConversionIndex(e.(bases := e.bases[account := base]), account), account, m)
  }

  /** The second half of getOrLoadAccountSnapshot, when its account document has arrived: stores
      it over whatever is there by then, without refreshing the conversion index. */
  function StoreLoaded(e: Engine, account: string, base: AccountBase, m: Market): (r: Engine) {
    var loaded := if CurrencyOf(e, account) == base.currency then e.loaded else e.loaded + {account};
    RecalculateAccount(e.(bases := e.bases[account := base], loaded := loaded), account, m)
  }

  function RevalueAll(e: Engine, ids: seq<string>, quote: Quote): (r: Engine) {
    if ids == [] then e else RevaluePosition(RevalueAll(e, ids[..|ids| - 1], quote), ids[|ids| - 1], Some(quote))
  }

  function RecalculateAll(e: Engine, accounts: seq<string>, m: Market): (r: Engine) {
    if accounts == [] then e else RecalculateAccount(RecalculateAll(e, accounts[..|accounts| - 1], m),
        accounts[|accounts| - 1], m)
  }

  function OwnersOf(e: Engine, ids: seq<string>): (s: seq<string>) {
    if ids == [] then []
    else
      var id := ids[|ids| - 1];
      OwnersOf(e, ids[..|ids| - 1]) + (if id in e.positions then [e.positions[id].accountId] else [])
  }

  /** The accounts a quote makes the engine recompute. */
  function Touched(e: Engine, symbol: string): (s: seq<string>) {
    AddNew(Members(e.accountsByConversion, symbol), OwnersOf(e, Members(e.bySymbol, symbol)))
  }

  function HandleQuote(e: Engine, symbol: string, quote: Quote, m: Market): (r: Engine) {
    if symbol == "" then e
    else RecalculateAll(RevalueAll(e, Members(e.bySymbol, symbol), quote), Touched(e, symbol), m)
  }

  // ---- what every run keeps ----------------------------------------------------

  /** The key a position is indexed under, empty for none. */
  function KeyOf(p: Option<OpenPosition>, byAccount: bool): (k: string) {
    if p.None? then "" else if byAccount then p.value.accountId else p.value.symbol
  }

  /** The index is the inverse of the position map. */
  ghost predicate ExactIndex(m: Index, positions: map<string, OpenPosition>, byAccount: bool) {
    NoEmptySets(m) && forall id, k :: ExactAt(m, positions, byAccount, id, k)
  }

  /** A position is among the members of a key exactly when that is its key. */
  predicate ExactAt(m: Index, positions: map<string, OpenPosition>, byAccount: bool, id: string, k: string) {
    id in Members(m, k) <==> k != "" && id in positions && KeyOf(Some(positions[id]), byAccount) == k
  }

  ghost predicate SymbolsExact(e: Engine) { ExactIndex(e.bySymbol, e.positions, false) }

  ghost predicate AccountsExact(e: Engine) { ExactIndex(e.byAccount, e.positions, true) }

  ghost predicate MutuallyInverse(e: Engine) {
    && NoEmptySets(e.accountsByConversion) && NoEmptySets(e.conversionsByAccount)
    && forall a, s :: a in Members(e.accountsByConversion, s) <==> s in Members(e.conversionsByAccount, a)
  }

  /** Some position of the account may have to be converted over this symbol. */
  predicate Needs(e: Engine, account: string, symbol: string) {
    exists id :: id in e.positions && e.positions[id].accountId == account
                 && symbol in ConversionSymbols(e.positions[id].quoteCurrency, CurrencyOf(e, account))
  }

  ghost predicate Complete(e: Engine, account: string) {
    forall s :: s in Members(e.conversionsByAccount, account) <==> Needs(e, account, s)
  }

  /** A valuation is of the position as it is stored. */
  predicate ValuationsCurrent(e: Engine) {
    forall id :: id in e.positionValuations ==>
        id in e.positions && e.positionValuations[id].position == e.positions[id]
  }

  /** Everything but the completeness of the accounts in `pending`. */
  ghost predicate IndexedBut(e: Engine, pending: set<string>) {
    && SymbolsExact(e) && AccountsExact(e) && MutuallyInverse(e)
    && (forall id :: id in e.positions ==> id != "" && e.positions[id].id == id)
    && (forall a :: a != "" && a !in e.loaded && a !in pending ==> Complete(e, a))
    && (forall a :: a in e.bases ==> a != "")
  }

  ghost predicate Indexed(e: Engine) {
    IndexedBut(e, {}) && ValuationsCurrent(e) && forall a :: a in e.bases <==> a in e.accountValuations
  }

  predicate NeedsAmong(positions: map<string, OpenPosition>, ids: seq<string>, currency: string, symbol: string) {
    exists id :: id in ids && symbol in ConversionSymbols(QuoteCurrencyOf(positions, id), currency)
  }

  lemma {:induction false} NextSymbolsAre(positions: map<string, OpenPosition>, ids: seq<string>, currency: string,
      symbol: string)
    ensures symbol in NextSymbols(positions, ids, currency) <==> NeedsAmong(positions, ids, currency, symbol)
    ensures "" !in NextSymbols(positions, ids, currency)
  {
    hide ConversionSymbols, SymbolList, AddNew;
    if ids != [] {
      var init, id := ids[..|ids| - 1], ids[|ids| - 1];
      NextSymbolsAre(positions, init, currency, symbol);
      assert ids == init + [id];
    }
  }

  /** A refreshed index holds exactly what the account's conversions can read. */
  lemma RefreshCompletes(e: Engine, account: string)
    requires AccountsExact(e) && account != ""
    ensures Complete(RefreshConversionIndex(e, account), account)
  {
    hide ConversionSymbols, NextSymbols, AddUnderAll, RemoveUnderAll, NoEmptySets;
    var r := RefreshConversionIndex(e, account);
    var ids, currency := Members(e.byAccount, account), CurrencyOf(e, account);
    forall s ensures s in Members(r.conversionsByAccount, account) <==> Needs(r, account, s) {
      NextSymbolsAre(e.positions, ids, currency, s);
      if NeedsAmong(e.positions, ids, currency, s) {
        var id :| id in ids && s in ConversionSymbols(QuoteCurrencyOf(e.positions, id), currency);
        assert ExactAt(e.byAccount, e.positions, true, id, account);
      }
      if Needs(r, account, s) {
        var id :| id in r.positions && r.positions[id].accountId == account
                  && s in ConversionSymbols(r.positions[id].quoteCurrency, CurrencyOf(r, account));
        assert ExactAt(e.byAccount, e.positions, true, id, account);
        assert s in ConversionSymbols(QuoteCurrencyOf(e.positions, id), currency);
      }
    }
  }

  lemma RefreshStaysInverse(e: Engine, account: string)
    requires MutuallyInverse(e) && account != ""
    ensures MutuallyInverse(RefreshConversionIndex(e, account))
  {
    hide NextSymbols, AddUnderAll, RemoveUnderAll, NoEmptySets;
    var r := RefreshConversionIndex(e, account);
    var previous := Members(e.conversionsByAccount, account);
    var removed := RemoveUnderAll(e.accountsByConversion, previous, account);
    var next := NextSymbols(e.positions, Members(e.byAccount, account), CurrencyOf(e, account));
    NextSymbolsAre(e.positions, Members(e.byAccount, account), CurrencyOf(e, account), "");
    forall a, s ensures a in Members(r.accountsByConversion, s) <==> s in Members(r.conversionsByAccount, a) {
      RemoveUnderAllMembers(e.accountsByConversion, previous, account, s, a);
      AddUnderAllMembers(removed, next, account, s, a);
      assert a in Members(e.accountsByConversion, s) <==> s in Members(e.conversionsByAccount, a);
      if a == account {
        assert Members(r.conversionsByAccount, a) == next;
      } else {
        assert Members(r.conversionsByAccount, a) == Members(e.conversionsByAccount, a);
      }
    }
    RemoveUnderAllMembers(e.accountsByConversion, previous, account, "", "");
    AddUnderAllMembers(removed, next, account, "", "");
    assert NoEmptySets(r.conversionsByAccount) by { StaysNonempty(e.conversionsByAccount, account, next); }
  }

  lemma StaysNonempty(m: Index, account: string, next: seq<string>)
    requires NoEmptySets(m) && account != ""
    ensures NoEmptySets(if next != [] then m[account := next] else m - {account})
  {
  }

  /** Other accounts' conversion indexes, and what they need, stay as they are. */
  lemma OthersStayComplete(e: Engine, account: string, other: string)
    requires account != other && Complete(e, other)
    ensures Complete(RefreshConversionIndex(e, account), other)
  {
    hide ConversionSymbols, NextSymbols, AddUnderAll, RemoveUnderAll;
    var r := RefreshConversionIndex(e, account);
    assert Members(r.conversionsByAccount, other) == Members(e.conversionsByAccount, other);
    assert CurrencyOf(r, other) == CurrencyOf(e, other) && r.positions == e.positions;
    forall s ensures s in Members(r.conversionsByAccount, other) <==> Needs(r, other, s) {
      assert s in Members(e.conversionsByAccount, other) <==> Needs(e, other, s);
    }
  }

  lemma RefreshKeeps(e: Engine, account: string, pending: set<string>)
    requires IndexedBut(e, pending)
    ensures var r := RefreshConversionIndex(e, account);
            && IndexedBut(r, pending - {account})
            && r.loaded == (if account == "" then e.loaded else e.loaded - {account})
            && r.positions == e.positions && r.positionValuations == e.positionValuations
            && r.bases == e.bases && r.accountValuations == e.accountValuations && r.byAccount == e.byAccount
            && r.bySymbol == e.bySymbol
  {
    hide Complete, MutuallyInverse, NextSymbols, AddUnderAll, RemoveUnderAll, NoEmptySets;
    var r := RefreshConversionIndex(e, account);
    if account != "" {
      RefreshStaysInverse(e, account);
      RefreshCompletes(e, account);
    }
    forall a | a != "" && a !in r.loaded && a !in pending - {account} ensures Complete(r, a) {
      if a != account {
        if account != "" {
          OthersStayComplete(e, account, a);
        }
      }
    }
  }

  // ---- events ------------------------------------------------------------------

  function StoredAt(e: Engine, id: string): (p: Option<OpenPosition>) {
    if id in e.positions then Some(e.positions[id]) else None
  }

  lemma SwapMembers(m: Index, had: bool, oldKey: string, newKey: string, id: string, k: string, v: string)
    ensures var r := AddTo(if had then RemoveFrom(m, oldKey, id) else m, newKey, id);
            && (v in Members(r, k) <==>
                  (v in Members(m, k) && !(had && k == oldKey && v == id)) || (newKey != "" && k == newKey && v == id))
            && (NoEmptySets(m) ==> NoEmptySets(r))
  {
    hide NoEmptySets, Members, AddTo, RemoveFrom;
    var u := if had then RemoveFrom(m, oldKey, id) else m;
    RemoveMembers(m, oldKey, id, k, v);
    AddMembers(u, newKey, id, k, v);
  }

  lemma ReplacedExact(m: Index, positions: map<string, OpenPosition>, id: string, next: Option<OpenPosition>,
      byAccount: bool)
    requires ExactIndex(m, positions, byAccount)
    ensures var r := AddTo(if id in positions then RemoveFrom(m, KeyOf(Some(positions[id]), byAccount), id) else m,
        KeyOf(next, byAccount), id);
            ExactIndex(r, if next.Some? then positions[id := next.value] else positions - {id}, byAccount)
  {
    hide NoEmptySets, Members, AddTo, RemoveFrom, KeyOf;
    var oldKey := if id in positions then KeyOf(Some(positions[id]), byAccount) else "";
    var newKey := KeyOf(next, byAccount);
    assert next.None? ==> newKey == "" by { NoKey(next, byAccount); }
    var r := AddTo(if id in positions then RemoveFrom(m, oldKey, id) else m, newKey, id);
    var after := if next.Some? then positions[id := next.value] else positions - {id};
    assert next.Some? ==> Some(after[id]) == next;
    forall v, k ensures ExactAt(r, after, byAccount, v, k) {
      SwapMembers(m, id in positions, oldKey, newKey, id, k, v);
      assert ExactAt(m, positions, byAccount, v, k);
    }
    assert NoEmptySets(r) by { SwapMembers(m, id in positions, oldKey, newKey, id, "", ""); }
  }

  lemma NoKey(p: Option<OpenPosition>, byAccount: bool)
    ensures p.None? ==> KeyOf(p, byAccount) == ""
  {
  }

  lemma ReindexedExact(e: Engine, id: string, next: Option<OpenPosition>)
    requires SymbolsExact(e) && AccountsExact(e)
    requires id in e.positions ==> e.positions[id].id == id
    ensures SymbolsExact(Reindexed(e, id, next)) && AccountsExact(Reindexed(e, id, next))
  {
    hide ExactIndex, RemoveFrom;
    ReplacedExact(e.bySymbol, e.positions, id, next, false);
    ReplacedExact(e.byAccount, e.positions, id, next, true);
    AddNothing(if id in e.positions then RemoveFrom(e.bySymbol, e.positions[id].symbol, id) else e.bySymbol, id);
    AddNothing(if id in e.positions then RemoveFrom(e.byAccount, e.positions[id].accountId, id) else e.byAccount, id);
  }

  lemma AddNothing(m: Index, id: string)
    ensures AddTo(m, "", id) == m
  {
  }

  /** Only the accounts of the old and the new position can need other symbols. */
  lemma ReindexedKeeps(e: Engine, id: string, next: Option<OpenPosition>)
    requires IndexedBut(e, {}) && id != "" && (next.Some? ==> next.value.id == id)
    ensures var r := Reindexed(e, id, next);
            && IndexedBut(r, {KeyOf(StoredAt(e, id), true), KeyOf(next, true)})
            && r.bases == e.bases && r.accountValuations == e.accountValuations
            && r.positionValuations == e.positionValuations && r.loaded == e.loaded
  {
    ReindexedExact(e, id, next);
    hide SymbolsExact, AccountsExact, ConversionSymbols, Members, AddTo, RemoveFrom;
    var r, pending := Reindexed(e, id, next), {KeyOf(StoredAt(e, id), true), KeyOf(next, true)};
    assert MutuallyInverse(r) by { InverseAside(e, r); }
    forall a | a != "" && a !in r.loaded && a !in pending ensures Complete(r, a) {
      NeedsAside(e, r, a, id);
    }
  }

  lemma InverseAside(e: Engine, r: Engine)
    requires MutuallyInverse(e) && r.accountsByConversion == e.accountsByConversion
    requires r.conversionsByAccount == e.conversionsByAccount
    ensures MutuallyInverse(r)
  {
    hide NoEmptySets;
    forall a, s ensures a in Members(r.accountsByConversion, s) <==> s in Members(r.conversionsByAccount, a) {
      assert a in Members(e.accountsByConversion, s) <==> s in Members(e.conversionsByAccount, a);
    }
  }

  /** An account needs what it needed when only a position of others has changed. */
  lemma NeedsAside(e: Engine, r: Engine, account: string, id: string)
    requires Complete(e, account) && r.bases == e.bases && r.conversionsByAccount == e.conversionsByAccount
    requires forall x :: x != id ==>
        (x in r.positions <==> x in e.positions) && (x in e.positions ==> r.positions[x] == e.positions[x])
    requires id in e.positions ==> e.positions[id].accountId != account
    requires id in r.positions ==> r.positions[id].accountId != account
    ensures Complete(r, account)
  {
    hide ConversionSymbols;
    forall s ensures s in Members(r.conversionsByAccount, account) <==> Needs(r, account, s) {
      assert s in Members(e.conversionsByAccount, account) <==> Needs(e, account, s);
      if Needs(e, account, s) {
        var x :| x in e.positions && e.positions[x].accountId == account
                  && s in ConversionSymbols(e.positions[x].quoteCurrency, CurrencyOf(e, account));
        assert x in r.positions;
      }
      if Needs(r, account, s) {
        var x :| x in r.positions && r.positions[x].accountId == account
                  && s in ConversionSymbols(r.positions[x].quoteCurrency, CurrencyOf(r, account));
        assert x in e.positions;
      }
    }
  }

  lemma StoreKeeps(e: Engine, p: OpenPosition)
    requires IndexedBut(e, {}) && p.id != ""
    ensures var r := StorePosition(e, p);
            && IndexedBut(r, {}) && r.positions == e.positions[p.id := p]
            && r.positionValuations == e.positionValuations
            && r.bases == e.bases && r.accountValuations == e.accountValuations && p.accountId !in r.loaded - {""}
            && r.loaded <= e.loaded
  {
    hide IndexedBut, RefreshConversionIndex, Reindexed;
    var s := Reindexed(e, p.id, Some(p));
    ReindexedKeeps(e, p.id, Some(p));
    var before := KeyOf(StoredAt(e, p.id), true);
    RefreshKeeps(s, p.accountId, {before, p.accountId});
    var r := RefreshConversionIndex(s, p.accountId);
    ReindexedPositions(e, p.id, Some(p));
    if p.id in e.positions && before != p.accountId {
      RefreshKeeps(r, before, {before, p.accountId} - {p.accountId});
      assert {before, p.accountId} - {p.accountId} - {before} == {};
    } else {
      FewerPending(r, {before, p.accountId} - {p.accountId});
    }
  }

  lemma ReindexedPositions(e: Engine, id: string, next: Option<OpenPosition>)
    ensures Reindexed(e, id, next).positions
        == (if next.Some? then e.positions[id := next.value] else e.positions - {id})
  {
  }

  /** The empty account id is never indexed, so nothing waits for it. */
  lemma FewerPending(e: Engine, pending: set<string>)
    requires IndexedBut(e, pending) && pending <= {""}
    ensures IndexedBut(e, {})
  {
    hide SymbolsExact, AccountsExact, MutuallyInverse, Complete;
  }

  lemma RemoveKeeps(e: Engine, id: string, eventAccount: string)
    requires Indexed(e)
    ensures Indexed(RemovePosition(e, id, eventAccount)) && RemovePosition(e, id, eventAccount).loaded <= e.loaded
    ensures RemovePosition(e, id, eventAccount).bases == e.bases
  {
    hide IndexedBut, RefreshConversionIndex, Reindexed;
    if id != "" {
      var before := KeyOf(StoredAt(e, id), true);
      var account := if id in e.positions && e.positions[id].accountId != "" then e.positions[id].accountId
          else eventAccount;
      ReindexedKeeps(e, id, None);
      ReindexedPositions(e, id, None);
      var s := Reindexed(e, id, None).(positionValuations := e.positionValuations - {id});
      ValuationsAside(Reindexed(e, id, None), s, {before, ""});
      RefreshKeeps(s, account, {before, ""});
      FewerPending(RefreshConversionIndex(s, account), {before, ""} - {account});
    }
  }

  lemma ValuationsAside(e: Engine, r: Engine, pending: set<string>)
    requires IndexedBut(e, pending) && r == e.(positionValuations := r.positionValuations,
        accountValuations := r.accountValuations)
    ensures IndexedBut(r, pending)
  {
    hide NoEmptySets, ConversionSymbols;
    assert SymbolsExact(r) && AccountsExact(r) by { hide MutuallyInverse, Complete; }
    InverseAside(e, r);
    forall a | a != "" && a !in r.loaded && a !in pending ensures Complete(r, a) {
      BasesAside(e, r, a);
    }
  }

  lemma BasesAside(e: Engine, r: Engine, account: string)
    requires Complete(e, account) && r.positions == e.positions && r.conversionsByAccount == e.conversionsByAccount
    requires CurrencyOf(r, account) == CurrencyOf(e, account)
    ensures Complete(r, account)
  {
    hide ConversionSymbols;
    forall s ensures s in Members(r.conversionsByAccount, account) <==> Needs(r, account, s) {
      assert s in Members(e.conversionsByAccount, account) <==> Needs(e, account, s);
    }
  }

  lemma StoredAndValued(e: Engine, p: OpenPosition, store: QuoteStore)
    requires Indexed(e) && p.id != ""
    ensures Indexed(UpsertPosition(e, p, true, store)) && UpsertPosition(e, p, true, store).loaded <= e.loaded
    ensures UpsertPosition(e, p, true, store).bases == e.bases
    ensures p.accountId !in UpsertPosition(e, p, true, store).loaded - {""}
  {
    hide IndexedBut, StorePosition;
    StoreKeeps(e, p);
    var s := StorePosition(e, p);
    ValuedIsOf(p, QuoteOf(store, p.symbol));
    ValuationsAside(s, RevaluePosition(s, p.id, QuoteOf(store, p.symbol)), {});
  }

  lemma ValuedIsOf(p: OpenPosition, quote: Option<Quote>)
    ensures CalculatePositionValuation(p, quote).position == p
  {
  }

  lemma RecalculateKeeps(e: Engine, account: string, m: Market)
    requires IndexedBut(e, {}) && ValuationsCurrent(e)
    requires forall a :: a != account ==> (a in e.bases <==> a in e.accountValuations)
    requires account in e.bases || account !in e.accountValuations
    ensures var r := RecalculateAccount(e, account, m);
            Indexed(r) && r.loaded == e.loaded && r.bases == e.bases && r.positionValuations == e.positionValuations
  {
    hide IndexedBut, Recompute;
    ValuationsAside(e, RecalculateAccount(e, account, m), {});
  }

  lemma UpsertAccountKeeps(e: Engine, account: string, base: AccountBase, m: Market)
    requires Indexed(e)
    ensures var r := UpsertAccount(e, account, base, m);
            Indexed(r) && r.loaded <= e.loaded
                && (account != "" ==> account !in r.loaded && account in r.accountValuations)
  {
    hide RefreshConversionIndex, RecalculateAccount, ConversionSymbols;
    if account != "" {
      var s := e.(bases := e.bases[account := base]);
      BaseStored(e, s, account);
      hide IndexedBut;
      RefreshKeeps(s, account, {account});
      assert {account} - {account} == {};
      RecalculateKeeps(RefreshConversionIndex(s, account), account, m);
      RecalculateStores(RefreshConversionIndex(s, account), account, m);
    }
  }

  lemma RecalculateStores(e: Engine, account: string, m: Market)
    ensures account in e.bases ==> account in RecalculateAccount(e, account, m).accountValuations
  {
  }

  /** A stored account document can only make its own account incomplete. */
  lemma BaseStored(e: Engine, s: Engine, account: string)
    requires IndexedBut(e, {}) && account != "" && account in s.bases
    requires s == e.(bases := e.bases[account := s.bases[account]], loaded := s.loaded) && e.loaded <= s.loaded
    ensures IndexedBut(s, {account})
  {
    hide NoEmptySets, ConversionSymbols, ExactIndex;
    InverseAside(e, s);
    forall a | a != "" && a !in s.loaded && a !in {account} ensures Complete(s, a) {
      BasesAside(e, s, a);
    }
  }

  lemma LoadKeeps(e: Engine, account: string, base: AccountBase, m: Market)
    requires Indexed(e) && account != ""
    ensures var r := StoreLoaded(e, account, base, m);
            Indexed(r) && r.loaded <= e.loaded + {account} && account in r.bases
            && (base.currency == CurrencyOf(e, account) ==> r.loaded == e.loaded)
  {
    hide RecalculateAccount, ConversionSymbols;
    var s := StoreLoaded(e, account, base, m).(accountValuations := e.accountValuations);
    LoadedIs(e, account, base, m);
    BaseStored(e, s, account);
    if CurrencyOf(e, account) == base.currency {
      SameCurrency(e, s, account);
    } else {
      Marked(s, account);
    }
    hide IndexedBut;
    RecalculateKeeps(s, account, m);
  }

  lemma LoadedIs(e: Engine, account: string, base: AccountBase, m: Market)
    ensures var s := StoreLoaded(e, account, base, m).(accountValuations := e.accountValuations);
            s == e.(bases := e.bases[account := base], loaded := s.loaded)
                && e.loaded <= s.loaded <= e.loaded + {account}
            && (s.loaded == if CurrencyOf(e, account) == base.currency then e.loaded else e.loaded + {account})
            && StoreLoaded(e, account, base, m) == RecalculateAccount(s, account, m)
  {
    hide Recompute;
  }

  /** A document in the currency that was stored leaves the index as good as it was. */
  lemma SameCurrency(e: Engine, s: Engine, account: string)
    requires IndexedBut(e, {}) && IndexedBut(s, {account}) && account != ""
    requires s == e.(bases := s.bases) && CurrencyOf(s, account) == CurrencyOf(e, account)
    ensures IndexedBut(s, {})
  {
    hide SymbolsExact, AccountsExact, MutuallyInverse, ConversionSymbols;
    if account !in s.loaded {
      assert Complete(e, account);
      assert forall x :: Needs(s, account, x) <==> Needs(e, account, x);
      assert Complete(s, account);
    }
  }

  lemma Marked(e: Engine, account: string)
    requires IndexedBut(e, {account}) && account in e.loaded
    ensures IndexedBut(e, {})
  {
    hide SymbolsExact, AccountsExact, MutuallyInverse, Complete;
  }

  lemma RevalueKeeps(e: Engine, id: string, quote: Quote)
    requires Indexed(e)
    ensures var r := RevaluePosition(e, id, Some(quote));
            Indexed(r) && r == e.(positionValuations := r.positionValuations)
    ensures SameBut(e.positionValuations, RevaluePosition(e, id, Some(quote)).positionValuations, [id])
  {
    hide IndexedBut, CalculatePositionValuation;
    if id in e.positions {
      ValuedIsOf(e.positions[id], Some(quote));
      ValuationsAside(e, RevaluePosition(e, id, Some(quote)), {});
    }
  }

  ghost predicate SameBut(a: map<string, PositionValuation>, b: map<string, PositionValuation>, ids: seq<string>) {
    forall id :: id !in ids ==> SameAt(a, b, id)
  }

  predicate SameAt(a: map<string, PositionValuation>, b: map<string, PositionValuation>, id: string) {
    (id in a <==> id in b) && (id in a ==> a[id] == b[id])
  }

  lemma {:induction false} RevalueAllKeeps(e: Engine, ids: seq<string>, quote: Quote)
    requires Indexed(e)
    ensures var r := RevalueAll(e, ids, quote);
            Indexed(r) && r == e.(positionValuations := r.positionValuations) && SameBut(e.positionValuations,
                r.positionValuations, ids)
  {
    hide Indexed, RevaluePosition, SameAt;
    if ids == [] {
      SameAsSelf(e.positionValuations);
    } else {
      var init, id := ids[..|ids| - 1], ids[|ids| - 1];
      RevalueAllKeeps(e, init, quote);
      RevalueKeeps(RevalueAll(e, init, quote), id, quote);
      SameButBoth(e.positionValuations, RevalueAll(e, init, quote).positionValuations,
          RevalueAll(e, ids, quote).positionValuations, init, id);
      assert ids == init + [id];
    }
  }

  lemma SameAsSelf(a: map<string, PositionValuation>)
    ensures SameBut(a, a, [])
  {
  }

  lemma SameButBoth(a: map<string, PositionValuation>, b: map<string, PositionValuation>, c: map<string,
      PositionValuation>, ids: seq<string>, id: string)
    requires SameBut(a, b, ids) && SameBut(b, c, [id])
    ensures SameBut(a, c, ids + [id])
  {
    forall x | x !in ids + [id] ensures SameAt(a, c, x) {
      assert SameAt(a, b, x) && SameAt(b, c, x);
    }
  }

  lemma {:induction false} RecalculateAllKeeps(e: Engine, accounts: seq<string>, m: Market)
    requires Indexed(e)
    ensures var r := RecalculateAll(e, accounts, m);
            Indexed(r) && r == e.(accountValuations := r.accountValuations)
  {
    hide IndexedBut, Recompute;
    if accounts != [] {
      RecalculateAllKeeps(e, accounts[..|accounts| - 1], m);
      RecalculateKeeps(RecalculateAll(e, accounts[..|accounts| - 1], m), accounts[|accounts| - 1], m);
    }
  }

  lemma QuoteKeeps(e: Engine, symbol: string, quote: Quote, m: Market)
    requires Indexed(e)
    ensures var r := HandleQuote(e, symbol, quote, m);
            Indexed(r) && r == e.(positionValuations := r.positionValuations, accountValuations := r.accountValuations)
  {
    hide Indexed, RevalueAll, RecalculateAll;
    if symbol != "" {
      RevalueAllKeeps(e, Members(e.bySymbol, symbol), quote);
      RecalculateAllKeeps(RevalueAll(e, Members(e.bySymbol, symbol), quote), Touched(e, symbol), m);
    }
  }

  /** A snapshot request that is waiting for its account document. */
  datatype Load = Load(account: string, base: AccountBase)

  datatype System = System(engine: Engine, loads: seq<Load>)

  datatype Event =
    | PositionEvent(position: OpenPosition, isOpen: bool, store: QuoteStore)
    | PositionClosed(id: string, account: string)
    | AccountEvent(account: string, base: AccountBase, m: Market)
    | SnapshotRequest(account: string, base: AccountBase)
    | SnapshotLoaded(index: nat, m: Market)
    | QuoteEvent(symbol: string, quote: Quote, m: Market)
    | Revalue(account: string, m: Market)

  /** The first half of getOrLoadAccountSnapshot: an account without a snapshot is read from the
      database, and other events run until the document arrives. */
  function RequestSnapshot(s: System, account: string, base: AccountBase): (r: System) {
    if account == "" || account in s.engine.accountValuations then s else s.(loads := s.loads + [Load(account, base)])
  }

  function FinishLoad(s: System, index: nat, m: Market): (r: System)
    requires index < |s.loads|
  {
    System(StoreLoaded(s.engine, s.loads[index].account, s.loads[index].base, m),
        s.loads[..index] + s.loads[index + 1..])
  }

  function Step(s: System, ev: Event): (r: System) {
    match ev
    case PositionEvent(p, isOpen, store) => s.(engine := UpsertPosition(s.engine, p, isOpen, store))
    case PositionClosed(id, account) => s.(engine := RemovePosition(s.engine, id, account))
    case AccountEvent(account, base, m) => s.(engine := UpsertAccount(s.engine, account, base, m))
    case SnapshotRequest(account, base) => RequestSnapshot(s, account, base)
    case SnapshotLoaded(index, m) => if index < |s.loads| then FinishLoad(s, index, m) else s
    case QuoteEvent(symbol, quote, m) => s.(engine := HandleQuote(s.engine, symbol, quote, m))
    case Revalue(account, m) => s.(engine := RecalculateAccount(s.engine, account, m))
  }

  function Run(s: System, es: seq<Event>): (r: System) {
    if es == [] then s else Step(Run(s, es[..|es| - 1]), es[|es| - 1])
  }

  ghost predicate SystemOk(s: System) {
    Indexed(s.engine) && forall i :: 0 <= i < |s.loads| ==> s.loads[i].account != ""
  }

  /** The event does not store a snapshot's document that changes the currency of the account. */
  predicate KeepsCurrency(s: System, ev: Event, account: string) {
    ev.SnapshotLoaded? && ev.index < |s.loads| && s.loads[ev.index].account == account ==>
      s.loads[ev.index].base.currency == CurrencyOf(s.engine, account)
  }

  /** One event: the indexes stay exact, and an account that has a snapshot and a
      complete index keeps both unless its currency is changed behind the index. */
  lemma StepKeeps(s: System, ev: Event)
    requires SystemOk(s)
    ensures SystemOk(Step(s, ev))
    ensures forall a :: a in s.engine.bases && a !in s.engine.loaded && KeepsCurrency(s, ev, a) ==>
              a in Step(s, ev).engine.bases && a !in Step(s, ev).engine.loaded
  {
    hide Indexed, UpsertPosition, RemovePosition, UpsertAccount, StoreLoaded, HandleQuote, RecalculateAccount;
    var e := s.engine;
    match ev
    case PositionEvent(p, isOpen, store) => PositionKeeps(e, p, isOpen, store);
    case PositionClosed(id, account) => RemoveKeeps(e, id, account);
    case AccountEvent(account, base, m) => UpsertAccountKeeps(e, account, base, m); UpsertedBases(e, account, base, m);
    case SnapshotRequest(account, base) =>
    case SnapshotLoaded(index, m) =>
      if index < |s.loads| {
        LoadKeeps(e, s.loads[index].account, s.loads[index].base, m);
        LoadedBases(e, s.loads[index].account, s.loads[index].base, m);
      }
    case QuoteEvent(symbol, quote, m) => QuoteKeeps(e, symbol, quote, m);
    case Revalue(account, m) => RevalueStays(e, account, m);
  }

  lemma RevalueStays(e: Engine, account: string, m: Market)
    requires Indexed(e)
    ensures var r := RecalculateAccount(e, account, m); Indexed(r) && r.bases == e.bases && r.loaded == e.loaded
  {
    hide IndexedBut, RecalculateAccount;
    RecalculateKeeps(e, account, m);
  }

  lemma PositionKeeps(e: Engine, p: OpenPosition, isOpen: bool, store: QuoteStore)
    requires Indexed(e)
    ensures var r := UpsertPosition(e, p, isOpen, store); Indexed(r) && r.bases == e.bases && r.loaded <= e.loaded
  {
    hide Indexed, RemovePosition, StorePosition, RevaluePosition;
    if p.id == "" || !isOpen { RemoveKeeps(e, p.id, p.accountId); } else { StoredAndValued(e, p, store); }
  }

  lemma UpsertedBases(e: Engine, account: string, base: AccountBase, m: Market)
    ensures forall a :: a in e.bases ==> a in UpsertAccount(e, account, base, m).bases
  {
    hide NextSymbols, AddUnderAll, RemoveUnderAll, Recompute;
  }

  lemma LoadedBases(e: Engine, account: string, base: AccountBase, m: Market)
    ensures forall a :: a in e.bases ==> a in StoreLoaded(e, account, base, m).bases
  {
    hide Recompute;
  }

  lemma IdleIsIndexed()
    ensures Indexed(IDLE)
  {
  }

  /** Main result: after any sequence of events, snapshot requests overtaken by other events
      included, the symbol and account indexes are the exact inverses of the position map, the
      conversion indexes are inverses of each other, and they hold exactly the symbols an
      account's conversions can read, for every account whose currency has not been changed by
      a snapshot request since its last refresh. */
  lemma {:induction false} RunIsIndexed(s: System, es: seq<Event>)
    requires SystemOk(s)
    ensures SystemOk(Run(s, es))
  {
    hide SystemOk, Step;
    if es != [] {
      RunIsIndexed(s, es[..|es| - 1]);
      StepKeeps(Run(s, es[..|es| - 1]), es[|es| - 1]);
    }
  }

  predicate KeepsCurrencyAt(s: System, es: seq<Event>, account: string, k: nat) {
    k < |es| ==> KeepsCurrency(Run(s, es[..k]), es[k], account)
  }

  lemma {:induction false} RunKeepsRefreshed(s: System, account: string, es: seq<Event>)
    requires SystemOk(s) && account in s.engine.bases && account !in s.engine.loaded
    requires forall k :: 0 <= k < |es| ==> KeepsCurrencyAt(s, es, account, k)
    ensures account in Run(s, es).engine.bases && account !in Run(s, es).engine.loaded
  {
    hide SystemOk, Step, KeepsCurrency;
    if es != [] {
      var n, init := |es| - 1, es[..|es| - 1];
      forall k | 0 <= k < |init| ensures KeepsCurrencyAt(s, init, account, k) {
        assert KeepsCurrencyAt(s, es, account, k);
        assert init[..k] == es[..k];
      }
      RunKeepsRefreshed(s, account, init);
      RunIsIndexed(s, init);
      assert KeepsCurrencyAt(s, es, account, n);
      StepKeeps(Run(s, init), es[n]);
    }
  }

  /** An account stored by an account update is indexed completely as long as no snapshot
      request, begun before or after, stores a document in another currency. */
  lemma UpdatedStaysComplete(s: System, account: string, base: AccountBase, m: Market, es: seq<Event>)
    requires SystemOk(s) && account != ""
    requires var t := Step(s, AccountEvent(account, base, m)); forall k :: 0 <= k < |es| ==>
        KeepsCurrencyAt(t, es, account, k)
    ensures Complete(Run(Step(s, AccountEvent(account, base, m)), es).engine, account)
  {
    hide UpsertAccount, Complete, SymbolsExact, AccountsExact, MutuallyInverse;
    var t := Step(s, AccountEvent(account, base, m));
    UpsertAccountKeeps(s.engine, account, base, m);
    RunIsIndexed(t, es);
    RunKeepsRefreshed(t, account, es);
  }

  // ---- start -------------------------------------------------------------------

  function StoreBases(e: Engine, accounts: seq<(string, AccountBase)>): (r: Engine) {
    if accounts == [] then e
    else
      var s, last := StoreBases(e, accounts[..|accounts| - 1]), accounts[|accounts| - 1];
      if last.0 == "" then s else s.(bases := s.bases[last.0 := last.1], loaded := s.loaded + {last.0})
  }

  function StorePositions(e: Engine, ps: seq<OpenPosition>): (r: Engine) {
    if ps == [] then e else StorePosition(StorePositions(e, ps[..|ps| - 1]), ps[|ps| - 1])
  }

  function RevalueEach(e: Engine, ps: seq<OpenPosition>, store: QuoteStore): (r: Engine) {
    if ps == [] then e
    else RevaluePosition(RevalueEach(e, ps[..|ps| - 1], store), ps[|ps| - 1].id, QuoteOf(store, ps[|ps| - 1].symbol))
  }

  function Owners(ps: seq<OpenPosition>): (s: seq<string>) {
    if ps == [] then [] else AddNew(Owners(ps[..|ps| - 1]), [ps[|ps| - 1].accountId])
  }

  /** start: the open positions of the database and the accounts that own them. */
  function Started(accounts: seq<(string, AccountBase)>, ps: seq<OpenPosition>, m: Market): (r: Engine) {
    RecalculateAll(RevalueEach(StorePositions(StoreBases(IDLE, accounts), ps), ps, m.store), Owners(ps), m)
  }

  lemma {:induction false} BasesAreStored(accounts: seq<(string, AccountBase)>)
    ensures var e := StoreBases(IDLE, accounts);
            && e == IDLE.(bases := e.bases, loaded := e.loaded) && e.loaded == e.bases.Keys && "" !in e.bases
            && forall a :: a in e.bases ==> exists i :: 0 <= i < |accounts| && accounts[i].0 == a
  {
    if accounts != [] {
      BasesAreStored(accounts[..|accounts| - 1]);
    }
  }

  lemma BasesAlone(e: Engine)
    requires e == IDLE.(bases := e.bases, loaded := e.loaded) && "" !in e.bases && e.loaded == e.bases.Keys
    ensures IndexedBut(e, {})
  {
    hide ConversionSymbols;
  }

  lemma {:induction false} PositionsAreStored(e: Engine, ps: seq<OpenPosition>)
    requires IndexedBut(e, {}) && forall i :: 0 <= i < |ps| ==> ps[i].id != "" && ps[i].accountId != ""
    ensures var r := StorePositions(e, ps);
            && IndexedBut(r, {}) && r.positionValuations == e.positionValuations && r.bases == e.bases
            && r.accountValuations == e.accountValuations
            && r.loaded <= e.loaded && forall i :: 0 <= i < |ps| ==> ps[i].accountId !in r.loaded
  {
    hide IndexedBut, StorePosition;
    if ps != [] {
      PositionsAreStored(e, ps[..|ps| - 1]);
      StoreKeeps(StorePositions(e, ps[..|ps| - 1]), ps[|ps| - 1]);
    }
  }

  lemma {:induction false} EachIsRevalued(e: Engine, ps: seq<OpenPosition>, store: QuoteStore)
    requires IndexedBut(e, {}) && ValuationsCurrent(e)
    ensures var r := RevalueEach(e, ps, store);
            IndexedBut(r, {}) && ValuationsCurrent(r) && r == e.(positionValuations := r.positionValuations)
  {
    hide IndexedBut, CalculatePositionValuation;
    if ps != [] {
      var s, p := RevalueEach(e, ps[..|ps| - 1], store), ps[|ps| - 1];
      EachIsRevalued(e, ps[..|ps| - 1], store);
      if p.id in s.positions {
        ValuedIsOf(s.positions[p.id], QuoteOf(store, p.symbol));
        ValuationsAside(s, RevaluePosition(s, p.id, QuoteOf(store, p.symbol)), {});
      }
    }
  }

  lemma {:induction false} AllRecalculated(e: Engine, accounts: seq<string>, m: Market)
    requires IndexedBut(e, {}) && ValuationsCurrent(e) && e.accountValuations == map[]
    ensures var r := RecalculateAll(e, accounts, m);
            && IndexedBut(r, {}) && ValuationsCurrent(r) && r == e.(accountValuations := r.accountValuations)
            && forall a :: a in r.accountValuations <==> a in e.bases && a in accounts
  {
    hide IndexedBut, Recompute;
    if accounts != [] {
      var init, a := accounts[..|accounts| - 1], accounts[|accounts| - 1];
      var s := RecalculateAll(e, init, m);
      AllRecalculated(e, init, m);
      ValuationsAside(s, RecalculateAccount(s, a, m), {});
      assert accounts == init + [a];
    }
  }

  lemma {:induction false} OwnersOwn(ps: seq<OpenPosition>, i: nat)
    requires i < |ps|
    ensures ps[i].accountId in Owners(ps)
  {
    if i < |ps| - 1 {
      OwnersOwn(ps[..|ps| - 1], i);
    }
  }

  predicate IsOwner(ps: seq<OpenPosition>, account: string) { exists i :: 0 <= i < |ps| && ps[i].accountId == account }

  /** What start stores is indexed, completely for every account it stores. */
  lemma StartIsIndexed(accounts: seq<(string, AccountBase)>, ps: seq<OpenPosition>, m: Market)
    requires forall i :: 0 <= i < |ps| ==> ps[i].id != "" && ps[i].accountId != ""
    requires forall i :: 0 <= i < |accounts| ==> IsOwner(ps, accounts[i].0)
    ensures Indexed(Started(accounts, ps, m)) && Started(accounts, ps, m).loaded == {}
  {
    hide IndexedBut, RecalculateAccount, StorePosition, RevaluePosition;
    var e := StoreBases(IDLE, accounts);
    BasesAreStored(accounts);
    BasesAlone(e);
    var s := StorePositions(e, ps);
    PositionsAreStored(e, ps);
    EachIsRevalued(s, ps, m.store);
    AllRecalculated(RevalueEach(s, ps, m.store), Owners(ps), m);
    forall a | a in e.bases ensures a in Owners(ps) && a !in s.loaded {
      var i :| 0 <= i < |accounts| && accounts[i].0 == a;
      assert IsOwner(ps, accounts[i].0);
      var j :| 0 <= j < |ps| && ps[j].accountId == a;
      OwnersOwn(ps, j);
    }
    assert s.loaded == {};
  }

  // ---- a quote outside the indexes ---------------------------------------------

  lemma {:induction false} ValuationsSame(e: Engine, r: Engine, ids: seq<string>)
    requires forall i :: 0 <= i < |ids| ==> SameAt(e.positionValuations, r.positionValuations, ids[i])
    ensures ValuationsOf(r, ids) == ValuationsOf(e, ids)
  {
    if ids != [] {
      ValuationsSame(e, r, ids[..|ids| - 1]);
      assert SameAt(e.positionValuations, r.positionValuations, ids[|ids| - 1]);
    }
  }

  lemma {:induction false} ValuationsAre(e: Engine, ids: seq<string>, i: nat)
    requires ValuationsCurrent(e) && i < |ValuationsOf(e, ids)|
    ensures var p := ValuationsOf(e, ids)[i].position;
            exists id :: id in ids && id in e.positions && e.positions[id] == p
  {
    if ids != [] {
      var init, id := ids[..|ids| - 1], ids[|ids| - 1];
      assert ids == init + [id];
      if i < |ValuationsOf(e, init)| {
        ValuationsAre(e, init, i);
      }
    }
  }

  lemma {:induction false} OwnersContain(e: Engine, ids: seq<string>, id: string)
    requires id in ids && id in e.positions
    ensures e.positions[id].accountId in OwnersOf(e, ids)
  {
    var init, last := ids[..|ids| - 1], ids[|ids| - 1];
    assert ids == init + [last];
    if id != last {
      OwnersContain(e, init, id);
    }
  }

  /** An account that a quote does not touch has no position on its symbol, and
      converts nothing over it. */
  lemma UntouchedIsElsewhere(e: Engine, symbol: string, account: string)
    requires Indexed(e) && account != "" && symbol != "" && account !in e.loaded && account !in Touched(e, symbol)
    ensures forall id :: id in Members(e.byAccount, account) ==> id !in Members(e.bySymbol, symbol)
    ensures !Needs(e, account, symbol)
  {
    hide ConversionSymbols, Needs, Members, NoEmptySets;
    assert !Needs(e, account, symbol) by {
      assert account in Members(e.accountsByConversion, symbol) <==> symbol in Members(e.conversionsByAccount, account);
      assert Complete(e, account);
      assert symbol in Members(e.conversionsByAccount, account) <==> Needs(e, account, symbol);
    }
    forall id | id in Members(e.byAccount, account) ensures id !in Members(e.bySymbol, symbol) {
      assert ExactAt(e.byAccount, e.positions, true, id, account);
      if id in Members(e.bySymbol, symbol) {
        OwnersContain(e, Members(e.bySymbol, symbol), id);
      }
    }
  }

  /** Main result: the accounts that the indexes leave out are the ones a quote
      cannot change. Recomputing one of them after the quote, from everything there
      is, gives what recomputing it before would have given. */
  lemma UntouchedIsUnchanged(e: Engine, symbol: string, quote: Quote, m: Market, account: string)
    requires Indexed(e) && account in e.bases && symbol != "" && account !in e.loaded && account !in Touched(e, symbol)
    ensures var after := m.(store := m.store[symbol := quote]);
            var r := HandleQuote(e, symbol, quote, after);
            account in r.bases && Recompute(r, account, after) == Recompute(e, account, m)
  {
    var after := m.(store := m.store[symbol := quote]);
    var s := RevalueAll(e, Members(e.bySymbol, symbol), quote);
    var r := HandleQuote(e, symbol, quote, after);
    var ids := Members(e.byAccount, account);
    assert account != "";
    RevalueAllKeeps(e, Members(e.bySymbol, symbol), quote);
    RecalculateAllKeeps(s, Touched(e, symbol), after);
    UntouchedIsElsewhere(e, symbol, account);
    hide RevalueAll, RecalculateAll, IndexedBut, SameAt, Aggregate, ConversionSymbols, Touched;
    forall i | 0 <= i < |ids| ensures SameAt(e.positionValuations, r.positionValuations, ids[i]) {
      assert ids[i] in ids;
    }
    ValuationsSame(e, r, ids);
    ReadsElsewhere(e, account, symbol, quote, m);
  }

  lemma ReadsElsewhere(e: Engine, account: string, symbol: string, quote: Quote, m: Market)
    requires AccountsExact(e) && ValuationsCurrent(e) && account in e.bases && account != ""
    requires !Needs(e, account, symbol)
    ensures Recompute(e, account, m.(store := m.store[symbol := quote])) == Recompute(e, account, m)
  {
    hide ConversionSymbols, Aggregate;
    var ids, t := Members(e.byAccount, account), m.store[symbol := quote];
    var vs := ValuationsOf(e, ids);
    forall i, k | 0 <= i < |vs| && k in ConversionSymbols(vs[i].position.quoteCurrency, e.bases[account].currency)
      ensures (k in m.store <==> k in t) && (k in m.store ==> m.store[k] == t[k])
    {
      ValuationsAre(e, ids, i);
      var id :| id in ids && id in e.positions && e.positions[id] == vs[i].position;
      assert ExactAt(e.byAccount, e.positions, true, id, account);
      assert k != symbol;
    }
    AggregateReadsOnly(e.bases[account], vs, m.cv, m.store, t, m.nowMs);
  }

  // ---- an account stored by a snapshot request ---------------------------------

  /** Some position of the account has to be converted over this symbol into this currency. */
  predicate NeedsIn(e: Engine, account: string, currency: string, symbol: string) {
    exists id :: id in e.positions && e.positions[id].accountId == account
                 && symbol in ConversionSymbols(e.positions[id].quoteCurrency, currency)
  }

  /** The index of an account whose document a snapshot request stores stays complete exactly
      when the positions need the same symbols in the document's currency as in the one that
      was stored; an account that was not stored needed none. */
  lemma LoadedIsCompleteIff(e: Engine, account: string, base: AccountBase, m: Market)
    requires Indexed(e) && account != "" && account !in e.loaded
    ensures Complete(StoreLoaded(e, account, base, m), account) <==>
            forall x :: NeedsIn(e, account, base.currency, x) <==> NeedsIn(e, account, CurrencyOf(e, account), x)
  {
    hide ConversionSymbols;
    var r := StoreLoaded(e, account, base, m);
    assert Complete(e, account);
    forall x ensures (x in Members(r.conversionsByAccount, account) <==> NeedsIn(e, account, CurrencyOf(e, account), x))
                     && (Needs(r, account, x) <==> NeedsIn(e, account, base.currency, x)) {
      assert x in Members(e.conversionsByAccount, account) <==> Needs(e, account, x);
    }
    if Complete(r, account) {
      forall x ensures NeedsIn(e, account, base.currency, x) <==> NeedsIn(e, account, CurrencyOf(e, account), x) {
        assert x in Members(r.conversionsByAccount, account) <==> Needs(r, account, x);
      }
    }
  }

  /** So the first document of an account leaves it complete exactly when no position has to be
      converted. */
  lemma FirstLoadIsCompleteIff(e: Engine, account: string, base: AccountBase, m: Market)
    requires Indexed(e) && account != "" && account !in e.loaded && account !in e.bases
    ensures Complete(StoreLoaded(e, account, base, m), account) <==>
            forall id :: id in e.positions && e.positions[id].accountId == account ==>
              ConversionSymbols(e.positions[id].quoteCurrency, base.currency) == {}
  {
    hide ConversionSymbols, StoreLoaded, Indexed, Complete;
    LoadedIsCompleteIff(e, account, base, m);
    forall x ensures !NeedsIn(e, account, "", x) {
      if NeedsIn(e, account, "", x) {
        var id :| id in e.positions && e.positions[id].accountId == account
                  && x in ConversionSymbols(e.positions[id].quoteCurrency, "");
        NoneIntoNothing(e.positions[id].quoteCurrency);
        assert false;
      }
    }
    if Complete(StoreLoaded(e, account, base, m), account) {
      forall id | id in e.positions && e.positions[id].accountId == account
        ensures ConversionSymbols(e.positions[id].quoteCurrency, base.currency) == {}
      {
        forall x ensures x !in ConversionSymbols(e.positions[id].quoteCurrency, base.currency) {
          assert NeedsIn(e, account, base.currency, x) <==> NeedsIn(e, account, "", x);
        }
      }
    }
  }

  lemma NoneIntoNothing(from: string)
    ensures ConversionSymbols(from, "") == {}
  {
  }

  /** So it can be incomplete: a dollar position of an account that turns out to be
      in euros is not indexed under the euro rate it needs. */
  lemma LoadedCanBeIncomplete(m: Market)
    ensures var p := OpenPosition("p", "a", "XAUUSD", T.BUY, 1.0, 1.0, 1.0, "USD", 0.0);
            var es := [PositionEvent(p, true, map[]), SnapshotRequest("a", AccountBase("EUR", 0.0, 0)),
                SnapshotLoaded(0, m)];
            SystemOk(Run(System(IDLE, []), es)) && !Complete(Run(System(IDLE, []), es).engine, "a")
  {
    hide Indexed, UpsertPosition, StoreLoaded, Complete, ConversionSymbols;
    var p := OpenPosition("p", "a", "XAUUSD", T.BUY, 1.0, 1.0, 1.0, "USD", 0.0);
    var base := AccountBase("EUR", 0.0, 0);
    var es := [PositionEvent(p, true, map[]), SnapshotRequest("a", base), SnapshotLoaded(0, m)];
    IdleIsIndexed();
    RunIsIndexed(System(IDLE, []), es);
    ThreeEvents(System(IDLE, []), es);
    var e := UpsertPosition(IDLE, p, true, map[]);
    StoredAndValued(IDLE, p, map[]);
    UpsertedIs(p);
    FirstLoadIsCompleteIff(e, "a", base, m);
    DollarsIntoEuros();
    assert e.positions["p"].accountId == "a" && ConversionSymbols(e.positions["p"].quoteCurrency, "EUR") != {};
    assert Step(Step(System(e, []), es[1]), es[2]).engine == StoreLoaded(e, "a", base, m);
  }

  lemma ThreeEvents(s: System, es: seq<Event>)
    requires |es| == 3
    ensures Run(s, es) == Step(Step(Step(s, es[0]), es[1]), es[2])
  {
    hide Step;
    assert es[..2][..1] == es[..1] && es[..1][..0] == [];
    assert Run(s, es[..1]) == Step(s, es[0]);
    assert Run(s, es[..2]) == Step(Run(s, es[..1]), es[1]);
  }

  /** A snapshot request that is overtaken by an account update writes the older document over
      the newer one: the stored revision goes back. */
  lemma OvertakenLoadGoesBack(account: string, older: AccountBase, newer: AccountBase, m: Market)
    requires account != "" && older.financialRevision < newer.financialRevision
    ensures var es := [SnapshotRequest(account, older), AccountEvent(account, newer, m), SnapshotLoaded(0, m)];
            var s := Run(System(IDLE, []), es[..2]).engine;
            var r := Run(System(IDLE, []), es).engine;
            && account in s.bases && s.bases[account] == newer
            && account in r.bases && r.bases[account] == older
            && r.bases[account].financialRevision < s.bases[account].financialRevision
  {
    hide Step;
    var es := [SnapshotRequest(account, older), AccountEvent(account, newer, m), SnapshotLoaded(0, m)];
    var start := System(IDLE, []);
    OvertakenSteps(account, older, newer, m);
    ThreeEvents(start, es);
    assert es[..2][..1] == es[..1] && es[..1][..0] == [];
    assert Run(start, es[..1]) == Step(start, es[0]);
    assert Run(start, es[..2]) == Step(Run(start, es[..1]), es[1]);
  }

  lemma OvertakenSteps(account: string, older: AccountBase, newer: AccountBase, m: Market)
    requires account != ""
    ensures var s := Step(Step(System(IDLE, []), SnapshotRequest(account, older)), AccountEvent(account, newer, m));
            var r := Step(s, SnapshotLoaded(0, m));
            account in s.engine.bases && s.engine.bases[account] == newer && account in r.engine.bases
                && r.engine.bases[account] == older
  {
    hide RefreshConversionIndex, Recompute;
    RefreshKeepsBases(IDLE.(bases := IDLE.bases[account := newer]), account);
  }

  lemma RefreshKeepsBases(e: Engine, account: string)
    ensures RefreshConversionIndex(e, account).bases == e.bases
  {
  }

  lemma UpsertedIs(p: OpenPosition)
    requires p.id != ""
    ensures var e := UpsertPosition(IDLE, p, true, map[]);
            p.id in e.positions && e.positions[p.id] == p && e.accountValuations == map[] && e.loaded == {}
  {
    IdleIsIndexed();
    hide Indexed;
    StoreKeeps(IDLE, p);
    hide StorePosition;
  }

  lemma DollarsIntoEuros()
    ensures ConversionSymbols("USD", "EUR") != {}
  {
    assert "USD" + "EUR" in ConversionSymbols("USD", "EUR");
  }

  // ---- the engine, updating its maps -------------------------------------------

  class ValuationEngine {
    var positions: map<string, OpenPosition>
    var positionValuations: map<string, PositionValuation>
    var bases: map<string, AccountBase>
    var accountValuations: map<string, AccountValuation>
    var bySymbol: Index
    var byAccount: Index
    var accountsByConversion: Index
    var conversionsByAccount: Index
    ghost var loaded: set<string>

    constructor ()
      ensures View() == IDLE
    {
      positions, positionValuations, bases, accountValuations := map[], map[], map[], map[];
      bySymbol, byAccount, accountsByConversion, conversionsByAccount, loaded := map[], map[], map[], map[], {};
    }

    ghost function View(): (e: Engine)
      reads this
    {
      Engine(positions, positionValuations, bases, accountValuations, bySymbol, byAccount, accountsByConversion,
          conversionsByAccount, loaded)
    }

    method Withdraw(symbols: seq<string>, account: string)
      modifies this`accountsByConversion
      ensures accountsByConversion == RemoveUnderAll(old(accountsByConversion), symbols, account)
    {
      hide RemoveFrom;
      for i := 0 to |symbols|
        invariant accountsByConversion == RemoveUnderAll(old(accountsByConversion), symbols[..i], account)
      {
        assert symbols[..i + 1][..i] == symbols[..i];
        accountsByConversion := RemoveFrom(accountsByConversion, symbols[i], account);
      }
      assert symbols[..|symbols|] == symbols;
    }

    method Enter(symbols: seq<string>, account: string)
      modifies this`accountsByConversion
      ensures accountsByConversion == AddUnderAll(old(accountsByConversion), symbols, account)
    {
      hide AddTo;
      for i := 0 to |symbols|
        invariant accountsByConversion == AddUnderAll(old(accountsByConversion), symbols[..i], account)
      {
        assert symbols[..i + 1][..i] == symbols[..i];
        accountsByConversion := AddTo(accountsByConversion, symbols[i], account);
      }
      assert symbols[..|symbols|] == symbols;
    }

    method SymbolsNeeded(account: string) returns (next: seq<string>)
      ensures next == NextSymbols(positions, Members(byAccount, account), CurrencyOf(View(), account))
    {
      hide SymbolList, AddNew, QuoteCurrencyOf, Members;
      var currency := if account in bases then bases[account].currency else "";
      var ids := Members(byAccount, account);
      next := [];
      for i := 0 to |ids|
        invariant next == NextSymbols(positions, ids[..i], currency)
      {
        assert ids[..i + 1][..i] == ids[..i];
        next := AddNew(next, SymbolList(QuoteCurrencyOf(positions, ids[i]), currency));
      }
      assert ids[..|ids|] == ids;
    }

    method Refresh(account: string)
      modifies this
      ensures View() == RefreshConversionIndex(old(View()), account)
    {
      hide NextSymbols, AddUnderAll, RemoveUnderAll, Members;
      if account == "" {
        return;
      }
      Withdraw(Members(conversionsByAccount, account), account);
      var next := SymbolsNeeded(account);
      conversionsByAccount := if next != [] then conversionsByAccount[account := next]
          else conversionsByAccount - {account};
      Enter(next, account);
      loaded := loaded - {account};
    }

    method Remove(id: string, eventAccount: string)
      modifies this
      ensures View() == RemovePosition(old(View()), id, eventAccount)
    {
      hide RefreshConversionIndex, RemoveFrom;
      if id == "" {
        return;
      }
      var account := eventAccount;
      if id in positions {
        var existing := positions[id];
        if existing.accountId != "" {
          account := existing.accountId;
        }
        bySymbol := RemoveFrom(bySymbol, existing.symbol, existing.id);
        byAccount := RemoveFrom(byAccount, existing.accountId, existing.id);
      }
      positions := positions - {id};
      positionValuations := positionValuations - {id};
      Refresh(account);
    }

    method Store(p: OpenPosition)
      requires forall id :: id in positions ==> positions[id].id == id
      modifies this
      ensures View() == StorePosition(old(View()), p)
    {
      hide RefreshConversionIndex, RemoveFrom, AddTo;
      if p.id == "" {
        return;
      }
      var had, before := p.id in positions, p;
      if had {
        before := positions[p.id];
        bySymbol := RemoveFrom(bySymbol, before.symbol, before.id);
        byAccount := RemoveFrom(byAccount, before.accountId, before.id);
      }
      positions := positions[p.id := p];
      bySymbol := AddTo(bySymbol, p.symbol, p.id);
      byAccount := AddTo(byAccount, p.accountId, p.id);
      Refresh(p.accountId);
      if had && before.accountId != p.accountId {
        Refresh(before.accountId);
      }
    }
  }
}
