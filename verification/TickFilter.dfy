/** The tick sanity filter of one symbol: small steps pass, a large one waits for a
    second tick that agrees with it, and recovery quotes are trusted. */
module TickFilter {
  import opened Common

  datatype Policy = Policy(minMovePercent: real, minPoints: real)

  datatype Instrument = Instrument(assetClass: string, tickSize: Option<real>)

  datatype Config = Config(policy: map<string, Policy>, window: int, multiplier: real, bandFraction: real,
      sameDirection: real, maxPendingAgeMs: int, toleranceMs: int)

  /** `id` is the tick's place in arrival order. */
  datatype Tick = Tick(id: nat, price: Option<real>, providerTimestampMs: Option<int>, trusted: bool, receivedAtMs: int)

  datatype Pending = Pending(tick: Tick, price: real, threshold: real, anchor: real)

  datatype State = State(lastPrice: Option<real>, lastTimestampMs: Option<int>, recentMoves: seq<real>,
      lastThreshold: Option<real>,
                         pending: Option<Pending>, quarantined: nat, rejected: nat, confirmed: nat)

  const NEW_STATE: State := State(None, None, [], None, None, 0, 0, 0)

  datatype Reason = INVALID_PRICE | OUT_OF_ORDER | TRUSTED_RECOVERY | FIRST_TICK | NORMAL | QUARANTINED | CONFIRMED_JUMP
                  | REJECTED_ISOLATED_SPIKE | REPLACED_QUARANTINE

  /** `threshold` is the one the reason is about, if it is about one. */
  datatype Verdict = Verdict(state: State, accepted: seq<Tick>, reason: Reason, threshold: real)

  // ---- the median of the recent moves ------------------------------------------

  function Insert(s: seq<real>, x: real): (r: seq<real>) {
    if s == [] then [x]
    else if s[|s| - 1] <= x then s + [x]
    else Insert(s[..|s| - 1], x) + [s[|s| - 1]]
  }

  function Sorted(s: seq<real>): (r: seq<real>) {
    if s == [] then [] else Insert(Sorted(s[..|s| - 1]), s[|s| - 1])
  }

  function Median(s: seq<real>): (m: real) {
    var ordered := Sorted(s);
    SortedLength(s);
    if s == [] then 0.0
    else if |s| % 2 == 1 then ordered[|s| / 2]
    else (ordered[|s| / 2 - 1] + ordered[|s| / 2]) / 2.0
  }

  lemma {:induction false} InsertLength(s: seq<real>, x: real)
    ensures |Insert(s, x)| == |s| + 1
  {
    if s != [] && s[|s| - 1] > x {
      InsertLength(s[..|s| - 1], x);
    }
  }

  lemma {:induction false} SortedLength(s: seq<real>)
    ensures |Sorted(s)| == |s|
  {
    if s != [] {
      SortedLength(s[..|s| - 1]);
      InsertLength(Sorted(s[..|s| - 1]), s[|s| - 1]);
    }
  }

  // ---- threshold ---------------------------------------------------------------

  /** Number.EPSILON, two to the power of minus 52. */
  const EPSILON := 1.0 / 4503599627370496.0

  function TickSize(i: Instrument): (x: real) {
    if i.tickSize.Some? && i.tickSize.value > 0.0 then i.tickSize.value else 0.0
  }

  function PolicyFor(cfg: Config, i: Instrument): (p: Policy) {
    if i.assetClass in cfg.policy then cfg.policy[i.assetClass]
    else if "OTHER" in cfg.policy then cfg.policy["OTHER"]
    else Policy(0.25, 100.0)
  }

  function Threshold(cfg: Config, moves: seq<real>, i: Instrument, anchor: real): (x: real)
    ensures x > 0.0
  {
    var p := PolicyFor(cfg, i);
    var pointFloor := TickSize(i) * MaxReal(0.0, p.minPoints);
    var percentFloor := anchor * MaxReal(0.0, p.minMovePercent) / 100.0;
    var dynamicFloor := Median(moves) * cfg.multiplier;
    MaxReal(MaxReal(pointFloor, percentFloor),
        MaxReal(dynamicFloor, if TickSize(i) > 0.0 then TickSize(i) else EPSILON))
  }

  /** The instrument's tick size, if it has one that is positive. */
  predicate HasTickSize(i: Instrument, x: real) {
    (i.tickSize.Some? && i.tickSize.value > 0.0 && x == i.tickSize.value)
    || ((i.tickSize.None? || i.tickSize.value <= 0.0) && x == 0.0)
  }

  /** The policy of its asset class, of OTHER, or the built-in one. */
  predicate HasPolicy(cfg: Config, i: Instrument, p: Policy) {
    && (i.assetClass in cfg.policy ==> p == cfg.policy[i.assetClass])
    && (i.assetClass !in cfg.policy && "OTHER" in cfg.policy ==> p == cfg.policy["OTHER"])
    && (i.assetClass !in cfg.policy && "OTHER" !in cfg.policy ==> p == Policy(0.25, 100.0))
  }

  /** Main result on the threshold: it is the greatest of the policy's least number of ticks, its
      least percentage of the anchor, the multiplied median of the recent moves, and one tick. */
  lemma ThresholdIsGreatest(cfg: Config, moves: seq<real>, i: Instrument, anchor: real, tick: real, p: Policy)
    requires HasTickSize(i, tick) && HasPolicy(cfg, i, p)
    ensures var x := Threshold(cfg, moves, i, anchor);
            var points, percent := tick * (if p.minPoints > 0.0 then p.minPoints else 0.0),
              anchor * (if p.minMovePercent > 0.0 then p.minMovePercent else 0.0) / 100.0;
            var dynamic, least := Median(moves) * cfg.multiplier, if tick > 0.0 then tick else 1.0 / 4503599627370496.0;
            && x >= points && x >= percent && x >= dynamic && x >= least
            && (x == points || x == percent || x == dynamic || x == least)
  {
    hide Median;
    assert PolicyFor(cfg, i) == p && TickSize(i) == tick;
    assert MaxReal(0.0, p.minPoints) == if p.minPoints > 0.0 then p.minPoints else 0.0;
    assert MaxReal(0.0, p.minMovePercent) == if p.minMovePercent > 0.0 then p.minMovePercent else 0.0;
  }

  // ---- inspection --------------------------------------------------------------

  function Accept(cfg: Config, s: State, price: real, timestamp: Option<int>): (r: State) {
    var moves := if s.lastPrice.None? then s.recentMoves else s.recentMoves + [AbsReal(price - s.lastPrice.value)];
    s.(recentMoves := if |moves| > cfg.window && s.lastPrice.Some? then moves[1..] else moves,
       lastPrice := Some(price),
       lastTimestampMs := if timestamp.None? then s.lastTimestampMs
                          else if s.lastTimestampMs.None? then timestamp
                          else Some(Max(s.lastTimestampMs.value, timestamp.value)))
  }

  function Reject(s: State): (r: State) { s.(rejected := s.rejected + 1, pending := None) }

  function Sign(x: real): (s: int) { if x > 0.0 then 1 else if x < 0.0 then -1 else 0 }

  /** The second tick is near the first, or further along in its direction. */
  predicate Confirms(cfg: Config, p: Pending, i: Instrument, price: real) {
    var distance := AbsReal(price - p.price);
    var sameDirection := Sign(p.price - p.anchor) != 0 && Sign(price - p.anchor) == Sign(p.price - p.anchor);
    || distance <= MaxReal(p.threshold * cfg.bandFraction, TickSize(i) * 20.0)
    || (sameDirection && AbsReal(price - p.anchor) > p.threshold && distance <= p.threshold * cfg.sameDirection)
  }

  /** inspect for a valid price; `state` is the one the threshold was noted in. */
  function Judge(cfg: Config, s: State, t: Tick, i: Instrument, price: real, anchor: real): (v: Verdict) {
    var threshold := Threshold(cfg, s.recentMoves, i, anchor);
    var noted := s.(lastThreshold := Some(threshold));
    var near := AbsReal(price - anchor) <= threshold;
    match s.pending
    case None =>
      if near then Verdict(Accept(cfg, noted, price, t.providerTimestampMs), [t], NORMAL, threshold)
      else Verdict(noted.(pending := Some(Pending(t, price, threshold, anchor)), quarantined := s.quarantined + 1),
          [], QUARANTINED, threshold)
    case Some(p) =>
      if Confirms(cfg, p, i, price) then
        var cleared := noted.(pending := None, confirmed := s.confirmed + 1);
        var first := Accept(cfg, cleared, p.price, p.tick.providerTimestampMs);
        Verdict(Accept(cfg, first, price, t.providerTimestampMs), [p.tick, t], CONFIRMED_JUMP, p.threshold)
      else if near then
        var accepted := Accept(cfg, Reject(noted), price, t.providerTimestampMs);
        Verdict(accepted, [t], REJECTED_ISOLATED_SPIKE, threshold)
      else
        var replaced := noted.(rejected := s.rejected + 1, quarantined := s.quarantined + 1,
                               pending := Some(Pending(t, price, threshold, anchor)));
        Verdict(replaced, [], REPLACED_QUARANTINE, threshold)
  }

  predicate IsValid(t: Tick) { t.price.Some? && t.price.value > 0.0 }

  predicate IsLate(cfg: Config, s: State, t: Tick) {
    t.providerTimestampMs.Some? && s.lastTimestampMs.Some?
        && t.providerTimestampMs.value < s.lastTimestampMs.value - cfg.toleranceMs
  }

  function DropStale(cfg: Config, s: State, t: Tick): (r: State) {
    if s.pending.Some? && t.receivedAtMs - s.pending.value.tick.receivedAtMs > cfg.maxPendingAgeMs then Reject(s) else s
  }

  function Inspect(cfg: Config, s: State, t: Tick, i: Instrument): (v: Verdict) {
    if !IsValid(t) then Verdict(s, [], INVALID_PRICE, 0.0)
    else if IsLate(cfg, s, t) then Verdict(s.(rejected := s.rejected + 1), [], OUT_OF_ORDER, 0.0)
    else
      var price := t.price.value;
      if t.trusted then
        Verdict(Accept(cfg, if s.pending.Some? then Reject(s) else s, price, t.providerTimestampMs), [t],
            TRUSTED_RECOVERY, 0.0)
      else if s.lastPrice.None? then Verdict(Accept(cfg, s, price, t.providerTimestampMs), [t], FIRST_TICK, 0.0)
      else Judge(cfg, DropStale(cfg, s, t), t, i, price, s.lastPrice.value)
  }

  /** x is within r of y. */
  predicate Within(x: real, y: real, r: real) { -r <= x - y <= r }

  /** The second price agrees with the first: it is close to it, or further along on the same side
      of the anchor and beyond the threshold itself. */
  predicate Agrees(cfg: Config, p: Pending, price: real, tick: real) {
    || Within(price, p.price, p.threshold * cfg.bandFraction)
    || Within(price, p.price, tick * 20.0)
    || (((price > p.anchor && p.price > p.anchor) || (price < p.anchor && p.price < p.anchor))
        && !Within(price, p.anchor, p.threshold) && Within(price, p.price, p.threshold * cfg.sameDirection))
  }

  lemma AgreesIff(cfg: Config, p: Pending, i: Instrument, price: real, tick: real)
    requires HasTickSize(i, tick)
    ensures Confirms(cfg, p, i, price) <==> Agrees(cfg, p, price, tick)
  {
    assert TickSize(i) == tick;
    var band, step := p.threshold * cfg.bandFraction, tick * 20.0;
    var near := Within(price, p.price, band) || Within(price, p.price, step);
    assert AbsReal(price - p.price) <= MaxReal(band, step) <==> near;
  }

  /** The pending tick that is still there when this one arrives. */
  function StillPending(cfg: Config, s: State, t: Tick): (p: Option<Pending>) {
    if s.pending.Some? && t.receivedAtMs - s.pending.value.tick.receivedAtMs <= cfg.maxPendingAgeMs then s.pending
    else None
  }

  /** Main result on one tick: what it is taken for. Prices that are not positive and ticks older
      than the tolerance are turned away; a trusted one and the first pass; any other is judged by
      its distance from the last price, and by whether it agrees with a pending one. */
  lemma InspectsAs(cfg: Config, s: State, t: Tick, i: Instrument, tick: real)
    requires HasTickSize(i, tick)
    ensures var v := Inspect(cfg, s, t, i);
            var valid := t.price.Some? && t.price.value > 0.0;
            var late := t.providerTimestampMs.Some? && s.lastTimestampMs.Some?
                        && t.providerTimestampMs.value < s.lastTimestampMs.value - cfg.toleranceMs;
            && (v.reason == INVALID_PRICE <==> !valid)
            && (v.reason == OUT_OF_ORDER <==> valid && late)
            && (v.reason == TRUSTED_RECOVERY <==> valid && !late && t.trusted)
            && (v.reason == FIRST_TICK <==> valid && !late && !t.trusted && s.lastPrice.None?)
            && (!valid || late ==> v.accepted == [])
            && (valid && !late && (t.trusted || s.lastPrice.None?) ==> v.accepted == [t])
            && (valid && !late && !t.trusted && s.lastPrice.Some? ==>
                  var price, anchor, pending := t.price.value, s.lastPrice.value, StillPending(cfg, s, t);
                  var x := Threshold(cfg, s.recentMoves, i, anchor);
                  var near := Within(price, anchor, x);
                  var agrees := pending.Some? && Agrees(cfg, pending.value, price, tick);
                  && (v.reason == NORMAL <==> pending.None? && near)
                  && (v.reason == QUARANTINED <==> pending.None? && !near)
                  && (v.reason == CONFIRMED_JUMP <==> agrees)
                  && (v.reason == REJECTED_ISOLATED_SPIKE <==> pending.Some? && !agrees && near)
                  && (v.reason == REPLACED_QUARANTINE <==> pending.Some? && !agrees && !near)
                  && v.accepted == (if agrees then [pending.value.tick, t] else if near then [t] else [])
                  && (v.state.pending == if agrees || near then None else Some(Pending(t, price, x, anchor)))
                  && v.state.lastThreshold == Some(x)
                  && v.state.quarantined == s.quarantined + (if agrees || near then 0 else 1)
                  && v.state.confirmed == s.confirmed + (if agrees then 1 else 0))
  {
    hide Threshold, Confirms, Agrees;
    if s.pending.Some? && t.price.Some? {
      AgreesIff(cfg, s.pending.value, i, t.price.value, tick);
    }
  }

  /** What accepting leaves of a tick: its price is the last, its move joins the last `window`
      ones, and the latest timestamp never goes back. */
  lemma AcceptRemembers(cfg: Config, s: State, price: real, timestamp: Option<int>)
    requires |s.recentMoves| <= cfg.window && cfg.window >= 0
    ensures var r := Accept(cfg, s, price, timestamp);
            && r.lastPrice == Some(price) && |r.recentMoves| <= cfg.window
            && (timestamp.None? ==> r.lastTimestampMs == s.lastTimestampMs)
            && (timestamp.Some? ==> r.lastTimestampMs.Some? && r.lastTimestampMs.value >= timestamp.value)
            && (s.lastTimestampMs.Some? ==>
                  r.lastTimestampMs.Some? && r.lastTimestampMs.value >= s.lastTimestampMs.value)
            && (r.lastTimestampMs == s.lastTimestampMs || r.lastTimestampMs == timestamp)
            && (s.lastPrice.None? ==> r.recentMoves == s.recentMoves)
            && (s.lastPrice.Some? && cfg.window > 0 ==>
                  var move := r.recentMoves[|r.recentMoves| - 1];
                  && r.recentMoves != [] && move >= 0.0
                  && (move == price - s.lastPrice.value || move == s.lastPrice.value - price)
                  && r.recentMoves[..|r.recentMoves| - 1]
                     == if |s.recentMoves| == cfg.window then s.recentMoves[1..] else s.recentMoves)
  {
  }

  // ---- runs --------------------------------------------------------------------

  /** An accepted tick, the instrument it was judged with, and why it passed. */
  datatype Passed = Passed(tick: Tick, instrument: Instrument, reason: Reason, threshold: real)

  datatype History = History(state: State, passed: seq<Passed>, valid: nat)

  function Log(v: Verdict, i: Instrument): (ps: seq<Passed>)
    ensures |ps| == |v.accepted| && forall k :: 0 <= k < |ps| ==>
        ps[k] == Passed(v.accepted[k], i, v.reason, v.threshold)
  {
    seq(|v.accepted|, k requires 0 <= k < |v.accepted| => Passed(v.accepted[k], i, v.reason, v.threshold))
  }

  datatype Input = Input(price: Option<real>, providerTimestampMs: Option<int>, trusted: bool, receivedAtMs: int,
      instrument: Instrument)

  function TickOf(n: nat, x: Input): (t: Tick) { Tick(n, x.price, x.providerTimestampMs, x.trusted, x.receivedAtMs) }

  function Step(cfg: Config, h: History, t: Tick, i: Instrument): (r: History) {
    var v := Inspect(cfg, h.state, t, i);
    History(v.state, h.passed + Log(v, i), h.valid + (if IsValid(t) then 1 else 0))
  }

  function Run(cfg: Config, xs: seq<Input>): (h: History) {
    if xs == [] then History(NEW_STATE, [], 0)
    else Step(cfg, Run(cfg, xs[..|xs| - 1]), TickOf(|xs| - 1, xs[|xs| - 1]), xs[|xs| - 1].instrument)
  }

  predicate IsConfirmed(p: Passed, k: ()) { p.reason == CONFIRMED_JUMP }

  /** Every quarantined tick is still pending, or was confirmed or rejected. */
  predicate CountersFit(s: State) {
    var pending := if s.pending.Some? then 1 else 0;
    s.confirmed + pending <= s.quarantined <= s.confirmed + s.rejected + pending
  }

  lemma InspectCounts(cfg: Config, s: State, t: Tick, i: Instrument)
    requires CountersFit(s)
    ensures var v := Inspect(cfg, s, t, i);
      && CountersFit(v.state) && |v.accepted| <= 2
      && v.state.confirmed == s.confirmed + (if v.reason == CONFIRMED_JUMP then 1 else 0)
      && (v.reason == CONFIRMED_JUMP ==> |v.accepted| == 2)
  {
    hide Threshold, Confirms;
  }

  /** The counters over every run: confirmed ticks pass in pairs, and the quarantined ones add up. */
  lemma {:induction false} CountersAdd(cfg: Config, xs: seq<Input>)
    ensures var h := Run(cfg, xs);
      CountersFit(h.state) && Tally(h.passed, (), IsConfirmed) == 2 * h.state.confirmed
  {
    if xs != [] {
      var init, x := xs[..|xs| - 1], xs[|xs| - 1];
      CountersAdd(cfg, init);
      var h, t := Run(cfg, init), TickOf(|xs| - 1, x);
      InspectCounts(cfg, h.state, t, x.instrument);
      LoggedAreConfirmed(h.passed, Inspect(cfg, h.state, t, x.instrument), x.instrument);
      hide Inspect, Tally, Log, CountersFit;
    }
  }

  lemma LoggedAreConfirmed(passed: seq<Passed>, v: Verdict, i: Instrument)
    requires |v.accepted| <= 2
    ensures Tally(passed + Log(v, i), (), IsConfirmed)
      == Tally(passed, (), IsConfirmed) + (if v.reason == CONFIRMED_JUMP then |v.accepted| else 0)
  {
    var ps := Log(v, i);
    if |ps| >= 1 { TallyAppend(passed, ps[0], (), IsConfirmed); }
    if |ps| == 2 {
      TallyAppend(passed + [ps[0]], ps[1], (), IsConfirmed);
      assert passed + ps == passed + [ps[0]] + [ps[1]];
    }
    if |ps| == 1 { assert passed + ps == passed + [ps[0]]; }
    if |ps| == 0 { assert passed + ps == passed; }
  }

  /** In arrival order, without repetition, valid, and behind it any pending tick. */
  predicate InArrivalOrder(h: History, n: nat) {
    && (forall j, k :: 0 <= j < k < |h.passed| ==> h.passed[j].tick.id < h.passed[k].tick.id)
    && (forall k :: 0 <= k < |h.passed| ==> h.passed[k].tick.id < n && IsValid(h.passed[k].tick))
    && (h.state.pending.Some? ==>
          var t := h.state.pending.value.tick;
          t.id < n && IsValid(t) && t.price.value == h.state.pending.value.price
          && (h.passed != [] ==> h.passed[|h.passed| - 1].tick.id < t.id))
  }

  function PriceOf(p: Passed): (x: real) { if p.tick.price.Some? then p.tick.price.value else 0.0 }

  /** The moves between consecutive accepted prices, the last `window` of them. */
  function Moves(cfg: Config, passed: seq<Passed>): (ms: seq<real>) {
    if |passed| < 2 then []
    else
      var ms := Moves(cfg, passed[..|passed| - 1])
          + [AbsReal(PriceOf(passed[|passed| - 1]) - PriceOf(passed[|passed| - 2]))];
      if |ms| > cfg.window then ms[1..] else ms
  }

  /** What the filter remembers is what it accepted. */
  predicate Remembers(cfg: Config, h: History) {
    && h.state.lastPrice == (if h.passed == [] then None else Some(PriceOf(h.passed[|h.passed| - 1])))
    && h.state.recentMoves == Moves(cfg, h.passed)
    && (h.state.pending.Some? ==>
          && h.state.lastPrice == Some(h.state.pending.value.anchor)
          && AbsReal(h.state.pending.value.price - h.state.pending.value.anchor) > h.state.pending.value.threshold)
  }

  predicate Conserved(h: History) {
    h.valid == |h.passed| + h.state.rejected + (if h.state.pending.Some? then 1 else 0)
  }

  /** The step from one accepted tick to the next is within the threshold of what
      had been accepted, unless recovery or a confirmed pair let it through. */
  ghost predicate Justified(cfg: Config, passed: seq<Passed>) {
    forall k :: 1 <= k < |passed| ==> StepJustified(cfg, passed, k)
  }

  predicate StepJustified(cfg: Config, passed: seq<Passed>, k: nat)
    requires 1 <= k < |passed|
  {
    var p, before := passed[k], PriceOf(passed[k - 1]);
    match p.reason
    case NORMAL | REJECTED_ISOLATED_SPIKE =>
      p.threshold == Threshold(cfg, Moves(cfg, passed[..k]), p.instrument, before)
          && AbsReal(PriceOf(p) - before) <= p.threshold
    case TRUSTED_RECOVERY => p.tick.trusted
    case CONFIRMED_JUMP => true
    case _ => false
  }

  /** A first tick beyond the threshold and a second one that agrees with it. */
  predicate IsConfirmedPair(cfg: Config, passed: seq<Passed>, k: nat)
    requires 1 <= k && k + 1 < |passed|
  {
    var first, second, anchor := passed[k], passed[k + 1], PriceOf(passed[k - 1]);
    && first.reason == second.reason == CONFIRMED_JUMP && first.threshold == second.threshold
    && AbsReal(PriceOf(first) - anchor) > first.threshold
    && Confirms(cfg, Pending(first.tick, PriceOf(first), first.threshold, anchor), second.instrument, PriceOf(second))
  }

  /** Confirmed ticks come in such pairs, so none moves the price alone. */
  predicate PairedUp(cfg: Config, passed: seq<Passed>) {
    || passed == []
    || (passed[|passed| - 1].reason != CONFIRMED_JUMP && PairedUp(cfg, passed[..|passed| - 1]))
    || (|passed| >= 3 && IsConfirmedPair(cfg, passed, |passed| - 2) && PairedUp(cfg, passed[..|passed| - 2]))
  }

  ghost predicate Sound(cfg: Config, h: History, n: nat) {
    InArrivalOrder(h, n) && Remembers(cfg, h) && Conserved(h) && Justified(cfg, h.passed) && PairedUp(cfg, h.passed)
  }

  // ---- proofs ------------------------------------------------------------------

  predicate Tracks(cfg: Config, s: State, passed: seq<Passed>) {
    && s.lastPrice == (if passed == [] then None else Some(PriceOf(passed[|passed| - 1])))
    && s.recentMoves == Moves(cfg, passed)
  }

  lemma AcceptTracks(cfg: Config, s: State, passed: seq<Passed>, p: Passed)
    requires Tracks(cfg, s, passed)
    ensures Tracks(cfg, Accept(cfg, s, PriceOf(p), p.tick.providerTimestampMs), passed + [p])
  {
    assert (passed + [p])[..|passed|] == passed;
  }

  lemma JustifiedAppend(cfg: Config, passed: seq<Passed>, p: Passed)
    requires Justified(cfg, passed) && (passed != [] ==> StepJustified(cfg, passed + [p], |passed|))
    ensures Justified(cfg, passed + [p])
  {
    hide Threshold, Moves;
    forall k | 1 <= k < |passed| + 1 ensures StepJustified(cfg, passed + [p], k) {
      if k < |passed| {
        assert StepJustified(cfg, passed, k);
        assert (passed + [p])[..k] == passed[..k];
      }
    }
  }

  /** One accepted tick that is not part of a pair. */
  lemma OnePasses(cfg: Config, h: History, n: nat, t: Tick, p: Passed, s: State, r: History)
    requires Sound(cfg, h, n) && t.id == n && IsValid(t) && p.tick == t && p.reason != CONFIRMED_JUMP
    requires Tracks(cfg, s, h.passed) && s.pending.None?
    requires s.rejected == h.state.rejected + (if h.state.pending.Some? then 1 else 0)
    requires h.passed != [] ==> StepJustified(cfg, h.passed + [p], |h.passed|)
    requires r == History(Accept(cfg, s, PriceOf(p), t.providerTimestampMs), h.passed + [p], h.valid + 1)
    ensures Sound(cfg, r, n + 1)
  {
    AcceptTracks(cfg, s, h.passed, p);
    JustifiedAppend(cfg, h.passed, p);
    assert r.passed[..|h.passed|] == h.passed;
    hide Threshold, Moves, Justified, StepJustified, IsConfirmedPair;
  }

  /** A tick that is not accepted: late, or quarantined. */
  lemma NonePasses(cfg: Config, h: History, n: nat, t: Tick, s: State, r: History)
    requires Sound(cfg, h, n) && t.id == n && IsValid(t)
    requires Tracks(cfg, s, h.passed)
    requires s.rejected + (if s.pending.Some? then 1 else 0) == h.state.rejected
        + (if h.state.pending.Some? then 1 else 0) + 1
    requires s.pending == h.state.pending
             || (s.pending.Some? && s.pending.value.tick == t && s.pending.value.price == t.price.value
                 && s.lastPrice == Some(s.pending.value.anchor)
                 && AbsReal(t.price.value - s.pending.value.anchor) > s.pending.value.threshold)
    requires r == History(s, h.passed, h.valid + 1)
    ensures Sound(cfg, r, n + 1)
  {
    hide Threshold, Moves, Justified, PairedUp;
  }

  /** The pending tick and the one that confirms it. */
  lemma PairPasses(cfg: Config, h: History, n: nat, t: Tick, i: Instrument, s: State, r: History)
    requires Sound(cfg, h, n) && t.id == n && IsValid(t) && h.state.pending.Some? && Tracks(cfg, s, h.passed)
    requires s.pending.None?
    requires s.rejected == h.state.rejected
    requires Confirms(cfg, h.state.pending.value, i, t.price.value)
    requires var p := h.state.pending.value;
             var first := Passed(p.tick, i, CONFIRMED_JUMP, p.threshold);
             var second := Passed(t, i, CONFIRMED_JUMP, p.threshold);
             var one := Accept(cfg, s, p.price, p.tick.providerTimestampMs);
             var both := Accept(cfg, one, t.price.value, t.providerTimestampMs);
             r == History(both, h.passed + [first, second], h.valid + 1)
    ensures Sound(cfg, r, n + 1)
  {
    hide Threshold, Moves, Justified, Confirms, PairedUp, Accept, IsConfirmedPair;
    var p := h.state.pending.value;
    var first := Passed(p.tick, i, CONFIRMED_JUMP, p.threshold);
    var second := Passed(t, i, CONFIRMED_JUMP, p.threshold);
    var mid := h.passed + [first];
    assert r.passed == mid + [second];
    var s1 := Accept(cfg, s, p.price, p.tick.providerTimestampMs);
    AcceptTracks(cfg, s, h.passed, first);
    AcceptTracks(cfg, s1, mid, second);
    AcceptCounts(cfg, s, p.price, p.tick.providerTimestampMs);
    AcceptCounts(cfg, s1, t.price.value, t.providerTimestampMs);
    JustifiedAppend(cfg, h.passed, first);
    JustifiedAppend(cfg, mid, second);
    PairedAppend(cfg, h.passed, first, second, p.anchor, i);
  }

  lemma AcceptCounts(cfg: Config, s: State, price: real, timestamp: Option<int>)
    ensures var r := Accept(cfg, s, price, timestamp); r.pending == s.pending && r.rejected == s.rejected
  {
  }

  lemma PairedAppend(cfg: Config, passed: seq<Passed>, first: Passed, second: Passed, anchor: real, i: Instrument)
    requires PairedUp(cfg, passed) && passed != [] && PriceOf(passed[|passed| - 1]) == anchor
    requires first.reason == second.reason == CONFIRMED_JUMP && first.threshold == second.threshold
    requires second.instrument == i
    requires AbsReal(PriceOf(first) - anchor) > first.threshold
    requires Confirms(cfg, Pending(first.tick, PriceOf(first), first.threshold, anchor), i, PriceOf(second))
    ensures PairedUp(cfg, passed + [first, second])
  {
    hide Confirms;
    var all := passed + [first, second];
    assert all[..|all| - 2] == passed;
    assert IsConfirmedPair(cfg, all, |all| - 2);
  }

  lemma JudgeKeeps(cfg: Config, h: History, n: nat, t: Tick, i: Instrument)
    requires Sound(cfg, h, n) && t.id == n && IsValid(t) && h.state.lastPrice.Some?
    ensures var v := Judge(cfg, h.state, t, i, t.price.value, h.state.lastPrice.value);
            Sound(cfg, History(v.state, h.passed + Log(v, i), h.valid + 1), n + 1)
  {
    hide Threshold, Moves, Justified, PairedUp, Accept, Confirms, InArrivalOrder;
    var anchor, price := h.state.lastPrice.value, t.price.value;
    var v := Judge(cfg, h.state, t, i, price, anchor);
    var r := History(v.state, h.passed + Log(v, i), h.valid + 1);
    var threshold := Threshold(cfg, h.state.recentMoves, i, anchor);
    var noted := h.state.(lastThreshold := Some(threshold));
    if v.reason == NORMAL || v.reason == REJECTED_ISOLATED_SPIKE {
      var p := Passed(t, i, v.reason, threshold);
      assert (h.passed + [p])[..|h.passed|] == h.passed;
      assert Log(v, i) == [p];
      OnePasses(cfg, h, n, t, p, if v.reason == NORMAL then noted else Reject(noted), r);
    } else if v.reason == CONFIRMED_JUMP {
      var p := h.state.pending.value;
      assert Log(v, i) == [Passed(p.tick, i, CONFIRMED_JUMP, p.threshold), Passed(t, i, CONFIRMED_JUMP, p.threshold)];
      PairPasses(cfg, h, n, t, i, noted.(pending := None, confirmed := h.state.confirmed + 1), r);
    } else {
      assert Log(v, i) == [];
      assert r.passed == h.passed;
      NonePasses(cfg, h, n, t, v.state, r);
    }
  }

  /** Forgetting a stale pending tick counts it as rejected. */
  lemma DropKeeps(cfg: Config, h: History, n: nat, t: Tick)
    requires Sound(cfg, h, n)
    ensures Sound(cfg, h.(state := DropStale(cfg, h.state, t)), n)
    ensures DropStale(cfg, h.state, t).lastPrice == h.state.lastPrice
  {
    hide Threshold, Moves, Justified, PairedUp;
  }

  lemma SoundTracks(cfg: Config, h: History, n: nat)
    requires Sound(cfg, h, n)
    ensures Tracks(cfg, h.state, h.passed)
  {
  }

  lemma SkipKeeps(cfg: Config, h: History, n: nat)
    requires Sound(cfg, h, n)
    ensures Sound(cfg, h, n + 1)
  {
    hide Threshold, Moves, Justified, PairedUp;
  }

  /** A recovery quote, or the first tick. */
  lemma FreePasses(cfg: Config, h: History, n: nat, t: Tick, i: Instrument, reason: Reason)
    requires Sound(cfg, h, n) && t.id == n && IsValid(t)
    requires if h.passed == [] then reason == FIRST_TICK || reason == TRUSTED_RECOVERY
             else reason == TRUSTED_RECOVERY && t.trusted
    ensures var s := if h.state.pending.Some? then Reject(h.state) else h.state;
            var accepted := Accept(cfg, s, t.price.value, t.providerTimestampMs);
            Sound(cfg, History(accepted, h.passed + [Passed(t, i, reason, 0.0)], h.valid + 1), n + 1)
  {
    hide Threshold, Moves, Justified, PairedUp, InArrivalOrder, Sound, Accept;
    SoundTracks(cfg, h, n);
    var s := if h.state.pending.Some? then Reject(h.state) else h.state;
    var p := Passed(t, i, reason, 0.0);
    var accepted := Accept(cfg, s, t.price.value, t.providerTimestampMs);
    OnePasses(cfg, h, n, t, p, s, History(accepted, h.passed + [p], h.valid + 1));
  }

  lemma StepKeeps(cfg: Config, h: History, n: nat, t: Tick, i: Instrument)
    requires Sound(cfg, h, n) && t.id == n
    ensures Sound(cfg, Step(cfg, h, t, i), n + 1)
  {
    hide Accept, Judge, Sound, Moves, DropStale;
    SoundTracks(cfg, h, n);
    var v, r := Inspect(cfg, h.state, t, i), Step(cfg, h, t, i);
    if !IsValid(t) {
      assert r == h;
      SkipKeeps(cfg, h, n);
    } else if IsLate(cfg, h.state, t) {
      assert r.passed == h.passed;
      NonePasses(cfg, h, n, t, v.state, r);
    } else if t.trusted || h.state.lastPrice.None? {
      assert Log(v, i) == [Passed(t, i, v.reason, 0.0)];
      if h.state.lastPrice.None? && !t.trusted {
        NoPending(cfg, h, n);
      }
      FreePasses(cfg, h, n, t, i, v.reason);
    } else {
      DropKeeps(cfg, h, n, t);
      JudgeKeeps(cfg, h.(state := DropStale(cfg, h.state, t)), n, t, i);
    }
  }

  lemma NoPending(cfg: Config, h: History, n: nat)
    requires Sound(cfg, h, n) && h.state.lastPrice.None?
    ensures h.state.pending.None?
  {
    hide Threshold, Moves, Justified, PairedUp;
  }

  /** Main result: for every tick sequence, what is accepted is a part of the valid
      input in arrival order without repetition; every valid tick is accepted,
      rejected or the one pending; a pending tick is measured from the last
      accepted price; and a step beyond the threshold is only let through by
      recovery or as a confirmed pair. */
  lemma {:induction false} RunIsSound(cfg: Config, xs: seq<Input>)
    ensures Sound(cfg, Run(cfg, xs), |xs|)
  {
    if xs != [] {
      RunIsSound(cfg, xs[..|xs| - 1]);
      hide Sound, Step;
      StepKeeps(cfg, Run(cfg, xs[..|xs| - 1]), |xs| - 1, TickOf(|xs| - 1, xs[|xs| - 1]), xs[|xs| - 1].instrument);
    } else {
      assert PairedUp(cfg, []);
    }
  }

  // ---- the median splits the moves ---------------------------------------------

  predicate AtMost(x: real, m: real) { x <= m }

  predicate AtLeast(x: real, m: real) { x >= m }

  predicate Ascends(s: seq<real>) { forall i, j :: 0 <= i < j < |s| ==> s[i] <= s[j] }

  lemma {:induction false} InsertSorts(s: seq<real>, x: real, m: real)
    requires Ascends(s)
    ensures var r := Insert(s, x);
            && Ascends(r) && |r| == |s| + 1
            && (forall i :: 0 <= i < |r| ==> r[i] <= x || (s != [] && r[i] <= s[|s| - 1]))
            && Tally(r, m, AtMost) == Tally(s, m, AtMost) + (if x <= m then 1 else 0)
            && Tally(r, m, AtLeast) == Tally(s, m, AtLeast) + (if x >= m then 1 else 0)
  {
    if s == [] {
      assert Insert(s, x) == [] + [x];
      TallyAppend([], x, m, AtMost);
      TallyAppend([], x, m, AtLeast);
    } else if s[|s| - 1] <= x {
      TallyAppend(s, x, m, AtMost);
      TallyAppend(s, x, m, AtLeast);
    } else {
      var init, last := s[..|s| - 1], s[|s| - 1];
      InsertSorts(init, x, m);
      TallyAppend(Insert(init, x), last, m, AtMost);
      TallyAppend(Insert(init, x), last, m, AtLeast);
    }
  }

  lemma {:induction false} SortedSorts(s: seq<real>, m: real)
    ensures var r := Sorted(s);
            Ascends(r) && |r| == |s| && Tally(r, m, AtMost) == Tally(s, m, AtMost)
                && Tally(r, m, AtLeast) == Tally(s, m, AtLeast)
  {
    if s != [] {
      SortedSorts(s[..|s| - 1], m);
      InsertSorts(Sorted(s[..|s| - 1]), s[|s| - 1], m);
    }
  }

  lemma {:induction false} CountsBelow(s: seq<real>, m: real, k: nat)
    requires k <= |s| && forall i :: 0 <= i < k ==> s[i] <= m
    ensures Tally(s, m, AtMost) >= k
  {
    if s != [] {
      CountsBelow(s[..|s| - 1], m, if k == |s| then k - 1 else k);
    }
  }

  lemma {:induction false} CountsAbove(s: seq<real>, m: real, k: nat)
    requires k <= |s| && forall i :: k <= i < |s| ==> s[i] >= m
    ensures Tally(s, m, AtLeast) >= |s| - k
  {
    if k < |s| {
      CountsAbove(s[..|s| - 1], m, k);
    }
  }

  /** At least half of the moves are at most the median, and at least half at least it. */
  lemma MedianSplits(s: seq<real>)
    ensures 2 * Tally(s, Median(s), AtMost) >= |s| && 2 * Tally(s, Median(s), AtLeast) >= |s|
    ensures s == [] ==> Median(s) == 0.0
  {
    if s == [] { return; }
    hide Sorted, Tally, Median, Ascends;
    var m, r, mid := Median(s), Sorted(s), |s| / 2;
    SortedSorts(s, m);
    MedianIsMiddle(s, m);
    CountsBelow(r, m, if |s| % 2 == 1 then mid + 1 else mid);
    CountsAbove(r, m, mid);
  }

  lemma MedianIsMiddle(s: seq<real>, m: real)
    requires s != [] && m == Median(s)
    ensures var r, mid := Sorted(s), |s| / 2;
            && |r| == |s| && (forall i :: 0 <= i < (if |s| % 2 == 1 then mid + 1 else mid) ==> r[i] <= m)
            && (forall i :: mid <= i < |s| ==> r[i] >= m)
  {
    SortedSorts(s, m);
    hide Sorted, Tally;
    var r, mid := Sorted(s), |s| / 2;
    if |s| % 2 == 0 {
      assert r[mid - 1] <= r[mid];
    }
  }

  // ---- the filter, updating its states -----------------------------------------

  class TickSanityFilter {
    const cfg: Config
    var states: map<string, State>

    constructor (cfg: Config)
      ensures states == map[] && this.cfg == cfg
    {
      this.cfg := cfg;
      states := map[];
    }

    function StateOf(symbol: string): (s: State)
      reads this
    {
      if symbol in states then states[symbol] else NEW_STATE
    }

    method AcceptTick(symbol: string, price: real, timestamp: Option<int>)
      requires symbol in states
      modifies this
      ensures states == old(states)[symbol := Accept(cfg, old(states)[symbol], price, timestamp)]
    {
      var state := states[symbol];
      if state.lastPrice.Some? {
        state := state.(recentMoves := state.recentMoves + [AbsReal(price - state.lastPrice.value)]);
        if |state.recentMoves| > cfg.window {
          state := state.(recentMoves := state.recentMoves[1..]);
        }
      }
      state := state.(lastPrice := Some(price));
      if timestamp.Some? {
        state := state.(lastTimestampMs := if state.lastTimestampMs.None? then timestamp
                                           else Some(Max(state.lastTimestampMs.value, timestamp.value)));
      }
      states := states[symbol := state];
    }

    /** From the threshold on, for a tick that is measured against the last price. */
    method JudgeTick(symbol: string, t: Tick, i: Instrument) returns (accepted: seq<Tick>, reason: Reason)
      requires symbol in states && states[symbol].lastPrice.Some? && IsValid(t)
      modifies this
      ensures var v := Judge(cfg, old(states)[symbol], t, i, t.price.value, old(states)[symbol].lastPrice.value);
              accepted == v.accepted && reason == v.reason && states == old(states)[symbol := v.state]
    {
      hide Threshold, Confirms, Accept;
      var state, price := states[symbol], t.price.value;
      var anchor := state.lastPrice.value;
      var threshold := Threshold(cfg, state.recentMoves, i, anchor);
      var near := AbsReal(price - anchor) <= threshold;
      var pending := state.pending;
      state := state.(lastThreshold := Some(threshold));
      if pending.Some? && Confirms(cfg, pending.value, i, price) {
        states := states[symbol := state.(pending := None, confirmed := state.confirmed + 1)];
        AcceptTick(symbol, pending.value.price, pending.value.tick.providerTimestampMs);
        AcceptTick(symbol, price, t.providerTimestampMs);
        return [pending.value.tick, t], CONFIRMED_JUMP;
      }
      if near {
        states := states[symbol := if pending.Some? then Reject(state) else state];
        AcceptTick(symbol, price, t.providerTimestampMs);
        return [t], if pending.Some? then REJECTED_ISOLATED_SPIKE else NORMAL;
      }
      states := states[symbol := state.(rejected := state.rejected + (if pending.Some? then 1 else 0),
                                        pending := Some(Pending(t, price, threshold, anchor)),
                                        quarantined := state.quarantined + 1)];
      return [], if pending.Some? then REPLACED_QUARANTINE else QUARANTINED;
    }

    /** An unknown symbol gets a state of its own; no other symbol is touched. */
    method InspectTick(symbol: string, t: Tick, i: Instrument) returns (accepted: seq<Tick>, reason: Reason)
      modifies this
      ensures var v := Inspect(cfg, old(StateOf(symbol)), t, i);
              && (if symbol == "" then accepted == [] && reason == INVALID_PRICE
                  else accepted == v.accepted && reason == v.reason)
              && (if symbol != "" && IsValid(t) then states == old(states)[symbol := v.state]
                  else states == old(states))
    {
      hide Judge, Accept;
      if symbol == "" || !IsValid(t) {
        return [], INVALID_PRICE;
      }
      var price := t.price.value;
      states := states[symbol := StateOf(symbol)];
      var state := states[symbol];
      if IsLate(cfg, state, t) {
        states := states[symbol := state.(rejected := state.rejected + 1)];
        return [], OUT_OF_ORDER;
      }
      if t.trusted {
        if state.pending.Some? {
          states := states[symbol := Reject(state)];
        }
        AcceptTick(symbol, price, t.providerTimestampMs);
        return [t], TRUSTED_RECOVERY;
      }
      if state.lastPrice.None? {
        AcceptTick(symbol, price, t.providerTimestampMs);
        return [t], FIRST_TICK;
      }
      states := states[symbol := DropStale(cfg, state, t)];
      accepted, reason := JudgeTick(symbol, t, i);
    }
  }
}
