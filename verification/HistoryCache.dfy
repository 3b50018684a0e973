/** The cache of provider history: entries in least-recently-used order, loads
    shared by concurrent requests, and a generation that a clear moves on. The
    steps are the segments of code between awaits, in every order. */
module HistoryCache {
  import opened Common
  import opened CanonicalHistory

  datatype Config = Config(ttlByTimeframe: map<string, int>, maxEntries: int, maxBars: int)

  /** `loadedBy` names the load whose answer the entry holds. */
  datatype Entry = Entry(key: string, requestedLimit: int, exhausted: bool, expiresAtMs: int, bars: seq<HistoryBar>,
      loadedBy: nat)

  datatype Counters = Counters(hits: nat, misses: nat, loads: nat, deduped: nat, evictions: nat, expirations: nat)

  datatype Cache = Cache(entries: seq<Entry>, inFlight: map<string, nat>, totalBars: int, generation: nat,
      counters: Counters)

  /** slice(-n) for n at least one. */
  function Last(s: seq<HistoryBar>, n: int): (r: seq<HistoryBar>) {
    if n <= 0 then [] else if |s| <= n then s else s[|s| - n..]
  }

  // ---- entries -----------------------------------------------------------------

  function Find(es: seq<Entry>, key: string): (i: Option<nat>)
    ensures i.Some? ==> i.value < |es| && es[i.value].key == key
    ensures i.None? ==> forall j :: 0 <= j < |es| ==> es[j].key != key
  {
    if es == [] then None
    else if es[|es| - 1].key == key then Some(|es| - 1)
    else Find(es[..|es| - 1], key)
  }

  function Without(es: seq<Entry>, i: nat): (r: seq<Entry>)
    requires i < |es|
  {
    es[..i] + es[i + 1..]
  }

  function Delete(c: Cache, key: string): (r: Cache) {
    match Find(c.entries, key)
    case None => c
    case Some(i) => c.(totalBars := Max(0, c.totalBars - |c.entries[i].bars|), entries := Without(c.entries, i))
  }

  /** #get: an expired entry is dropped, a hit moves to the recent end. */
  function Get(c: Cache, key: string, limit: int, nowMs: int): (r: (Cache, Option<seq<HistoryBar>>)) {
    match Find(c.entries, key)
    case None => (c, None)
    case Some(i) =>
      var e := c.entries[i];
      if e.expiresAtMs <= nowMs then
        var d := Delete(c, key);
        (d.(counters := d.counters.(expirations := d.counters.expirations + 1)), None)
      else if !e.exhausted && e.requestedLimit < limit then (c, None)
      else
        var d := c.(entries := Without(c.entries, i) + [e], counters := c.counters.(hits := c.counters.hits + 1));
        (d, Some(Last(e.bars, limit)))
  }

  /** The only entry under the key is at this place. */
  predicate IsOnly(es: seq<Entry>, key: string, i: nat) {
    i < |es| && forall j :: 0 <= j < |es| ==> (es[j].key == key <==> j == i)
  }

  /** Main result on lookups: a stored series answers until it expires, for any limit it was asked
      for or, when it is the whole series, for any. An expired one is dropped and counted, a hit
      moves to the recent end; nothing else changes. */
  lemma HitsIff(c: Cache, key: string, limit: int, nowMs: int, i: nat)
    requires IsOnly(c.entries, key, i)
    ensures var (d, hit) := Get(c, key, limit, nowMs);
            var e, others := c.entries[i], c.entries[..i] + c.entries[i + 1..];
            && (hit.Some? <==> nowMs < e.expiresAtMs && (e.exhausted || limit <= e.requestedLimit))
            && (hit.Some? ==>
                  && hit.value == Last(e.bars, limit)
                  && d == c.(entries := others + [e], counters := c.counters.(hits := c.counters.hits + 1)))
            && (nowMs >= e.expiresAtMs ==>
                  d == c.(entries := others, totalBars := Max(0, c.totalBars - |e.bars|),
                          counters := c.counters.(expirations := c.counters.expirations + 1)))
            && (hit.None? && nowMs < e.expiresAtMs ==> d == c)
  {
  }

  /** Nothing is found, or changed, under a key that is not there. */
  lemma MissesAbsent(c: Cache, key: string, limit: int, nowMs: int)
    requires forall j :: 0 <= j < |c.entries| ==> c.entries[j].key != key
    ensures Get(c, key, limit, nowMs) == (c, None)
  {
  }

  predicate TooBig(cfg: Config, c: Cache) { |c.entries| > cfg.maxEntries || c.totalBars > cfg.maxBars }

  function DropOldest(c: Cache): (r: Cache)
    requires c.entries != []
  {
    c.(totalBars := Max(0, c.totalBars - |c.entries[0].bars|), entries := c.entries[1..],
       counters := c.counters.(evictions := c.counters.evictions + 1))
  }

  function Evict(cfg: Config, c: Cache): (r: Cache)
    decreases |c.entries|
  {
    if !TooBig(cfg, c) || c.entries == [] then c else Evict(cfg, DropOldest(c))
  }

  /** A missing or zero lifetime is half a minute, and none is under a second. */
  function TtlMs(cfg: Config, timeframe: string): (ms: int) {
    Max(1000, if timeframe in cfg.ttlByTimeframe && cfg.ttlByTimeframe[timeframe] != 0
              then cfg.ttlByTimeframe[timeframe] else 30_000)
  }

  function Set(cfg: Config, c: Cache, key: string, timeframe: string, limit: int, bars: seq<HistoryBar>, nowMs: int,
      load: nat): (r: Cache) {
    var d := Delete(c, key);
    Evict(cfg, d.(entries := d.entries + [Entry(key, limit, |bars| < limit, nowMs + TtlMs(cfg, timeframe), bars, load)],
                  totalBars := d.totalBars + |bars|))
  }

  /** How long an answer of this timeframe is kept. */
  predicate LivesFor(cfg: Config, timeframe: string, ms: int) {
    if timeframe in cfg.ttlByTimeframe && cfg.ttlByTimeframe[timeframe] != 0
    then ms == cfg.ttlByTimeframe[timeframe] >= 1000 || (ms == 1000 && cfg.ttlByTimeframe[timeframe] < 1000)
    else ms == 30_000
  }

  /** The newest entry of a store that fits its bounds: the answer, for as long as it lives, and
      the whole series when the provider had fewer bars than were asked for. */
  lemma StoredLives(cfg: Config, c: Cache, key: string, timeframe: string, limit: int, bars: seq<HistoryBar>,
      nowMs: int, load: nat, ms: int)
    requires LivesFor(cfg, timeframe, ms) && |bars| <= cfg.maxBars && cfg.maxEntries >= 1
    requires c.totalBars == BarCount(c.entries)
    ensures var d := Set(cfg, c, key, timeframe, limit, bars, nowMs, load);
            && d.entries != []
            && d.entries[|d.entries| - 1] == Entry(key, limit, |bars| < limit, nowMs + ms, bars, load)
  {
    var d := Delete(c, key);
    DeleteCounts(c, key);
    var e := Entry(key, limit, |bars| < limit, nowMs + ms, bars, load);
    CountAppend(d.entries, [e]);
    CountOne([e]);
    NewestStays(cfg, d.(entries := d.entries + [e], totalBars := d.totalBars + |bars|));
  }

  lemma DeleteCounts(c: Cache, key: string)
    requires c.totalBars == BarCount(c.entries)
    ensures Delete(c, key).totalBars == BarCount(Delete(c, key).entries)
  {
    match Find(c.entries, key) {
      case None =>
      case Some(i) => CountWithout(c.entries, i);
    }
  }

  /** Eviction spares a newest entry that fits both bounds by itself. */
  lemma {:induction false} NewestStays(cfg: Config, c: Cache)
    requires c.entries != [] && |c.entries[|c.entries| - 1].bars| <= cfg.maxBars && cfg.maxEntries >= 1
    requires c.totalBars == BarCount(c.entries)
    ensures var d := Evict(cfg, c);
            d.entries != [] && d.entries[|d.entries| - 1] == c.entries[|c.entries| - 1]
    decreases |c.entries|
  {
    if TooBig(cfg, c) {
      CountWithout(c.entries, 0);
      assert Without(c.entries, 0) == c.entries[1..];
      if |c.entries| == 1 {
        CountOne(c.entries);
        assert false;
      }
      NewestStays(cfg, DropOldest(c));
    }
  }

  lemma CountOne(es: seq<Entry>)
    requires |es| == 1
    ensures BarCount(es) == |es[0].bars|
  {
  }

  function Cleared(c: Cache): (r: Cache) {
    c.(generation := c.generation + 1, entries := [], inFlight := map[], totalBars := 0)
  }

  // ---- requests and loads ------------------------------------------------------

  datatype LoadPhase = LOADING | RETURNED(ok: bool) | SETTLED(ok: bool)

  datatype Load = Load(key: string, timeframe: string, limit: int, generation: nat, phase: LoadPhase)

  datatype RequestPhase = Waits(load: nat) | Owns(load: nat) | Answered(bars: seq<HistoryBar>) | Failed

  datatype Request = Request(key: string, timeframe: string, limit: int, phase: RequestPhase)

  datatype System = System(cache: Cache, loads: seq<Load>, requests: seq<Request>)

  datatype Event =
    | Begin(key: string, timeframe: string, limit: int, nowMs: int)
    | Return(load: nat, ok: bool, nowMs: int)
    | Settle(load: nat)
    | Resume(request: nat, nowMs: int)
    | Clear

  /** The head of the while loop: join the load in flight, or start one. */
  function JoinOrLoad(s: System, key: string, timeframe: string, limit: int): (r: (System, RequestPhase)) {
    var c := s.cache;
    if key in c.inFlight then
      var d := c.(counters := c.counters.(deduped := c.counters.deduped + 1));
      (s.(cache := d), Waits(c.inFlight[key]))
    else
      var d := c.(inFlight := c.inFlight[key := |s.loads|], counters := c.counters.(loads := c.counters.loads + 1));
      var l := Load(key, timeframe, limit, c.generation, LOADING);
      (System(d, s.loads + [l], s.requests), Owns(|s.loads|))
  }

  /** A #get, and the loop when it misses. */
  function GetOrJoin(s: System, key: string, timeframe: string, limit: int, nowMs: int, first: bool)
    : (r: (System, RequestPhase))
  {
    var (c, hit) := Get(s.cache, key, limit, nowMs);
    match hit
    case Some(bars) => (s.(cache := c), Answered(bars))
    case None =>
      var d := if first then c.(counters := c.counters.(misses := c.counters.misses + 1)) else c;
      JoinOrLoad(s.(cache := d), key, timeframe, limit)
  }

  function BeginStep(s: System, key: string, timeframe: string, rawLimit: int, nowMs: int): (t: System) {
    var limit := Max(1, rawLimit);
    if key == "" then s.(requests := s.requests + [Request(key, timeframe, limit, Failed)])
    else
      var (t, phase) := GetOrJoin(s, key, timeframe, limit, nowMs, true);
      t.(requests := t.requests + [Request(key, timeframe, limit, phase)])
  }

  /** The provider answers with the last bars of a fixed series. Only a non-empty
      answer to a load of this generation is stored. */
  function ReturnStep(cfg: Config, source: string -> seq<HistoryBar>, s: System, id: nat, ok: bool,
      nowMs: int): (t: System)
    requires id < |s.loads|
  {
    var l := s.loads[id];
    var bars := Last(source(l.key), l.limit);
    var c :=
      if ok && bars != [] && l.generation == s.cache.generation
      then Set(cfg, s.cache, l.key, l.timeframe, l.limit, bars, nowMs, id)
      else s.cache;
    s.(cache := c, loads := s.loads[id := l.(phase := RETURNED(ok))])
  }

  /** The finally callback: only its own promise is taken out of flight. */
  function SettleStep(s: System, id: nat): (t: System)
    requires id < |s.loads| && s.loads[id].phase.RETURNED?
  {
    var l := s.loads[id];
    var own := l.key in s.cache.inFlight && s.cache.inFlight[l.key] == id;
    s.(cache := if own then s.cache.(inFlight := s.cache.inFlight - {l.key}) else s.cache,
       loads := s.loads[id := l.(phase := SETTLED(l.phase.ok))])
  }

  /** Behind its await: the owner answers from the load, a waiter looks again. */
  function ResumeStep(source: string -> seq<HistoryBar>, s: System, id: nat, nowMs: int): (t: System)
    requires id < |s.requests| && (s.requests[id].phase.Waits? || s.requests[id].phase.Owns?)
    requires s.requests[id].phase.load < |s.loads| && s.loads[s.requests[id].phase.load].phase.SETTLED?
  {
    var q := s.requests[id];
    var l := s.loads[q.phase.load];
    if !l.phase.ok then s.(requests := s.requests[id := q.(phase := Failed)])
    else if q.phase.Owns? then
      s.(requests := s.requests[id := q.(phase := Answered(Last(Last(source(l.key), l.limit), q.limit)))])
    else
      var (t, phase) := GetOrJoin(s, q.key, q.timeframe, q.limit, nowMs, false);
      t.(requests := s.requests[id := q.(phase := phase)])
  }

  predicate CanResume(s: System, id: nat) {
    && id < |s.requests| && (s.requests[id].phase.Waits? || s.requests[id].phase.Owns?)
    && s.requests[id].phase.load < |s.loads| && s.loads[s.requests[id].phase.load].phase.SETTLED?
  }

  function Step(cfg: Config, source: string -> seq<HistoryBar>, s: System, e: Event): (t: System) {
    match e
    case Begin(key, timeframe, limit, nowMs) => BeginStep(s, key, timeframe, limit, nowMs)
    case Return(id, ok, nowMs) =>
      if id < |s.loads| && s.loads[id].phase == LOADING then ReturnStep(cfg, source, s, id, ok, nowMs) else s
    case Settle(id) => if id < |s.loads| && s.loads[id].phase.RETURNED? then SettleStep(s, id) else s
    case Resume(id, nowMs) => if CanResume(s, id) then ResumeStep(source, s, id, nowMs) else s
    case Clear => s.(cache := Cleared(s.cache))
  }

  const EMPTY: System := System(Cache([], map[], 0, 0, Counters(0, 0, 0, 0, 0, 0)), [], [])

  function Run(cfg: Config, source: string -> seq<HistoryBar>, es: seq<Event>): (t: System) {
    if es == [] then EMPTY else Step(cfg, source, Run(cfg, source, es[..|es| - 1]), es[|es| - 1])
  }

  // ---- what every run keeps ----------------------------------------------------

  function BarCount(es: seq<Entry>): (n: nat) { if es == [] then 0 else |es[0].bars| + BarCount(es[1..]) }

  predicate DistinctKeys(es: seq<Entry>) { forall i, j :: 0 <= i < j < |es| ==> es[i].key != es[j].key }

  /** An entry holds the provider's answer to a load begun since the last clear. */
  ghost predicate EntryOk(source: string -> seq<HistoryBar>, generation: nat, loads: seq<Load>, e: Entry) {
    && e.requestedLimit >= 1 && e.bars == Last(source(e.key), e.requestedLimit)
    && e.exhausted == (|e.bars| < e.requestedLimit)
    && e.loadedBy < |loads| && loads[e.loadedBy].key == e.key && loads[e.loadedBy].generation == generation
  }

  ghost predicate EntriesOk(source: string -> seq<HistoryBar>, c: Cache, loads: seq<Load>) {
    && DistinctKeys(c.entries) && c.totalBars == BarCount(c.entries)
    && forall i :: 0 <= i < |c.entries| ==> EntryOk(source, c.generation, loads, c.entries[i])
  }

  predicate Within(cfg: Config, c: Cache) { |c.entries| <= cfg.maxEntries && c.totalBars <= cfg.maxBars }

  predicate IsInFlight(loads: seq<Load>, key: string, id: nat, generation: nat) {
    id < |loads| && loads[id].key == key && loads[id].generation == generation && !loads[id].phase.SETTLED?
  }

  /** The map of loads in flight is exact for the current generation. */
  ghost predicate LoadsOk(c: Cache, loads: seq<Load>) {
    && (forall i :: 0 <= i < |loads| ==> loads[i].generation <= c.generation && loads[i].limit >= 1)
    && (forall k :: k in c.inFlight ==> IsInFlight(loads, k, c.inFlight[k], c.generation))
    && (forall i :: 0 <= i < |loads| && loads[i].generation == c.generation && !loads[i].phase.SETTLED? ==>
          loads[i].key in c.inFlight && c.inFlight[loads[i].key] == i)
  }

  /** One load per key runs per generation. */
  ghost predicate OneLoad(loads: seq<Load>) {
    forall i, j :: 0 <= i < j < |loads| && loads[i].key == loads[j].key && loads[i].generation == loads[j].generation
      ==> loads[i].phase.SETTLED? || loads[j].phase.SETTLED?
  }

  ghost predicate RequestOk(source: string -> seq<HistoryBar>, loads: seq<Load>, q: Request) {
    q.limit >= 1 &&
    match q.phase
    case Waits(l) => l < |loads| && loads[l].key == q.key
    case Owns(l) => l < |loads| && loads[l].key == q.key && loads[l].limit == q.limit
    case Answered(bars) => bars == Last(source(q.key), q.limit)
    case Failed => true
  }

  ghost predicate CacheOk(cfg: Config, source: string -> seq<HistoryBar>, s: System) {
    && EntriesOk(source, s.cache, s.loads) && Within(cfg, s.cache) && LoadsOk(s.cache, s.loads) && OneLoad(s.loads)
    && forall i :: 0 <= i < |s.requests| ==> RequestOk(source, s.loads, s.requests[i])
  }

  lemma LastOfLast(s: seq<HistoryBar>, n: int, m: int)
    requires n >= 1 && m >= 1 && (m <= n || |s| < n)
    ensures Last(Last(s, n), m) == Last(s, m)
  {
  }

  lemma {:induction false} CountAppend(es: seq<Entry>, fs: seq<Entry>)
    ensures BarCount(es + fs) == BarCount(es) + BarCount(fs)
  {
    if es == [] {
      assert es + fs == fs;
    } else {
      assert (es + fs)[1..] == es[1..] + fs;
      CountAppend(es[1..], fs);
    }
  }

  lemma CountWithout(es: seq<Entry>, i: nat)
    requires i < |es|
    ensures BarCount(Without(es, i)) == BarCount(es) - |es[i].bars|
  {
    assert es == es[..i] + ([es[i]] + es[i + 1..]);
    CountAppend(es[..i], [es[i]] + es[i + 1..]);
    CountAppend([es[i]], es[i + 1..]);
    CountAppend(es[..i], es[i + 1..]);
  }

  /** What may follow an entry list without breaking it: fewer entries. */
  lemma DeleteKeeps(source: string -> seq<HistoryBar>, c: Cache, loads: seq<Load>, key: string)
    requires EntriesOk(source, c, loads)
    ensures var d := Delete(c, key);
            && EntriesOk(source, d, loads) && d.generation == c.generation && d.inFlight == c.inFlight
            && |d.entries| <= |c.entries| && d.totalBars <= c.totalBars
            && forall i :: 0 <= i < |d.entries| ==> d.entries[i].key != key
  {
    hide EntryOk, Last;
    match Find(c.entries, key)
    case None =>
    case Some(i) =>
      CountWithout(c.entries, i);
  }

  lemma GetKeeps(source: string -> seq<HistoryBar>, c: Cache, loads: seq<Load>, key: string, limit: int, nowMs: int)
    requires EntriesOk(source, c, loads) && limit >= 1
    ensures var (d, hit) := Get(c, key, limit, nowMs);
            && EntriesOk(source, d, loads) && d.generation == c.generation && d.inFlight == c.inFlight
            && |d.entries| <= |c.entries| && d.totalBars <= c.totalBars
            && (hit.Some? ==> hit.value == Last(source(key), limit))
  {
    DeleteKeeps(source, c, loads, key);
    match Find(c.entries, key)
    case None =>
    case Some(i) =>
      var e := c.entries[i];
      assert EntryOk(source, c.generation, loads, e);
      HitAnswers(source, c.generation, loads, e, limit);
      CountWithout(c.entries, i);
      CountAppend(Without(c.entries, i), [e]);
      hide EntryOk, Last, Delete;
  }

  lemma HitAnswers(source: string -> seq<HistoryBar>, generation: nat, loads: seq<Load>, e: Entry, limit: int)
    requires EntryOk(source, generation, loads, e) && limit >= 1
    ensures e.exhausted || e.requestedLimit >= limit ==> Last(e.bars, limit) == Last(source(e.key), limit)
  {
    if e.exhausted || e.requestedLimit >= limit {
      LastOfLast(source(e.key), e.requestedLimit, limit);
    }
  }

  lemma {:induction false} EvictKeeps(cfg: Config, source: string -> seq<HistoryBar>, c: Cache, loads: seq<Load>)
    requires EntriesOk(source, c, loads) && ValidConfig(cfg)
    ensures var d := Evict(cfg, c);
            EntriesOk(source, d, loads) && Within(cfg, d) && d.generation == c.generation && d.inFlight == c.inFlight
    decreases |c.entries|
  {
    hide EntryOk;
    if c.entries != [] && TooBig(cfg, c) {
      DropKeeps(source, c, loads);
      EvictKeeps(cfg, source, DropOldest(c), loads);
    }
  }

  lemma DropKeeps(source: string -> seq<HistoryBar>, c: Cache, loads: seq<Load>)
    requires EntriesOk(source, c, loads) && c.entries != []
    ensures EntriesOk(source, DropOldest(c), loads)
  {
    hide EntryOk;
  }

  /** The n most recent entries are too many or too large. */
  ghost predicate Overflows(cfg: Config, es: seq<Entry>, n: nat)
    requires n <= |es|
  {
    n > cfg.maxEntries || BarCount(es[|es| - n..]) > cfg.maxBars
  }

  /** Eviction leaves the longest recent part that is within both bounds; the
      newest entry itself goes when it alone is too large. */
  lemma {:induction false} EvictIsLongest(cfg: Config, c: Cache)
    requires c.totalBars == BarCount(c.entries)
    ensures var d := Evict(cfg, c);
            && |d.entries| <= |c.entries| && d.entries == c.entries[|c.entries| - |d.entries|..]
            && forall n: nat :: |d.entries| < n <= |c.entries| ==> Overflows(cfg, c.entries, n)
    decreases |c.entries|
  {
    assert c.entries[0..] == c.entries;
    if c.entries != [] && TooBig(cfg, c) {
      var e := DropOldest(c);
      EvictIsLongest(cfg, e);
      var d := Evict(cfg, c);
      forall n: nat | |d.entries| < n <= |c.entries| ensures Overflows(cfg, c.entries, n) {
        if n < |c.entries| {
          assert c.entries[|c.entries| - n..] == e.entries[|e.entries| - n..];
          assert Overflows(cfg, e.entries, n);
        }
      }
      assert d.entries == c.entries[|c.entries| - |d.entries|..];
    }
  }

  /** Every entry that is evicted is counted, and nothing else. */
  lemma {:induction false} EvictionsAreCounted(cfg: Config, c: Cache)
    ensures var d := Evict(cfg, c);
      && |d.entries| <= |c.entries|
      && d.counters == c.counters.(evictions := c.counters.evictions + (|c.entries| - |d.entries|))
    decreases |c.entries|
  {
    if c.entries != [] && TooBig(cfg, c) { EvictionsAreCounted(cfg, DropOldest(c)); }
  }

  predicate ValidConfig(cfg: Config) { cfg.maxEntries >= 1 && cfg.maxBars >= 1 }

  lemma SetKeeps(cfg: Config, source: string -> seq<HistoryBar>, c: Cache, loads: seq<Load>, timeframe: string,
      nowMs: int, id: nat)
    requires EntriesOk(source, c, loads) && ValidConfig(cfg)
    requires id < |loads| && loads[id].limit >= 1 && loads[id].generation == c.generation
    ensures var l := loads[id];
            var d := Set(cfg, c, l.key, timeframe, l.limit, Last(source(l.key), l.limit), nowMs, id);
            EntriesOk(source, d, loads) && Within(cfg, d) && d.generation == c.generation && d.inFlight == c.inFlight
  {
    hide EntryOk, Delete, Last, EntriesOk, Evict, TtlMs, Within;
    var l := loads[id];
    var bars := Last(source(l.key), l.limit);
    var e := Entry(l.key, l.limit, |bars| < l.limit, nowMs + TtlMs(cfg, timeframe), bars, id);
    NewEntryOk(source, c.generation, loads, e);
    DeleteKeeps(source, c, loads, l.key);
    var d := Delete(c, l.key);
    AddKeeps(source, d, loads, e);
    EvictKeeps(cfg, source, d.(entries := d.entries + [e], totalBars := d.totalBars + |bars|), loads);
  }

  lemma NewEntryOk(source: string -> seq<HistoryBar>, generation: nat, loads: seq<Load>, e: Entry)
    requires e.requestedLimit >= 1 && e.bars == Last(source(e.key), e.requestedLimit)
    requires e.exhausted == (|e.bars| < e.requestedLimit)
    requires e.loadedBy < |loads| && loads[e.loadedBy].key == e.key && loads[e.loadedBy].generation == generation
    ensures EntryOk(source, generation, loads, e)
  {
  }

  lemma AddKeeps(source: string -> seq<HistoryBar>, c: Cache, loads: seq<Load>, e: Entry)
    requires EntriesOk(source, c, loads) && EntryOk(source, c.generation, loads, e)
    requires forall i :: 0 <= i < |c.entries| ==> c.entries[i].key != e.key
    ensures EntriesOk(source, c.(entries := c.entries + [e], totalBars := c.totalBars + |e.bars|), loads)
  {
    hide EntryOk;
    CountAppend(c.entries, [e]);
  }

  // ---- steps -------------------------------------------------------------------

  /** Loads keep their place, key, limit and generation. */
  predicate Grow(ls: seq<Load>, ms: seq<Load>) {
    |ls| <= |ms| && forall i :: 0 <= i < |ls| ==>
        ms[i].key == ls[i].key && ms[i].limit == ls[i].limit && ms[i].generation == ls[i].generation
  }

  lemma EntriesStayOk(source: string -> seq<HistoryBar>, c: Cache, ls: seq<Load>, ms: seq<Load>)
    requires EntriesOk(source, c, ls) && Grow(ls, ms)
    ensures EntriesOk(source, c, ms)
  {
    hide Last;
    forall i | 0 <= i < |c.entries| ensures EntryOk(source, c.generation, ms, c.entries[i]) {
      assert EntryOk(source, c.generation, ls, c.entries[i]);
    }
  }

  lemma RequestsStayOk(source: string -> seq<HistoryBar>, ls: seq<Load>, ms: seq<Load>, qs: seq<Request>)
    requires Grow(ls, ms) && forall i :: 0 <= i < |qs| ==> RequestOk(source, ls, qs[i])
    ensures forall i :: 0 <= i < |qs| ==> RequestOk(source, ms, qs[i])
  {
    hide Last;
    forall i | 0 <= i < |qs| ensures RequestOk(source, ms, qs[i]) {
      assert RequestOk(source, ls, qs[i]);
    }
  }

  lemma StartKeeps(c: Cache, loads: seq<Load>, l: Load)
    requires LoadsOk(c, loads) && OneLoad(loads)
    requires l.key !in c.inFlight && l.generation == c.generation && l.limit >= 1 && l.phase == LOADING
    ensures LoadsOk(c.(inFlight := c.inFlight[l.key := |loads|]), loads + [l]) && OneLoad(loads + [l])
  {
    var d, ms := c.(inFlight := c.inFlight[l.key := |loads|]), loads + [l];
    forall k | k in d.inFlight ensures IsInFlight(ms, k, d.inFlight[k], d.generation) {
      if k != l.key {
        assert IsInFlight(loads, k, c.inFlight[k], c.generation);
      }
    }
  }

  lemma JoinKeeps(cfg: Config, source: string -> seq<HistoryBar>, s: System, key: string, timeframe: string, limit: int)
    requires CacheOk(cfg, source, s) && limit >= 1
    ensures var (t, phase) := JoinOrLoad(s, key, timeframe, limit);
            && CacheOk(cfg, source, t) && Grow(s.loads, t.loads) && t.requests == s.requests
            && RequestOk(source, t.loads, Request(key, timeframe, limit, phase))
            && t.cache.generation == s.cache.generation
  {
    hide Last, EntriesOk, OneLoad;
    var c := s.cache;
    if key in c.inFlight {
      assert IsInFlight(s.loads, key, c.inFlight[key], c.generation);
      CountersAside(source, c, s.loads, c.(counters := c.counters.(deduped := c.counters.deduped + 1)));
    } else {
      var l := Load(key, timeframe, limit, c.generation, LOADING);
      StartKeeps(c, s.loads, l);
      var (t, phase) := JoinOrLoad(s, key, timeframe, limit);
      EntriesStayOk(source, c, s.loads, t.loads);
      CountersAside(source, c, t.loads, t.cache);
      RequestsStayOk(source, s.loads, t.loads, s.requests);
    }
  }

  /** Entries are judged without the counters and the loads in flight. */
  lemma CountersAside(source: string -> seq<HistoryBar>, c: Cache, loads: seq<Load>, d: Cache)
    requires EntriesOk(source, c, loads) && d.entries == c.entries && d.totalBars == c.totalBars
    requires d.generation == c.generation
    ensures EntriesOk(source, d, loads)
  {
    hide EntryOk;
  }

  lemma GetOrJoinKeeps(cfg: Config, source: string -> seq<HistoryBar>, s: System, key: string, timeframe: string,
      limit: int, nowMs: int, first: bool)
    requires CacheOk(cfg, source, s) && limit >= 1
    ensures var (t, phase) := GetOrJoin(s, key, timeframe, limit, nowMs, first);
            && CacheOk(cfg, source, t) && Grow(s.loads, t.loads) && t.requests == s.requests
            && RequestOk(source, t.loads, Request(key, timeframe, limit, phase))
            && t.cache.generation == s.cache.generation
  {
    hide Last, EntriesOk, OneLoad, JoinOrLoad, Get;
    GetKeeps(source, s.cache, s.loads, key, limit, nowMs);
    var (c, hit) := Get(s.cache, key, limit, nowMs);
    if hit.None? {
      var d := if first then c.(counters := c.counters.(misses := c.counters.misses + 1)) else c;
      CountersAside(source, c, s.loads, d);
      JoinKeeps(cfg, source, s.(cache := d), key, timeframe, limit);
    }
  }

  lemma BeginKeeps(cfg: Config, source: string -> seq<HistoryBar>, s: System, key: string, timeframe: string,
      limit: int, nowMs: int)
    requires CacheOk(cfg, source, s)
    ensures var t := BeginStep(s, key, timeframe, limit, nowMs);
            CacheOk(cfg, source, t) && Grow(s.loads, t.loads) && t.cache.generation == s.cache.generation
  {
    hide EntriesOk, OneLoad, LoadsOk, GetOrJoin, Within, RequestOk;
    if key == "" {
      FailedOk(source, s.loads, Request(key, timeframe, Max(1, limit), Failed));
    } else {
      GetOrJoinKeeps(cfg, source, s, key, timeframe, Max(1, limit), nowMs, true);
    }
  }

  lemma FailedOk(source: string -> seq<HistoryBar>, loads: seq<Load>, q: Request)
    requires q.phase == Failed && q.limit >= 1
    ensures RequestOk(source, loads, q)
  {
  }

  lemma PhaseKeeps(c: Cache, loads: seq<Load>, id: nat, phase: LoadPhase)
    requires LoadsOk(c, loads) && OneLoad(loads) && id < |loads| && !loads[id].phase.SETTLED? && !phase.SETTLED?
    ensures var ms := loads[id := loads[id].(phase := phase)]; LoadsOk(c, ms) && OneLoad(ms) && Grow(loads, ms)
  {
    var ms := loads[id := loads[id].(phase := phase)];
    forall k | k in c.inFlight ensures IsInFlight(ms, k, c.inFlight[k], c.generation) {
      assert IsInFlight(loads, k, c.inFlight[k], c.generation);
    }
  }

  lemma ReturnKeeps(cfg: Config, source: string -> seq<HistoryBar>, s: System, id: nat, ok: bool, nowMs: int)
    requires CacheOk(cfg, source, s) && ValidConfig(cfg) && id < |s.loads| && s.loads[id].phase == LOADING
    ensures var t := ReturnStep(cfg, source, s, id, ok, nowMs);
            CacheOk(cfg, source, t) && Grow(s.loads, t.loads) && t.cache.generation == s.cache.generation
    ensures s.loads[id].generation != s.cache.generation ==> ReturnStep(cfg, source, s, id, ok, nowMs).cache == s.cache
  {
    var l, t := s.loads[id], ReturnStep(cfg, source, s, id, ok, nowMs);
    assert l.limit >= 1;
    hide Last, EntriesOk, OneLoad, LoadsOk, Set, Within, RequestOk, Grow;
    PhaseKeeps(s.cache, s.loads, id, RETURNED(ok));
    EntriesStayOk(source, s.cache, s.loads, t.loads);
    RequestsStayOk(source, s.loads, t.loads, s.requests);
    if l.generation == s.cache.generation {
      SetKeeps(cfg, source, s.cache, s.loads, l.timeframe, nowMs, id);
      EntriesStayOk(source, Set(cfg, s.cache, l.key, l.timeframe, l.limit, Last(source(l.key), l.limit), nowMs, id),
          s.loads, t.loads);
    }
    InFlightAside(s.cache, t.cache, t.loads);
  }

  lemma InFlightAside(c: Cache, d: Cache, loads: seq<Load>)
    requires LoadsOk(c, loads) && d.inFlight == c.inFlight && d.generation == c.generation
    ensures LoadsOk(d, loads)
  {
  }

  lemma SettleKeeps(cfg: Config, source: string -> seq<HistoryBar>, s: System, id: nat)
    requires CacheOk(cfg, source, s) && id < |s.loads| && s.loads[id].phase.RETURNED?
    ensures var t := SettleStep(s, id);
            CacheOk(cfg, source, t) && Grow(s.loads, t.loads) && t.cache.generation == s.cache.generation
  {
    hide Last, EntriesOk, RequestOk;
    var l, t := s.loads[id], SettleStep(s, id);
    assert Grow(s.loads, t.loads);
    EntriesStayOk(source, s.cache, s.loads, t.loads);
    CountersAside(source, s.cache, t.loads, t.cache);
    RequestsStayOk(source, s.loads, t.loads, s.requests);
    forall k | k in t.cache.inFlight ensures IsInFlight(t.loads, k, t.cache.inFlight[k], t.cache.generation) {
      assert IsInFlight(s.loads, k, s.cache.inFlight[k], s.cache.generation);
    }
  }

  lemma ResumeKeeps(cfg: Config, source: string -> seq<HistoryBar>, s: System, id: nat, nowMs: int)
    requires CacheOk(cfg, source, s) && CanResume(s, id)
    ensures var t := ResumeStep(source, s, id, nowMs);
            CacheOk(cfg, source, t) && Grow(s.loads, t.loads) && t.cache.generation == s.cache.generation
  {
    var q := s.requests[id];
    assert RequestOk(source, s.loads, q);
    var l := s.loads[q.phase.load];
    if l.phase.ok && q.phase.Owns? {
      LastOfLast(source(l.key), l.limit, q.limit);
    }
    if l.phase.ok && q.phase.Waits? {
      GetOrJoinKeeps(cfg, source, s, q.key, q.timeframe, q.limit, nowMs, false);
    }
    hide Last, EntriesOk, OneLoad, LoadsOk, Within, GetOrJoin;
  }

  lemma ClearKeeps(cfg: Config, source: string -> seq<HistoryBar>, s: System)
    requires CacheOk(cfg, source, s) && ValidConfig(cfg)
    ensures CacheOk(cfg, source, s.(cache := Cleared(s.cache)))
  {
    hide RequestOk, EntryOk, OneLoad;
  }

  lemma StepKeeps(cfg: Config, source: string -> seq<HistoryBar>, s: System, e: Event)
    requires CacheOk(cfg, source, s) && ValidConfig(cfg)
    ensures var t := Step(cfg, source, s, e);
            && CacheOk(cfg, source, t) && Grow(s.loads, t.loads)
            && t.cache.generation == s.cache.generation + (if e.Clear? then 1 else 0)
  {
    hide CacheOk, Grow, BeginStep, ReturnStep, SettleStep, ResumeStep;
    Same(s.loads);
    match e
    case Begin(key, timeframe, limit, nowMs) => BeginKeeps(cfg, source, s, key, timeframe, limit, nowMs);
    case Return(id, ok, nowMs) =>
      if id < |s.loads| && s.loads[id].phase == LOADING {
        ReturnKeeps(cfg, source, s, id, ok, nowMs);
      }
    case Settle(id) =>
      if id < |s.loads| && s.loads[id].phase.RETURNED? {
        SettleKeeps(cfg, source, s, id);
      }
    case Resume(id, nowMs) =>
      if CanResume(s, id) {
        ResumeKeeps(cfg, source, s, id, nowMs);
      }
    case Clear => ClearKeeps(cfg, source, s);
  }

  lemma Same(ls: seq<Load>)
    ensures Grow(ls, ls)
  {
  }

  /** Main result: in every run every answer is the last `limit` bars of the
      provider's series, the bar count is exact, both bounds hold, and one load
      per key runs per generation. */
  lemma {:induction false} RunKeepsCache(cfg: Config, source: string -> seq<HistoryBar>, es: seq<Event>)
    requires ValidConfig(cfg)
    ensures CacheOk(cfg, source, Run(cfg, source, es))
  {
    if es != [] {
      RunKeepsCache(cfg, source, es[..|es| - 1]);
      hide CacheOk, Step;
      StepKeeps(cfg, source, Run(cfg, source, es[..|es| - 1]), es[|es| - 1]);
    }
  }

  lemma {:induction false} RunExtends(cfg: Config, source: string -> seq<HistoryBar>, es: seq<Event>, more: seq<Event>)
    requires ValidConfig(cfg)
    ensures var s, t := Run(cfg, source, es), Run(cfg, source, es + more);
            Grow(s.loads, t.loads) && s.cache.generation <= t.cache.generation
  {
    hide CacheOk, Step;
    if more == [] {
      assert es + more == es;
      Same(Run(cfg, source, es).loads);
    } else {
      var init := more[..|more| - 1];
      RunExtends(cfg, source, es, init);
      assert (es + more)[..|es + more| - 1] == es + init;
      RunKeepsCache(cfg, source, es + init);
      StepKeeps(cfg, source, Run(cfg, source, es + init), more[|more| - 1]);
    }
  }

  /** Every load of a run is counted, whatever became of it. */
  lemma {:induction false} LoadsAreCounted(cfg: Config, source: string -> seq<HistoryBar>, es: seq<Event>)
    ensures var s := Run(cfg, source, es);
      s.cache.counters.loads == |s.loads|
  {
    if es != [] {
      var s, e := Run(cfg, source, es[..|es| - 1]), es[|es| - 1];
      LoadsAreCounted(cfg, source, es[..|es| - 1]);
      hide Run, Set, Get, Last;
      match e
      case Begin(key, timeframe, limit, nowMs) => GetCountsNoLoad(s.cache, key, Max(1, limit), nowMs);
      case Return(id, ok, nowMs) =>
        if id < |s.loads| {
          var l := s.loads[id];
          SetCountsNoLoad(cfg, s.cache, l.key, l.timeframe, l.limit, Last(source(l.key), l.limit), nowMs, id);
        }
      case Resume(id, nowMs) =>
        if CanResume(s, id) {
          var q := s.requests[id];
          GetCountsNoLoad(s.cache, q.key, q.limit, nowMs);
        }
      case _ =>
    }
  }

  lemma GetCountsNoLoad(c: Cache, key: string, limit: int, nowMs: int)
    ensures Get(c, key, limit, nowMs).0.counters.loads == c.counters.loads
  {
  }

  lemma SetCountsNoLoad(cfg: Config, c: Cache, key: string, timeframe: string, limit: int, bars: seq<HistoryBar>,
      nowMs: int, load: nat)
    ensures Set(cfg, c, key, timeframe, limit, bars, nowMs, load).counters.loads == c.counters.loads
  {
    var d := Delete(c, key);
    EvictionsAreCounted(cfg,
        d.(entries := d.entries + [Entry(key, limit, |bars| < limit, nowMs + TtlMs(cfg, timeframe), bars, load)],
           totalBars := d.totalBars + |bars|));
  }

  /** Main result: a load begun before a clear never stores afterwards. Whatever
      runs after the clear, every entry comes from a load begun after it. */
  lemma ClearedLoadsNeverStore(cfg: Config, source: string -> seq<HistoryBar>, es: seq<Event>, more: seq<Event>)
    requires ValidConfig(cfg)
    ensures var s, t := Run(cfg, source, es), Run(cfg, source, (es + [Clear]) + more);
            forall i :: 0 <= i < |t.cache.entries| ==> t.cache.entries[i].loadedBy >= |s.loads|
  {
    var s := Run(cfg, source, es);
    var c := Run(cfg, source, es + [Clear]);
    var t := Run(cfg, source, (es + [Clear]) + more);
    assert (es + [Clear])[..|es|] == es;
    assert c == s.(cache := Cleared(s.cache));
    RunKeepsCache(cfg, source, es);
    RunKeepsCache(cfg, source, (es + [Clear]) + more);
    RunExtends(cfg, source, es + [Clear], more);
    hide Run, Last, OneLoad, Within, RequestOk;
    forall i | 0 <= i < |t.cache.entries| ensures t.cache.entries[i].loadedBy >= |s.loads| {
      assert EntryOk(source, t.cache.generation, t.loads, t.cache.entries[i]);
    }
  }

  // ---- the cache, updating its maps --------------------------------------------

  class ProviderHistoryCache {
    const cfg: Config
    var entries: seq<Entry>
    var inFlight: map<string, nat>
    var totalBars: int
    var generation: nat
    var counters: Counters

    constructor (ttlByTimeframe: map<string, int>, maxEntries: int, maxBars: int)
      ensures ValidConfig(cfg) && View() == EMPTY.cache
    {
      cfg := Config(ttlByTimeframe, Max(1, if maxEntries == 0 then 256 else maxEntries),
                    Max(1, if maxBars == 0 then 50_000 else maxBars));
      entries, inFlight, totalBars, generation, counters := [], map[], 0, 0, Counters(0, 0, 0, 0, 0, 0);
    }

    function View(): (c: Cache)
      reads this
    {
      Cache(entries, inFlight, totalBars, generation, counters)
    }

    method DeleteKey(key: string)
      modifies this
      ensures View() == Delete(old(View()), key)
    {
      var at := Find(entries, key);
      if at.Some? {
        totalBars := Max(0, totalBars - |entries[at.value].bars|);
        entries := Without(entries, at.value);
      }
    }

    method Lookup(key: string, limit: int, nowMs: int) returns (hit: Option<seq<HistoryBar>>)
      modifies this
      ensures (View(), hit) == Get(old(View()), key, limit, nowMs)
    {
      var at := Find(entries, key);
      if at.None? {
        return None;
      }
      var entry := entries[at.value];
      if entry.expiresAtMs <= nowMs {
        DeleteKey(key);
        counters := counters.(expirations := counters.expirations + 1);
        return None;
      }
      if !entry.exhausted && entry.requestedLimit < limit {
        return None;
      }
      entries := Without(entries, at.value);
      entries := entries + [entry];
      counters := counters.(hits := counters.hits + 1);
      hit := Some(Last(entry.bars, limit));
    }

    method EvictOldest()
      modifies this
      ensures View() == Evict(cfg, old(View()))
    {
      while (|entries| > cfg.maxEntries || totalBars > cfg.maxBars) && entries != []
        invariant Evict(cfg, View()) == Evict(cfg, old(View()))
        decreases |entries|
      {
        totalBars := Max(0, totalBars - |entries[0].bars|);
        entries := entries[1..];
        counters := counters.(evictions := counters.evictions + 1);
      }
    }

    method Store(key: string, timeframe: string, limit: int, bars: seq<HistoryBar>, nowMs: int, load: nat)
      modifies this
      ensures View() == Set(cfg, old(View()), key, timeframe, limit, bars, nowMs, load)
    {
      DeleteKey(key);
      entries := entries + [Entry(key, limit, |bars| < limit, nowMs + TtlMs(cfg, timeframe), bars, load)];
      totalBars := totalBars + |bars|;
      EvictOldest();
    }

    method Clear()
      modifies this
      ensures View() == Cleared(old(View()))
    {
      generation := generation + 1;
      entries := [];
      inFlight := map[];
      totalBars := 0;
    }
  }
}
