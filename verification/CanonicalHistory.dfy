/** Day and week bars built from four-hour provider bars on UTC boundaries. */
module CanonicalHistory {
  import opened Common
  import opened Timeframes
  import opened Candles

  /** A field that is not a finite number is absent. */
  datatype RawBar = RawBar(openMs: Option<int>, open: Option<real>, high: Option<real>, low: Option<real>,
      close: Option<real>, volume: Option<real>)

  datatype Bar = Bar(openMs: int, open: real, high: real, low: real, close: real, volume: Option<real>)

  datatype Group = Group(openMs: int, open: real, high: real, low: real, close: real, volume: real, complete: bool,
      sourceBarCount: nat)

  datatype HistoryBar = HistoryBar(openMs: int, closeMs: int, open: real, high: real, low: real, close: real,
      volume: Option<real>, sourceBarCount: nat)

  predicate IsCanonical(tf: Timeframe) { tf == D1 || tf == W1 }

  predicate Usable(r: RawBar) { r.openMs.Some? && r.open.Some? && r.high.Some? && r.low.Some? && r.close.Some? }

  function ToBar(r: RawBar): (b: Bar)
    requires Usable(r)
  {
    Bar(r.openMs.value, r.open.value, r.high.value, r.low.value, r.close.value, r.volume)
  }

  /** The last usable bar given for each open time. */
  function ByTime(raws: seq<RawBar>): (m: map<int, Bar>)
    ensures forall t :: t in m ==> m[t].openMs == t
  {
    if raws == [] then map[]
    else
      var m, raw := ByTime(raws[..|raws| - 1]), raws[|raws| - 1];
      if Usable(raw) then m[raw.openMs.value := ToBar(raw)] else m
  }

  /** The open times in the order a map meets them first. */
  function Times(raws: seq<RawBar>): (ts: seq<int>)
    ensures forall t :: t in ts <==> t in ByTime(raws)
  {
    if raws == [] then []
    else
      var ts, raw := Times(raws[..|raws| - 1]), raws[|raws| - 1];
      if Usable(raw) && raw.openMs.value !in ByTime(raws[..|raws| - 1]) then ts + [raw.openMs.value] else ts
  }

  // ---- sorting -----------------------------------------------------------------

  predicate Ascends(s: seq<int>) { forall i, j :: 0 <= i < j < |s| ==> s[i] < s[j] }

  function Insert(s: seq<int>, x: int): (r: seq<int>)
    requires Ascends(s)
    ensures Ascends(r) && (forall y :: y in r <==> y == x || y in s)
  {
    if s == [] || x < s[0] then [x] + s
    else if x == s[0] then s
    else
      var r := Insert(s[1..], x);
      InsertBehind(s, x, r);
      [s[0]] + r
  }

  lemma InsertBehind(s: seq<int>, x: int, r: seq<int>)
    requires s != [] && Ascends(s) && s[0] < x && Ascends(r) && forall y :: y in r <==> y == x || y in s[1..]
    ensures Ascends([s[0]] + r) && forall y :: y in [s[0]] + r <==> y == x || y in s
  {
    forall i | 0 <= i < |r| ensures s[0] < r[i] {
      assert r[i] in r;
    }
    assert forall y :: y in s <==> y == s[0] || y in s[1..];
  }

  function Ascending(ts: seq<int>): (s: seq<int>)
    ensures Ascends(s) && (forall x :: x in s <==> x in ts)
  {
    if ts == [] then [] else Insert(Ascending(ts[..|ts| - 1]), ts[|ts| - 1])
  }

  lemma FirstIn(s: seq<int>) returns (x: int)
    requires |s| > 0
    ensures x in s
  {
    x := s[0];
  }

  lemma NoElements(s: seq<int>)
    requires forall x :: x !in s
    ensures s == []
  {
    if |s| > 0 {
      var x := FirstIn(s);
      assert false;
    }
  }

  /** An ascending sequence is determined by its elements. */
  lemma {:induction false} AscendingUnique(s: seq<int>, t: seq<int>)
    requires Ascends(s) && Ascends(t) && forall x :: x in s <==> x in t
    ensures s == t
  {
    if s == [] {
      NoElements(t);
    } else if t == [] {
      NoElements(s);
    } else {
      assert s[0] in s && t[0] in t;
      assert s[0] == t[0];
      TailElements(s);
      TailElements(t);
      AscendingUnique(s[1..], t[1..]);
    }
  }

  lemma TailElements(s: seq<int>)
    requires s != [] && Ascends(s)
    ensures Ascends(s[1..]) && forall x :: x in s[1..] <==> x in s && x != s[0]
  {
    forall x ensures x in s[1..] <==> x in s && x != s[0] {
      if x in s[1..] {
        var i :| 0 <= i < |s[1..]| && s[1..][i] == x;
        assert s[i + 1] == x;
      }
    }
  }

  predicate AllIn(times: seq<int>, m: map<int, Bar>) { forall i :: 0 <= i < |times| ==> times[i] in m }

  lemma ElementsIn(times: seq<int>, m: map<int, Bar>)
    requires forall t :: t in times ==> t in m
    ensures AllIn(times, m)
  {
    forall i | 0 <= i < |times| ensures times[i] in m {
      var t := times[i];
      assert t in times;
      assert t in m;
    }
  }

  function BarsAt(m: map<int, Bar>, times: seq<int>): (bs: seq<Bar>)
    requires AllIn(times, m)
    ensures |bs| == |times| && forall i :: 0 <= i < |bs| ==> bs[i] == m[times[i]]
  {
    seq(|times|, i requires 0 <= i < |times| => m[times[i]])
  }

  function SortedBars(raws: seq<RawBar>): (bs: seq<Bar>)
    ensures SortedByTime(bs)
  {
    var m, times := ByTime(raws), Ascending(Times(raws));
    ElementsIn(times, m);
    BarsAt(m, times)
  }

  predicate SortedByTime(bs: seq<Bar>) { forall i, j :: 0 <= i < j < |bs| ==> bs[i].openMs < bs[j].openMs }

  // ---- grouping ----------------------------------------------------------------

  predicate ValidVolume(b: Bar) { b.volume.Some? && b.volume.value >= 0.0 }

  function Counted(g: Group, b: Bar): (h: Group) {
    if ValidVolume(b) then g.(sourceBarCount := g.sourceBarCount + 1, volume := g.volume + b.volume.value)
    else g.(sourceBarCount := g.sourceBarCount + 1, complete := false)
  }

  function NewGroup(openMs: int, b: Bar): (g: Group) {
    Counted(Group(openMs, b.open, b.high, b.low, b.close, 0.0, true, 0), b)
  }

  function Extended(g: Group, b: Bar): (h: Group) {
    Counted(g.(high := MaxReal(g.high, b.high), low := MinReal(g.low, b.low), close := b.close), b)
  }

  function AddBar(gs: seq<Group>, tf: Timeframe, b: Bar): (hs: seq<Group>) {
    var bucket := BucketOpen(b.openMs, tf);
    if gs != [] && gs[|gs| - 1].openMs == bucket then gs[..|gs| - 1] + [Extended(gs[|gs| - 1], b)]
    else gs + [NewGroup(bucket, b)]
  }

  function Groups(tf: Timeframe, bs: seq<Bar>): (gs: seq<Group>) {
    if bs == [] then [] else AddBar(Groups(tf, bs[..|bs| - 1]), tf, bs[|bs| - 1])
  }

  function Published(tf: Timeframe, g: Group): (h: HistoryBar) {
    HistoryBar(g.openMs, g.openMs + StepMs(tf), g.open, g.high, g.low, g.close,
        if g.complete then Some(g.volume) else None, g.sourceBarCount)
  }

  function Publish(tf: Timeframe, gs: seq<Group>): (hs: seq<HistoryBar>)
    ensures |hs| == |gs| && forall i :: 0 <= i < |gs| ==> hs[i] == Published(tf, gs[i])
  {
    seq(|gs|, i requires 0 <= i < |gs| => Published(tf, gs[i]))
  }

  function Aggregated(raws: seq<RawBar>, tf: Timeframe): (hs: seq<HistoryBar>) {
    if !IsCanonical(tf) then [] else Publish(tf, Groups(tf, SortedBars(raws)))
  }

  function Opens(gs: seq<Group>): (s: seq<int>)
    ensures |s| == |gs| && forall i :: 0 <= i < |gs| ==> s[i] == gs[i].openMs
  {
    seq(|gs|, i requires 0 <= i < |gs| => gs[i].openMs)
  }

  lemma AddBarAscends(gs: seq<Group>, tf: Timeframe, b: Bar)
    requires Ascends(Opens(gs)) && (gs != [] ==> gs[|gs| - 1].openMs <= BucketOpen(b.openMs, tf))
    ensures var hs := AddBar(gs, tf, b);
            Ascends(Opens(hs)) && hs != [] && hs[|hs| - 1].openMs == BucketOpen(b.openMs, tf)
  {
    hide BucketOpen, NewGroup, Extended;
    var bucket := BucketOpen(b.openMs, tf);
    NewGroupOpens(bucket, b);
    if gs != [] && gs[|gs| - 1].openMs == bucket {
      ExtendedOpens(gs[|gs| - 1], b);
      assert Opens(AddBar(gs, tf, b)) == Opens(gs);
    } else {
      assert Opens(AddBar(gs, tf, b)) == Opens(gs) + [bucket];
      assert gs != [] ==> Opens(gs)[|gs| - 1] < bucket;
    }
  }

  /** Bars in time order make groups in time order, the last bar's being the last. */
  lemma {:induction false} GroupsAscend(tf: Timeframe, bs: seq<Bar>)
    requires SortedByTime(bs)
    ensures var gs := Groups(tf, bs);
            && Ascends(Opens(gs)) && (gs == [] <==> bs == [])
            && (bs != [] ==> gs[|gs| - 1].openMs == BucketOpen(bs[|bs| - 1].openMs, tf))
  {
    hide BucketOpen, AddBar, Ascends;
    if bs != [] {
      var init := bs[..|bs| - 1];
      GroupsAscend(tf, init);
      if init != [] {
        BucketMonotone(init[|init| - 1].openMs, bs[|bs| - 1].openMs, tf);
      }
      AddBarAscends(Groups(tf, init), tf, bs[|bs| - 1]);
    } else {
      assert Ascends(Opens(Groups(tf, bs))) by { NoneAscend(Opens(Groups(tf, bs))); }
    }
  }

  lemma NoneAscend(s: seq<int>)
    requires s == []
    ensures Ascends(s)
  {
  }

  /** The map of groups holds the groups made so far. */
  ghost predicate Holds(m: map<int, Group>, order: seq<int>, gs: seq<Group>) {
    && order == Opens(gs)
    && (forall i :: 0 <= i < |gs| ==> gs[i].openMs in m && m[gs[i].openMs] == gs[i])
    && (forall t :: t in m <==> t in order)
  }

  lemma HoldsNext(m: map<int, Group>, order: seq<int>, gs: seq<Group>, tf: Timeframe, b: Bar)
    requires Holds(m, order, gs) && Ascends(order)
    requires gs != [] ==> gs[|gs| - 1].openMs <= BucketOpen(b.openMs, tf)
    ensures var bucket := BucketOpen(b.openMs, tf);
            Holds(m[bucket := if bucket in m then Extended(m[bucket], b) else NewGroup(bucket, b)],
                  if bucket in m then order else order + [bucket], AddBar(gs, tf, b))
  {
    hide BucketOpen, Extended, NewGroup;
    var bucket := BucketOpen(b.openMs, tf);
    var next, hs := m[bucket := if bucket in m then Extended(m[bucket], b) else NewGroup(bucket, b)], AddBar(gs, tf, b);
    NewGroupOpens(bucket, b);
    if bucket in m {
      assert bucket in order;
      var i :| 0 <= i < |gs| && order[i] == bucket;
      assert i == |gs| - 1;
      ExtendedOpens(gs[i], b);
      assert Opens(hs) == Opens(gs);
    } else {
      assert Opens(hs) == Opens(gs) + [bucket];
    }
  }

  lemma NewGroupOpens(openMs: int, b: Bar)
    ensures NewGroup(openMs, b).openMs == openMs
  {
  }

  lemma ExtendedOpens(g: Group, b: Bar)
    ensures Extended(g, b).openMs == g.openMs
  {
  }

  /** The first loop: the last usable bar of each open time. */
  method Deduplicate(raws: seq<RawBar>) returns (byTime: map<int, Bar>, times: seq<int>)
    ensures byTime == ByTime(raws) && times == Times(raws)
  {
    byTime, times := map[], [];
    for i := 0 to |raws|
      invariant byTime == ByTime(raws[..i]) && times == Times(raws[..i])
    {
      assert raws[..i + 1][..i] == raws[..i];
      if Usable(raws[i]) {
        if raws[i].openMs.value !in byTime {
          times := times + [raws[i].openMs.value];
        }
        byTime := byTime[raws[i].openMs.value := ToBar(raws[i])];
      }
    }
    assert raws[..|raws|] == raws;
  }

  /** The second loop: the groups of the bars in time order. */
  method GroupBars(bars: seq<Bar>, tf: Timeframe) returns (groups: map<int, Group>, order: seq<int>)
    requires SortedByTime(bars)
    ensures Holds(groups, order, Groups(tf, bars))
  {
    hide BucketOpen, Extended, NewGroup, AddBar, Holds, Ascends;
    groups, order := map[], [];
    NothingHeld(tf, bars);
    for i := 0 to |bars|
      invariant Holds(groups, order, Groups(tf, bars[..i]))
    {
      var bar := bars[i];
      var bucket := BucketOpen(bar.openMs, tf);
      GroupsAscend(tf, bars[..i]);
      if i > 0 {
        BucketMonotone(bars[i - 1].openMs, bar.openMs, tf);
      }
      OrderIsOpens(groups, order, Groups(tf, bars[..i]));
      HoldsNext(groups, order, Groups(tf, bars[..i]), tf, bar);
      assert bars[..i + 1] == bars[..i] + [bar];
      GroupsAppend(tf, bars[..i], bar);
      if bucket in groups {
        groups := groups[bucket := Extended(groups[bucket], bar)];
      } else {
        groups := groups[bucket := NewGroup(bucket, bar)];
        order := order + [bucket];
      }
    }
    assert bars[..|bars|] == bars;
  }

  lemma NothingHeld(tf: Timeframe, bars: seq<Bar>)
    ensures Holds(map[], [], Groups(tf, bars[..0]))
  {
  }

  lemma OrderIsOpens(m: map<int, Group>, order: seq<int>, gs: seq<Group>)
    requires Holds(m, order, gs)
    ensures order == Opens(gs)
  {
  }

  /** The last statement: the groups in ascending order of their opening. */
  method PublishAll(groups: map<int, Group>, opens: seq<int>, tf: Timeframe, ghost gs: seq<Group>)
      returns (hs: seq<HistoryBar>)
    requires opens == Opens(gs) && forall i :: 0 <= i < |gs| ==> gs[i].openMs in groups && groups[gs[i].openMs] == gs[i]
    ensures hs == Publish(tf, gs)
  {
    hide Published;
    hs := [];
    for i := 0 to |opens|
      invariant |hs| == i && forall j :: 0 <= j < i ==> hs[j] == Published(tf, gs[j])
    {
      hs := hs + [Published(tf, groups[opens[i]])];
    }
  }

  /** aggregateCanonicalUtcBars: the maps and sorts make the fold of the sorted bars. */
  method AggregateCanonicalUtcBars(raws: seq<RawBar>, tf: Timeframe) returns (hs: seq<HistoryBar>)
    ensures hs == Aggregated(raws, tf)
  {
    hide BucketOpen, StepMs, Groups, Published, ByTime, Ascends, Ascending, Times;
    if !IsCanonical(tf) {
      return [];
    }
    var byTime, times := Deduplicate(raws);
    ElementsIn(Ascending(times), byTime);
    var bars := BarsAt(byTime, Ascending(times));
    assert bars == SortedBars(raws);
    var groups, order := GroupBars(bars, tf);
    ghost var gs := Groups(tf, bars);
    GroupsAscend(tf, bars);
    var opens := Ascending(order);
    AscendingUnique(opens, Opens(gs));
    hs := PublishAll(groups, opens, tf, gs);
  }

  // ---- four-hour candles nest --------------------------------------------------

  function BarOf(c: Candle): (b: Bar) { Bar(c.openMs, c.open, c.high, c.low, c.close, None) }

  function BarsOf(cs: seq<Candle>): (bs: seq<Bar>)
    ensures |bs| == |cs| && forall i :: 0 <= i < |cs| ==> bs[i] == BarOf(cs[i])
  {
    seq(|cs|, i requires 0 <= i < |cs| => BarOf(cs[i]))
  }

  predicate SameOhlc(g: Group, c: Candle) {
    g.openMs == c.openMs && g.open == c.open && g.high == c.high && g.low == c.low && g.close == c.close
  }

  predicate AllSameOhlc(gs: seq<Group>, cs: seq<Candle>) {
    |gs| == |cs| && forall i :: 0 <= i < |cs| ==> SameOhlc(gs[i], cs[i])
  }

  /** A price that goes to the last bar goes to the last group. */
  lemma UpdateCommutes(gs: seq<Group>, tf: Timeframe, c: Candle, price: real)
    ensures var hs := AddBar(gs, tf, BarOf(c));
            var ks := AddBar(gs, tf, BarOf(WithPrice(c, price)));
            && |hs| == |ks| > 0 && ks[..|ks| - 1] == hs[..|hs| - 1]
            && (forall d :: SameOhlc(hs[|hs| - 1], d) ==> SameOhlc(ks[|ks| - 1], WithPrice(d, price)))
  {
    hide BucketOpen;
  }

  lemma BarsOfUpdate(cs: seq<Candle>, c: Candle, d: Candle)
    ensures BarsOf(cs + [c]) == BarsOf(cs) + [BarOf(c)] && BarsOf(cs + [d])[..|cs|] == BarsOf(cs + [c])[..|cs|]
  {
  }

  lemma GroupsAppend(tf: Timeframe, bs: seq<Bar>, b: Bar)
    ensures Groups(tf, bs + [b]) == AddBar(Groups(tf, bs), tf, b)
  {
    assert (bs + [b])[..|bs|] == bs;
  }

  /** One more tick, in the last four-hour bucket. */
  lemma SameBucketNests(tf: Timeframe, cs: seq<Candle>, c: Candle, ds: seq<Candle>, t: PricedTick)
    requires IsCanonical(tf) && c.openMs == BucketOpen(t.timeMs, H4)
    requires ds != [] && ds[|ds| - 1].openMs == BucketOpen(c.openMs, tf)
    requires AllSameOhlc(Groups(tf, BarsOf(cs + [c])), ds)
    ensures AllSameOhlc(Groups(tf, BarsOf(AddTick(cs + [c], H4, t))), AddTick(ds, tf, t))
  {
    hide BucketOpen, AddBar, WithPrice, SameOhlc, FromTick, Groups;
    FourHoursNest(t.timeMs, tf);
    var d := WithPrice(c, t.price);
    assert AddTick(cs + [c], H4, t) == cs + [d] by { assert (cs + [c])[..|cs|] == cs; }
    BarsOfUpdate(cs, c, d);
    BarsOfUpdate(cs, d, c);
    GroupsAppend(tf, BarsOf(cs), BarOf(c));
    GroupsAppend(tf, BarsOf(cs), BarOf(d));
    UpdateCommutes(Groups(tf, BarsOf(cs)), tf, c, t.price);
    LastUpdates(Groups(tf, BarsOf(cs + [c])), Groups(tf, BarsOf(cs + [d])), ds, t.price);
  }

  lemma LastUpdates(gs: seq<Group>, hs: seq<Group>, ds: seq<Candle>, price: real)
    requires |gs| == |hs| > 0 && hs[..|hs| - 1] == gs[..|gs| - 1] && AllSameOhlc(gs, ds)
    requires forall d :: SameOhlc(gs[|gs| - 1], d) ==> SameOhlc(hs[|hs| - 1], WithPrice(d, price))
    ensures AllSameOhlc(hs, ds[..|ds| - 1] + [WithPrice(ds[|ds| - 1], price)])
  {
    hide WithPrice, SameOhlc;
    var n := |gs| - 1;
    forall i | 0 <= i < n ensures SameOhlc(hs[i], ds[i]) {
      assert hs[i] == hs[..n][i] == gs[..n][i] == gs[i];
    }
    assert SameOhlc(gs[n], ds[n]);
  }

  /** One more tick, in a new four-hour bucket. */
  lemma NewBucketNests(tf: Timeframe, cs: seq<Candle>, ds: seq<Candle>, t: PricedTick)
    requires IsCanonical(tf) && (cs == [] || cs[|cs| - 1].openMs != BucketOpen(t.timeMs, H4))
    requires AllSameOhlc(Groups(tf, BarsOf(cs)), ds)
    ensures AllSameOhlc(Groups(tf, BarsOf(AddTick(cs, H4, t))), AddTick(ds, tf, t))
  {
    FourHoursNest(t.timeMs, tf);
    hide BucketOpen;
    var c := FromTick(H4, BucketOpen(t.timeMs, H4), t.price);
    assert AddTick(cs, H4, t) == cs + [c];
    BarsOfUpdate(cs, c, c);
    GroupsAppend(tf, BarsOf(cs), BarOf(c));
    var gs := Groups(tf, BarsOf(cs));
    hide Groups;
    if gs != [] {
      assert SameOhlc(gs[|gs| - 1], ds[|ds| - 1]);
    }
  }

  /** The last candle of the longer timeframe holds the last four-hour candle. */
  lemma LastNests(tf: Timeframe, ticks: seq<PricedTick>)
    requires IsCanonical(tf) && InTimeOrder(ticks) && ticks != []
    ensures var cs, ds := Direct(H4, ticks), Direct(tf, ticks);
            cs != [] && ds != [] && ds[|ds| - 1].openMs == BucketOpen(cs[|cs| - 1].openMs, tf)
  {
    hide BucketOpen, Direct, AllSummarise, Increasing, OnGrid;
    DirectIsSummary(H4, ticks);
    DirectIsSummary(tf, ticks);
    FourHoursNest(ticks[|ticks| - 1].timeMs, tf);
  }

  /** Main result: for every tick history in time order, aggregating its four-hour
      candles gives the day or week candles built from the ticks themselves. */
  lemma {:induction false} AggregationNests(tf: Timeframe, ticks: seq<PricedTick>)
    requires IsCanonical(tf) && InTimeOrder(ticks)
    ensures AllSameOhlc(Groups(tf, BarsOf(Direct(H4, ticks))), Direct(tf, ticks))
  {
    if ticks != [] {
      var init, t := ticks[..|ticks| - 1], ticks[|ticks| - 1];
      AggregationNests(tf, init);
      var cs, ds := Direct(H4, init), Direct(tf, init);
      if init != [] {
        LastNests(tf, init);
      }
      hide BucketOpen, AddTick, Groups, AllSameOhlc;
      if cs != [] && cs[|cs| - 1].openMs == BucketOpen(t.timeMs, H4) {
        assert cs == cs[..|cs| - 1] + [cs[|cs| - 1]];
        SameBucketNests(tf, cs[..|cs| - 1], cs[|cs| - 1], ds, t);
      } else {
        NewBucketNests(tf, cs, ds, t);
      }
    }
  }

  /** Whatever order, repetition and unusable rows a provider's answer has, it is
      read as the bars it is about. */
  lemma ReadsAsBars(raws: seq<RawBar>, bs: seq<Bar>)
    requires SortedByTime(bs)
    requires forall t :: t in ByTime(raws) <==> exists i :: 0 <= i < |bs| && bs[i].openMs == t
    requires forall i :: 0 <= i < |bs| ==> ByTime(raws)[bs[i].openMs] == bs[i]
    ensures SortedBars(raws) == bs
  {
    var m := ByTime(raws);
    var times := seq(|bs|, i requires 0 <= i < |bs| => bs[i].openMs);
    forall t ensures t in times <==> t in m {
      if t in m {
        var i :| 0 <= i < |bs| && bs[i].openMs == t;
        assert times[i] == t;
      }
    }
    AscendingUnique(times, Ascending(Times(raws)));
  }

  predicate SamePrices(bs: seq<Bar>, cs: seq<Bar>) {
    |bs| == |cs| && forall i :: 0 <= i < |bs| ==> bs[i].(volume := None) == cs[i].(volume := None)
  }

  function NoVolume(g: Group): (h: Group) { g.(volume := 0.0, complete := true) }

  predicate SameButVolume(gs: seq<Group>, hs: seq<Group>) {
    |gs| == |hs| && forall i :: 0 <= i < |gs| ==> NoVolume(gs[i]) == NoVolume(hs[i])
  }

  lemma OneBarIgnoresVolume(openMs: int, g: Group, h: Group, b: Bar, c: Bar)
    requires NoVolume(g) == NoVolume(h) && b.(volume := None) == c.(volume := None)
    ensures NoVolume(Extended(g, b)) == NoVolume(Extended(h, c))
    ensures NoVolume(NewGroup(openMs, b)) == NoVolume(NewGroup(openMs, c))
    ensures g.openMs == h.openMs && b.openMs == c.openMs
  {
    assert NoVolume(g).openMs == NoVolume(h).openMs && NoVolume(g).high == NoVolume(h).high
        && NoVolume(g).low == NoVolume(h).low;
    assert b.(volume := None).openMs == c.(volume := None).openMs;
  }

  lemma AddBarIgnoresVolume(gs: seq<Group>, hs: seq<Group>, tf: Timeframe, b: Bar, c: Bar)
    requires SameButVolume(gs, hs) && b.(volume := None) == c.(volume := None)
    ensures SameButVolume(AddBar(gs, tf, b), AddBar(hs, tf, c))
  {
    hide BucketOpen, Extended, NewGroup, NoVolume;
    var bucket := BucketOpen(b.openMs, tf);
    var any := Group(0, 0.0, 0.0, 0.0, 0.0, 0.0, true, 0);
    OneBarIgnoresVolume(bucket, any, any, b, c);
    if gs != [] {
      OneBarIgnoresVolume(bucket, gs[|gs| - 1], hs[|hs| - 1], b, c);
    }
  }

  /** Volumes never decide an open, high, low or close. */
  lemma {:induction false} GroupsIgnoreVolume(tf: Timeframe, bs: seq<Bar>, cs: seq<Bar>)
    requires SamePrices(bs, cs)
    ensures SameButVolume(Groups(tf, bs), Groups(tf, cs))
  {
    hide AddBar, NoVolume;
    if bs != [] {
      GroupsIgnoreVolume(tf, bs[..|bs| - 1], cs[..|cs| - 1]);
      AddBarIgnoresVolume(Groups(tf, bs[..|bs| - 1]), Groups(tf, cs[..|cs| - 1]), tf, bs[|bs| - 1], cs[|cs| - 1]);
    }
  }

  /** The same result for the published bars of any such answer, volumes and all. */
  lemma HistoryMatchesTicks(tf: Timeframe, ticks: seq<PricedTick>, raws: seq<RawBar>)
    requires IsCanonical(tf) && InTimeOrder(ticks)
    requires SamePrices(SortedBars(raws), BarsOf(Direct(H4, ticks)))
    ensures var hs, cs := Aggregated(raws, tf), Direct(tf, ticks);
            |hs| == |cs| && forall i :: 0 <= i < |cs| ==>
              && hs[i].openMs == cs[i].openMs && hs[i].closeMs == cs[i].openMs + StepMs(tf) && hs[i].open == cs[i].open
              && hs[i].high == cs[i].high && hs[i].low == cs[i].low && hs[i].close == cs[i].close
  {
    hide Direct, Groups, SortedBars, BucketOpen, StepMs, SamePrices;
    AggregationNests(tf, ticks);
    GroupsIgnoreVolume(tf, SortedBars(raws), BarsOf(Direct(H4, ticks)));
    var gs, hs, cs := Groups(tf, SortedBars(raws)), Groups(tf, BarsOf(Direct(H4, ticks))), Direct(tf, ticks);
    assert forall i :: 0 <= i < |cs| ==> NoVolume(gs[i]) == NoVolume(hs[i]) && SameOhlc(hs[i], cs[i]);
  }

  lemma AddBarCounts(gs: seq<Group>, tf: Timeframe, b: Bar)
    ensures Total(AddBar(gs, tf, b), (), CountOf) == Total(gs, (), CountOf) + 1.0
    ensures Total(AddBar(gs, tf, b), (), VolumeOf) == Total(gs, (), VolumeOf) + BarVolumeOf(b, ())
  {
    hide BucketOpen, Total;
    var bucket := BucketOpen(b.openMs, tf);
    if gs != [] && gs[|gs| - 1].openMs == bucket {
      var g := Extended(gs[|gs| - 1], b);
      TotalUpdate(gs, |gs| - 1, g, (), CountOf);
      TotalUpdate(gs, |gs| - 1, g, (), VolumeOf);
      assert gs[|gs| - 1 := g] == AddBar(gs, tf, b);
    } else {
      TotalAppend(gs, NewGroup(bucket, b), (), CountOf);
      TotalAppend(gs, NewGroup(bucket, b), (), VolumeOf);
    }
  }

  /** Every bar, and every valid volume, is counted in one group. */
  lemma {:induction false} GroupsCountBars(tf: Timeframe, bs: seq<Bar>)
    ensures Total(Groups(tf, bs), (), CountOf) == |bs| as real
    ensures Total(Groups(tf, bs), (), VolumeOf) == Total(bs, (), BarVolumeOf)
  {
    hide AddBar;
    if bs != [] {
      GroupsCountBars(tf, bs[..|bs| - 1]);
      AddBarCounts(Groups(tf, bs[..|bs| - 1]), tf, bs[|bs| - 1]);
    }
  }

  function CountOf(g: Group, k: ()): (x: real) { g.sourceBarCount as real }

  function VolumeOf(g: Group, k: ()): (x: real) { g.volume }

  function BarVolumeOf(b: Bar, k: ()): (x: real) { if ValidVolume(b) then b.volume.value else 0.0 }
}
