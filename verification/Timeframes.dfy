/** Chart timeframes and their UTC buckets. */
module Timeframes {

  datatype Timeframe = S1 | S5 | S15 | S30 | M1 | M5 | M15 | M30 | H1 | H4 | D1 | W1

  function StepMs(tf: Timeframe): (ms: int)
    ensures ms > 0
  {
    match tf
    case S1 => 1_000
    case S5 => 5_000
    case S15 => 15_000
    case S30 => 30_000
    case M1 => 60_000
    case M5 => 300_000
    case M15 => 900_000
    case M30 => 1_800_000
    case H1 => 3_600_000
    case H4 => 14_400_000
    case D1 => 86_400_000
    case W1 => 604_800_000
  }

  /** A second is a thousand milliseconds, and each timeframe a whole number of the shorter ones. */
  lemma StepsAre()
    ensures StepMs(S1) == 1000 && StepMs(S5) == 5 * StepMs(S1) && StepMs(S15) == 15 * StepMs(S1)
    ensures StepMs(S30) == 30 * StepMs(S1) && StepMs(M1) == 60 * StepMs(S1) && StepMs(M5) == 5 * StepMs(M1)
    ensures StepMs(M15) == 15 * StepMs(M1) && StepMs(M30) == 30 * StepMs(M1) && StepMs(H1) == 60 * StepMs(M1)
    ensures StepMs(H4) == 4 * StepMs(H1) && StepMs(D1) == 24 * StepMs(H1) && StepMs(W1) == 7 * StepMs(D1)
    ensures WEEK_ANCHOR_UTC_MS == 4 * StepMs(D1)
  {
  }

  /** Monday 5 January 1970, 00:00 UTC. */
  const WEEK_ANCHOR_UTC_MS: int := 345_600_000

  function BucketOpen(timeMs: int, tf: Timeframe): (open: int) {
    if tf == W1 then WEEK_ANCHOR_UTC_MS + (timeMs - WEEK_ANCHOR_UTC_MS) / StepMs(tf) * StepMs(tf)
    else timeMs / StepMs(tf) * StepMs(tf)
  }

  predicate Aligned(openMs: int, tf: Timeframe) { BucketOpen(openMs, tf) == openMs }

  lemma MultiplesOrder(m: int, q: int, s: int)
    requires s > 0
    ensures m > q ==> m * s >= q * s + s
    ensures m <= q ==> m * s <= q * s
  {
    if m > q { assert (m - q - 1) * s >= 0; } else { assert (q - m) * s >= 0; }
  }

  lemma Quotient(m: int, s: int)
    requires s > 0
    ensures m * s / s == m
  {
    var q := m * s / s;
    assert q * s <= m * s < q * s + s by { FloorOf(m * s, s); }
    MultiplesOrder(m, q, s);
    MultiplesOrder(q, m, s);
  }

  lemma FloorOf(x: int, s: int)
    requires s > 0
    ensures x / s * s <= x < x / s * s + s
  {
    assert x / s * s + x % s == x;
  }

  lemma FloorFacts(x: int, y: int, s: int)
    requires s > 0
    ensures x / s * s <= x < x / s * s + s
    ensures y / s * s == y && y < x / s * s + s ==> y <= x / s * s
    ensures y / s * s == y ==> (y + s) / s * s == y + s
  {
    var q, m := x / s, y / s;
    FloorOf(x, s);
    if m * s == y {
      MultiplesOrder(m, q, s);
      assert y + s == (m + 1) * s;
      Quotient(m + 1, s);
    }
  }

  /** A bucket holds its times, and an aligned time is the opening of a bucket. */
  lemma BucketHolds(t: int, c: int, tf: Timeframe)
    ensures var b := BucketOpen(t, tf);
            && b <= t < b + StepMs(tf) && Aligned(b, tf)
            && (Aligned(c, tf) && c <= t ==> c <= b)
            && (Aligned(c, tf) && c < b + StepMs(tf) ==> c <= b)
            && (Aligned(c, tf) ==> Aligned(c + StepMs(tf), tf))
  {
    var s := StepMs(tf);
    var a := if tf == W1 then WEEK_ANCHOR_UTC_MS else 0;
    FloorFacts(t - a, c - a, s);
    Quotient((t - a) / s, s);
  }

  /** Later times have later buckets. */
  lemma BucketMonotone(t: int, u: int, tf: Timeframe)
    requires t <= u
    ensures BucketOpen(t, tf) <= BucketOpen(u, tf)
  {
    BucketHolds(t, 0, tf);
    BucketHolds(u, BucketOpen(t, tf), tf);
  }

  /** Four-hour buckets nest in day buckets and in Monday-anchored week buckets. */
  lemma FourHoursNest(t: int, tf: Timeframe)
    requires tf == D1 || tf == W1
    ensures BucketOpen(BucketOpen(t, H4), tf) == BucketOpen(t, tf)
    ensures Aligned(BucketOpen(t, tf), H4)
  {
    var h := BucketOpen(t, H4);
    var b := BucketOpen(t, tf);
    BucketHolds(t, b, H4);
    BucketHolds(t, 0, tf);
    assert Aligned(b, H4) by {
      if tf == D1 {
        Multiple(t / 86_400_000, 6);
      } else {
        Multiple((t - WEEK_ANCHOR_UTC_MS) / 604_800_000, 42);
      }
    }
    BucketHolds(h, b, tf);
    BucketMonotone(h, t, tf);
  }

  lemma Multiple(q: int, k: int)
    ensures q * (k * 14_400_000) / 14_400_000 * 14_400_000 == q * (k * 14_400_000)
    ensures (345_600_000 + q * (k * 14_400_000)) / 14_400_000 * 14_400_000 == 345_600_000 + q * (k * 14_400_000)
  {
    assert q * (k * 14_400_000) == (q * k) * 14_400_000;
    Quotient(q * k, 14_400_000);
    Quotient(24 + q * k, 14_400_000);
  }
}
