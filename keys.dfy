/**
 * How the proxy names its cache entries and how long they live: one key
 * shape per route, the normalised count of the random route and the
 * 100-second time window that is part of the random key.
 */
module Keys {
  import opened Wrappers
  import opened Decimal

  /** Lifetime, in seconds, the cache gives an entry stored without its own TTL. */
  const DefaultTtl: nat := 3600
  /** Lifetime, in seconds, of a random-route entry. */
  const RandomTtl: nat := 300
  /** Largest number of random pictures the proxy asks for. */
  const MaxCount: int := 20
  /** Number of random pictures asked for when the parameter is missing, not a number or zero. */
  const DefaultCount: int := 5
  /** Number of trailing decimal digits cut off the millisecond clock to form the time window. */
  const WindowDigits: nat := 5
  /** Width of one time window in milliseconds (10^WindowDigits). */
  const WindowMs: nat := 100000

  const TodayKey: string := "apod_today"

  /** The date's key: the date, verbatim, after `apod_`. */
  function DateKey(date: string): (k: string)
    ensures |k| == 5 + |date| && k[..5] == "apod_" && k[5..] == date
  {
    "apod_" + date
  }

  /** The range's key: after `apod_range_`, the start, a '_', then the end, both verbatim. */
  function RangeKey(start: string, end: string): (k: string)
    ensures |k| == 12 + |start| + |end| && k[..11] == "apod_range_"
    ensures k[11..11 + |start|] == start && k[11 + |start|] == '_' && k[12 + |start|..] == end
  {
    "apod_range_" + start + "_" + end
  }

  /**
   * `Math.min(parseInt(count) || 5, 20)`: `parsed` is what parseInt gave, None
   * for NaN. NaN and 0 are falsy and fall back to 5; everything above 20 is
   * cut to 20; there is no lower bound.
   */
  function NormalizeCount(parsed: Option<int>): (count: int)
    ensures count <= MaxCount
    ensures parsed.None? || parsed == Some(0) ==> count == DefaultCount
    ensures parsed.Some? && parsed.value != 0 && parsed.value <= MaxCount ==> count == parsed.value
    ensures parsed.Some? && parsed.value >= MaxCount ==> count == MaxCount
  {
    var requested := if parsed.Some? && parsed.value != 0 then parsed.value else DefaultCount;
    if requested < MaxCount then requested else MaxCount
  }

  /**
   * The time part of the random key: the decimal text of the millisecond clock
   * with its last five characters cut off (`toString().slice(0, -5)`). It names
   * the 100-second window `nowMs / 100000`; before the clock reaches 100000 it is "".
   */
  function Window(nowMs: nat): (w: string)
    ensures w == if nowMs >= WindowMs then NatToString(nowMs / WindowMs) else ""
  {
    DropLastDigits(nowMs, WindowDigits);
    DropFiveDigits(nowMs);
    DropLast(NatToString(nowMs), WindowDigits)
  }

  /** The random key: after `apod_random_`, the count's text, a '_', then the time window's text. */
  function RandomKey(count: int, nowMs: nat): (k: string)
    ensures var c := IntToString(count);
      && |k| == 13 + |c| + |Window(nowMs)|
      && k[..12] == "apod_random_"
      && k[12..12 + |c|] == c && k[12 + |c|] == '_' && k[13 + |c|..] == Window(nowMs)
  {
    "apod_random_" + IntToString(count) + "_" + Window(nowMs)
  }

  predicate NoUnderscore(s: string) {
    forall i :: 0 <= i < |s| ==> s[i] != '_'
  }

  /** A text joined to another by '_' can be split back when the first part has no '_'. */
  lemma SplitAtUnderscore(x1: string, y1: string, x2: string, y2: string)
    requires NoUnderscore(x1) && NoUnderscore(x2)
    requires x1 + "_" + y1 == x2 + "_" + y2
    ensures x1 == x2 && y1 == y2
  {
    var s1, s2 := x1 + "_" + y1, x2 + "_" + y2;
    // the shorter part is followed by '_' where the longer one has none
    assert s1[|x1|] == '_' && s2[|x2|] == '_';
    assert forall i :: 0 <= i < |x1| ==> s1[i] == x1[i] != '_';
    assert forall i :: 0 <= i < |x2| ==> s2[i] == x2[i] != '_';
    assert x1 == s1[..|x1|] && x2 == s2[..|x2|];
    assert y1 == s1[|x1| + 1..] && y2 == s2[|x2| + 1..];
  }

  lemma DropPrefix(p: string, s1: string, s2: string)
    requires p + s1 == p + s2
    ensures s1 == s2
  {
    assert s1 == (p + s1)[|p|..];
    assert s2 == (p + s2)[|p|..];
  }

  /** Distinct dates get distinct keys. */
  lemma DateKeyInjective(d1: string, d2: string)
    ensures DateKey(d1) == DateKey(d2) <==> d1 == d2
  {
    if DateKey(d1) == DateKey(d2) {
      DropPrefix("apod_", d1, d2);
    }
  }

  /** The date "today" shares its key with the today route. */
  lemma TodayDateCollision()
    ensures DateKey("today") == TodayKey
  {
  }

  /** A date that reads "range_<s>_<e>" shares its key with the range (s, e). */
  lemma RangeDateCollision(start: string, end: string)
    ensures RangeKey(start, end) == DateKey("range_" + start + "_" + end)
  {
  }

  /** A date that reads "random_<count>_<window>" shares its key with that random request. */
  lemma RandomDateCollision(count: int, nowMs: nat)
    ensures RandomKey(count, nowMs) == DateKey("random_" + IntToString(count) + "_" + Window(nowMs))
  {
  }

  /** For instance, the date `random_5_1` and five random pictures in the window 100000..199999 ms. */
  lemma RandomDateCollisionExample()
    ensures DateKey("random_5_1") == RandomKey(5, 100000)
  {
    assert IntToString(5) == "5";
    assert NatToString(1) == "1";
    RandomDateCollision(5, 100000);
  }

  /** Swapping start and end does not always change the range key. */
  lemma RangeSwapCollision()
    ensures "a" != "a_a" && RangeKey("a", "a_a") == RangeKey("a_a", "a")
  {
  }

  /** For start dates without '_' (every YYYY-MM-DD date), the range key determines start and end. */
  lemma RangeKeyInjective(s1: string, e1: string, s2: string, e2: string)
    requires NoUnderscore(s1) && NoUnderscore(s2)
    ensures RangeKey(s1, e1) == RangeKey(s2, e2) <==> s1 == s2 && e1 == e2
  {
    if RangeKey(s1, e1) == RangeKey(s2, e2) {
      assert RangeKey(s1, e1) == "apod_range_" + (s1 + "_" + e1);
      assert RangeKey(s2, e2) == "apod_range_" + (s2 + "_" + e2);
      DropPrefix("apod_range_", s1 + "_" + e1, s2 + "_" + e2);
      SplitAtUnderscore(s1, e1, s2, e2);
    }
  }

  /** Two random requests share a key exactly when they ask for the same count in the same time window. */
  lemma RandomKeyIff(c1: int, t1: nat, c2: int, t2: nat)
    ensures RandomKey(c1, t1) == RandomKey(c2, t2) <==> c1 == c2 && t1 / WindowMs == t2 / WindowMs
  {
    var a1, a2 := IntToString(c1), IntToString(c2);
    if RandomKey(c1, t1) == RandomKey(c2, t2) {
      assert RandomKey(c1, t1) == "apod_random_" + (a1 + "_" + Window(t1));
      assert RandomKey(c2, t2) == "apod_random_" + (a2 + "_" + Window(t2));
      DropPrefix("apod_random_", a1 + "_" + Window(t1), a2 + "_" + Window(t2));
      SplitAtUnderscore(a1, Window(t1), a2, Window(t2));
      IntToStringInjective(c1, c2);
      if t1 >= WindowMs && t2 >= WindowMs {
        NatToStringInjective(t1 / WindowMs, t2 / WindowMs);
      }
    }
  }

  /** Keys of the today, range and random routes never collide with each other. */
  lemma RouteFamiliesDisjoint(start: string, end: string, count: int, nowMs: nat)
    ensures TodayKey != RangeKey(start, end)
    ensures TodayKey != RandomKey(count, nowMs)
    ensures RangeKey(start, end) != RandomKey(count, nowMs)
  {
    assert RangeKey(start, end)[8] == 'g';
    assert RandomKey(count, nowMs)[8] == 'd';
    assert TodayKey[5] == 't';
    assert RangeKey(start, end)[5] == 'r';
  }

  /** `count=999` and `count=20` share one cache entry within a window; a missing or zero count behaves like `count=5`. */
  lemma ClampedCountsShareKey(nowMs: nat)
    ensures RandomKey(NormalizeCount(Some(999)), nowMs) == RandomKey(NormalizeCount(Some(20)), nowMs)
    ensures RandomKey(NormalizeCount(None), nowMs) == RandomKey(NormalizeCount(Some(0)), nowMs)
    ensures RandomKey(NormalizeCount(None), nowMs) == RandomKey(NormalizeCount(Some(5)), nowMs)
  {
  }

}
