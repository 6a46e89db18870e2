/** The two helpers callers apply to the cached price list: `match_date`, a filter on
    the wall-clock date of `starts_at`, and `get_price_now`, a bracket lookup around a
    query time. Each is a method with the loop of the Python function, proved against a
    specification function whose meaning the lemmas below establish. */
module Lookup {
  import opened Wrappers
  import opened Json
  import opened Time
  import opened Prices

  // ---------------------------------------------------------------------------
  // match_date

  /** The price points of `s` that start on `day`, in their order in `s`. */
  function OnDate(s: seq<PriceData>, day: Date): (r: seq<PriceData>)
    ensures |r| <= |s|
    ensures forall p :: p in r <==> p in s && p.startsAt.date == day
  {
    if s == [] then []
    else (if s[0].startsAt.date == day then [s[0]] else []) + OnDate(s[1..], day)
  }

  /** `match_date`: appends, in one pass, every price whose `starts_at.date()` is `day`. */
  method MatchDate(prices: seq<PriceData>, day: Date) returns (matches: seq<PriceData>)
    ensures matches == OnDate(prices, day)
    ensures forall p :: p in matches <==> p in prices && p.startsAt.date == day
  {
    matches := [];
    for i := 0 to |prices|
      invariant matches == OnDate(prices[..i], day)
    {
      OnDateConcat(prices[..i], [prices[i]], day);
      assert prices[..i + 1] == prices[..i] + [prices[i]];
      if prices[i].startsAt.date == day {
        matches := matches + [prices[i]];
      }
    }
    assert prices[..|prices|] == prices;
  }

  /** Filtering a concatenation filters each part. */
  lemma {:induction false} OnDateConcat(a: seq<PriceData>, b: seq<PriceData>, day: Date)
    ensures OnDate(a + b, day) == OnDate(a, day) + OnDate(b, day)
  {
    if a == [] {
      assert a + b == b;
    } else {
      assert (a + b)[1..] == a[1..] + b;
      OnDateConcat(a[1..], b, day);
    }
  }

  /** Filtering the output again with the same day changes nothing. */
  lemma {:induction false} OnDateIdempotent(s: seq<PriceData>, day: Date)
    ensures OnDate(OnDate(s, day), day) == OnDate(s, day)
  {
    if s != [] {
      var head := if s[0].startsAt.date == day then [s[0]] else [];
      OnDateConcat(head, OnDate(s[1..], day), day);
      OnDateIdempotent(s[1..], day);
      if head != [] {
        assert head[1..] == [];
      }
    }
  }

  /** `a` can be obtained from `b` by deleting elements: `a` keeps `b`'s order. */
  ghost predicate IsSubsequence(a: seq<PriceData>, b: seq<PriceData>)
    decreases |b|
  {
    a == [] ||
    (b != [] && ((a[0] == b[0] && IsSubsequence(a[1..], b[1..])) || IsSubsequence(a, b[1..])))
  }

  /** The result of `match_date` keeps the input's relative order. */
  lemma {:induction false} OnDateIsSubsequence(s: seq<PriceData>, day: Date)
    ensures IsSubsequence(OnDate(s, day), s)
  {
    if s != [] {
      OnDateIsSubsequence(s[1..], day);
      if s[0].startsAt.date == day {
        assert OnDate(s, day) == [s[0]] + OnDate(s[1..], day);
        assert OnDate(s, day)[1..] == OnDate(s[1..], day);
      } else {
        assert OnDate(s, day) == OnDate(s[1..], day);
      }
    }
  }

  /** The result keeps every price on `day` as often as the input has it, and no other. */
  lemma {:induction false} OnDateCounts(s: seq<PriceData>, day: Date, p: PriceData)
    ensures multiset(OnDate(s, day))[p] == if p.startsAt.date == day then multiset(s)[p] else 0
  {
    if s != [] {
      OnDateCounts(s[1..], day, p);
      assert s == [s[0]] + s[1..];
    }
  }

  // ---------------------------------------------------------------------------
  // get_price_now

  /** The price starts strictly before `t`. */
  predicate Before(p: PriceData, t: DateTime) {
    p.startsAt.Instant() < t.Instant()
  }

  /** The price starts strictly after `t`. */
  predicate After(p: PriceData, t: DateTime) {
    p.startsAt.Instant() > t.Instant()
  }

  /** `lower` after a scan of `s`: the first price, in list order, among those with the
      greatest start strictly before `t`. */
  function Lower(s: seq<PriceData>, t: DateTime): (r: Option<PriceData>)
    ensures r.Some? ==> r.value in s && Before(r.value, t)
    ensures r.Some? ==> forall p :: p in s && Before(p, t) ==> p.startsAt.Instant() <= r.value.startsAt.Instant()
    ensures r.None? ==> forall p :: p in s ==> !Before(p, t)
  {
    if s == [] then None
    else
      var prev := Lower(s[..|s| - 1], t);
      var p := s[|s| - 1];
      assert s == s[..|s| - 1] + [p];
      if Before(p, t) && (prev.None? || p.startsAt.Instant() > prev.value.startsAt.Instant()) then Some(p)
      else prev
  }

  /** `upper` after a scan of `s`: the first, in list order, of the smallest starts
      strictly after `t`. */
  function Upper(s: seq<PriceData>, t: DateTime): (r: Option<DateTime>)
    ensures r.Some? ==> exists p :: p in s && After(p, t) && p.startsAt == r.value
    ensures r.Some? ==> forall p :: p in s && After(p, t) ==> r.value.Instant() <= p.startsAt.Instant()
    ensures r.None? ==> forall p :: p in s ==> !After(p, t)
  {
    if s == [] then None
    else
      var prev := Upper(s[..|s| - 1], t);
      var p := s[|s| - 1];
      assert s == s[..|s| - 1] + [p];
      if After(p, t) && (prev.None? || p.startsAt.Instant() < prev.value.Instant()) then Some(p.startsAt)
      else prev
  }

  /** What `get_price_now` returns: the lower bracket's total price, provided the list
      has two elements and both brackets exist. */
  function PriceNow(s: seq<PriceData>, t: DateTime): Option<Json> {
    if |s| < 2 then None
    else if Lower(s, t).Some? && Upper(s, t).Some? then Some(Lower(s, t).value.totalPrice)
    else None
  }

  /** `get_price_now`. */
  method GetPriceNow(prices: seq<PriceData>, time: DateTime) returns (r: Option<Json>)
    ensures r == PriceNow(prices, time)
    ensures |prices| < 2 ==> r == None
    ensures r.None? <==>
      |prices| < 2 || (forall p :: p in prices ==> !Before(p, time)) || (forall p :: p in prices ==> !After(p, time))
    ensures IsPythonNone(r) <==>
      || |prices| < 2 || (forall p :: p in prices ==> !Before(p, time)) || (forall p :: p in prices ==> !After(p, time))
      || (Lower(prices, time).Some? && Lower(prices, time).value.totalPrice == JNull)
  {
    PriceNowAbsent(prices, time);
    if |prices| < 2 {
      return None;
    }
    var lower: Option<PriceData> := None;
    var upper: Option<DateTime> := None;
    for i := 0 to |prices|
      invariant lower == Lower(prices[..i], time)
      invariant upper == Upper(prices[..i], time)
    {
      ScanStep(prices, i, time);
      var start := prices[i].startsAt;
      if start.Instant() < time.Instant() {
        if lower.None? || start.Instant() > lower.value.startsAt.Instant() {
          lower := Some(prices[i]);
        }
      } else if start.Instant() > time.Instant() {
        if upper.None? || start.Instant() < upper.value.Instant() {
          upper := Some(start);
        }
      }
    }
    assert prices[..|prices|] == prices;
    if lower.None? || upper.None? {
      return None;
    }
    return Some(lower.value.totalPrice);
  }

  /** One step of the scan: the brackets of `s[..i + 1]` from those of `s[..i]` and `s[i]`. */
  lemma ScanStep(s: seq<PriceData>, i: int, t: DateTime)
    requires 0 <= i < |s|
    ensures Lower(s[..i + 1], t) ==
      if Before(s[i], t) && (Lower(s[..i], t).None? || s[i].startsAt.Instant() > Lower(s[..i], t).value.startsAt.Instant())
      then Some(s[i]) else Lower(s[..i], t)
    ensures Upper(s[..i + 1], t) ==
      if After(s[i], t) && (Upper(s[..i], t).None? || s[i].startsAt.Instant() < Upper(s[..i], t).value.Instant())
      then Some(s[i].startsAt) else Upper(s[..i], t)
  {
    assert s[..i + 1][..i] == s[..i];
  }

  /** No price comes back for a list shorter than two, nor when no point starts strictly
      before `t`, nor when none starts strictly after it; in every other case one does. */
  lemma PriceNowAbsent(s: seq<PriceData>, t: DateTime)
    ensures PriceNow(s, t).None? <==>
      |s| < 2 || (forall p :: p in s ==> !Before(p, t)) || (forall p :: p in s ==> !After(p, t))
    ensures IsPythonNone(PriceNow(s, t)) <==>
      || |s| < 2 || (forall p :: p in s ==> !Before(p, t)) || (forall p :: p in s ==> !After(p, t))
      || (Lower(s, t).Some? && Lower(s, t).value.totalPrice == JNull)
  {
  }

  /** The caller sees Python's `None` both when no price comes back and when the lower
      bracket's `total` was JSON `null`, which `from_json` copies as `None`. */
  predicate IsPythonNone(r: Option<Json>) {
    r.None? || r == Some(JNull)
  }

  /** Index `k` holds the first, in list order, of the latest starts strictly before `t`. */
  ghost predicate IsFirstLatest(s: seq<PriceData>, t: DateTime, k: int) {
    && 0 <= k < |s|
    && Before(s[k], t)
    && (forall j :: 0 <= j < |s| && Before(s[j], t) ==> s[j].startsAt.Instant() <= s[k].startsAt.Instant())
    && (forall j :: 0 <= j < k && Before(s[j], t) ==> s[j].startsAt.Instant() < s[k].startsAt.Instant())
  }

  /** The scan keeps the first of equally late starts: strict `>` never replaces it. */
  lemma {:induction false} LowerIsFirstLatest(s: seq<PriceData>, t: DateTime, k: int)
    requires IsFirstLatest(s, t, k)
    ensures Lower(s, t) == Some(s[k])
    decreases |s|
  {
    var n := |s|;
    var init := s[..n - 1];
    if k == n - 1 {
      var prev := Lower(init, t);
      if prev.Some? {
        var j :| 0 <= j < |init| && init[j] == prev.value;
        assert s[j] == prev.value;
      }
    } else {
      assert IsFirstLatest(init, t, k) by {
        forall j | 0 <= j < |init| && Before(init[j], t)
          ensures init[j].startsAt.Instant() <= init[k].startsAt.Instant()
        {
          assert init[j] == s[j];
        }
      }
      LowerIsFirstLatest(init, t, k);
    }
  }

  /** Whenever the scan finds a lower bracket, it sits at a first-latest index. */
  lemma {:induction false} LowerIndex(s: seq<PriceData>, t: DateTime) returns (k: int)
    requires Lower(s, t).Some?
    ensures IsFirstLatest(s, t, k) && Lower(s, t) == Some(s[k])
    decreases |s|
  {
    var n := |s|;
    var init := s[..n - 1];
    var prev := Lower(init, t);
    var p := s[n - 1];
    if Lower(s, t) == Some(p) && (prev.None? || p.startsAt.Instant() > prev.value.startsAt.Instant()) {
      k := n - 1;
      forall j | 0 <= j < n - 1 && Before(s[j], t)
        ensures s[j].startsAt.Instant() < p.startsAt.Instant()
      {
        assert init[j] == s[j] && init[j] in init;
      }
    } else {
      assert Lower(s, t) == prev;
      k := LowerIndex(init, t);
      assert init[k] == s[k];
      forall j | 0 <= j < n - 1
        ensures Before(s[j], t) ==> s[j].startsAt.Instant() <= s[k].startsAt.Instant()
        ensures j < k && Before(s[j], t) ==> s[j].startsAt.Instant() < s[k].startsAt.Instant()
      {
        assert init[j] == s[j];
      }
    }
  }

  /** When `get_price_now` returns a value, it is the total price at the one first-latest
      index before `time`. */
  lemma PriceNowIsFirstLatest(s: seq<PriceData>, t: DateTime)
    requires PriceNow(s, t).Some?
    ensures exists k :: IsFirstLatest(s, t, k) && PriceNow(s, t) == Some(s[k].totalPrice)
    ensures forall k :: IsFirstLatest(s, t, k) ==> PriceNow(s, t) == Some(s[k].totalPrice)
  {
    var k := LowerIndex(s, t);
    forall k' | IsFirstLatest(s, t, k')
      ensures PriceNow(s, t) == Some(s[k'].totalPrice)
    {
      LowerIsFirstLatest(s, t, k');
    }
  }

  /** The length test is redundant: two brackets already need two distinct prices. */
  lemma BracketNeedsTwo(s: seq<PriceData>, t: DateTime)
    ensures PriceNow(s, t) == if Lower(s, t).Some? && Upper(s, t).Some? then Some(Lower(s, t).value.totalPrice) else None
  {
    if Lower(s, t).Some? && Upper(s, t).Some? {
      var q :| q in s && After(q, t) && q.startsAt == Upper(s, t).value;
      assert Lower(s, t).value != q;
    }
  }

  /** A price that does not start before `t` never becomes the lower bracket. */
  lemma {:induction false} LowerIgnores(a: seq<PriceData>, p: PriceData, b: seq<PriceData>, t: DateTime)
    requires !Before(p, t)
    ensures Lower(a + [p] + b, t) == Lower(a + b, t)
    decreases |b|
  {
    if b == [] {
      assert (a + [p] + b)[..|a|] == a;
      assert a + b == a;
    } else {
      var b' := b[..|b| - 1];
      assert (a + [p] + b)[..|a + [p] + b| - 1] == a + [p] + b';
      assert (a + b)[..|a + b| - 1] == a + b';
      LowerIgnores(a, p, b', t);
    }
  }

  /** A price that does not start after `t` never becomes the upper bracket. */
  lemma {:induction false} UpperIgnores(a: seq<PriceData>, p: PriceData, b: seq<PriceData>, t: DateTime)
    requires !After(p, t)
    ensures Upper(a + [p] + b, t) == Upper(a + b, t)
    decreases |b|
  {
    if b == [] {
      assert (a + [p] + b)[..|a|] == a;
      assert a + b == a;
    } else {
      var b' := b[..|b| - 1];
      assert (a + [p] + b)[..|a + [p] + b| - 1] == a + [p] + b';
      assert (a + b)[..|a + b| - 1] == a + b';
      UpperIgnores(a, p, b', t);
    }
  }

  /** A price starting exactly at `time` changes neither bracket, hence not the answer. */
  lemma AtTimeIgnored(a: seq<PriceData>, p: PriceData, b: seq<PriceData>, t: DateTime)
    requires p.startsAt.Instant() == t.Instant()
    ensures PriceNow(a + [p] + b, t) == PriceNow(a + b, t)
  {
    LowerIgnores(a, p, b, t);
    UpperIgnores(a, p, b, t);
    BracketNeedsTwo(a + [p] + b, t);
    BracketNeedsTwo(a + b, t);
  }

  /** Hourly prices at 00:00, 01:00 and 02:00 (+01:00) of any day, with totals 10, 20
      and 30: at 01:30 the answer is 20; at 02:30 there is no later price and at
      00:00+02:00 (an hour before the first) no earlier one, so both are `None`; a
      one-element list is always `None`. */
  lemma HourlyExample(day: Date, p0: PriceData, p1: PriceData, p2: PriceData)
    requires p0 == PriceData(JFloat(1.0), JFloat(9.0), JFloat(10.0), DateTime(day, 0, 3_600_000_000))
    requires p1 == PriceData(JFloat(2.0), JFloat(18.0), JFloat(20.0), DateTime(day, 3_600_000_000, 3_600_000_000))
    requires p2 == PriceData(JFloat(3.0), JFloat(27.0), JFloat(30.0), DateTime(day, 7_200_000_000, 3_600_000_000))
    ensures PriceNow([p0, p1, p2], DateTime(day, 5_400_000_000, 3_600_000_000)) == Some(JFloat(20.0))
    ensures PriceNow([p0, p1, p2], DateTime(day, 9_000_000_000, 3_600_000_000)) == None
    ensures PriceNow([p0, p1, p2], DateTime(day, 0, 7_200_000_000)) == None
    ensures PriceNow([p0], DateTime(day, 5_400_000_000, 3_600_000_000)) == None
  {
    AscendingTriple(p0, p1, p2, DateTime(day, 5_400_000_000, 3_600_000_000));
    AscendingTriple(p0, p1, p2, DateTime(day, 9_000_000_000, 3_600_000_000));
    AscendingTriple(p0, p1, p2, DateTime(day, 0, 7_200_000_000));
  }

  /** The answer for three prices in ascending order of start, by where `t` falls. */
  lemma AscendingTriple(p0: PriceData, p1: PriceData, p2: PriceData, t: DateTime)
    requires p0.startsAt.Instant() < p1.startsAt.Instant() < p2.startsAt.Instant()
    ensures p1.startsAt.Instant() < t.Instant() < p2.startsAt.Instant() ==> PriceNow([p0, p1, p2], t) == Some(p1.totalPrice)
    ensures p2.startsAt.Instant() <= t.Instant() ==> PriceNow([p0, p1, p2], t) == None
    ensures t.Instant() <= p0.startsAt.Instant() ==> PriceNow([p0, p1, p2], t) == None
  {
    var prices := [p0, p1, p2];
    assert prices[..2] == [p0, p1] && [p0, p1][..1] == [p0] && [p0][..0] == [];
    if p1.startsAt.Instant() < t.Instant() < p2.startsAt.Instant() {
      assert Lower([p0], t) == Some(p0);
      assert Lower([p0, p1], t) == Some(p1);
      assert Lower(prices, t) == Some(p1);
      assert Upper([p0, p1], t) == None;
      assert Upper(prices, t) == Some(p2.startsAt);
    } else if p2.startsAt.Instant() <= t.Instant() {
      assert Upper([p0], t) == None;
      assert Upper([p0, p1], t) == None;
      assert Upper(prices, t) == None;
    } else if t.Instant() <= p0.startsAt.Instant() {
      assert Lower([p0], t) == None;
      assert Lower([p0, p1], t) == None;
      assert Lower(prices, t) == None;
    }
  }
}

