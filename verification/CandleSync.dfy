/**
  Candle synchronisation (application/market_data.py): bounded pagination, normalisation
  and gap detection. Times are microseconds since the epoch.
 */
module CandleSync {
  import opened Candles
  import opened Sorting
  import opened Wrappers

  datatype Error =
    | EndBeforeStart | UnalignedStart | UnalignedEnd | WrongExchange | PageSizeNotPositive | PaginationExceeded
    | GapWithoutCandle

  /** On the candle grid: a whole second, and a whole number of durations from the epoch. */
  predicate IsAligned(t: int, timeframe: Timeframe) {
    t % MICROSECONDS == 0 && (t / MICROSECONDS) % timeframe.Seconds() == 0
  }

  lemma ProductOrder(a: int, b: int, d: nat)
    requires a <= b
    ensures a * d <= b * d
  {
    assert (b - a) * d >= 0;
  }

  lemma CancelFactor(a: int, b: int, d: nat)
    requires a * d < b * d
    ensures a < b
  {
    if b <= a {
      ProductOrder(b, a, d);
    }
  }

  lemma MultipleHasNoRemainder(k: int, d: nat)
    requires d >= 1
    ensures (k * d) % d == 0 && (k * d) / d == k
  {
    var t := k * d;
    var q, r := t / d, t % d;
    assert t == q * d + r && 0 <= r < d;
    assert (q - 1) * d == q * d - d && (q + 1) * d == q * d + d;
    CancelFactor(q - 1, k, d);
    CancelFactor(k, q + 1, d);
  }

  /** Divisible by `m` with a quotient divisible by `s` is divisible by `s * m`. */
  lemma NestedMultiple(t: int, s: nat, m: nat)
    requires s >= 1 && m >= 1 && s * m >= 1
    ensures t % m == 0 && (t / m) % s == 0 <==> t % (s * m) == 0
  {
    var d := s * m;
    if t % m == 0 && (t / m) % s == 0 {
      var k := (t / m) / s;
      assert t == (t / m) * m && t / m == k * s;
      Associate(k, s, m);
      MultipleHasNoRemainder(k, d);
    }
    if t % d == 0 {
      var k := t / d;
      assert t == k * d;
      Associate(k, s, m);
      MultipleHasNoRemainder(k * s, m);
      MultipleHasNoRemainder(k, s);
    }
  }

  lemma Associate(k: int, s: int, m: int)
    ensures k * (s * m) == (k * s) * m
  {}

  lemma AlignedIsMultiple(t: int, timeframe: Timeframe)
    ensures IsAligned(t, timeframe) <==> t % timeframe.Duration() == 0
  {
    NestedMultiple(t, timeframe.Seconds(), MICROSECONDS);
  }

  // ---------- pagination ----------

  datatype Page = Page(candles: seq<Candle>, hasMore: bool, rejected: nat)

  datatype Fetched = Fetched(candles: seq<Candle>, rejected: nat, requests: nat)

  /** What requesting pages `next`, `next + 1`, ... up to `last` yields; `None` when every one of them has more. */
  function Collect(pager: int -> Page, next: int, last: int): Option<Fetched>
    decreases last - next
  {
    if next > last then None
    else
      var page := pager(next);
      if !page.hasMore then Some(Fetched(page.candles, page.rejected, 1))
      else
        match Collect(pager, next + 1, last)
        case None => None
        case Some(rest) => Some(Fetched(page.candles + rest.candles, page.rejected + rest.rejected, rest.requests + 1))
  }

  function CeilingDivision(n: int, d: int): int
    requires d >= 1
  {
    if n % d == 0 then n / d else n / d + 1
  }

  /** Whole candle durations from one time to another. */
  function Steps(from: int, to: int, timeframe: Timeframe): int {
    (to - from) / timeframe.Duration()
  }

  function EstimatedRows(start: int, end: int, timeframe: Timeframe): int {
    Steps(start, end, timeframe) + 1
  }

  /** Rejected rows of the pages from the first one on. */
  function RejectedUpTo(pager: int -> Page, pages: nat): nat {
    if pages == 0 then 0 else RejectedUpTo(pager, pages - 1) + pager(pages).rejected
  }

  /** Candles of the pages from the first one on. */
  function CandlesUpTo(pager: int -> Page, pages: nat): seq<Candle> {
    if pages == 0 then [] else CandlesUpTo(pager, pages - 1) + pager(pages).candles
  }

  /** Requests end at the first page that has no more, if the bound allows it, and every row of every page counts. */
  lemma {:induction false} CollectMeans(pager: int -> Page, next: int, last: int)
    requires 1 <= next && forall k :: 1 <= k < next ==> pager(k).hasMore
    ensures var r := Collect(pager, next, last);
            && (r.None? <==> forall k :: 1 <= k <= last ==> pager(k).hasMore)
            && (r.Some? ==>
                  var n := r.value.requests + next - 1;
                  && next <= n <= last && !pager(n).hasMore && (forall k :: 1 <= k < n ==> pager(k).hasMore)
                  && RejectedUpTo(pager, n) == RejectedUpTo(pager, next - 1) + r.value.rejected
                  && CandlesUpTo(pager, n) == CandlesUpTo(pager, next - 1) + r.value.candles)
    decreases last - next
  {
    if next <= last && pager(next).hasMore {
      CollectMeans(pager, next + 1, last);
    }
  }

  method FetchPages(pager: int -> Page, maxPages: int) returns (r: Option<Fetched>)
    ensures r == Collect(pager, 1, maxPages)
  {
    var received: seq<Candle> := [];
    var rejected: nat := 0;
    var pageNumber := 1;
    ghost var all := Collect(pager, 1, maxPages);
    assert all.Some? ==> received + all.value.candles == all.value.candles;
    while pageNumber <= maxPages
      invariant pageNumber >= 1
      invariant Collect(pager, 1, maxPages) ==
                match Collect(pager, pageNumber, maxPages)
                case None => None
                case Some(rest) => Some(Fetched(received + rest.candles, rejected + rest.rejected,
                                                rest.requests + pageNumber - 1))
    {
      var page := pager(pageNumber);
      ghost var before := received;
      received := received + page.candles;
      rejected := rejected + page.rejected;
      if !page.hasMore {
        return Some(Fetched(received, rejected, pageNumber));
      }
      var rest := Collect(pager, pageNumber + 1, maxPages);
      if rest.Some? {
        assert before + (page.candles + rest.value.candles) == received + rest.value.candles;
      }
      pageNumber := pageNumber + 1;
    }
    r := None;
  }

  /** An adapter that serves `rows` in pages of `size` and says "more" exactly when the page is full. */
  ghost predicate HonestPager(pager: int -> Page, rows: seq<Candle>, size: nat) {
    size >= 1 &&
    forall i :: i >= 1 ==>
      var from := Least((i - 1) * size, |rows|);
      var to := Least(i * size, |rows|);
      0 <= from <= to && pager(i).candles == rows[from..to] && (pager(i).hasMore <==> to - from == size)
  }

  function Least(a: int, b: int): int { if a <= b then a else b }

  /** A full page follows while pages are left; the one after the last full page ends the list. */
  lemma PageBounds(n: nat, size: nat, next: int)
    requires size >= 1 && 1 <= next <= n / size + 1
    ensures 0 <= (next - 1) * size <= n && next * size == (next - 1) * size + size
    ensures next <= n / size <==> next * size <= n
  {
    DivisionBounds(n, size);
    ProductOrder(0, next - 1, size);
    ProductOrder(next - 1, n / size, size);
    if next <= n / size {
      ProductOrder(next, n / size, size);
    } else {
      ProductOrder(n / size + 1, next, size);
      assert (n / size + 1) * size == (n / size) * size + size;
    }
  }

  lemma PageServed(pager: int -> Page, rows: seq<Candle>, size: nat, next: int)
    requires HonestPager(pager, rows, size) && 1 <= next <= |rows| / size + 1
    ensures var from, to, page := (next - 1) * size, next * size, pager(next);
            && 0 <= from <= |rows| && (page.hasMore <==> to <= |rows|) && from <= to
            && page.candles == (if to <= |rows| then rows[from..to] else rows[from..])
  {
    PageBounds(|rows|, size, next);
    assert rows[(next - 1) * size..|rows|] == rows[(next - 1) * size..];
  }

  lemma {:induction false} HonestTail(pager: int -> Page, rows: seq<Candle>, size: nat, next: int, last: int)
    requires HonestPager(pager, rows, size)
    requires 1 <= next <= |rows| / size + 1 <= last
    ensures 0 <= (next - 1) * size <= |rows|
    ensures var r := Collect(pager, next, last);
            r.Some? && r.value.candles == rows[(next - 1) * size..] && r.value.requests == |rows| / size + 2 - next
    decreases last - next
  {
    hide HonestPager;
    HonestSize(pager, rows, size);
    PageBounds(|rows|, size, next);
    PageServed(pager, rows, size, next);
    if next <= |rows| / size {
      HonestTail(pager, rows, size, next + 1, last);
      var from, to := (next - 1) * size, next * size;
      assert rows[from..to] + rows[to..] == rows[from..];
    }
  }

  lemma HonestSize(pager: int -> Page, rows: seq<Candle>, size: nat)
    requires HonestPager(pager, rows, size)
    ensures size >= 1
  {}

  lemma DivisionBounds(n: nat, d: nat)
    requires d >= 1
    ensures (n / d) * d <= n < (n / d) * d + d
  {
    assert n == (n / d) * d + n % d;
  }

  lemma QuotientOrder(n: nat, m: nat, d: nat)
    requires n <= m && d >= 1
    ensures n / d <= m / d
  {
    DivisionBounds(n, d);
    DivisionBounds(m, d);
    if n / d > m / d {
      ProductOrder(m / d + 1, n / d, d);
    }
  }

  /**
    The safety bound never bites an honest adapter: with at most the estimated number
    of rows, the loop collects all of them in order, in floor(n / size) + 1 requests,
    including when the page size divides the row count.
   */
  lemma PaginationComplete(pager: int -> Page, rows: seq<Candle>, size: nat, estimated: nat)
    requires HonestPager(pager, rows, size) && |rows| <= estimated
    ensures var r := Collect(pager, 1, CeilingDivision(estimated, size) + 1);
            r.Some? && r.value.candles == rows && r.value.requests == |rows| / size + 1
  {
    QuotientOrder(|rows|, estimated, size);
    HonestTail(pager, rows, size, 1, CeilingDivision(estimated, size) + 1);
    assert rows[0..] == rows;
  }

  /** Whole durations, rounded down. */
  lemma StepsMeans(from: int, to: int, timeframe: Timeframe)
    ensures var n, d := Steps(from, to, timeframe), timeframe.Duration(); n * d <= to - from < n * d + d
  {
    var x, d := to - from, timeframe.Duration();
    assert x == (x / d) * d + x % d;
  }

  /** The smallest number of pages that hold `n` rows. */
  lemma CeilingMeans(n: int, d: int)
    requires d >= 1
    ensures var k := CeilingDivision(n, d); (k - 1) * d < n <= k * d
  {
    assert n == (n / d) * d + n % d;
    assert (n / d + 1) * d == (n / d) * d + d;
  }

  // ---------- normalisation ----------

  predicate Wanted(c: Candle, start: int, end: int, timeframe: Timeframe) {
    start <= c.timestamp <= end && IsAligned(c.timestamp, timeframe)
  }

  predicate StrictlyRising(kept: seq<Candle>) {
    forall i, j :: 0 <= i < j < |kept| ==> kept[i].timestamp < kept[j].timestamp
  }

  /** Kept candles are on the requested grid, one per time, in time order. */
  predicate Normalized(kept: seq<Candle>, start: int, end: int, timeframe: Timeframe) {
    StrictlyRising(kept) && forall i :: 0 <= i < |kept| ==> Wanted(kept[i], start, end, timeframe)
  }

  /** Each kept candle is the first that arrived with its time. */
  predicate FirstArrivals(kept: seq<Candle>, received: seq<Candle>) {
    forall i :: 0 <= i < |kept| ==> FirstWith(OpenTime, received, OpenTime(kept[i])) == Some(kept[i])
  }

  /** No wanted time that arrived is missing from the kept candles. */
  ghost predicate Complete(kept: seq<Candle>, received: seq<Candle>, start: int, end: int, timeframe: Timeframe) {
    forall c :: c in received && start <= c.timestamp <= end && IsAligned(c.timestamp, timeframe) ==>
      exists i :: 0 <= i < |kept| && kept[i].timestamp == c.timestamp
  }

  /** What the loop has established about the first `k` candles in time order. */
  ghost predicate NormalizedSoFar(
      kept: seq<Candle>, ordered: seq<Candle>, k: int, start: int, end: int, timeframe: Timeframe)
    requires 0 <= k <= |ordered|
  {
    && Normalized(kept, start, end, timeframe)
    && FirstArrivals(kept, ordered[..k])
    && Complete(kept, ordered[..k], start, end, timeframe)
    && DrawnFrom(kept, ordered[..k])
  }

  ghost predicate DrawnFrom(kept: seq<Candle>, seen: seq<Candle>) {
    forall i :: 0 <= i < |kept| ==> kept[i] in seen
  }

  method Normalize(candles: seq<Candle>, start: int, end: int, timeframe: Timeframe)
    returns (kept: seq<Candle>, rejected: nat)
    ensures Normalized(kept, start, end, timeframe)
    ensures FirstArrivals(kept, candles)
    ensures Complete(kept, candles, start, end, timeframe)
    ensures |kept| + rejected == |candles|
  {
    hide IsAligned, Sort, SortedBy, Normalized, FirstArrivals, Complete;
    var ordered := Sort(OpenTime, candles);
    SortSorts(OpenTime, candles);
    kept, rejected := [], 0;
    NothingSeen(ordered, start, end, timeframe);
    var k := 0;
    while k < |ordered|
      invariant 0 <= k <= |ordered|
      invariant |kept| + rejected == k
      invariant NormalizedSoFar(kept, ordered, k, start, end, timeframe)
    {
      hide NormalizedSoFar;
      var candle := ordered[k];
      if candle.timestamp < start || candle.timestamp > end {
        SkipCandle(kept, ordered, k, start, end, timeframe);
        rejected := rejected + 1;
      } else if !IsAligned(candle.timestamp, timeframe) {
        SkipCandle(kept, ordered, k, start, end, timeframe);
        rejected := rejected + 1;
      } else if exists i :: 0 <= i < |kept| && kept[i].timestamp == candle.timestamp {
        SkipCandle(kept, ordered, k, start, end, timeframe);
        rejected := rejected + 1;
      } else {
        KeepCandle(kept, ordered, k, start, end, timeframe);
        kept := kept + [candle];
      }
      k := k + 1;
    }
    SeenAll(kept, candles, start, end, timeframe);
  }

  lemma NothingSeen(ordered: seq<Candle>, start: int, end: int, timeframe: Timeframe)
    ensures NormalizedSoFar([], ordered, 0, start, end, timeframe)
  {}

  lemma SkipCandle(kept: seq<Candle>, ordered: seq<Candle>, k: int, start: int, end: int, timeframe: Timeframe)
    requires 0 <= k < |ordered| && NormalizedSoFar(kept, ordered, k, start, end, timeframe)
    requires Wanted(ordered[k], start, end, timeframe) ==>
               exists i :: 0 <= i < |kept| && kept[i].timestamp == ordered[k].timestamp
    ensures NormalizedSoFar(kept, ordered, k + 1, start, end, timeframe)
  {
    hide IsAligned;
    assert ordered[..k + 1] == ordered[..k] + [ordered[k]];
    ExtendArrivals(kept, ordered[..k], ordered[k]);
  }

  lemma KeepCandle(kept: seq<Candle>, ordered: seq<Candle>, k: int, start: int, end: int, timeframe: Timeframe)
    requires 0 <= k < |ordered| && SortedBy(OpenTime, ordered)
    requires NormalizedSoFar(kept, ordered, k, start, end, timeframe)
    requires Wanted(ordered[k], start, end, timeframe)
    requires forall i :: 0 <= i < |kept| ==> kept[i].timestamp != ordered[k].timestamp
    ensures NormalizedSoFar(kept + [ordered[k]], ordered, k + 1, start, end, timeframe)
  {
    hide IsAligned, SortedBy, Complete;
    assert ordered[..k + 1] == ordered[..k] + [ordered[k]];
    ExtendArrivals(kept, ordered[..k], ordered[k]);
    KeepNew(kept, ordered, k, start, end, timeframe);
    ExtendComplete(kept, ordered[..k], ordered[k], start, end, timeframe);
  }

  /** Sorting is stable and loses nothing, so what holds of the ordered list holds of the received one. */
  lemma SeenAll(kept: seq<Candle>, candles: seq<Candle>, start: int, end: int, timeframe: Timeframe)
    requires var ordered := Sort(OpenTime, candles); NormalizedSoFar(kept, ordered, |ordered|, start, end, timeframe)
    ensures Normalized(kept, start, end, timeframe)
    ensures FirstArrivals(kept, candles)
    ensures Complete(kept, candles, start, end, timeframe)
  {
    hide IsAligned, Sort, Normalized;
    var ordered := Sort(OpenTime, candles);
    SortSorts(OpenTime, candles);
    assert ordered[..|ordered|] == ordered;
    forall i | 0 <= i < |kept| ensures FirstWith(OpenTime, candles, OpenTime(kept[i])) == Some(kept[i]) {
      SortStable(OpenTime, candles, OpenTime(kept[i]));
    }
    forall c | c in candles && Wanted(c, start, end, timeframe)
      ensures exists i :: 0 <= i < |kept| && kept[i].timestamp == c.timestamp
    {
      assert c in multiset(candles);
      assert c in ordered;
    }
  }

  lemma ExtendArrivals(kept: seq<Candle>, seen: seq<Candle>, c: Candle)
    requires FirstArrivals(kept, seen)
    ensures FirstArrivals(kept, seen + [c])
  {
    forall i | 0 <= i < |kept| ensures FirstWith(OpenTime, seen + [c], OpenTime(kept[i])) == Some(kept[i]) {
      FirstWithAppend(OpenTime, seen, c, OpenTime(kept[i]));
    }
  }

  lemma ExtendComplete(kept: seq<Candle>, seen: seq<Candle>, c: Candle, start: int, end: int, timeframe: Timeframe)
    requires Complete(kept, seen, start, end, timeframe)
    ensures Complete(kept + [c], seen + [c], start, end, timeframe)
  {
    hide IsAligned;
    forall x | x in seen + [c] && Wanted(x, start, end, timeframe)
      ensures exists i :: 0 <= i < |kept + [c]| && (kept + [c])[i].timestamp == x.timestamp
    {
      if x in seen {
        var i :| 0 <= i < |kept| && kept[i].timestamp == x.timestamp;
        assert (kept + [c])[i] == kept[i];
      } else {
        assert (kept + [c])[|kept|] == c;
      }
    }
  }

  /** A wanted candle with a time not kept yet is later than all kept ones and the first with its time. */
  lemma KeepNew(kept: seq<Candle>, ordered: seq<Candle>, k: int, start: int, end: int, timeframe: Timeframe)
    requires SortedBy(OpenTime, ordered) && 0 <= k < |ordered|
    requires Wanted(ordered[k], start, end, timeframe)
    requires Complete(kept, ordered[..k], start, end, timeframe)
    requires DrawnFrom(kept, ordered[..k])
    requires forall i :: 0 <= i < |kept| ==> kept[i].timestamp != ordered[k].timestamp
    ensures forall i :: 0 <= i < |kept| ==> kept[i].timestamp < ordered[k].timestamp
    ensures FirstWith(OpenTime, ordered[..k] + [ordered[k]], OpenTime(ordered[k])) == Some(ordered[k])
  {
    hide IsAligned;
    forall i | 0 <= i < |kept| ensures kept[i].timestamp < ordered[k].timestamp {
      var j :| 0 <= j < k && ordered[..k][j] == kept[i];
      assert KeyLeq(OpenTime(ordered[j]), OpenTime(ordered[k]));
    }
    var key := OpenTime(ordered[k]);
    FirstWithMember(OpenTime, ordered[..k], key);
    FirstWithAppend(OpenTime, ordered[..k], ordered[k], key);
    if FirstWith(OpenTime, ordered[..k], key).Some? {
      assert false;
    }
  }

  // ---------- gaps ----------

  datatype GapKind = Leading | Internal | Trailing | Empty

  datatype Gap = Gap(kind: GapKind, expected: int, nextAvailable: Option<int>, missing: int)

  /** The first grid point after the gap. */
  function GapEnd(g: Gap, timeframe: Timeframe): int {
    g.expected + g.missing * timeframe.Duration()
  }

  /** `t` is one of the missing grid points the gap names. */
  predicate InGap(g: Gap, t: int, timeframe: Timeframe) {
    IsAligned(t, timeframe) && g.expected <= t < GapEnd(g, timeframe)
  }

  predicate HasTime(kept: seq<Candle>, t: int) {
    exists i :: 0 <= i < |kept| && kept[i].timestamp == t
  }

  function TotalMissing(gaps: seq<Gap>): int {
    if |gaps| == 0 then 0 else TotalMissing(gaps[..|gaps| - 1]) + gaps[|gaps| - 1].missing
  }

  predicate Named(gaps: seq<Gap>, t: int, timeframe: Timeframe) {
    exists g :: 0 <= g < |gaps| && InGap(gaps[g], t, timeframe)
  }

  /** Every grid point from start to end is kept or named by a gap. */
  ghost predicate Covered(gaps: seq<Gap>, kept: seq<Candle>, start: int, end: int, timeframe: Timeframe) {
    forall t :: start <= t <= end && IsAligned(t, timeframe) ==> HasTime(kept, t) || Named(gaps, t, timeframe)
  }

  /** A gap names only grid points in range that were not kept. */
  ghost predicate NamesOnlyMissing(g: Gap, kept: seq<Candle>, start: int, end: int, timeframe: Timeframe) {
    forall t :: InGap(g, t, timeframe) ==> start <= t <= end && !HasTime(kept, t)
  }

  predicate Before(g: Gap, h: Gap, timeframe: Timeframe) {
    GapEnd(g, timeframe) < h.expected
  }

  /** No gap names a kept point, and no two gaps name the same point. */
  ghost predicate Disjoint(gaps: seq<Gap>, kept: seq<Candle>, start: int, end: int, timeframe: Timeframe) {
    && (forall g :: 0 <= g < |gaps| ==> NamesOnlyMissing(gaps[g], kept, start, end, timeframe))
    && (forall g, h :: 0 <= g < h < |gaps| ==> Before(gaps[g], gaps[h], timeframe))
  }

  /** A gap cannot be extended: it is bounded by kept candles or by the requested range. */
  ghost predicate Maximal(g: Gap, kept: seq<Candle>, start: int, end: int, timeframe: Timeframe) {
    && g.missing >= 1
    && IsAligned(g.expected, timeframe)
    && (g.expected == start || HasTime(kept, g.expected - timeframe.Duration()))
    && match g.nextAvailable
       case Some(t) => t == GapEnd(g, timeframe) && HasTime(kept, t)
       case None => GapEnd(g, timeframe) == end + timeframe.Duration()
  }

  /** The gaps and the kept candles split the grid from start to end exactly. */
  ghost predicate Partition(gaps: seq<Gap>, kept: seq<Candle>, start: int, end: int, timeframe: Timeframe) {
    && Covered(gaps, kept, start, end, timeframe)
    && Disjoint(gaps, kept, start, end, timeframe)
    && (forall g :: 0 <= g < |gaps| ==> Maximal(gaps[g], kept, start, end, timeframe))
    && TotalMissing(gaps) + |kept| == EstimatedRows(start, end, timeframe)
  }

  lemma GridDistance(a: int, b: int, timeframe: Timeframe)
    requires IsAligned(a, timeframe) && IsAligned(b, timeframe)
    ensures IsAligned(a + timeframe.Duration(), timeframe) && IsAligned(a - timeframe.Duration(), timeframe)
    ensures a < b ==> a + timeframe.Duration() <= b && Steps(a, b, timeframe) >= 1
    ensures Steps(a, b, timeframe) * timeframe.Duration() == b - a
  {
    AlignedIsMultiple(a, timeframe);
    AlignedIsMultiple(b, timeframe);
    AlignedIsMultiple(a + timeframe.Duration(), timeframe);
    AlignedIsMultiple(a - timeframe.Duration(), timeframe);
    hide IsAligned, Timeframe.Seconds, Timeframe.Duration;
    var d := timeframe.Duration();
    var i, j := a / d, b / d;
    assert a == i * d && b == j * d;
    assert b - a == (j - i) * d && a + d == (i + 1) * d && a - d == (i - 1) * d;
    MultipleHasNoRemainder(i - 1, d);
    MultipleHasNoRemainder(j - i, d);
    MultipleHasNoRemainder(i + 1, d);
    if a < b {
      CancelFactor(i, j, d);
      ProductOrder(i + 1, j, d);
    }
  }

  /** Counting grid steps adds up along the grid. */
  lemma StepsAdd(a: int, b: int, c: int, timeframe: Timeframe)
    requires IsAligned(a, timeframe) && IsAligned(b, timeframe) && IsAligned(c, timeframe)
    ensures Steps(a, b, timeframe) + Steps(b, c, timeframe) == Steps(a, c, timeframe)
  {
    GridDistance(a, b, timeframe);
    GridDistance(b, c, timeframe);
    hide IsAligned, Timeframe.Seconds, Timeframe.Duration;
    var d := timeframe.Duration();
    var m, n := Steps(a, b, timeframe), Steps(b, c, timeframe);
    assert (m + n) * d == m * d + n * d;
    MultipleHasNoRemainder(m + n, d);
  }

  lemma OneStep(a: int, timeframe: Timeframe)
    ensures Steps(a, a, timeframe) == 0
    ensures Steps(a, a + timeframe.Duration(), timeframe) == 1 && Steps(a, a - timeframe.Duration(), timeframe) == -1
  {
    MultipleHasNoRemainder(-1, timeframe.Duration());
    MultipleHasNoRemainder(1, timeframe.Duration());
  }

  /** A gap that misses all steps up to a grid point ends at that point. */
  lemma GapEndsAt(g: Gap, t: int, timeframe: Timeframe)
    requires IsAligned(g.expected, timeframe) && IsAligned(t, timeframe) && g.missing == Steps(g.expected, t, timeframe)
    ensures GapEnd(g, timeframe) == t
  {
    GridDistance(g.expected, t, timeframe);
  }

  /** Every gap found so far is closed by a kept candle. */
  predicate AllClosed(gaps: seq<Gap>) {
    forall g :: 0 <= g < |gaps| ==> gaps[g].nextAvailable.Some?
  }

  lemma TotalMissingAppend(gaps: seq<Gap>, g: Gap)
    ensures TotalMissing(gaps + [g]) == TotalMissing(gaps) + g.missing
  {
    assert (gaps + [g])[..|gaps|] == gaps;
  }

  lemma HasTimeAppend(kept: seq<Candle>, c: Candle, t: int)
    ensures HasTime(kept + [c], t) <==> HasTime(kept, t) || c.timestamp == t
  {
    assert (kept + [c])[|kept|] == c;
    assert forall i :: 0 <= i < |kept| ==> (kept + [c])[i] == kept[i];
  }

  lemma StartsAtFirst(first: Candle, start: int, timeframe: Timeframe)
    requires first.timestamp == start && IsAligned(start, timeframe)
    ensures Partition([], [first], start, start, timeframe)
  {
    hide IsAligned, Steps;
    OneStep(start, timeframe);
    assert [first][0] == first;
    assert HasTime([first], start);
  }

  /**
    The one step of the whole argument: after a part of the grid that ends at `last`
    is split exactly, one more gap and then possibly one more candle extend the split
    up to `end`.
   */
  lemma PartitionExtends(
      gaps: seq<Gap>, kept: seq<Candle>, g: Gap, more: seq<Candle>,
      start: int, last: int, end: int, timeframe: Timeframe)
    requires Partition(gaps, kept, start, last, timeframe) && AllClosed(gaps)
    requires start <= last + timeframe.Duration() && last <= end
    requires IsAligned(last, timeframe) && (forall t :: HasTime(kept, t) ==> t <= last)
    requires forall t :: HasTime(more, t) <==> HasTime(kept, t) || (t == end && g.nextAvailable.Some?)
    requires g.expected == last + timeframe.Duration() && GapEnd(g, timeframe) > last
    requires GapEnd(g, timeframe) == if g.nextAvailable.Some? then end else end + timeframe.Duration()
    requires forall t :: InGap(g, t, timeframe) ==> t <= end
    requires Maximal(g, more, start, end, timeframe)
    requires g.missing + |more| - |kept| == Steps(start, end, timeframe) - Steps(start, last, timeframe)
    ensures Partition(gaps + [g], more, start, end, timeframe)
  {
    hide IsAligned, GapEnd, Steps, HasTime;
    var all := gaps + [g];
    TotalMissingAppend(gaps, g);
    assert Covered(all, more, start, end, timeframe) by {
      ExtendedCovers(gaps, kept, g, more, start, last, end, timeframe);
    }
    assert Disjoint(all, more, start, end, timeframe) by {
      ExtendedDisjoint(gaps, kept, g, more, start, last, end, timeframe);
    }
    forall k | 0 <= k < |all| ensures Maximal(all[k], more, start, end, timeframe) {
      if k < |gaps| {
        assert all[k] == gaps[k] && gaps[k].nextAvailable.Some?;
        assert Maximal(gaps[k], kept, start, last, timeframe);
      } else {
        assert all[k] == g;
      }
    }
  }

  lemma NamedAppend(gaps: seq<Gap>, g: Gap, t: int, timeframe: Timeframe)
    ensures Named(gaps + [g], t, timeframe) <==> Named(gaps, t, timeframe) || InGap(g, t, timeframe)
  {
    hide InGap;
    var all := gaps + [g];
    assert all[|gaps|] == g;
    assert forall k :: 0 <= k < |gaps| ==> all[k] == gaps[k];
  }

  lemma ExtendedCovers(
      gaps: seq<Gap>, kept: seq<Candle>, g: Gap, more: seq<Candle>,
      start: int, last: int, end: int, timeframe: Timeframe)
    requires Covered(gaps, kept, start, last, timeframe) && IsAligned(last, timeframe)
    requires forall t :: HasTime(kept, t) ==> HasTime(more, t)
    requires g.expected == last + timeframe.Duration()
    requires GapEnd(g, timeframe) > end || (GapEnd(g, timeframe) == end && HasTime(more, end))
    ensures Covered(gaps + [g], more, start, end, timeframe)
  {
    hide IsAligned, GapEnd, Steps, HasTime, Named;
    forall t | start <= t <= end && IsAligned(t, timeframe)
      ensures HasTime(more, t) || Named(gaps + [g], t, timeframe)
    {
      NamedAppend(gaps, g, t, timeframe);
      if t > last {
        GridDistance(last, t, timeframe);
      }
    }
  }

  lemma StillNamesOnlyMissing(
      h: Gap, kept: seq<Candle>, more: seq<Candle>, start: int, last: int, end: int, timeframe: Timeframe)
    requires NamesOnlyMissing(h, kept, start, last, timeframe) && last <= end
    requires forall t :: HasTime(more, t) ==> HasTime(kept, t) || t > last
    ensures NamesOnlyMissing(h, more, start, end, timeframe)
  {
    hide HasTime, InGap;
  }

  lemma NewGapNamesOnlyMissing(
      g: Gap, kept: seq<Candle>, more: seq<Candle>, start: int, last: int, end: int, timeframe: Timeframe)
    requires start <= g.expected && g.expected > last
    requires forall t :: HasTime(kept, t) ==> t <= last
    requires forall t :: HasTime(more, t) ==> HasTime(kept, t) || t >= GapEnd(g, timeframe)
    requires forall t :: InGap(g, t, timeframe) ==> t <= end
    ensures NamesOnlyMissing(g, more, start, end, timeframe)
  {
    hide HasTime, IsAligned, GapEnd;
  }

  lemma ExtendedDisjoint(
      gaps: seq<Gap>, kept: seq<Candle>, g: Gap, more: seq<Candle>,
      start: int, last: int, end: int, timeframe: Timeframe)
    requires start <= last + timeframe.Duration() && last <= end
    requires Disjoint(gaps, kept, start, last, timeframe) && AllClosed(gaps)
    requires forall k :: 0 <= k < |gaps| ==> Maximal(gaps[k], kept, start, last, timeframe)
    requires forall t :: HasTime(kept, t) ==> t <= last
    requires forall t :: HasTime(more, t) ==> HasTime(kept, t) || (t == end && g.nextAvailable.Some?)
    requires g.expected == last + timeframe.Duration() && GapEnd(g, timeframe) > last
    requires g.nextAvailable.Some? ==> GapEnd(g, timeframe) == end
    requires forall t :: InGap(g, t, timeframe) ==> t <= end
    ensures Disjoint(gaps + [g], more, start, end, timeframe)
  {
    hide IsAligned, HasTime, NamesOnlyMissing, InGap, Timeframe.Duration;
    var all := gaps + [g];
    NewGapNamesOnlyMissing(g, kept, more, start, last, end, timeframe);
    forall k | 0 <= k < |all| ensures NamesOnlyMissing(all[k], more, start, end, timeframe) {
      if k < |gaps| {
        assert all[k] == gaps[k];
        StillNamesOnlyMissing(gaps[k], kept, more, start, last, end, timeframe);
      }
    }
    forall h, k | 0 <= h < k < |all| ensures Before(all[h], all[k], timeframe) {
      assert all[h] == gaps[h];
      if k < |gaps| {
        assert all[k] == gaps[k];
      } else {
        assert Maximal(gaps[h], kept, start, last, timeframe);
      }
    }
  }

  /** Before the first grid point there is nothing to split. */
  lemma NothingYet(start: int, timeframe: Timeframe)
    requires IsAligned(start, timeframe)
    ensures IsAligned(start - timeframe.Duration(), timeframe)
    ensures Partition([], [], start, start - timeframe.Duration(), timeframe)
  {
    hide IsAligned, Steps;
    GridDistance(start, start, timeframe);
    OneStep(start, timeframe);
  }

  lemma StartsWithLeadingGap(first: Candle, start: int, timeframe: Timeframe)
    requires start < first.timestamp && IsAligned(start, timeframe) && IsAligned(first.timestamp, timeframe)
    ensures Partition([Gap(Leading, start, Some(first.timestamp), Steps(start, first.timestamp, timeframe))],
                      [first], start, first.timestamp, timeframe)
  {
    hide IsAligned, GapEnd, Steps, Partition;
    var g := Gap(Leading, start, Some(first.timestamp), Steps(start, first.timestamp, timeframe));
    var before := start - timeframe.Duration();
    NothingYet(start, timeframe);
    GridDistance(start, first.timestamp, timeframe);
    OneStep(start, timeframe);
    GapEndsAt(g, first.timestamp, timeframe);
    forall t ensures HasTime([first], t) <==> t == first.timestamp {
      HasTimeAppend([], first, t);
      assert [] + [first] == [first];
    }
    PartitionExtends([], [], g, [first], start, before, first.timestamp, timeframe);
    assert [] + [g] == [g];
  }

  lemma EmptyRangeGap(start: int, end: int, timeframe: Timeframe)
    requires start <= end && IsAligned(start, timeframe) && IsAligned(end, timeframe)
    ensures Partition([Gap(Empty, start, None, Steps(start, end, timeframe) + 1)], [], start, end, timeframe)
  {
    hide IsAligned, GapEnd, Steps, Partition;
    var before, beyond := start - timeframe.Duration(), end + timeframe.Duration();
    var g := Gap(Empty, start, None, Steps(start, end, timeframe) + 1);
    NothingYet(start, timeframe);
    GridDistance(start, end, timeframe);
    GridDistance(end, end, timeframe);
    GridDistance(start, beyond, timeframe);
    StepsAdd(start, end, beyond, timeframe);
    OneStep(start, timeframe);
    OneStep(end, timeframe);
    GapEndsAt(g, beyond, timeframe);
    forall t | InGap(g, t, timeframe) ensures t <= end {
      if t > end {
        GridDistance(end, t, timeframe);
      }
    }
    PartitionExtends([], [], g, [], start, before, end, timeframe);
    assert [] + [g] == [g];
  }

  /** The next candle comes right after the last one. */
  lemma NextFollows(gaps: seq<Gap>, kept: seq<Candle>, c: Candle, start: int, last: int, timeframe: Timeframe)
    requires start <= last && IsAligned(start, timeframe) && IsAligned(last, timeframe)
    requires Partition(gaps, kept, start, last, timeframe) && AllClosed(gaps)
    requires c.timestamp == last + timeframe.Duration()
    ensures Partition(gaps, kept + [c], start, c.timestamp, timeframe)
  {
    hide IsAligned, HasTime, NamesOnlyMissing, InGap, Steps, Named;
    var more, t0 := kept + [c], c.timestamp;
    forall t ensures HasTime(more, t) <==> HasTime(kept, t) || t0 == t {
      HasTimeAppend(kept, c, t);
    }
    GridDistance(last, last, timeframe);
    forall t | start <= t <= t0 && IsAligned(t, timeframe)
      ensures HasTime(more, t) || Named(gaps, t, timeframe)
    {
      if t > last {
        GridDistance(last, t, timeframe);
      }
    }
    forall g | 0 <= g < |gaps|
      ensures Maximal(gaps[g], more, start, t0, timeframe) && NamesOnlyMissing(gaps[g], more, start, t0, timeframe)
    {
      assert Maximal(gaps[g], kept, start, last, timeframe) && gaps[g].nextAvailable.Some?;
      StillNamesOnlyMissing(gaps[g], kept, more, start, last, t0, timeframe);
    }
    StepsAdd(start, last, t0, timeframe);
    OneStep(last, timeframe);
  }

  /** Grid points are missing between the last candle and the next. */
  lemma NextAfterGap(gaps: seq<Gap>, kept: seq<Candle>, c: Candle, start: int, last: int, timeframe: Timeframe)
    requires start <= last && IsAligned(start, timeframe) && IsAligned(last, timeframe)
    requires IsAligned(c.timestamp, timeframe)
    requires Partition(gaps, kept, start, last, timeframe) && AllClosed(gaps)
    requires HasTime(kept, last) && (forall t :: HasTime(kept, t) ==> t <= last)
    requires c.timestamp > last + timeframe.Duration()
    ensures var expected := last + timeframe.Duration();
            var g := Gap(Internal, expected, Some(c.timestamp), Steps(expected, c.timestamp, timeframe));
            Partition(gaps + [g], kept + [c], start, c.timestamp, timeframe)
  {
    hide IsAligned, GapEnd, Steps, HasTime, Partition;
    var expected, t0 := last + timeframe.Duration(), c.timestamp;
    var g := Gap(Internal, expected, Some(t0), Steps(expected, t0, timeframe));
    var more := kept + [c];
    forall t ensures HasTime(more, t) <==> HasTime(kept, t) || t0 == t {
      HasTimeAppend(kept, c, t);
    }
    GridDistance(last, t0, timeframe);
    GridDistance(expected, t0, timeframe);
    GapEndsAt(g, t0, timeframe);
    StepsAdd(start, last, t0, timeframe);
    StepsAdd(last, expected, t0, timeframe);
    OneStep(last, timeframe);
    PartitionExtends(gaps, kept, g, more, start, last, t0, timeframe);
  }

  /** Grid points are missing after the last candle. */
  lemma EndsWithTrailingGap(gaps: seq<Gap>, kept: seq<Candle>, start: int, last: int, end: int, timeframe: Timeframe)
    requires start <= last < end && IsAligned(start, timeframe) && IsAligned(last, timeframe)
    requires IsAligned(end, timeframe)
    requires Partition(gaps, kept, start, last, timeframe) && AllClosed(gaps)
    requires HasTime(kept, last) && (forall t :: HasTime(kept, t) ==> t <= last)
    ensures var g := Gap(Trailing, last + timeframe.Duration(), None, Steps(last, end, timeframe));
            Partition(gaps + [g], kept, start, end, timeframe)
  {
    hide IsAligned, GapEnd, Steps, HasTime, Partition;
    var expected, beyond := last + timeframe.Duration(), end + timeframe.Duration();
    var g := Gap(Trailing, expected, None, Steps(last, end, timeframe));
    GridDistance(last, end, timeframe);
    GridDistance(end, end, timeframe);
    StepsAdd(start, last, end, timeframe);
    StepsAdd(last, end, beyond, timeframe);
    StepsAdd(last, expected, beyond, timeframe);
    OneStep(last, timeframe);
    OneStep(end, timeframe);
    GapEndsAt(g, beyond, timeframe);
    forall t | InGap(g, t, timeframe) ensures t <= end {
      if t > end {
        GridDistance(end, t, timeframe);
      }
    }
    PartitionExtends(gaps, kept, g, kept, start, last, end, timeframe);
  }

  lemma NextCandle(gaps: seq<Gap>, ordered: seq<Candle>, k: int, start: int, timeframe: Timeframe)
    requires 1 <= k < |ordered| && StrictlyRising(ordered)
    requires IsAligned(start, timeframe) && start <= ordered[k - 1].timestamp
    requires IsAligned(ordered[k - 1].timestamp, timeframe) && IsAligned(ordered[k].timestamp, timeframe)
    requires Partition(gaps, ordered[..k], start, ordered[k - 1].timestamp, timeframe) && AllClosed(gaps)
    ensures var current, expected := ordered[k].timestamp, ordered[k - 1].timestamp + timeframe.Duration();
            Partition(
              if current > expected then
                gaps + [Gap(Internal, expected, Some(current), Steps(expected, current, timeframe))]
              else gaps,
              ordered[..k + 1], start, current, timeframe)
  {
    hide IsAligned, Partition, HasTime, Steps;
    var previous, current := ordered[k - 1].timestamp, ordered[k].timestamp;
    assert ordered[..k + 1] == ordered[..k] + [ordered[k]];
    LastIsKept(ordered, k);
    GridDistance(previous, current, timeframe);
    if current > previous + timeframe.Duration() {
      NextAfterGap(gaps, ordered[..k], ordered[k], start, previous, timeframe);
    } else {
      NextFollows(gaps, ordered[..k], ordered[k], start, previous, timeframe);
    }
  }

  // ---------- the gaps of any list ----------

  /** The gap before the first candle, if it comes after the start. */
  function LeadingGaps(first: int, start: int, timeframe: Timeframe): seq<Gap> {
    if first > start then [Gap(Leading, start, Some(first), Steps(start, first, timeframe))] else []
  }

  /** The gap between two neighbours, if the later comes after the next grid point. */
  function GapBetween(previous: int, current: int, timeframe: Timeframe): seq<Gap> {
    var expected := previous + timeframe.Duration();
    if current > expected then [Gap(Internal, expected, Some(current), Steps(expected, current, timeframe))] else []
  }

  function InternalGaps(ordered: seq<Candle>, timeframe: Timeframe): seq<Gap> {
    var n := |ordered|;
    if n < 2 then []
    else
      InternalGaps(ordered[..n - 1], timeframe) +
      GapBetween(ordered[n - 2].timestamp, ordered[n - 1].timestamp, timeframe)
  }

  /** The gap after the last candle, if it comes before the end. */
  function TrailingGaps(last: int, end: int, timeframe: Timeframe): seq<Gap> {
    if last < end then [Gap(Trailing, last + timeframe.Duration(), None, Steps(last, end, timeframe))] else []
  }

  /** What is reported for candles in time order, whether or not they are normalised. */
  function GapsIn(ordered: seq<Candle>, start: int, end: int, timeframe: Timeframe): seq<Gap> {
    if |ordered| == 0 then [Gap(Empty, start, None, Steps(start, end, timeframe) + 1)]
    else
      LeadingGaps(ordered[0].timestamp, start, timeframe) + InternalGaps(ordered, timeframe)
      + TrailingGaps(ordered[|ordered| - 1].timestamp, end, timeframe)
  }

  /** Every reported gap must name at least one missing candle. */
  predicate AllCounted(gaps: seq<Gap>) {
    forall k :: 0 <= k < |gaps| ==> gaps[k].missing >= 1
  }

  function Checked(gaps: seq<Gap>): Result<seq<Gap>, Error> {
    if AllCounted(gaps) then Ok(gaps) else Err(GapWithoutCandle)
  }

  /** Strictly later, but by less than one candle. */
  predicate Sliver(from: int, to: int, timeframe: Timeframe) {
    from < to < from + timeframe.Duration()
  }

  /** The candle comes after the next grid point of its predecessor, by less than one candle. */
  predicate NarrowAt(ordered: seq<Candle>, i: int, timeframe: Timeframe) {
    0 < i < |ordered| && Sliver(ordered[i - 1].timestamp + timeframe.Duration(), ordered[i].timestamp, timeframe)
  }

  predicate NarrowNeighbours(ordered: seq<Candle>, timeframe: Timeframe) {
    exists i :: 0 <= i < |ordered| && NarrowAt(ordered, i, timeframe)
  }

  /** Some gap of these candles is less than one candle wide. */
  predicate NarrowGap(ordered: seq<Candle>, start: int, end: int, timeframe: Timeframe) {
    |ordered| > 0 &&
    (|| Sliver(start, ordered[0].timestamp, timeframe)
     || NarrowNeighbours(ordered, timeframe)
     || Sliver(ordered[|ordered| - 1].timestamp, end, timeframe))
  }

  lemma CountedIfWide(from: int, to: int, timeframe: Timeframe)
    requires from < to
    ensures Steps(from, to, timeframe) >= 1 <==> !Sliver(from, to, timeframe)
  {
    var n, d := to - from, timeframe.Duration();
    assert n == (n / d) * d + n % d;
    if n / d >= 1 {
      ProductOrder(1, n / d, d);
    }
  }

  lemma BothCounted(a: seq<Gap>, b: seq<Gap>)
    ensures AllCounted(a + b) <==> AllCounted(a) && AllCounted(b)
  {
    var all := a + b;
    assert forall k :: 0 <= k < |b| ==> all[|a| + k] == b[k];
    assert forall k :: 0 <= k < |a| ==> all[k] == a[k];
  }

  lemma BetweenCounted(previous: int, current: int, timeframe: Timeframe)
    ensures AllCounted(GapBetween(previous, current, timeframe)) <==>
            !Sliver(previous + timeframe.Duration(), current, timeframe)
  {
    hide Steps;
    if previous + timeframe.Duration() < current {
      CountedIfWide(previous + timeframe.Duration(), current, timeframe);
      assert GapBetween(previous, current, timeframe)[0].missing ==
             Steps(previous + timeframe.Duration(), current, timeframe);
    }
  }

  lemma NarrowLast(ordered: seq<Candle>, timeframe: Timeframe)
    requires |ordered| >= 2
    ensures var n := |ordered|;
            NarrowNeighbours(ordered, timeframe) <==>
            NarrowNeighbours(ordered[..n - 1], timeframe) ||
            Sliver(ordered[n - 2].timestamp + timeframe.Duration(), ordered[n - 1].timestamp, timeframe)
  {
    hide Sliver, Timeframe.Duration;
    var n := |ordered|;
    var init := ordered[..n - 1];
    forall i | i < n - 1 ensures NarrowAt(init, i, timeframe) <==> NarrowAt(ordered, i, timeframe) {}
    assert NarrowAt(ordered, n - 1, timeframe) <==>
           Sliver(ordered[n - 2].timestamp + timeframe.Duration(), ordered[n - 1].timestamp, timeframe);
  }

  lemma {:induction false} InternalCounted(ordered: seq<Candle>, timeframe: Timeframe)
    ensures AllCounted(InternalGaps(ordered, timeframe)) <==> !NarrowNeighbours(ordered, timeframe)
  {
    hide GapBetween, Sliver, AllCounted, Timeframe.Duration, NarrowNeighbours;
    var n := |ordered|;
    if n >= 2 {
      var init := ordered[..n - 1];
      InternalCounted(init, timeframe);
      BetweenCounted(ordered[n - 2].timestamp, ordered[n - 1].timestamp, timeframe);
      BothCounted(InternalGaps(init, timeframe),
                  GapBetween(ordered[n - 2].timestamp, ordered[n - 1].timestamp, timeframe));
      NarrowLast(ordered, timeframe);
    } else {
      NoGapCounted();
      NoNeighbours(ordered, timeframe);
    }
  }

  lemma NoGapCounted()
    ensures AllCounted([])
  {}

  lemma NoNeighbours(ordered: seq<Candle>, timeframe: Timeframe)
    requires |ordered| < 2
    ensures !NarrowNeighbours(ordered, timeframe)
  {}

  /** A gap that counts no candle, wherever it is, makes the whole list fail. */
  lemma NarrowFails(ordered: seq<Candle>, k: int, timeframe: Timeframe)
    requires 1 <= k < |ordered|
    requires var expected := ordered[k - 1].timestamp + timeframe.Duration();
             expected < ordered[k].timestamp && Steps(expected, ordered[k].timestamp, timeframe) < 1
    ensures !AllCounted(InternalGaps(ordered, timeframe))
  {
    hide Steps, AllCounted, InternalGaps, Timeframe.Duration;
    CountedIfWide(ordered[k - 1].timestamp + timeframe.Duration(), ordered[k].timestamp, timeframe);
    InternalCounted(ordered, timeframe);
    assert NarrowAt(ordered, k, timeframe);
  }

  /** Every gap counts a candle exactly when none is less than one candle wide. */
  lemma CountedIffNotNarrow(ordered: seq<Candle>, start: int, end: int, timeframe: Timeframe)
    requires start <= end
    ensures AllCounted(GapsIn(ordered, start, end, timeframe)) <==> !NarrowGap(ordered, start, end, timeframe)
  {
    hide Steps, InternalGaps, NarrowNeighbours;
    if |ordered| == 0 {
      EmptyRangeCounts(start, end, timeframe);
    } else {
      var first, last := ordered[0].timestamp, ordered[|ordered| - 1].timestamp;
      if start < first {
        CountedIfWide(start, first, timeframe);
        assert LeadingGaps(first, start, timeframe)[0].missing == Steps(start, first, timeframe);
      }
      if last < end {
        CountedIfWide(last, end, timeframe);
        assert TrailingGaps(last, end, timeframe)[0].missing == Steps(last, end, timeframe);
      }
      InternalCounted(ordered, timeframe);
      hide AllCounted, LeadingGaps, TrailingGaps;
      BothCounted(LeadingGaps(first, start, timeframe), InternalGaps(ordered, timeframe));
      BothCounted(LeadingGaps(first, start, timeframe) + InternalGaps(ordered, timeframe),
                  TrailingGaps(last, end, timeframe));
    }
  }

  lemma EmptyRangeCounts(start: int, end: int, timeframe: Timeframe)
    requires start <= end
    ensures Steps(start, end, timeframe) >= 0
  {
    var n, d := end - start, timeframe.Duration();
    assert n == (n / d) * d + n % d;
    if n / d < 0 {
      ProductOrder(n / d, -1, d);
    }
  }

  /** Aligned candles and bounds leave no narrow gap. */
  lemma PartitionCounted(gaps: seq<Gap>, kept: seq<Candle>, start: int, end: int, timeframe: Timeframe)
    requires Partition(gaps, kept, start, end, timeframe)
    ensures AllCounted(gaps)
  {
    hide Covered, Disjoint, TotalMissing, HasTime, IsAligned;
    assert forall g :: 0 <= g < |gaps| ==> Maximal(gaps[g], kept, start, end, timeframe);
  }

  /**
    Gap detection. On aligned bounds it fails exactly when some gap is less than one candle
    wide; candles on the requested grid leave none, in any order and with repeated times, and
    then gaps and times split the grid.
   */
  method DetectGaps(candles: seq<Candle>, start: int, end: int, timeframe: Timeframe)
    returns (r: Result<seq<Gap>, Error>)
    ensures end < start ==> r == Err(EndBeforeStart)
    ensures end >= start && !IsAligned(start, timeframe) ==> r == Err(UnalignedStart)
    ensures end >= start && IsAligned(start, timeframe) && !IsAligned(end, timeframe) ==> r == Err(UnalignedEnd)
    ensures end >= start && IsAligned(start, timeframe) && IsAligned(end, timeframe) ==>
              r == if NarrowGap(Sort(OpenTime, candles), start, end, timeframe) then Err(GapWithoutCandle)
                   else Ok(GapsIn(Sort(OpenTime, candles), start, end, timeframe))
    ensures end >= start && IsAligned(start, timeframe) && IsAligned(end, timeframe) &&
            AllWanted(candles, start, end, timeframe) ==>
              r.Ok? && Partition(r.value, NoRepeats(Sort(OpenTime, candles)), start, end, timeframe)
    ensures forall t :: HasTime(NoRepeats(Sort(OpenTime, candles)), t) <==> HasTime(candles, t)
  {
    hide IsAligned, Sort, Partition, Steps, AllWanted, NoRepeats, InternalGaps, HasTime, Sliver, NarrowGap;
    SameTimes(candles);
    if end < start {
      return Err(EndBeforeStart);
    }
    if !IsAligned(start, timeframe) {
      return Err(UnalignedStart);
    }
    if !IsAligned(end, timeframe) {
      return Err(UnalignedEnd);
    }
    var ordered := Sort(OpenTime, candles);
    CountedIffNotNarrow(ordered, start, end, timeframe);
    if AllWanted(candles, start, end, timeframe) {
      GapsOfWanted(candles, start, end, timeframe);
      PartitionCounted(GapsIn(ordered, start, end, timeframe), NoRepeats(ordered), start, end, timeframe);
    }
    hide AllCounted;
    if |ordered| == 0 {
      EmptyRangeCounts(start, end, timeframe);
      r := Ok([Gap(Empty, start, None, Steps(start, end, timeframe) + 1)]);
      OneCounted(r.value[0]);
      return;
    }
    var first, last := ordered[0].timestamp, ordered[|ordered| - 1].timestamp;
    ghost var leading, trailing := LeadingGaps(first, start, timeframe), TrailingGaps(last, end, timeframe);
    BothCounted(leading, InternalGaps(ordered, timeframe));
    BothCounted(leading + InternalGaps(ordered, timeframe), trailing);
    var gaps: seq<Gap> := [];
    if first > start {
      var gap := Gap(Leading, start, Some(first), Steps(start, first, timeframe));
      OneCounted(gap);
      if gap.missing < 1 {
        return Err(GapWithoutCandle);
      }
      gaps := gaps + [gap];
    }
    assert gaps == leading;
    var between := ListInternalGaps(ordered, timeframe);
    if between.Err? {
      return Err(between.error);
    }
    gaps := gaps + between.value;
    ghost var closed := gaps;
    if last < end {
      var gap := Gap(Trailing, last + timeframe.Duration(), None, Steps(last, end, timeframe));
      OneCounted(gap);
      if gap.missing < 1 {
        return Err(GapWithoutCandle);
      }
      gaps := gaps + [gap];
    }
    assert gaps == closed + trailing;
    assert AllCounted(leading) && AllCounted(trailing);
    r := Ok(gaps);
  }

  lemma NothingBetween(ordered: seq<Candle>, timeframe: Timeframe)
    requires |ordered| < 2
    ensures InternalGaps(ordered, timeframe) == []
  {}

  /** Of what kind a gap is: named by what bounds it. */
  lemma GapKinds(ordered: seq<Candle>, start: int, end: int, timeframe: Timeframe, g: Gap)
    requires g in GapsIn(ordered, start, end, timeframe)
    ensures g.kind == Empty <==> |ordered| == 0
    ensures g.kind == Trailing <==> |ordered| > 0 && g.nextAvailable == None
    ensures |ordered| > 0 && g.kind == Leading ==> g.expected == start && g.nextAvailable == Some(ordered[0].timestamp)
    ensures g.kind == Internal ==>
              exists i :: 0 < i < |ordered| && g.expected == ordered[i - 1].timestamp + timeframe.Duration() &&
                          g.nextAvailable == Some(ordered[i].timestamp)
  {
    hide Steps, Timeframe.Duration, InternalGaps;
    if |ordered| > 0 && g in InternalGaps(ordered, timeframe) {
      var i := InternalKind(ordered, timeframe, g);
    }
  }

  lemma {:induction false} InternalKind(ordered: seq<Candle>, timeframe: Timeframe, g: Gap) returns (i: nat)
    requires g in InternalGaps(ordered, timeframe)
    ensures g.kind == Internal && 0 < i < |ordered|
    ensures g.expected == ordered[i - 1].timestamp + timeframe.Duration()
    ensures g.nextAvailable == Some(ordered[i].timestamp)
  {
    hide Steps, Timeframe.Duration;
    i := |ordered| - 1;
    if g in InternalGaps(ordered[..i], timeframe) {
      i := InternalKind(ordered[..i], timeframe, g);
    }
  }

  lemma OneCounted(g: Gap)
    ensures AllCounted([g]) <==> g.missing >= 1
  {
    assert [g][0] == g;
  }

  lemma InternalGapsNext(ordered: seq<Candle>, k: int, timeframe: Timeframe)
    requires 2 <= k <= |ordered|
    ensures InternalGaps(ordered[..k], timeframe) ==
            InternalGaps(ordered[..k - 1], timeframe) +
            GapBetween(ordered[k - 2].timestamp, ordered[k - 1].timestamp, timeframe)
  {
    assert ordered[..k][..k - 1] == ordered[..k - 1];
  }

  /** The walk over neighbouring candles; the first gap that counts no candle ends it. */
  method ListInternalGaps(ordered: seq<Candle>, timeframe: Timeframe) returns (r: Result<seq<Gap>, Error>)
    requires |ordered| > 0
    ensures r == Checked(InternalGaps(ordered, timeframe))
  {
    hide Steps, AllCounted, InternalGaps, Timeframe.Duration;
    var gaps: seq<Gap> := [];
    NoGapCounted();
    NothingBetween(ordered[..1], timeframe);
    var k := 1;
    while k < |ordered|
      invariant 1 <= k <= |ordered|
      invariant gaps == InternalGaps(ordered[..k], timeframe) && AllCounted(gaps)
    {
      var previous, current := ordered[k - 1].timestamp, ordered[k].timestamp;
      var expected := previous + timeframe.Duration();
      InternalGapsNext(ordered, k + 1, timeframe);
      if current > expected {
        var gap := Gap(Internal, expected, Some(current), Steps(expected, current, timeframe));
        if gap.missing < 1 {
          NarrowFails(ordered, k, timeframe);
          return Err(GapWithoutCandle);
        }
        OneCounted(gap);
        BothCounted(gaps, [gap]);
        gaps := gaps + [gap];
      }
      k := k + 1;
    }
    assert ordered[..|ordered|] == ordered;
    r := Ok(gaps);
  }

  /** One-minute candles at second 0 and at second 90: the code computes a gap of zero candles and raises. */
  lemma HalfAStepRaises(first: Candle, second: Candle)
    requires first.timestamp == 0 && second.timestamp == 90 * MICROSECONDS
    ensures OneMinute.Duration() == 60 * MICROSECONDS
    ensures GapsIn([first, second], 0, 60 * MICROSECONDS, OneMinute) ==
            [Gap(Internal, 60 * MICROSECONDS, Some(90 * MICROSECONDS), 0)]
    ensures NarrowGap([first, second], 0, 60 * MICROSECONDS, OneMinute)
  {
    var ordered := [first, second];
    assert ordered[..1] == [first];
    assert Steps(60 * MICROSECONDS, 90 * MICROSECONDS, OneMinute) == 0;
    assert InternalGaps(ordered[..1], OneMinute) == [];
    assert InternalGaps(ordered, OneMinute) == [Gap(Internal, 60 * MICROSECONDS, Some(90 * MICROSECONDS), 0)];
    assert NarrowAt(ordered, 1, OneMinute);
  }

  // ---------- the gaps split the grid ----------

  lemma LeadingSplit(first: Candle, start: int, timeframe: Timeframe)
    requires start <= first.timestamp && IsAligned(start, timeframe) && IsAligned(first.timestamp, timeframe)
    ensures var gaps := LeadingGaps(first.timestamp, start, timeframe);
            AllClosed(gaps) && Partition(gaps, [first], start, first.timestamp, timeframe)
  {
    hide IsAligned, Partition, Steps;
    if first.timestamp > start {
      StartsWithLeadingGap(first, start, timeframe);
    } else {
      StartsAtFirst(first, start, timeframe);
    }
  }

  lemma NormalizedAt(ordered: seq<Candle>, i: nat, start: int, end: int, timeframe: Timeframe)
    requires i < |ordered| && Normalized(ordered, start, end, timeframe)
    ensures StrictlyRising(ordered) && start <= ordered[i].timestamp <= end
    ensures IsAligned(ordered[i].timestamp, timeframe)
  {
    assert Wanted(ordered[i], start, end, timeframe);
  }

  /** Up to its last candle, a normalised list and its leading and internal gaps split the grid. */
  lemma {:induction false} InternalGapsSplit(ordered: seq<Candle>, k: nat, start: int, end: int, timeframe: Timeframe)
    requires 1 <= k <= |ordered| && Normalized(ordered, start, end, timeframe) && IsAligned(start, timeframe)
    ensures var gaps := LeadingGaps(ordered[0].timestamp, start, timeframe) + InternalGaps(ordered[..k], timeframe);
            AllClosed(gaps) && Partition(gaps, ordered[..k], start, ordered[k - 1].timestamp, timeframe)
  {
    hide IsAligned, Partition, LeadingGaps, Normalized, StrictlyRising, AllClosed, GapBetween;
    var lead := LeadingGaps(ordered[0].timestamp, start, timeframe);
    NormalizedAt(ordered, k - 1, start, end, timeframe);
    if k == 1 {
      assert ordered[..1] == [ordered[0]] && lead + [] == lead;
      LeadingSplit(ordered[0], start, timeframe);
    } else {
      hide InternalGaps;
      NormalizedAt(ordered, k - 2, start, end, timeframe);
      InternalGapsSplit(ordered, k - 1, start, end, timeframe);
      InternalGapsNext(ordered, k, timeframe);
      var before := lead + InternalGaps(ordered[..k - 1], timeframe);
      assert lead + InternalGaps(ordered[..k], timeframe) ==
             before + GapBetween(ordered[k - 2].timestamp, ordered[k - 1].timestamp, timeframe);
      NextGap(before, ordered, k - 1, start, timeframe);
    }
  }

  lemma NextGap(before: seq<Gap>, ordered: seq<Candle>, k: int, start: int, timeframe: Timeframe)
    requires 1 <= k < |ordered| && StrictlyRising(ordered) && AllClosed(before)
    requires IsAligned(start, timeframe) && start <= ordered[k - 1].timestamp
    requires IsAligned(ordered[k - 1].timestamp, timeframe) && IsAligned(ordered[k].timestamp, timeframe)
    requires Partition(before, ordered[..k], start, ordered[k - 1].timestamp, timeframe)
    ensures var gaps := before + GapBetween(ordered[k - 1].timestamp, ordered[k].timestamp, timeframe);
            AllClosed(gaps) && Partition(gaps, ordered[..k + 1], start, ordered[k].timestamp, timeframe)
  {
    hide IsAligned, Partition, Steps, StrictlyRising;
    assert before + [] == before;
    NextCandle(before, ordered, k, start, timeframe);
  }

  /** The gaps reported for a normalised list split the grid from start to end with it. */
  lemma GapsOfNormalized(ordered: seq<Candle>, start: int, end: int, timeframe: Timeframe)
    requires start <= end && IsAligned(start, timeframe) && IsAligned(end, timeframe)
    requires Normalized(ordered, start, end, timeframe)
    ensures Partition(GapsIn(ordered, start, end, timeframe), ordered, start, end, timeframe)
  {
    hide IsAligned, Partition, Steps, LeadingGaps, InternalGaps, HasTime, Normalized;
    var n := |ordered|;
    if n == 0 {
      EmptyRangeGap(start, end, timeframe);
      assert ordered == [];
    } else {
      NormalizedAt(ordered, n - 1, start, end, timeframe);
      assert ordered[..n] == ordered;
      InternalGapsSplit(ordered, n, start, end, timeframe);
      var last := ordered[n - 1].timestamp;
      var gaps := LeadingGaps(ordered[0].timestamp, start, timeframe) + InternalGaps(ordered, timeframe);
      LastIsKept(ordered, n);
      hide AllClosed, StrictlyRising;
      LastSplit(gaps, ordered, start, last, end, timeframe);
    }
  }

  lemma LastSplit(gaps: seq<Gap>, kept: seq<Candle>, start: int, last: int, end: int, timeframe: Timeframe)
    requires start <= last <= end && IsAligned(start, timeframe)
    requires IsAligned(last, timeframe) && IsAligned(end, timeframe)
    requires Partition(gaps, kept, start, last, timeframe) && AllClosed(gaps)
    requires HasTime(kept, last) && (forall t :: HasTime(kept, t) ==> t <= last)
    ensures Partition(gaps + TrailingGaps(last, end, timeframe), kept, start, end, timeframe)
  {
    hide IsAligned, Partition, Steps, HasTime, AllClosed;
    if last < end {
      EndsWithTrailingGap(gaps, kept, start, last, end, timeframe);
    } else {
      assert gaps + [] == gaps;
    }
  }

  lemma LastIsKept(ordered: seq<Candle>, k: int)
    requires 1 <= k <= |ordered| && StrictlyRising(ordered)
    ensures HasTime(ordered[..k], ordered[k - 1].timestamp)
    ensures forall t :: HasTime(ordered[..k], t) ==> t <= ordered[k - 1].timestamp
  {
    assert ordered[..k][k - 1] == ordered[k - 1];
  }

  // ---------- repeated times ----------

  predicate AllWanted(candles: seq<Candle>, start: int, end: int, timeframe: Timeframe) {
    forall i :: 0 <= i < |candles| ==> Wanted(candles[i], start, end, timeframe)
  }

  /** Of candles in time order, the first of every time. */
  function NoRepeats(ordered: seq<Candle>): seq<Candle> {
    var n := |ordered|;
    if n < 2 then ordered
    else if ordered[n - 1].timestamp == ordered[n - 2].timestamp then NoRepeats(ordered[..n - 1])
    else NoRepeats(ordered[..n - 1]) + [ordered[n - 1]]
  }

  lemma {:induction false} NoRepeatsKeepsEnds(ordered: seq<Candle>)
    requires |ordered| > 0
    ensures var kept := NoRepeats(ordered);
            && |kept| > 0 && kept[0] == ordered[0] && kept[|kept| - 1].timestamp == ordered[|ordered| - 1].timestamp
            && (forall c :: c in kept ==> c in ordered)
  {
    if |ordered| >= 2 {
      NoRepeatsKeepsEnds(ordered[..|ordered| - 1]);
    }
  }

  lemma {:induction false} NoRepeatsRises(ordered: seq<Candle>)
    requires SortedBy(OpenTime, ordered)
    ensures StrictlyRising(NoRepeats(ordered))
  {
    var n := |ordered|;
    if n >= 2 {
      var init := ordered[..n - 1];
      NoRepeatsRises(init);
      NoRepeatsKeepsEnds(init);
      assert KeyLeq(OpenTime(ordered[n - 2]), OpenTime(ordered[n - 1]));
      hide SortedBy;
    }
  }

  lemma {:induction false} NoRepeatsKeepsTimes(ordered: seq<Candle>, t: int)
    ensures HasTime(NoRepeats(ordered), t) <==> HasTime(ordered, t)
  {
    var n := |ordered|;
    if n >= 2 {
      var init, last := ordered[..n - 1], ordered[n - 1];
      NoRepeatsKeepsTimes(init, t);
      assert ordered == init + [last];
      HasTimeAppend(init, last, t);
      HasTimeAppend(NoRepeats(init), last, t);
      if last.timestamp == ordered[n - 2].timestamp {
        assert init[n - 2] == ordered[n - 2];
      }
    }
  }

  lemma TimesOfMembers(a: seq<Candle>, b: seq<Candle>, t: int)
    requires HasTime(a, t) && forall c :: c in a ==> c in b
    ensures HasTime(b, t)
  {
    var i :| 0 <= i < |a| && a[i].timestamp == t;
    assert a[i] in b;
  }

  lemma SortedMembers(candles: seq<Candle>)
    ensures forall c :: c in Sort(OpenTime, candles) <==> c in candles
  {
    SortSorts(OpenTime, candles);
    hide Sort;
    assert forall c :: c in candles <==> c in multiset(candles);
    assert forall c :: c in Sort(OpenTime, candles) <==> c in multiset(Sort(OpenTime, candles));
  }

  /** Sorting and dropping repeats keeps exactly the times of the list. */
  lemma SameTimes(candles: seq<Candle>)
    ensures forall t :: HasTime(NoRepeats(Sort(OpenTime, candles)), t) <==> HasTime(candles, t)
  {
    SortedMembers(candles);
    hide Sort, NoRepeats, HasTime;
    var ordered := Sort(OpenTime, candles);
    forall t ensures HasTime(NoRepeats(ordered), t) <==> HasTime(candles, t) {
      NoRepeatsKeepsTimes(ordered, t);
      if HasTime(ordered, t) {
        TimesOfMembers(ordered, candles, t);
      }
      if HasTime(candles, t) {
        TimesOfMembers(candles, ordered, t);
      }
    }
  }

  lemma SameTimeNoGap(t: int, timeframe: Timeframe)
    ensures GapBetween(t, t, timeframe) == []
  {}

  lemma NoRepeatsStep(ordered: seq<Candle>)
    requires |ordered| >= 2
    ensures var n := |ordered|;
            NoRepeats(ordered) ==
            if ordered[n - 1].timestamp == ordered[n - 2].timestamp then NoRepeats(ordered[..n - 1])
            else NoRepeats(ordered[..n - 1]) + [ordered[n - 1]]
  {}

  lemma InternalGapsAppend(kept: seq<Candle>, c: Candle, timeframe: Timeframe)
    requires |kept| > 0
    ensures InternalGaps(kept + [c], timeframe) ==
            InternalGaps(kept, timeframe) + GapBetween(kept[|kept| - 1].timestamp, c.timestamp, timeframe)
  {
    hide GapBetween;
    assert (kept + [c])[..|kept|] == kept;
  }

  /** A repeated time changes no gap. */
  lemma {:induction false} RepeatsMakeNoGap(ordered: seq<Candle>, timeframe: Timeframe)
    ensures InternalGaps(NoRepeats(ordered), timeframe) == InternalGaps(ordered, timeframe)
  {
    hide GapBetween, InternalGaps, NoRepeats;
    var n := |ordered|;
    if n >= 2 {
      var init, last := ordered[..n - 1], ordered[n - 1];
      RepeatsMakeNoGap(init, timeframe);
      NoRepeatsKeepsEnds(init);
      NoRepeatsStep(ordered);
      assert ordered == init + [last];
      InternalGapsAppend(init, last, timeframe);
      if last.timestamp == init[n - 2].timestamp {
        SameTimeNoGap(last.timestamp, timeframe);
      } else {
        InternalGapsAppend(NoRepeats(init), last, timeframe);
      }
    } else {
      ShortHasNoRepeats(ordered);
    }
  }

  lemma ShortHasNoRepeats(ordered: seq<Candle>)
    requires |ordered| < 2
    ensures NoRepeats(ordered) == ordered
  {}

  /**
    For any list of candles on the requested grid, in any order and with repeated times,
    the reported gaps and the distinct times split the grid exactly.
   */
  lemma GapsOfWanted(candles: seq<Candle>, start: int, end: int, timeframe: Timeframe)
    requires start <= end && IsAligned(start, timeframe) && IsAligned(end, timeframe)
    requires AllWanted(candles, start, end, timeframe)
    ensures var ordered := Sort(OpenTime, candles);
            Partition(GapsIn(ordered, start, end, timeframe), NoRepeats(ordered), start, end, timeframe)
  {
    var ordered := Sort(OpenTime, candles);
    SortSorts(OpenTime, candles);
    hide IsAligned, Partition, Steps, Sort, KeyLeq, InternalGaps, LeadingGaps, TrailingGaps;
    var kept := NoRepeats(ordered);
    NoRepeatsRises(ordered);
    RepeatsMakeNoGap(ordered, timeframe);
    if |ordered| > 0 {
      NoRepeatsKeepsEnds(ordered);
    }
    forall i | 0 <= i < |kept| ensures Wanted(kept[i], start, end, timeframe) {
      assert kept[i] in kept;
      assert kept[i] in multiset(ordered);
      assert kept[i] in candles;
    }
    GapsOfNormalized(kept, start, end, timeframe);
  }

  lemma {:induction false} RisingHasNoRepeats(ordered: seq<Candle>)
    requires StrictlyRising(ordered)
    ensures NoRepeats(ordered) == ordered
  {
    var n := |ordered|;
    if n >= 2 {
      RisingHasNoRepeats(ordered[..n - 1]);
      assert ordered == ordered[..n - 1] + [ordered[n - 1]];
    }
  }

  /** Normalised candles are their own sorted list without repeats. */
  lemma NormalizedIsSorted(kept: seq<Candle>, start: int, end: int, timeframe: Timeframe)
    requires Normalized(kept, start, end, timeframe)
    ensures AllWanted(kept, start, end, timeframe) && NoRepeats(Sort(OpenTime, kept)) == kept
  {
    hide IsAligned, Sort, NoRepeats;
    SortOfSorted(OpenTime, kept);
    RisingHasNoRepeats(kept);
  }

  // ---------- the whole synchronisation ----------

  datatype Synced = Synced(received: nat, rejected: nat, kept: seq<Candle>, gaps: seq<Gap>)

  function MaxPages(start: int, end: int, timeframe: Timeframe, pageSize: int): int
    requires pageSize >= 1
  {
    CeilingDivision(EstimatedRows(start, end, timeframe), pageSize) + 1
  }

  /** One page more than the grid from start to end fills. */
  lemma MaxPagesMeans(start: int, end: int, timeframe: Timeframe, pageSize: int)
    requires pageSize >= 1 && start <= end && IsAligned(start, timeframe) && IsAligned(end, timeframe)
    ensures var rows, pages := EstimatedRows(start, end, timeframe), MaxPages(start, end, timeframe, pageSize);
            && (rows - 1) * timeframe.Duration() == end - start
            && (pages - 2) * pageSize < rows <= (pages - 1) * pageSize
  {
    hide IsAligned, CeilingDivision, Steps;
    GridDistance(start, end, timeframe);
    CeilingMeans(EstimatedRows(start, end, timeframe), pageSize);
  }

  /**
    A synchronisation that succeeds returns the first arrival for every requested grid
    point that arrived, and gaps that name exactly the others.
   */
  method Sync(
      adapterName: string, exchange: string, pager: int -> Page, pageSize: int,
      start: int, end: int, timeframe: Timeframe)
    returns (r: Result<Synced, Error>)
    ensures if pageSize < 1 then r == Err(PageSizeNotPositive)
            else if exchange != adapterName then r == Err(WrongExchange)
            else if end < start then r == Err(EndBeforeStart)
            else if start % timeframe.Duration() != 0 then r == Err(UnalignedStart)
            else if end % timeframe.Duration() != 0 then r == Err(UnalignedEnd)
            else
              match Collect(pager, 1, MaxPages(start, end, timeframe, pageSize))
              case None => r == Err(PaginationExceeded)
              case Some(fetched) =>
                && r.Ok?
                && r.value.received == |fetched.candles|
                && r.value.rejected - fetched.rejected + |r.value.kept| == r.value.received
                && Normalized(r.value.kept, start, end, timeframe)
                && FirstArrivals(r.value.kept, fetched.candles)
                && Complete(r.value.kept, fetched.candles, start, end, timeframe)
                && Partition(r.value.gaps, r.value.kept, start, end, timeframe)
  {
    hide IsAligned, Partition, Normalized, FirstArrivals, Complete, Steps, Collect, GapsIn, NoRepeats, AllWanted;
    AlignedIsMultiple(start, timeframe);
    AlignedIsMultiple(end, timeframe);
    if pageSize < 1 {
      return Err(PageSizeNotPositive);
    }
    if exchange != adapterName {
      return Err(WrongExchange);
    }
    if end < start {
      return Err(EndBeforeStart);
    }
    if !IsAligned(start, timeframe) {
      return Err(UnalignedStart);
    }
    if !IsAligned(end, timeframe) {
      return Err(UnalignedEnd);
    }
    var estimated := Steps(start, end, timeframe) + 1;
    var maxPages := CeilingDivision(estimated, pageSize) + 1;
    var fetched := FetchPages(pager, maxPages);
    if fetched.None? {
      return Err(PaginationExceeded);
    }
    var kept, duplicateRejections := Normalize(fetched.value.candles, start, end, timeframe);
    var gaps := DetectGaps(kept, start, end, timeframe);
    NormalizedIsSorted(kept, start, end, timeframe);
    r := Ok(Synced(|fetched.value.candles|, fetched.value.rejected + duplicateRejections, kept, gaps.value));
  }
}
