/**
 The overview (overview.go): hourly buckets of requests, counted in total, per hour, per
 status code and per site. Counts are unbounded here.
 */
module Overview {
  import opened Common
  import Sorting

  const NANOSECOND: int := 1
  const HOUR: int := 3_600_000_000_000

  /** The start of the hour an instant falls in. */
  function HourOf(t: int): int { t - t % HOUR }

  // ----------------------------------------------------------------------- bucket times

  lemma HoursAreMultiples(t: int)
    ensures HourOf(t) % HOUR == 0 && HourOf(t) <= t < HourOf(t) + HOUR
  {
  }

  predicate IsHour(t: int) { t % HOUR == 0 }

  /** The hours from the one `from` falls in to the one before `to` falls in. */
  method BucketTimes(from: int, to: int) returns (times: seq<int>)
    ensures forall k :: 0 <= k < |times| ==> times[k] == HourOf(from) + k * HOUR
    ensures forall t :: t in times <==> IsListed(t, from, to)
  {
    var start, end := HourOf(from), HourOf(to - NANOSECOND);
    times := [];
    if end < start { return; }
    var current := start;
    while current <= end
      invariant current == start + |times| * HOUR
      invariant forall k :: 0 <= k < |times| ==> times[k] == start + k * HOUR
      invariant forall t :: t in times <==> IsHour(t) && start <= t < current
      invariant IsHour(current) && current <= end + HOUR
      decreases end - current
    {
      NextHour(current, start);
      times := times + [current];
      current := current + HOUR;
    }
    LastHour(current, end);
  }

  lemma NextHour(current: int, start: int)
    requires IsHour(current) && start <= current
    ensures forall t :: IsHour(t) && start <= t < current + HOUR <==> (IsHour(t) && start <= t < current) || t == current
  {
    forall t | IsHour(t) && current <= t < current + HOUR ensures t == current {
      var q, r := current / HOUR, t / HOUR;
      assert t == r * HOUR && current == q * HOUR;
    }
  }

  lemma LastHour(current: int, end: int)
    requires IsHour(current) && IsHour(end) && end < current <= end + HOUR
    ensures forall t :: IsHour(t) ==> (t < current <==> t <= end)
  {
    NextHour(end, end);
  }

  predicate Within(x: int, from: int, to: int) { from <= x < to }

  /** Some instant of the window falls in the hour. */
  ghost predicate Meets(hour: int, from: int, to: int) {
    exists x :: Within(x, from, to) && HourOf(x) == hour
  }

  lemma HourOfIsMonotone(a: int, b: int)
    requires a <= b
    ensures HourOf(a) <= HourOf(b)
  {
    HoursAreMultiples(a);
    HoursAreMultiples(b);
    if HourOf(b) < HourOf(a) {
      NextHour(HourOf(b), HourOf(b));
    }
  }

  predicate IsListed(t: int, from: int, to: int) {
    IsHour(t) && HourOf(from) <= t <= HourOf(to - NANOSECOND)
  }

  lemma ListedMeets(t: int, from: int, to: int)
    requires from < to && IsListed(t, from, to)
    ensures Meets(t, from, to)
  {
    HoursAreMultiples(from);
    HoursAreMultiples(to - NANOSECOND);
    if t <= from {
      NextHour(HourOf(from), HourOf(from));
      assert Within(from, from, to) && HourOf(from) == t;
    } else {
      assert Within(t, from, to) && HourOf(t) == t;
    }
  }

  lemma MeetsIsListed(t: int, from: int, to: int)
    requires Meets(t, from, to)
    ensures IsListed(t, from, to)
  {
    var x :| Within(x, from, to) && HourOf(x) == t;
    HoursAreMultiples(x);
    HourOfIsMonotone(from, x);
    HourOfIsMonotone(x, to - NANOSECOND);
  }

  /** The listed hours are exactly those that meet the window, except for an empty window
      that still has its first hour no later than its last. */
  lemma HoursCoverTheWindowIff(from: int, to: int)
    ensures (forall t :: IsListed(t, from, to) <==> Meets(t, from, to))
       <==> from < to || HourOf(to - NANOSECOND) < HourOf(from)
  {
    if from < to {
      forall t ensures IsListed(t, from, to) <==> Meets(t, from, to) {
        if IsListed(t, from, to) { ListedMeets(t, from, to); }
        if Meets(t, from, to) { MeetsIsListed(t, from, to); }
      }
    } else if HourOf(from) <= HourOf(to - NANOSECOND) {
      HoursAreMultiples(from);
      assert IsListed(HourOf(from), from, to) && !Meets(HourOf(from), from, to);
    }
  }

  /** An empty window inside an hour still has that hour listed. */
  lemma EmptyWindowListsAnHour(t: int)
    requires !IsHour(t)
    ensures IsListed(HourOf(t), t, t) && !Meets(HourOf(t), t, t)
  {
    HoursAreMultiples(t);
    HourOfIsMonotone(HourOf(t), t - NANOSECOND);
    assert HourOf(HourOf(t)) == HourOf(t);
  }

  // -------------------------------------------------------------------------- counting

  datatype Bucket = Bucket(hour: int, site: string, status: nat, requests: nat, downstream: int, upstream: int)

  datatype Counts = Counts(requests: nat, downstream: int, upstream: int, errors: nat)
  {
    function Plus(other: Counts): Counts {
      Counts(requests + other.requests, downstream + other.downstream, upstream + other.upstream, errors + other.errors)
    }
  }

  const NOTHING: Counts := Counts(0, 0, 0, 0)

  /** A cell of the overview: any coordinate may be left open. */
  datatype Cell = Cell(hour: Option<int>, site: Option<string>, status: Option<nat>)

  const EVERYTHING: Cell := Cell(None, None, None)

  predicate Matches(cell: Cell, b: Bucket, times: seq<int>) {
    && HourOf(b.hour) in times
    && (cell.hour.Some? ==> HourOf(b.hour) == cell.hour.value)
    && (cell.site.Some? ==> b.site == cell.site.value)
    && (cell.status.Some? ==> b.status == cell.status.value)
  }

  function CountsOf(b: Bucket): Counts {
    Counts(b.requests, b.downstream, b.upstream, if b.status >= 400 then b.requests else 0)
  }

  /** The sum over every bucket of the cell. */
  function Tally(buckets: seq<Bucket>, times: seq<int>, cell: Cell): Counts {
    if buckets == [] then NOTHING
    else
      var before, b := Tally(buckets[..|buckets| - 1], times, cell), buckets[|buckets| - 1];
      if Matches(cell, b, times) then before.Plus(CountsOf(b)) else before
  }

  /** The sum of one number over the buckets of a cell. */
  function Total(buckets: seq<Bucket>, times: seq<int>, cell: Cell, number: Bucket -> int): int {
    if buckets == [] then 0
    else
      var b := buckets[|buckets| - 1];
      Total(buckets[..|buckets| - 1], times, cell, number)
      + if HourOf(b.hour) in times && (cell.hour.Some? ==> HourOf(b.hour) == cell.hour.value)
           && (cell.site.Some? ==> b.site == cell.site.value) && (cell.status.Some? ==> b.status == cell.status.value)
        then number(b) else 0
  }

  /** Each count of a tally is the sum of its own number; errors are requests from status 400 on. */
  lemma {:induction false} TalliesAreTotals(buckets: seq<Bucket>, times: seq<int>, cell: Cell)
    ensures Tally(buckets, times, cell).requests == Total(buckets, times, cell, (b: Bucket) => b.requests)
    ensures Tally(buckets, times, cell).downstream == Total(buckets, times, cell, (b: Bucket) => b.downstream)
    ensures Tally(buckets, times, cell).upstream == Total(buckets, times, cell, (b: Bucket) => b.upstream)
    ensures Tally(buckets, times, cell).errors
         == Total(buckets, times, cell, (b: Bucket) => if b.status < 400 then 0 else b.requests)
  {
    if buckets != [] { TalliesAreTotals(buckets[..|buckets| - 1], times, cell); }
  }

  function Sum(counts: seq<Counts>): Counts {
    if counts == [] then NOTHING else Sum(counts[..|counts| - 1]).Plus(counts[|counts| - 1])
  }

  // ------------------------------------------------------------------------ conservation

  function ByHour(buckets: seq<Bucket>, times: seq<int>, cell: Cell): seq<Counts> {
    seq(|times|, i requires 0 <= i < |times| => Tally(buckets, times, cell.(hour := Some(times[i]))))
  }

  function ByStatus(buckets: seq<Bucket>, times: seq<int>, cell: Cell, codes: seq<nat>): seq<Counts> {
    seq(|codes|, i requires 0 <= i < |codes| => Tally(buckets, times, cell.(status := Some(codes[i]))))
  }

  lemma {:induction false} SumOfNothing(n: nat)
    ensures Sum(seq(n, _ => NOTHING)) == NOTHING
  {
    if n > 0 {
      assert seq(n, _ => NOTHING)[..n - 1] == seq(n - 1, _ => NOTHING);
      SumOfNothing(n - 1);
    }
  }

  lemma {:induction false} SumWithOneMore(counts: seq<Counts>, k: nat, more: Counts)
    requires k < |counts|
    ensures Sum(counts[k := counts[k].Plus(more)]) == Sum(counts).Plus(more)
  {
    var last := |counts| - 1;
    var changed := counts[k := counts[k].Plus(more)];
    if k < last {
      assert changed[..last] == counts[..last][k := counts[k].Plus(more)];
      SumWithOneMore(counts[..last], k, more);
    } else {
      assert changed[..last] == counts[..last];
    }
  }

  /** The hours of a cell add up to the cell. */
  lemma {:induction false} HoursAddUp(buckets: seq<Bucket>, times: seq<int>, cell: Cell)
    requires NoDuplicates(times) && cell.hour.None?
    ensures Sum(ByHour(buckets, times, cell)) == Tally(buckets, times, cell)
  {
    if buckets == [] {
      SumOfNothing(|times|);
      assert ByHour(buckets, times, cell) == seq(|times|, _ => NOTHING);
    } else {
      var rest, b := buckets[..|buckets| - 1], buckets[|buckets| - 1];
      HoursAddUp(rest, times, cell);
      var before, after := ByHour(rest, times, cell), ByHour(buckets, times, cell);
      if Matches(cell, b, times) {
        var k :| 0 <= k < |times| && times[k] == HourOf(b.hour);
        assert after == before[k := before[k].Plus(CountsOf(b))];
        SumWithOneMore(before, k, CountsOf(b));
      } else {
        assert after == before;
      }
    }
  }

  /** So do its status codes, when every code that occurs is listed once. */
  lemma {:induction false} CodesAddUp(buckets: seq<Bucket>, times: seq<int>, cell: Cell, codes: seq<nat>)
    requires NoDuplicates(codes) && cell.status.None?
    requires forall b <- buckets :: Matches(cell, b, times) ==> b.status in codes
    ensures Sum(ByStatus(buckets, times, cell, codes)) == Tally(buckets, times, cell)
  {
    if buckets == [] {
      SumOfNothing(|codes|);
      assert ByStatus(buckets, times, cell, codes) == seq(|codes|, _ => NOTHING);
    } else {
      var rest, b := buckets[..|buckets| - 1], buckets[|buckets| - 1];
      CodesAddUp(rest, times, cell, codes);
      var before, after := ByStatus(rest, times, cell, codes), ByStatus(buckets, times, cell, codes);
      if Matches(cell, b, times) {
        assert b in buckets;
        var k :| 0 <= k < |codes| && codes[k] == b.status;
        assert after == before[k := before[k].Plus(CountsOf(b))];
        SumWithOneMore(before, k, CountsOf(b));
      } else {
        assert after == before;
      }
    }
  }

  // ------------------------------------------------------------------------ the payload

  datatype StatusCode = StatusCode(code: nat, requests: nat)

  datatype SiteSummary = SiteSummary(id: string, name: string)

  datatype SiteRow = SiteRow(id: string, name: string, counts: Counts, codes: seq<StatusCode>, series: seq<Counts>)

  datatype Payload = Payload(times: seq<int>, totals: Counts, series: seq<Counts>, codes: seq<StatusCode>,
                             sites: seq<SiteRow>)

  function OfSite(id: string): Cell { Cell(None, Some(id), None) }

  /** The status codes that occur in a cell. */
  function CodesOf(buckets: seq<Bucket>, times: seq<int>, cell: Cell): set<nat> {
    if buckets == [] then {}
    else
      var before, b := CodesOf(buckets[..|buckets| - 1], times, cell), buckets[|buckets| - 1];
      if Matches(cell, b, times) then before + {b.status} else before
  }

  predicate MoreRequests(a: StatusCode, b: StatusCode) {
    if a.requests == b.requests then a.code < b.code else a.requests > b.requests
  }

  /** Most requests first, then by name in lower case, then by id. */
  predicate RowPrecedes(a: SiteRow, b: SiteRow, lower: string -> string) {
    if a.counts.requests != b.counts.requests then a.counts.requests > b.counts.requests
    else if lower(a.name) != lower(b.name) then Sorting.Before(lower(a.name), lower(b.name))
    else Sorting.Before(a.id, b.id)
  }

  function RowOrder(lower: string -> string): (SiteRow, SiteRow) -> bool {
    (a: SiteRow, b: SiteRow) => RowPrecedes(a, b, lower)
  }

  /** A later site with the same id takes over the counting. */
  predicate IsLast(sites: seq<SiteSummary>, k: nat)
    requires k < |sites|
  {
    forall j :: k < j < |sites| ==> sites[j].id != sites[k].id
  }

  /** Each code that occurs in the cell, once, with its requests, most requests first. */
  ghost predicate CodesRight(codes: seq<StatusCode>, buckets: seq<Bucket>, times: seq<int>, cell: Cell) {
    && (forall i, j :: 0 <= i < j < |codes| ==> codes[i].code != codes[j].code)
    && (forall code :: code in CodesOf(buckets, times, cell) <==> exists c <- codes :: c.code == code)
    && (forall c <- codes :: c.requests == Tally(buckets, times, cell.(status := Some(c.code))).requests)
    && Sorting.Ordered(codes, MoreRequests)
  }

  function RowCounts(sites: seq<SiteSummary>, k: nat, buckets: seq<Bucket>, times: seq<int>): Counts
    requires k < |sites|
  {
    if IsLast(sites, k) then Tally(buckets, times, OfSite(sites[k].id)) else NOTHING
  }

  function RowSeries(sites: seq<SiteSummary>, k: nat, buckets: seq<Bucket>, times: seq<int>): (series: seq<Counts>)
    requires k < |sites|
    ensures |series| == |times|
  {
    if IsLast(sites, k) then ByHour(buckets, times, OfSite(sites[k].id)) else seq(|times|, _ => NOTHING)
  }

  ghost predicate RowRight(sites: seq<SiteSummary>, k: nat, row: SiteRow, buckets: seq<Bucket>, times: seq<int>)
    requires k < |sites|
  {
    && row.id == sites[k].id && row.name == sites[k].name
    && CodesRight(row.codes, buckets, times, OfSite(row.id))
    && row.counts == RowCounts(sites, k, buckets, times)
    && row.series == RowSeries(sites, k, buckets, times)
  }

  // -------------------------------------------------------------------------- one step

  lemma TallyOfOneMore(before: seq<Bucket>, b: Bucket, times: seq<int>, cell: Cell)
    ensures Tally(before + [b], times, cell)
         == if Matches(cell, b, times) then Tally(before, times, cell).Plus(CountsOf(b)) else Tally(before, times, cell)
    ensures CodesOf(before + [b], times, cell)
         == CodesOf(before, times, cell) + if Matches(cell, b, times) then {b.status} else {}
  {
    assert (before + [b])[..|before|] == before;
  }

  lemma ByHourOfOneMore(before: seq<Bucket>, b: Bucket, times: seq<int>, cell: Cell, k: nat)
    requires k < |times| && times[k] == HourOf(b.hour) && NoDuplicates(times) && cell.hour.None?
    ensures ByHour(before + [b], times, cell)
         == if Matches(cell, b, times)
            then ByHour(before, times, cell)[k := ByHour(before, times, cell)[k].Plus(CountsOf(b))]
            else ByHour(before, times, cell)
  {
    forall i | 0 <= i < |times|
      ensures ByHour(before + [b], times, cell)[i]
           == if Matches(cell, b, times) && i == k then ByHour(before, times, cell)[i].Plus(CountsOf(b))
              else ByHour(before, times, cell)[i]
    {
      var narrow := cell.(hour := Some(times[i]));
      TallyOfOneMore(before, b, times, narrow);
      assert Matches(narrow, b, times) <==> Matches(cell, b, times) && times[i] == times[k];
      assert i != k ==> times[i] != times[k];
    }
  }

  lemma ByHourOutside(before: seq<Bucket>, b: Bucket, times: seq<int>, cell: Cell)
    requires !Matches(cell, b, times) && cell.hour.None?
    ensures ByHour(before + [b], times, cell) == ByHour(before, times, cell)
  {
    forall i | 0 <= i < |times| ensures ByHour(before + [b], times, cell)[i] == ByHour(before, times, cell)[i] {
      TallyOfOneMore(before, b, times, cell.(hour := Some(times[i])));
    }
  }

  /** A bucket of an hour moves the row of its site, which is the last one with that id. */
  lemma RowOfOneMore(sites: seq<SiteSummary>, k: nat, before: seq<Bucket>, b: Bucket, times: seq<int>, index: nat)
    requires k < |sites| && NoDuplicates(times) && index < |times| && times[index] == HourOf(b.hour)
    ensures RowCounts(sites, k, before + [b], times)
         == if sites[k].id == b.site && IsLast(sites, k) then RowCounts(sites, k, before, times).Plus(CountsOf(b))
            else RowCounts(sites, k, before, times)
    ensures RowSeries(sites, k, before + [b], times)
         == if sites[k].id == b.site && IsLast(sites, k)
            then RowSeries(sites, k, before, times)[index := RowSeries(sites, k, before, times)[index].Plus(CountsOf(b))]
            else RowSeries(sites, k, before, times)
  {
    TallyOfOneMore(before, b, times, OfSite(sites[k].id));
    ByHourOfOneMore(before, b, times, OfSite(sites[k].id), index);
  }

  /** A map from each code that occurs in the cell to its requests. */
  ghost predicate Counted(counts: map<nat, nat>, buckets: seq<Bucket>, times: seq<int>, cell: Cell) {
    && counts.Keys == CodesOf(buckets, times, cell)
    && forall code <- counts :: counts[code] == Tally(buckets, times, cell.(status := Some(code))).requests
  }

  function Increased(counts: map<nat, nat>, b: Bucket): map<nat, nat> {
    counts[b.status := b.requests + if b.status in counts then counts[b.status] else 0]
  }

  lemma {:induction false} UnseenCode(buckets: seq<Bucket>, times: seq<int>, cell: Cell, code: nat)
    requires code !in CodesOf(buckets, times, cell) && cell.status.None?
    ensures Tally(buckets, times, cell.(status := Some(code))) == NOTHING
  {
    if buckets != [] { UnseenCode(buckets[..|buckets| - 1], times, cell, code); }
  }

  lemma CountedOfOneMore(counts: map<nat, nat>, before: seq<Bucket>, b: Bucket, times: seq<int>, cell: Cell)
    requires Counted(counts, before, times, cell) && cell.status.None?
    ensures Counted(if Matches(cell, b, times) then Increased(counts, b) else counts, before + [b], times, cell)
  {
    TallyOfOneMore(before, b, times, cell);
    if b.status !in counts { UnseenCode(before, times, cell, b.status); }
    forall code | code in counts || code == b.status
      ensures Tally(before + [b], times, cell.(status := Some(code))).requests
           == Tally(before, times, cell.(status := Some(code))).requests
              + if Matches(cell, b, times) && code == b.status then b.requests else 0
    {
      TallyOfOneMore(before, b, times, cell.(status := Some(code)));
    }
  }

  // ------------------------------------------------------------------------- the builder

  class OverviewBuilder {
    const times: seq<int>
    const sites: seq<SiteSummary>
    var totals: Counts
    var series: seq<Counts>
    var statusCounts: map<nat, nat>
    var rowCounts: seq<Counts>
    var rowSeries: seq<seq<Counts>>
    var siteStatusCounts: map<string, map<nat, nat>>

    constructor (times: seq<int>, sites: seq<SiteSummary>)
      ensures this.times == times && this.sites == sites
      ensures TotalsRight([]) && SitesRight([])
    {
      this.times, this.sites := times, sites;
      totals, series, statusCounts := NOTHING, seq(|times|, _ => NOTHING), map[];
      rowCounts := seq(|sites|, _ => NOTHING);
      rowSeries := seq(|sites|, _ => seq(|times|, _ => NOTHING));
      siteStatusCounts := map id | id in Ids(sites) :: map[];
      new;
      assert series == ByHour([], times, EVERYTHING);
      forall k | 0 <= k < |sites| ensures rowSeries[k] == ByHour([], times, OfSite(sites[k].id)) { }
    }

    ghost predicate TotalsRight(buckets: seq<Bucket>)
      reads `totals, `series, `statusCounts
    {
      && totals == Tally(buckets, times, EVERYTHING)
      && series == ByHour(buckets, times, EVERYTHING)
      && Counted(statusCounts, buckets, times, EVERYTHING)
    }

    ghost predicate SitesRight(buckets: seq<Bucket>)
      reads `rowCounts, `rowSeries, `siteStatusCounts
    {
      && |rowCounts| == |rowSeries| == |sites|
      && siteStatusCounts.Keys == Ids(sites)
      && (forall k :: 0 <= k < |sites| ==> RowCounted(buckets, k))
      && forall id <- siteStatusCounts :: Counted(siteStatusCounts[id], buckets, times, OfSite(id))
    }

    ghost predicate RowCounted(buckets: seq<Bucket>, k: nat)
      requires k < |sites| && |rowCounts| == |rowSeries| == |sites|
      reads `rowCounts, `rowSeries
    {
      rowCounts[k] == RowCounts(sites, k, buckets, times) && rowSeries[k] == RowSeries(sites, k, buckets, times)
    }

    method AddTo(counts: Counts, b: Bucket) returns (sum: Counts)
      ensures sum == counts.Plus(CountsOf(b))
    {
      sum := counts.(requests := counts.requests + b.requests, downstream := counts.downstream + b.downstream,
                     upstream := counts.upstream + b.upstream);
      if b.status >= 400 { sum := sum.(errors := sum.errors + b.requests); }
    }

    method CountTotals(ghost before: seq<Bucket>, b: Bucket, index: nat)
      requires TotalsRight(before) && NoDuplicates(times) && index < |times| && times[index] == HourOf(b.hour)
      modifies `totals, `series, `statusCounts
      ensures TotalsRight(before + [b])
    {
      totals := AddTo(totals, b);
      statusCounts := Increased(statusCounts, b);
      var point := AddTo(series[index], b);
      series := series[index := point];
      TallyOfOneMore(before, b, times, EVERYTHING);
      ByHourOfOneMore(before, b, times, EVERYTHING, index);
      CountedOfOneMore(old(statusCounts), before, b, times, EVERYTHING);
    }

    method CountSite(ghost before: seq<Bucket>, b: Bucket, index: nat, row: nat)
      requires SitesRight(before) && NoDuplicates(times) && index < |times| && times[index] == HourOf(b.hour)
      requires row < |sites| && sites[row].id == b.site && IsLast(sites, row)
      modifies `rowCounts, `rowSeries, `siteStatusCounts
      ensures SitesRight(before + [b])
    {
      assert RowCounted(before, row);
      var counts := AddTo(rowCounts[row], b);
      var point := AddTo(rowSeries[row][index], b);
      assert b.site in Ids(sites);
      siteStatusCounts := siteStatusCounts[b.site := Increased(siteStatusCounts[b.site], b)];
      rowCounts := rowCounts[row := counts];
      rowSeries := rowSeries[row := rowSeries[row][index := point]];
      forall k | 0 <= k < |sites| ensures RowCounted(before + [b], k) {
        RowOfOneMore(sites, k, before, b, times, index);
        assert old(RowCounted(before, k));
        assert k != row && sites[k].id == b.site ==> !IsLast(sites, k);
      }
      forall id | id in siteStatusCounts
        ensures Counted(siteStatusCounts[id], before + [b], times, OfSite(id))
      {
        CountedOfOneMore(old(siteStatusCounts)[id], before, b, times, OfSite(id));
      }
    }

    /** A bucket outside the hours changes no cell; one of no configured site, no site's cell. */
    lemma Unaffected(before: seq<Bucket>, b: Bucket)
      ensures HourOf(b.hour) !in times && TotalsRight(before) ==> TotalsRight(before + [b])
      ensures (HourOf(b.hour) !in times || b.site !in Ids(sites)) && SitesRight(before) ==> SitesRight(before + [b])
    {
      if HourOf(b.hour) !in times && TotalsRight(before) {
        TallyOfOneMore(before, b, times, EVERYTHING);
        ByHourOutside(before, b, times, EVERYTHING);
        CountedOfOneMore(statusCounts, before, b, times, EVERYTHING);
      }
      if (HourOf(b.hour) !in times || b.site !in Ids(sites)) && SitesRight(before) {
        forall k | 0 <= k < |sites| ensures RowCounted(before + [b], k) {
          assert sites[k].id in Ids(sites) && RowCounted(before, k);
          TallyOfOneMore(before, b, times, OfSite(sites[k].id));
          ByHourOutside(before, b, times, OfSite(sites[k].id));
        }
        forall id | id in siteStatusCounts
          ensures Counted(siteStatusCounts[id], before + [b], times, OfSite(id))
        {
          CountedOfOneMore(siteStatusCounts[id], before, b, times, OfSite(id));
        }
      }
    }
  }

  function Ids(sites: seq<SiteSummary>): set<string> {
    set site | site in sites :: site.id
  }

  // ------------------------------------------------------------------------- the result

  /** Codes of a count, most requests first. */
  method SortedStatusCodes(counts: map<nat, nat>, ghost buckets: seq<Bucket>, ghost times: seq<int>, ghost cell: Cell)
    returns (codes: seq<StatusCode>)
    requires Counted(counts, buckets, times, cell)
    ensures CodesRight(codes, buckets, times, cell)
  {
    var listed: seq<StatusCode> := [];
    var left := counts.Keys;
    while left != {}
      invariant left <= counts.Keys
      invariant forall c <- listed :: c.code in counts && c.code !in left && c.requests == counts[c.code]
      invariant forall code <- counts :: code !in left ==> StatusCode(code, counts[code]) in listed
      invariant forall i, j :: 0 <= i < j < |listed| ==> listed[i].code != listed[j].code
    {
      var code :| code in left;
      left := left - {code};
      listed := listed + [StatusCode(code, counts[code])];
    }
    codes := Sorting.Sorted(listed, MoreRequests);
    MoreRequestsIsWeak();
    Sorting.SortedIsOrdered(listed, MoreRequests);
    SameCodes(listed, codes);
    forall code ensures code in CodesOf(buckets, times, cell) <==> exists c <- codes :: c.code == code {
      if code in counts { assert StatusCode(code, counts[code]) in codes; }
    }
  }

  lemma MoreRequestsIsWeak()
    ensures Sorting.StrictWeakOrder(MoreRequests)
  {
  }

  predicate DistinctCodes(s: seq<StatusCode>) {
    forall i, j :: 0 <= i < j < |s| ==> s[i].code != s[j].code
  }

  lemma SameCodes(listed: seq<StatusCode>, codes: seq<StatusCode>)
    requires multiset(codes) == multiset(listed) && DistinctCodes(listed)
    ensures DistinctCodes(codes) && forall c :: c in codes <==> c in listed
  {
    Sorting.SameElements(listed, codes);
    forall i, j | 0 <= i < j < |codes| ensures codes[i].code != codes[j].code {
      assert codes[i] in listed && codes[j] in listed && codes[i] != codes[j];
    }
  }

  /** The overview of a window: every cell is the tally of its buckets. Buckets outside the
      hours count nowhere, and those of unknown sites only in the totals. */
  method BuildOverviewPayload(from: int, to: int, sites: seq<SiteSummary>, buckets: seq<Bucket>, lower: string -> string)
    returns (payload: Payload, ghost rows: seq<SiteRow>)
    ensures forall k :: 0 <= k < |payload.times| ==> payload.times[k] == HourOf(from) + k * HOUR
    ensures forall t :: t in payload.times <==> IsListed(t, from, to)
    ensures payload.totals == Tally(buckets, payload.times, EVERYTHING)
    ensures payload.series == ByHour(buckets, payload.times, EVERYTHING)
    ensures CodesRight(payload.codes, buckets, payload.times, EVERYTHING)
    ensures |rows| == |sites| && forall k: nat :: k < |sites| ==> RowRight(sites, k, rows[k], buckets, payload.times)
    ensures payload.sites == Sorting.Sorted(rows, RowOrder(lower))
  {
    var times := BucketTimes(from, to);
    HoursAreDistinct(times, HourOf(from));
    var builder := new OverviewBuilder(times, sites);
    CountBuckets(builder, buckets);
    var codes := SortedStatusCodes(builder.statusCounts, buckets, times, EVERYTHING);
    var listed := Rows(builder, buckets);
    rows := listed;
    payload := Payload(times, builder.totals, builder.series, codes, Sorting.Sorted(listed, RowOrder(lower)));
  }

  lemma HoursAreDistinct(times: seq<int>, start: int)
    requires forall k :: 0 <= k < |times| ==> times[k] == start + k * HOUR
    ensures NoDuplicates(times)
  {
  }

  method CountBuckets(builder: OverviewBuilder, buckets: seq<Bucket>)
    requires NoDuplicates(builder.times) && builder.TotalsRight([]) && builder.SitesRight([])
    modifies builder
    ensures builder.TotalsRight(buckets) && builder.SitesRight(buckets)
  {
    var timeIndex := IndexTimes(builder.times);
    var siteIndex := IndexSites(builder.sites);
    for i := 0 to |buckets|
      invariant builder.TotalsRight(buckets[..i]) && builder.SitesRight(buckets[..i])
    {
      assert buckets[..i + 1] == buckets[..i] + [buckets[i]];
      CountBucket(builder, buckets[..i], buckets[i], timeIndex, siteIndex);
    }
    assert buckets[..|buckets|] == buckets;
  }

  method CountBucket(builder: OverviewBuilder, ghost before: seq<Bucket>, b: Bucket, timeIndex: map<int, nat>,
                     siteIndex: map<string, nat>)
    requires NoDuplicates(builder.times) && builder.TotalsRight(before) && builder.SitesRight(before)
    requires Indexes(timeIndex, builder.times) && IndexesSites(siteIndex, builder.sites)
    modifies builder
    ensures builder.TotalsRight(before + [b]) && builder.SitesRight(before + [b])
  {
    builder.Unaffected(before, b);
    if HourOf(b.hour) in timeIndex {
      builder.CountTotals(before, b, timeIndex[HourOf(b.hour)]);
      if b.site in siteIndex { builder.CountSite(before, b, timeIndex[HourOf(b.hour)], siteIndex[b.site]); }
    }
  }

  predicate Indexes(index: map<int, nat>, times: seq<int>) {
    && (forall t :: t in times ==> t in index)
    && (forall t <- index :: index[t] < |times| && times[index[t]] == t)
  }

  predicate IndexesSites(index: map<string, nat>, sites: seq<SiteSummary>) {
    && index.Keys == Ids(sites)
    && (forall id <- index :: index[id] < |sites| && sites[index[id]].id == id && IsLast(sites, index[id]))
  }

  method IndexTimes(times: seq<int>) returns (index: map<int, nat>)
    ensures Indexes(index, times)
  {
    index := map[];
    for k := 0 to |times|
      invariant forall t :: t in times[..k] ==> t in index
      invariant forall t <- index :: index[t] < k && times[index[t]] == t
    {
      index := index[times[k] := k];
    }
    assert times[..|times|] == times;
  }

  method IndexSites(sites: seq<SiteSummary>) returns (index: map<string, nat>)
    ensures IndexesSites(index, sites)
  {
    index := map[];
    for k := 0 to |sites|
      invariant forall id <- index :: index[id] < k && sites[index[id]].id == id
      invariant forall id <- index :: forall j :: index[id] < j < k ==> sites[j].id != id
      invariant forall j :: 0 <= j < k ==> sites[j].id in index
    {
      index := index[sites[k].id := k];
    }
    forall id ensures id in index <==> id in Ids(sites) {
      if id in index { assert sites[index[id]] in sites; }
    }
  }

  method Rows(builder: OverviewBuilder, ghost buckets: seq<Bucket>) returns (rows: seq<SiteRow>)
    requires builder.SitesRight(buckets)
    ensures |rows| == |builder.sites|
    ensures forall k: nat :: k < |rows| ==> RowRight(builder.sites, k, rows[k], buckets, builder.times)
  {
    rows := [];
    for k := 0 to |builder.sites|
      invariant |rows| == k
      invariant forall j: nat :: j < k ==> RowRight(builder.sites, j, rows[j], buckets, builder.times)
    {
      var site := builder.sites[k];
      assert builder.RowCounted(buckets, k) && site.id in Ids(builder.sites);
      var codes := SortedStatusCodes(builder.siteStatusCounts[site.id], buckets, builder.times, OfSite(site.id));
      rows := rows + [SiteRow(site.id, site.name, builder.rowCounts[k], codes, builder.rowSeries[k])];
    }
  }

  // -------------------------------------------------------------- what the numbers obey

  function CodeSum(codes: seq<StatusCode>): nat {
    if codes == [] then 0 else CodeSum(codes[..|codes| - 1]) + codes[|codes| - 1].requests
  }

  /** The status codes of a cell account for all its requests. */
  lemma CodesConserveRequests(codes: seq<StatusCode>, buckets: seq<Bucket>, times: seq<int>, cell: Cell)
    requires CodesRight(codes, buckets, times, cell) && cell.status.None?
    ensures CodeSum(codes) == Tally(buckets, times, cell).requests
  {
    var numbers := seq(|codes|, i requires 0 <= i < |codes| => codes[i].code);
    forall b | b in buckets && Matches(cell, b, times) ensures b.status in numbers {
      OccursInCell(buckets, times, cell, b);
      var c :| c in codes && c.code == b.status;
      var i :| 0 <= i < |codes| && codes[i] == c;
      assert numbers[i] == b.status;
    }
    CodesAddUp(buckets, times, cell, numbers);
    forall i | 0 <= i < |codes|
      ensures codes[i].requests == ByStatus(buckets, times, cell, numbers)[i].requests
    {
      assert codes[i] in codes;
    }
    SumOfRequests(codes, ByStatus(buckets, times, cell, numbers));
  }

  lemma {:induction false} OccursInCell(buckets: seq<Bucket>, times: seq<int>, cell: Cell, b: Bucket)
    requires b in buckets && Matches(cell, b, times)
    ensures b.status in CodesOf(buckets, times, cell)
  {
    assert buckets == buckets[..|buckets| - 1] + [buckets[|buckets| - 1]];
    if b != buckets[|buckets| - 1] { OccursInCell(buckets[..|buckets| - 1], times, cell, b); }
  }

  lemma {:induction false} SumOfRequests(codes: seq<StatusCode>, counts: seq<Counts>)
    requires |codes| == |counts| && forall i :: 0 <= i < |codes| ==> codes[i].requests == counts[i].requests
    ensures CodeSum(codes) == Sum(counts).requests
  {
    if codes != [] { SumOfRequests(codes[..|codes| - 1], counts[..|counts| - 1]); }
  }

  /** The totals are the sum of the hourly series, and their requests that of the codes. */
  lemma TotalsAreConserved(totals: Counts, series: seq<Counts>, codes: seq<StatusCode>, buckets: seq<Bucket>,
                           times: seq<int>)
    requires NoDuplicates(times)
    requires totals == Tally(buckets, times, EVERYTHING) && series == ByHour(buckets, times, EVERYTHING)
    requires CodesRight(codes, buckets, times, EVERYTHING)
    ensures Sum(series) == totals && CodeSum(codes) == totals.requests
  {
    HoursAddUp(buckets, times, EVERYTHING);
    CodesConserveRequests(codes, buckets, times, EVERYTHING);
  }

  /** A site's series always adds up to its counts; its codes do exactly when no later site
      has its id, or no request of that id was counted. */
  lemma SiteIsConservedIff(sites: seq<SiteSummary>, k: nat, row: SiteRow, buckets: seq<Bucket>, times: seq<int>)
    requires NoDuplicates(times) && k < |sites| && RowRight(sites, k, row, buckets, times)
    ensures Sum(row.series) == row.counts
    ensures CodeSum(row.codes) == row.counts.requests <==>
            IsLast(sites, k) || Tally(buckets, times, OfSite(row.id)).requests == 0
  {
    CodesConserveRequests(row.codes, buckets, times, OfSite(row.id));
    HoursAddUp(buckets, times, OfSite(row.id));
    SumOfNothing(|times|);
  }

  /** Two rows of one id, and one request: the first row lists its code and counts nothing. */
  lemma RepeatedIdIsNotConserved(site: SiteSummary, status: nat, hour: int, row: SiteRow)
    requires IsHour(hour)
    requires RowRight([site, site], 0, row, [Bucket(hour, site.id, status, 1, 0, 0)], [hour])
    ensures row.counts.requests == 0 && CodeSum(row.codes) != 0
  {
    var sites, buckets := [site, site], [Bucket(hour, site.id, status, 1, 0, 0)];
    assert sites[1].id == sites[0].id && !IsLast(sites, 0);
    assert buckets[..0] == [] && Matches(OfSite(site.id), buckets[0], [hour]);
    SiteIsConservedIff(sites, 0, row, buckets, [hour]);
  }

  /** Sites are listed most requests first, then by name and id. */
  lemma SitesAreOrdered(rows: seq<SiteRow>, lower: string -> string)
    ensures multiset(Sorting.Sorted(rows, RowOrder(lower))) == multiset(rows)
    ensures Sorting.Ordered(Sorting.Sorted(rows, RowOrder(lower)), RowOrder(lower))
  {
    RowOrderIsWeak(lower);
    Sorting.SortedIsOrdered(rows, RowOrder(lower));
  }

  lemma RowOrderIsWeak(lower: string -> string)
    ensures Sorting.StrictWeakOrder(RowOrder(lower))
  {
    var less := RowOrder(lower);
    forall a ensures !less(a, a) { Sorting.BeforeIsStrict(a.id); }
    forall a, b, c | less(a, b) && less(b, c) ensures less(a, c) { RowsAreTransitive(a, b, c, lower); }
    forall a, b, c | less(a, c) ensures less(a, b) || less(b, c) {
      Sorting.BeforeIsTotal(lower(a.name), lower(b.name));
      Sorting.BeforeIsTotal(a.id, b.id);
      if !less(a, b) && a != b && RowPrecedes(b, a, lower) { RowsAreTransitive(b, a, c, lower); }
    }
  }

  lemma RowsAreTransitive(a: SiteRow, b: SiteRow, c: SiteRow, lower: string -> string)
    requires RowPrecedes(a, b, lower) && RowPrecedes(b, c, lower)
    ensures RowPrecedes(a, c, lower)
  {
    if a.counts.requests == b.counts.requests == c.counts.requests {
      var x, y, z := lower(a.name), lower(b.name), lower(c.name);
      if x == y && y == z {
        Sorting.BeforeIsTransitive(a.id, b.id, c.id);
      } else if x != y && y != z {
        Sorting.BeforeIsTransitive(x, y, z);
        Sorting.BeforeIsAsymmetric(x, y);
      }
    }
  }
}
