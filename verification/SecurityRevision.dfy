/**
 The cached security revision (edge_manifest.go): a digest of the active bans, kept until
 the earliest of them expires or a change of the bans invalidates it.

 A change is committed to the store first and invalidates the cache afterwards, without
 holding the cache's lock in between; a fill holds that lock while it lists the bans and
 stores the digest. A digest stands for the ordered list it is computed from.
 */
module SecurityRevision {
  import opened Common
  import opened Sorting

  type Time = int

  datatype Ban = Ban(ip: string, expiresAt: Time)

  datatype RevisionBan = RevisionBan(ip: string, expiresAt: string)

  type Format = Time -> string

  /** Addresses first, then the formatted expiry. */
  predicate Precedes(a: RevisionBan, b: RevisionBan) {
    if a.ip != b.ip then Before(a.ip, b.ip) else Before(a.expiresAt, b.expiresAt)
  }

  function Formatted(bans: seq<Ban>, format: Format): seq<RevisionBan> {
    seq(|bans|, i requires 0 <= i < |bans| => RevisionBan(bans[i].ip, format(bans[i].expiresAt)))
  }

  function Revision(bans: seq<Ban>, format: Format): seq<RevisionBan> {
    Sorted(Formatted(bans, format), Precedes)
  }

  lemma PrecedesIsTotal()
    ensures StrictTotalOrder(Precedes)
  {
    forall a ensures !Precedes(a, a) { BeforeIsStrict(a.expiresAt); }
    forall a, b, c | Precedes(a, b) && Precedes(b, c) ensures Precedes(a, c) { PrecedesIsTransitive(a, b, c); }
    forall a, b ensures a == b || Precedes(a, b) || Precedes(b, a) {
      BeforeIsTotal(a.ip, b.ip);
      BeforeIsTotal(a.expiresAt, b.expiresAt);
    }
  }

  lemma PrecedesIsTransitive(a: RevisionBan, b: RevisionBan, c: RevisionBan)
    requires Precedes(a, b) && Precedes(b, c)
    ensures Precedes(a, c)
  {
    if a.ip == b.ip && b.ip == c.ip {
      BeforeIsTransitive(a.expiresAt, b.expiresAt, c.expiresAt);
    } else if a.ip != b.ip && b.ip != c.ip {
      BeforeIsTransitive(a.ip, b.ip, c.ip);
      BeforeIsAsymmetric(a.ip, b.ip);
    }
  }

  /** The revision depends on which bans are listed and how often, and on nothing else. */
  lemma RevisionEqualIff(a: seq<Ban>, b: seq<Ban>, format: Format)
    ensures Revision(a, format) == Revision(b, format) <==>
            multiset(Formatted(a, format)) == multiset(Formatted(b, format))
  {
    PrecedesIsTotal();
    SortedEqualIff(Formatted(a, format), Formatted(b, format), Precedes);
  }

  /** Any reordering of the list leaves the revision alone. */
  lemma ReorderingKeepsRevision(a: seq<Ban>, b: seq<Ban>, format: Format)
    requires multiset(a) == multiset(b)
    ensures Revision(a, format) == Revision(b, format)
  {
    ReorderingKeepsFormatted(a, b, format);
    RevisionEqualIff(a, b, format);
  }

  lemma FormattedWithout(b: seq<Ban>, k: nat, format: Format)
    requires k < |b|
    ensures multiset(b[..k] + b[k + 1..]) == multiset(b) - multiset{b[k]}
    ensures multiset(Formatted(b, format))
         == multiset(Formatted(b[..k] + b[k + 1..], format)) + multiset{RevisionBan(b[k].ip, format(b[k].expiresAt))}
  {
    assert b == b[..k] + [b[k]] + b[k + 1..];
    var f := Formatted(b, format);
    assert f == f[..k] + [f[k]] + f[k + 1..];
    assert Formatted(b[..k] + b[k + 1..], format) == f[..k] + f[k + 1..];
  }

  lemma {:induction false} ReorderingKeepsFormatted(a: seq<Ban>, b: seq<Ban>, format: Format)
    requires multiset(a) == multiset(b)
    ensures multiset(Formatted(a, format)) == multiset(Formatted(b, format))
  {
    if a == [] {
      assert |multiset(b)| == 0;
    } else {
      assert a[0] in multiset(b);
      var k :| 0 <= k < |b| && b[k] == a[0];
      FormattedWithout(a, 0, format);
      FormattedWithout(b, k, format);
      ReorderingKeepsFormatted(a[..0] + a[1..], b[..k] + b[k + 1..], format);
    }
  }

  // ------------------------------------------------------------------- bans and listings

  /** A listing of the bans active at a time, in some order, each once. */
  ghost predicate Lists(listing: seq<Ban>, bans: map<string, Time>, at: Time) {
    && NoDuplicates(listing)
    && forall b :: b in listing <==> b.ip in bans && bans[b.ip] == b.expiresAt && at < b.expiresAt
  }

  /** The earliest expiry of a listing. */
  predicate IsEarliest(expiry: Option<Time>, listing: seq<Ban>) {
    if expiry.None? then listing == []
    else (exists b <- listing :: b.expiresAt == expiry.value) && forall b <- listing :: expiry.value <= b.expiresAt
  }

  lemma ListsStays(listing: seq<Ban>, bans: map<string, Time>, listed: Time, now: Time)
    requires Lists(listing, bans, listed) && listed <= now
    requires forall b <- listing :: now < b.expiresAt
    ensures Lists(listing, bans, now)
  {
  }

  // ----------------------------------------------------------------------- the cache

  datatype Cache = Cache(isSet: bool, revision: seq<RevisionBan>, expiresAt: Option<Time>)

  predicate Serves(cache: Cache, now: Time) {
    cache.isSet && (cache.expiresAt.None? || now < cache.expiresAt.value)
  }

  class SecurityServer {
    var cache: Cache

    constructor ()
      ensures !cache.isSet
    {
      cache := Cache(false, [], None);
    }

    method SecurityBansRevision(bans: seq<Ban>, format: Format) returns (revision: seq<RevisionBan>)
      ensures revision == Revision(bans, format)
    {
      var ordered := [];
      for i := 0 to |bans|
        invariant ordered == Formatted(bans, format)[..i]
      {
        ordered := ordered + [RevisionBan(bans[i].ip, format(bans[i].expiresAt))];
        assert Formatted(bans, format)[..i + 1] == Formatted(bans, format)[..i] + [Formatted(bans, format)[i]];
      }
      assert Formatted(bans, format)[..|bans|] == Formatted(bans, format);
      revision := Sorted(ordered, Precedes);
    }

    /** Stores the digest of a listing and the earliest expiry in it. */
    method CacheRevision(bans: seq<Ban>, format: Format)
      modifies this
      ensures cache.isSet && cache.revision == Revision(bans, format) && IsEarliest(cache.expiresAt, bans)
    {
      var revision := SecurityBansRevision(bans, format);
      var earliest: Option<Time> := None;
      for i := 0 to |bans|
        invariant IsEarliest(earliest, bans[..i])
      {
        assert bans[..i + 1] == bans[..i] + [bans[i]];
        if earliest.None? || bans[i].expiresAt < earliest.value { earliest := Some(bans[i].expiresAt); }
        assert bans[i] in bans[..i + 1];
      }
      assert bans[..|bans|] == bans;
      cache := Cache(true, revision, earliest);
    }

    /** Serves the cached revision while it holds, and otherwise fills the cache first. */
    method CachedRevision(now: Time, listing: Option<seq<Ban>>, format: Format) returns (served: Option<seq<RevisionBan>>)
      modifies this
      ensures Serves(old(cache), now) ==> cache == old(cache) && served == Some(cache.revision)
      ensures !Serves(old(cache), now) && listing.None? ==> cache == old(cache) && served.None?
      ensures !Serves(old(cache), now) && listing.Some? ==>
                cache.isSet && IsEarliest(cache.expiresAt, listing.value)
                && cache.revision == Revision(listing.value, format) && served == Some(cache.revision)
    {
      if cache.isSet && (cache.expiresAt.None? || now < cache.expiresAt.value) { return Some(cache.revision); }
      if listing.None? { return None; }
      CacheRevision(listing.value, format);
      return Some(cache.revision);
    }

    method Invalidate()
      modifies this
      ensures cache == old(cache).(isSet := false)
    {
      cache := cache.(isSet := false);
    }
  }

  // ---------------------------------------------------------------------- whole runs

  /** The bans, the clock, the changes still awaiting their invalidation, the cache, and the
      listing of a fill in progress with the time it was taken. */
  datatype World = World(
    bans: map<string, Time>, now: Time, awaiting: nat, cache: Cache, source: seq<Ban>,
    filling: Option<seq<Ban>>, listedAt: Time)

  datatype Event =
    | Tick(now: Time)
    | Change(bans: map<string, Time>)
    | Invalidate
    | BeginFill(listing: seq<Ban>)
    | EndFill(expiresAt: Option<Time>)
    | FillFails

  ghost predicate Fits(w: World, e: Event) {
    match e
    case Tick(now) => w.now <= now
    case Change(_) => true
    case Invalidate => w.awaiting > 0 && w.filling.None?
    case BeginFill(listing) => w.filling.None? && !Serves(w.cache, w.now) && Lists(listing, w.bans, w.now)
    case EndFill(expiresAt) => w.filling.Some? && IsEarliest(expiresAt, w.filling.value)
    case FillFails => w.filling.Some?
  }

  ghost function Step(w: World, e: Event, format: Format): World
    requires Fits(w, e)
  {
    match e
    case Tick(now) => w.(now := now)
    case Change(bans) => w.(bans := bans, awaiting := w.awaiting + 1)
    case Invalidate => w.(awaiting := w.awaiting - 1, cache := w.cache.(isSet := false))
    case BeginFill(listing) => w.(filling := Some(listing), listedAt := w.now)
    case EndFill(expiresAt) =>
      w.(cache := Cache(true, Revision(w.filling.value, format), expiresAt), source := w.filling.value, filling := None)
    case FillFails => w.(filling := None)
  }

  ghost predicate Inv(w: World, format: Format) {
    && w.listedAt <= w.now
    && (w.filling.Some? && w.awaiting == 0 ==> Lists(w.filling.value, w.bans, w.listedAt))
    && (w.cache.isSet ==> w.cache.revision == Revision(w.source, format) && IsEarliest(w.cache.expiresAt, w.source))
    && (w.awaiting == 0 && Serves(w.cache, w.now) ==> Lists(w.source, w.bans, w.now))
  }

  lemma StepKeepsInv(w: World, e: Event, format: Format)
    requires Inv(w, format) && Fits(w, e)
    ensures Inv(Step(w, e, format), format)
  {
    var after := Step(w, e, format);
    if after.awaiting == 0 && Serves(after.cache, after.now) {
      if e.EndFill? {
        ListsStays(w.filling.value, w.bans, w.listedAt, w.now);
      } else if e.Tick? {
        ListsStays(w.source, w.bans, w.now, e.now);
      }
    }
  }

  ghost predicate IsRun(worlds: seq<World>, events: seq<Event>, format: Format) {
    && |worlds| == |events| + 1
    && !worlds[0].cache.isSet && worlds[0].filling.None? && worlds[0].awaiting == 0 && worlds[0].listedAt <= worlds[0].now
    && forall i: nat :: i < |events| ==> Follows(worlds, events, format, i)
  }

  ghost predicate Follows(worlds: seq<World>, events: seq<Event>, format: Format, i: nat)
    requires i < |events| < |worlds|
  {
    Fits(worlds[i], events[i]) && worlds[i + 1] == Step(worlds[i], events[i], format)
  }

  lemma {:induction false} RunKeepsInv(worlds: seq<World>, events: seq<Event>, format: Format, i: nat)
    requires IsRun(worlds, events, format) && i < |worlds|
    ensures Inv(worlds[i], format)
  {
    if i > 0 {
      RunKeepsInv(worlds, events, format, i - 1);
      assert Follows(worlds, events, format, i - 1);
      StepKeepsInv(worlds[i - 1], events[i - 1], format);
    }
  }

  /** Over any run, for any passing of time: while no change awaits its invalidation, a
      revision served from the cache is the digest of the bans active now, however listed. */
  lemma ServedRevisionIsCurrent(worlds: seq<World>, events: seq<Event>, format: Format, i: nat, listing: seq<Ban>)
    requires IsRun(worlds, events, format) && i < |worlds|
    requires worlds[i].awaiting == 0 && Serves(worlds[i].cache, worlds[i].now)
    requires Lists(listing, worlds[i].bans, worlds[i].now)
    ensures worlds[i].cache.revision == Revision(listing, format)
  {
    RunKeepsInv(worlds, events, format, i);
    DistinctListings(listing, worlds[i].source);
    ReorderingKeepsRevision(listing, worlds[i].source, format);
  }
}
