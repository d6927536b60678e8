/**
 The TTL the DNS provider accepted last (publication.go, site_node_drains.go), over whole runs:
 publications keep it, whatever they publish, so that a node they drop is held for as long as
 an answer that names it can be cached.
 */
module AcceptedTTLs {
  import opened Common
  import opened Publication
  import opened DrainCleanup
  import opened DrainLifecycle

  /** The provider's TTL at the last mark that was for the publication then current; 0 if none. */
  function LastAccepted(states: seq<Life>, events: seq<Event>, site: SiteId, j: nat): int
    requires j < |states| == |events| + 1
  {
    if j == 0 then 0
    else if Marks(states[j - 1], events[j - 1], site)
    then states[j - 1].attempts[events[j - 1].marking].phase.providerTTL
    else LastAccepted(states, events, site, j - 1)
  }

  /** An attempt that is measured has the TTL its record set was given, or a minute for none. */
  lemma MeasuredTTL(l: Life, e: Event, serving: set<NodeId>)
    requires Fits(l, e, serving) && e.Measure?
    ensures Step(l, e, serving).attempts[e.measuring].phase.Measured?
    ensures Step(l, e, serving).attempts[e.measuring].phase.providerTTL == if e.ttl < 1 then 60 else e.ttl
  {
  }

  predicate Records(c: Control, site: SiteId, ttl: int) {
    if site in c.publications then c.publications[site].dnsTTL == ttl else ttl == 0
  }

  lemma StepRecords(l: Life, e: Event, serving: set<NodeId>, site: SiteId, ttl: int)
    requires Inv(l, serving) && Fits(l, e, serving) && Records(l.c, site, ttl) && ttl >= 0
    ensures Records(Step(l, e, serving).c, site,
                    if Marks(l, e, site) then l.attempts[e.marking].phase.providerTTL else ttl)
  {
    if e.Clean? {
      SamePublications(l.c, e.due, e.when, e.task, e.fleet, e.r, e.hurdle);
    }
  }

  /** Over any run a site's publication records exactly that TTL, whatever was published since. */
  lemma {:induction false} PublicationsKeepTheAcceptedTTL(states: seq<Life>, events: seq<Event>, serving: set<NodeId>,
                                                          site: SiteId, j: nat)
    requires IsRun(states, events, serving) && j < |states|
    ensures LastAccepted(states, events, site, j) >= 0
    ensures site in states[j].c.publications ==>
              states[j].c.publications[site].dnsTTL == LastAccepted(states, events, site, j)
    ensures site !in states[j].c.publications ==> LastAccepted(states, events, site, j) == 0
  {
    if j > 0 {
      PublicationsKeepTheAcceptedTTL(states, events, serving, site, j - 1);
      EveryStateIsRight(states, events, serving, j - 1);
      assert Follows(states, events, serving, j - 1);
      StepRecords(states[j - 1], events[j - 1], serving, site, LastAccepted(states, events, site, j - 1));
      if Marks(states[j - 1], events[j - 1], site) {
        assert CoversPending(states[j - 1].c, states[j - 1].attempts[events[j - 1].marking]);
      }
    }
  }

  /** A step at which a publication drops the node: it was assigned, and is not any more. */
  predicate Drops(l: Life, e: Event, after: Life, slot: Slot) {
    && e.Publish? && e.site == slot.site && after != l
    && slot.node in PreviouslyAssigned(l.c, slot.site) && slot.node !in e.draft.nodes
  }

  /** The drain of a dropped node covers the TTL accepted last, the site's own, or the default. */
  lemma DropsCover(l: Life, e: Event, serving: set<NodeId>, slot: Slot)
    requires Inv(l, serving) && Fits(l, e, serving) && Drops(l, e, Step(l, e, serving), slot)
    ensures var previous := l.c.publications[slot.site];
            && HeldAs(Step(l, e, serving), slot, previous.snapshot)
            && var d := Step(l, e, serving).c.drains[slot];
               && d.removeAfter.None? && d.ttl >= previous.dnsTTL && d.ttl >= 1
               && d.ttl >= (if previous.snapshot.dnsTTL.Some? && previous.snapshot.dnsTTL.value > 0
                            then previous.snapshot.dnsTTL.value else e.defaultTTL)
  {
    DropsAreHeld(l, e, serving, slot.node);
    assert Slot(e.site, slot.node) == slot && slot !in l.c.drains;
    assert slot in NewDrains(l.c, e.site, e.draft, e.defaultTTL);
  }

  predicate Waiting(l: Life, slot: Slot, ttl: int) {
    slot in l.c.drains && l.c.drains[slot].readyAt.None? && l.c.drains[slot].ttl >= ttl
  }

  lemma WaitingStep(l: Life, e: Event, serving: set<NodeId>, slot: Slot, ttl: int)
    requires Inv(l, serving) && Fits(l, e, serving) && Waiting(l, slot, ttl)
    requires slot in Step(l, e, serving).c.drains && Step(l, e, serving).c.drains[slot].readyAt.None?
    ensures Waiting(Step(l, e, serving), slot, ttl)
  {
    if e.Clean? {
      CleanSiteRows(l.c, e.due, e.when, e.task, e.fleet, e.r, e.hurdle, slot);
    } else if e.Publish? {
      DroppedNodesDrain(l.c, e.site, e.draft, e.defaultTTL, slot);
    }
  }

  lemma TimersDoNotStop(l: Life, e: Event, serving: set<NodeId>, slot: Slot)
    requires Inv(l, serving) && Fits(l, e, serving) && slot in l.c.drains && slot in Step(l, e, serving).c.drains
    ensures Step(l, e, serving).c.drains[slot].readyAt.None? ==> l.c.drains[slot].readyAt.None?
  {
    if l.c.drains[slot].readyAt.Some? { RunningTimersStay(l, e, serving, slot); }
  }

  /** While it is held a drain that waits for its timer keeps its TTL. */
  lemma {:induction false} WaitsWithItsTTL(states: seq<Life>, events: seq<Event>, serving: set<NodeId>, slot: Slot,
                                           snapshot: Snapshot, ttl: int, i: nat, m: nat)
    requires IsRun(states, events, serving) && i <= m && HeldThrough(states, slot, snapshot, i, m)
    requires Waiting(states[i], slot, ttl) && states[m].c.drains[slot].readyAt.None?
    ensures Waiting(states[m], slot, ttl)
  {
    if i < m {
      assert HeldAs(states[m - 1], slot, snapshot) && HeldAs(states[m], slot, snapshot);
      EveryStateIsRight(states, events, serving, m - 1);
      assert Follows(states, events, serving, m - 1);
      TimersDoNotStop(states[m - 1], events[m - 1], serving, slot);
      WaitsWithItsTTL(states, events, serving, slot, snapshot, ttl, i, m - 1);
      WaitingStep(states[m - 1], events[m - 1], serving, slot, ttl);
    }
  }

  /** A mark for the site's current publication, with this much time before the end. */
  predicate MarkedBefore(l: Life, e: Event, site: SiteId, ttl: int, end: int) {
    Marks(l, e, site) && end >= e.at + ttl * 1_000_000_000 + 300_000_000_000
  }

  lemma StartedCovers(states: seq<Life>, events: seq<Event>, slot: Slot, m: nat, ttl: int, end: int)
    requires StartedAt(states, events, slot, m, end) && Waiting(states[m], slot, ttl)
    ensures MarkedBefore(states[m], events[m], slot.site, ttl, end)
  {
    assert HoldCovers(end, events[m].at, states[m].c.drains[slot]);
  }

  lemma WaitingIsCovered(states: seq<Life>, events: seq<Event>, serving: set<NodeId>, slot: Slot, snapshot: Snapshot,
                         ttl: int, i: nat, k: nat)
    requires IsRun(states, events, serving) && i <= k && HeldThrough(states, slot, snapshot, i, k)
    requires Waiting(states[i], slot, ttl) && states[i].c.drains[slot].removeAfter.None? && EndsAt(states, slot, k)
    ensures exists m: nat :: i <= m < k && MarkedBefore(states[m], events[m], slot.site, ttl, states[k + 1].clock)
  {
    HoldsCoverEveryTTL(states, events, serving, slot, snapshot, i, k);
    var m: nat :| i <= m < k && StartedAt(states, events, slot, m, states[k + 1].clock);
    WaitsWithItsTTL(states, events, serving, slot, snapshot, ttl, i, m);
    StartedCovers(states, events, slot, m, ttl, states[k + 1].clock);
  }

  predicate DropsAt(states: seq<Life>, events: seq<Event>, slot: Slot, i: nat) {
    i < |events| && i + 1 < |states| && Drops(states[i], events[i], states[i + 1], slot)
  }

  lemma DropWaits(states: seq<Life>, events: seq<Event>, serving: set<NodeId>, slot: Slot, i: nat)
    requires IsRun(states, events, serving) && DropsAt(states, events, slot, i)
    ensures slot.site in states[i].c.publications
    ensures HeldAs(states[i + 1], slot, states[i].c.publications[slot.site].snapshot)
    ensures Waiting(states[i + 1], slot, LastAccepted(states, events, slot.site, i))
    ensures states[i + 1].c.drains[slot].removeAfter.None?
  {
    EveryStateIsRight(states, events, serving, i);
    EveryStateIsRight(states, events, serving, i + 1);
    assert Follows(states, events, serving, i);
    DropsCover(states[i], events[i], serving, slot);
    PublicationsKeepTheAcceptedTTL(states, events, serving, slot.site, i);
    assert TimedRight(states[i + 1].c.drains[slot], states[i + 1].clock);
  }

  /** Over any run: when the hold of a dropped node ends, a mark for the site's then current
      publication lies at least five minutes back plus the TTL that the provider had accepted for
      the site when the node was dropped, whatever was published before or in between. */
  lemma DropsOutliveTheAcceptedTTL(states: seq<Life>, events: seq<Event>, serving: set<NodeId>, slot: Slot,
                                   snapshot: Snapshot, i: nat, k: nat)
    requires IsRun(states, events, serving) && i + 1 <= k && DropsAt(states, events, slot, i)
    requires HeldThrough(states, slot, snapshot, i + 1, k) && EndsAt(states, slot, k)
    ensures exists m: nat :: i < m < k
              && MarkedBefore(states[m], events[m], slot.site, LastAccepted(states, events, slot.site, i),
                              states[k + 1].clock)
  {
    DropWaits(states, events, serving, slot, i);
    WaitingIsCovered(states, events, serving, slot, snapshot, LastAccepted(states, events, slot.site, i), i + 1, k);
  }
}
