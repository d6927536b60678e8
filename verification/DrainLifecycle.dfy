/**
 The life of a drain over whole runs: publications create and cancel drains, DNS attempts
 start their timers, cleanups claim and remove them.

 A DNS attempt is not atomic. It loads a publication, checks that it is still current,
 writes to the provider, measures the TTLs, and starts the timers in one transaction that
 checks again; other attempts, publications and cleanups fall in between. The control
 clock does not go backwards, and `serving` are nodes in the fleet and in service throughout.
 */
module DrainLifecycle {
  import opened Common
  import opened Publication
  import opened DrainCleanup

  const SECOND: int := 1_000_000_000
  const GRACE: int := 5 * 60 * SECOND

  type AttemptId = nat

  datatype Phase = Loaded | Checked | Written | Measured(providerTTL: int, drainTTL: int)

  /** A DNS attempt for the publication it loaded, with the nodes that assigns. */
  datatype Attempt = Attempt(site: SiteId, token: nat, nodes: seq<NodeId>, publicationTTL: int, phase: Phase)

  /** The tables, the latest time seen, the view each node's stored state was rendered from,
      the DNS attempts in flight, and the nodes that the record set last accepted for a site names. */
  datatype Life = Life(
    c: Control,
    clock: int,
    rendered: map<NodeId, map<SiteId, Snapshot>>,
    attempts: map<AttemptId, Attempt>,
    provider: map<SiteId, set<NodeId>>)

  datatype Event =
    | Publish(site: SiteId, draft: Snapshot, defaultTTL: int, fleet: Fleet, r: Renderer)
    | Refresh(affected: set<NodeId>, fleet: Fleet, r: Renderer)
    | Load(loading: AttemptId, target: SiteId)
    | Check(checking: AttemptId)
    | Write(writing: AttemptId, named: set<NodeId>)
    | Abandon(abandoned: AttemptId)
    | Measure(measuring: AttemptId, ttl: int, listing: seq<Slot>)
    | Mark(marking: AttemptId, at: int)
    | Clean(cleaned: SiteId, due: set<Slot>, when: int, task: TaskId, fleet: Fleet, r: Renderer, hurdle: Hurdle)
    | Finish(finished: TaskId, confirmed: set<NodeId>)

  // ---------------------------------------------------------------------- DNS attempts

  predicate Current(c: Control, a: Attempt) {
    a.site in c.publications && c.publications[a.site].publishedAt == a.token
  }

  predicate Pending(c: Control, site: SiteId, slot: Slot) {
    slot in c.drains && slot.site == site && c.drains[slot].readyAt.None?
  }

  function AtLeastOne(ttl: int, otherwise: int): int { if ttl < 1 then otherwise else ttl }

  /** The longest TTL that an answer for any of these drains can have, and no less than `start`. */
  function LongestTTL(start: int, drains: seq<Drain>): (ttl: int)
    ensures ttl >= start
    ensures forall d <- drains :: ttl >= d.ttl && (d.snapshot.dnsTTL.Some? ==> ttl >= d.snapshot.dnsTTL.value)
    ensures ttl == start || exists d <- drains :: ttl == d.ttl || d.snapshot.dnsTTL == Some(ttl)
  {
    if drains == [] then start
    else
      var d := drains[|drains| - 1];
      var before := LongestTTL(start, drains[..|drains| - 1]);
      assert drains == drains[..|drains| - 1] + [d];
      Max(Max(before, d.ttl), if d.snapshot.dnsTTL.Some? then d.snapshot.dnsTTL.value else before)
  }

  predicate IsListing(c: Control, site: SiteId, listing: seq<Slot>) {
    && (forall slot <- listing :: slot in c.drains && slot.site == site)
    && (forall slot <- c.drains :: slot.site == site ==> slot in listing)
  }

  function Listed(c: Control, listing: seq<Slot>): seq<Drain>
    requires forall slot <- listing :: slot in c.drains
  {
    seq(|listing|, i requires 0 <= i < |listing| => c.drains[listing[i]])
  }

  /** The timers an accepted mark starts; those already running are never reset. */
  function Started(c: Control, a: Attempt, providerTTL: int, drainTTL: int, at: int): Control
    requires a.site in c.publications
  {
    c.(publications := c.publications[a.site := c.publications[a.site].(dnsTTL := providerTTL)],
       drains := map slot | slot in c.drains ::
                   if Pending(c, a.site, slot)
                   then c.drains[slot].(ttl := drainTTL, readyAt := Some(at),
                                        removeAfter := Some(at + drainTTL * SECOND + GRACE))
                   else c.drains[slot])
  }

  // -------------------------------------------------------------------------- one step

  function RenderedFrom(rendered: map<NodeId, map<SiteId, Snapshot>>, tables: Control, affected: set<NodeId>,
                        fleet: Fleet): map<NodeId, map<SiteId, Snapshot>>
  {
    rendered + map node | node in affected && Renders(affected, fleet, node) :: View(tables, node)
  }

  function AfterFinish(drains: map<Slot, Drain>, task: TaskId, confirmed: set<NodeId>): map<Slot, Drain> {
    map slot | slot in drains && !(drains[slot].cleanup == Some(task) && slot.node in confirmed) ::
      if drains[slot].cleanup == Some(task) then drains[slot].(cleanup := None) else drains[slot]
  }

  function PublishStep(l: Life, site: SiteId, draft: Snapshot, defaultTTL: int, fleet: Fleet, r: Renderer): Life {
    match Published(l.c, site, draft, defaultTTL, fleet, r)
    case None => l
    case Some(after) =>
      l.(c := after, rendered := RenderedFrom(l.rendered, Committed(l.c, site, draft, defaultTTL),
                                              Affected(l.c, site, draft), fleet))
  }

  function RefreshStep(l: Life, affected: set<NodeId>, fleet: Fleet, r: Renderer): Life {
    match Refreshed(l.c, affected, fleet, r)
    case None => l
    case Some(after) => l.(c := after, rendered := RenderedFrom(l.rendered, l.c, affected, fleet))
  }

  function CleanStep(l: Life, due: set<Slot>, now: int, task: TaskId, fleet: Fleet, r: Renderer, hurdle: Hurdle): Life {
    var after := CleanSite(l.c, due, now, task, fleet, r, hurdle);
    var staged := after != l.c && Targets(Without(l.c, due), NodesOf(due), fleet, r) != map[];
    l.(c := after, clock := now,
       rendered := if staged then RenderedFrom(l.rendered, Without(l.c, due), NodesOf(due), fleet) else l.rendered)
  }

  /** Timers start only if the attempt's publication is still the current one. */
  function MarkStep(l: Life, id: AttemptId, at: int): Life
    requires id in l.attempts && l.attempts[id].phase.Measured?
  {
    var a := l.attempts[id];
    var ended := l.(clock := at, attempts := l.attempts - {id});
    if !Current(l.c, a) then ended
    else ended.(c := Started(l.c, a, a.phase.providerTTL, a.phase.drainTTL, at))
  }

  function Moved(l: Life, id: AttemptId, phase: Phase): Life
    requires id in l.attempts
  {
    l.(attempts := l.attempts[id := l.attempts[id].(phase := phase)])
  }

  function MeasureStep(l: Life, id: AttemptId, ttl: int, listing: seq<Slot>): Life
    requires id in l.attempts && IsListing(l.c, l.attempts[id].site, listing)
  {
    var provider := AtLeastOne(ttl, DEFAULT_DNS_TTL);
    Moved(l, id, Measured(provider, LongestTTL(Max(provider, l.attempts[id].publicationTTL), Listed(l.c, listing))))
  }

  /** Whether an event can happen in this state: clocks advance, the serving nodes are in the
      fleet, and an attempt moves through its phases in order. */
  ghost predicate Fits(l: Life, e: Event, serving: set<NodeId>) {
    match e
    case Publish(_, _, _, fleet, _) => ServesAll(fleet, serving)
    case Refresh(_, fleet, _) => ServesAll(fleet, serving)
    case Load(a, site) => a !in l.attempts && site in l.c.publications
    case Check(a) => a in l.attempts && l.attempts[a].phase == Loaded
    case Write(a, named) =>
      a in l.attempts && l.attempts[a].phase == Checked && forall node <- named :: node in l.attempts[a].nodes
    case Abandon(a) => a in l.attempts
    case Measure(a, _, listing) =>
      a in l.attempts && l.attempts[a].phase == Written && IsListing(l.c, l.attempts[a].site, listing)
    case Mark(a, at) => a in l.attempts && l.attempts[a].phase.Measured? && l.clock <= at
    case Clean(site, due, now, _, fleet, _, _) =>
      && l.clock <= now && ServesAll(fleet, serving) && MayClean(l.c, due, now, fleet)
      && forall slot <- due :: slot.site == site
    case Finish(_, _) => true
  }

  /** A turn takes the drains that its round has listed: they are due on active nodes, but not
      always all that are due by now, since a task that ended meanwhile may have released more. */
  predicate MayClean(c: Control, due: set<Slot>, now: int, fleet: Fleet) {
    forall slot <- due ::
      && slot in c.drains && IsDue(c.drains[slot], now)
      && slot.node in fleet.nodes && fleet.nodes[slot.node].status == Active
  }

  ghost predicate ServesAll(fleet: Fleet, serving: set<NodeId>) {
    forall node <- serving :: node in fleet.nodes && !Retired(fleet.nodes[node])
  }

  ghost function Step(l: Life, e: Event, serving: set<NodeId>): Life
    requires Fits(l, e, serving)
  {
    match e
    case Publish(site, draft, defaultTTL, fleet, r) => PublishStep(l, site, draft, defaultTTL, fleet, r)
    case Refresh(affected, fleet, r) => RefreshStep(l, affected, fleet, r)
    case Load(a, site) =>
      var p := l.c.publications[site];
      l.(attempts := l.attempts[a := Attempt(site, p.publishedAt, p.snapshot.nodes, p.dnsTTL, Loaded)])
    case Check(a) =>
      if Current(l.c, l.attempts[a]) then Moved(l, a, Checked) else l.(attempts := l.attempts - {a})
    case Write(a, named) => Moved(l, a, Written).(provider := l.provider[l.attempts[a].site := named])
    case Abandon(a) => l.(attempts := l.attempts - {a})
    case Measure(a, ttl, listing) => MeasureStep(l, a, ttl, listing)
    case Mark(a, at) => MarkStep(l, a, at)
    case Clean(_, due, now, task, fleet, r, hurdle) => CleanStep(l, due, now, task, fleet, r, hurdle)
    case Finish(task, confirmed) => l.(c := l.c.(drains := AfterFinish(l.c.drains, task, confirmed)))
  }

  // -------------------------------------------------------------------- the invariant

  predicate Expired(d: Drain, clock: int) {
    d.removeAfter.Some? && d.removeAfter.value <= clock
  }

  /** A running hold lasts its TTL and the grace period; only an ended one can be claimed. */
  predicate TimedRight(d: Drain, clock: int) {
    && (d.readyAt.None? <==> d.removeAfter.None?)
    && (d.readyAt.Some? ==> d.ttl >= 1 && d.readyAt.value <= clock
                            && d.removeAfter.value == d.readyAt.value + d.ttl * SECOND + GRACE)
    && (d.cleanup.Some? ==> Expired(d, clock))
  }

  /** The node's stored state was rendered with the drain's snapshot. */
  predicate Retained(l: Life, slot: Slot)
    requires slot in l.c.drains
  {
    && slot.node in l.rendered && slot.site in l.rendered[slot.node]
    && l.rendered[slot.node][slot.site] == l.c.drains[slot].snapshot
  }

  /** A measurement stays good for the pending drains while its publication is current. */
  ghost predicate CoversPending(c: Control, a: Attempt) {
    a.phase.Measured? ==>
      && 1 <= a.phase.providerTTL <= a.phase.drainTTL && a.publicationTTL <= a.phase.drainTTL
      && (Current(c, a) ==>
            forall slot <- c.drains :: Pending(c, a.site, slot) ==> Longer(c.drains[slot], a.phase.drainTTL))
  }

  predicate Longer(d: Drain, ttl: int) {
    ttl >= d.ttl && (d.snapshot.dnsTTL.Some? ==> ttl >= d.snapshot.dnsTTL.value)
  }

  ghost predicate DrainsRight(l: Life, serving: set<NodeId>) {
    && OneSnapshotPerSlot(l.c)
    && (forall slot <- l.c.drains :: TimedRight(l.c.drains[slot], l.clock))
    && (forall slot <- l.c.drains :: slot.node in serving && !Expired(l.c.drains[slot], l.clock) ==> Retained(l, slot))
  }

  ghost predicate AttemptsRight(l: Life) {
    && (forall site <- l.c.publications :: l.c.publications[site].publishedAt <= l.c.lastPublished)
    && (forall a <- l.attempts :: l.attempts[a].token <= l.c.lastPublished && CoversPending(l.c, l.attempts[a]))
  }

  ghost predicate Inv(l: Life, serving: set<NodeId>) {
    DrainsRight(l, serving) && AttemptsRight(l)
  }

  lemma HeldIsViewed(c: Control, slot: Slot)
    requires OneSnapshotPerSlot(c) && Held(c, slot)
    ensures slot.site in View(c, slot.node) && View(c, slot.node)[slot.site] == c.drains[slot].snapshot
  {
    assert Serving(c, slot.site, slot.node) == Some(c.drains[slot].snapshot);
    assert slot.site in Sites(c);
  }

  lemma PublishKeepsInv(l: Life, site: SiteId, draft: Snapshot, defaultTTL: int, fleet: Fleet, r: Renderer,
                        serving: set<NodeId>)
    requires Inv(l, serving) && ServesAll(fleet, serving)
    ensures Inv(PublishStep(l, site, draft, defaultTTL, fleet, r), serving)
  {
    var after := PublishStep(l, site, draft, defaultTTL, fleet, r);
    if after != l {
      var tables, affected := Committed(l.c, site, draft, defaultTTL), Affected(l.c, site, draft);
      PublishingKeepsOneSnapshotPerSlot(l.c, site, draft, defaultTTL);
      assert after.c.drains == tables.drains && after.c.publications == tables.publications;
      forall slot | slot in after.c.drains
        ensures TimedRight(after.c.drains[slot], after.clock)
        ensures slot.node in serving && !Expired(after.c.drains[slot], after.clock) ==> Retained(after, slot)
      {
        DroppedNodesDrain(l.c, site, draft, defaultTTL, slot);
        if slot.node in affected && slot.node in serving && tables.drains[slot].cleanup.None? {
          HeldIsViewed(tables, slot);
        }
      }
      forall a | a in l.attempts ensures CoversPending(after.c, l.attempts[a]) {
        if l.attempts[a].site != site {
          PendingElsewhere(l.c, site, draft, defaultTTL, l.attempts[a].site);
        }
      }
    }
  }

  lemma PendingElsewhere(c: Control, site: SiteId, draft: Snapshot, defaultTTL: int, other: SiteId)
    requires other != site && OneSnapshotPerSlot(c)
    ensures forall slot: Slot :: slot.site == other ==>
              var after := Committed(c, site, draft, defaultTTL);
              && (slot in after.drains <==> slot in c.drains)
              && (slot in c.drains ==> after.drains[slot] == c.drains[slot])
  {
    forall slot: Slot | slot.site == other
      ensures var after := Committed(c, site, draft, defaultTTL);
              && (slot in after.drains <==> slot in c.drains)
              && (slot in c.drains ==> after.drains[slot] == c.drains[slot])
    {
      DroppedNodesDrain(c, site, draft, defaultTTL, slot);
    }
  }

  lemma RefreshKeepsInv(l: Life, affected: set<NodeId>, fleet: Fleet, r: Renderer, serving: set<NodeId>)
    requires Inv(l, serving) && ServesAll(fleet, serving)
    ensures Inv(RefreshStep(l, affected, fleet, r), serving)
  {
    var after := RefreshStep(l, affected, fleet, r);
    if after != l {
      forall slot | slot in l.c.drains && slot.node in serving && !Expired(l.c.drains[slot], l.clock)
        ensures Retained(after, slot)
      {
        HeldIsViewed(l.c, slot);
      }
      assert after.c.publications == l.c.publications && after.c.drains == l.c.drains;
      forall a | a in l.attempts ensures CoversPending(after.c, l.attempts[a]) {
        assert CoversPending(l.c, l.attempts[a]);
      }
    }
  }

  /** A cleanup removes rows or claims due ones, and changes nothing else in the tables. */
  lemma CleanSiteRows(c: Control, due: set<Slot>, at: int, task: TaskId, fleet: Fleet, r: Renderer, hurdle: Hurdle,
                      slot: Slot)
    ensures var after := CleanSite(c, due, at, task, fleet, r, hurdle);
            && after.publications == c.publications && after.lastPublished == c.lastPublished
            && (slot in after.drains ==> slot in c.drains)
            && (slot in after.drains && slot !in due ==> after.drains[slot] == c.drains[slot])
            && (slot in after.drains && slot in due ==>
                  after.drains[slot] == c.drains[slot] || after.drains[slot] == c.drains[slot].(cleanup := Some(task)))
  {
  }

  /** After a cleanup, a serving node's unexpired drains are still in what it was rendered from. */
  lemma CleanRetains(l: Life, due: set<Slot>, now: int, task: TaskId, fleet: Fleet, r: Renderer, hurdle: Hurdle,
                     serving: set<NodeId>, slot: Slot)
    requires MayClean(l.c, due, now, fleet)
    requires DrainsRight(l, serving) && ServesAll(fleet, serving) && l.clock <= now
    requires slot in l.c.drains && slot.node in serving && !Expired(l.c.drains[slot], now)
    requires slot in CleanStep(l, due, now, task, fleet, r, hurdle).c.drains
    ensures Retained(CleanStep(l, due, now, task, fleet, r, hurdle), slot)
  {
    var tables := Without(l.c, due);
    assert TimedRight(l.c.drains[slot], l.clock);
    assert Held(tables, slot);
    HeldIsViewed(tables, slot);
    CleanSiteRows(l.c, due, now, task, fleet, r, hurdle, slot);
    assert Retained(l, slot);
  }

  lemma CleanKeepsInv(l: Life, due: set<Slot>, now: int, task: TaskId, fleet: Fleet, r: Renderer, hurdle: Hurdle,
                      serving: set<NodeId>)
    requires MayClean(l.c, due, now, fleet)
    requires Inv(l, serving) && ServesAll(fleet, serving) && l.clock <= now
    ensures Inv(CleanStep(l, due, now, task, fleet, r, hurdle), serving)
  {
    var after := CleanStep(l, due, now, task, fleet, r, hurdle);
    forall slot | slot in after.c.drains
      ensures slot in l.c.drains && after.c.drains[slot].(cleanup := l.c.drains[slot].cleanup) == l.c.drains[slot]
      ensures TimedRight(after.c.drains[slot], now)
      ensures slot.node in serving && !Expired(after.c.drains[slot], now) ==> Retained(after, slot)
    {
      CleanSiteRows(l.c, due, now, task, fleet, r, hurdle, slot);
      assert TimedRight(l.c.drains[slot], l.clock);
      if slot.node in serving && !Expired(l.c.drains[slot], now) {
        CleanRetains(l, due, now, task, fleet, r, hurdle, serving, slot);
      }
    }
    forall slot ensures slot in after.c.drains ==> slot in l.c.drains { }
    SamePublications(l.c, due, now, task, fleet, r, hurdle);
    CoverageSurvives(l, after);
  }

  lemma SamePublications(c: Control, due: set<Slot>, at: int, task: TaskId, fleet: Fleet, r: Renderer, hurdle: Hurdle)
    ensures CleanSite(c, due, at, task, fleet, r, hurdle).publications == c.publications
    ensures CleanSite(c, due, at, task, fleet, r, hurdle).lastPublished == c.lastPublished
  {
  }

  /** Rows that only leave or change owner cannot spoil a measurement. */
  lemma CoverageSurvives(l: Life, after: Life)
    requires AttemptsRight(l) && after.attempts == l.attempts
    requires after.c.publications == l.c.publications && after.c.lastPublished == l.c.lastPublished
    requires forall slot <- after.c.drains ::
               slot in l.c.drains && after.c.drains[slot].(cleanup := l.c.drains[slot].cleanup) == l.c.drains[slot]
    ensures AttemptsRight(after)
  {
    forall a | a in l.attempts ensures CoversPending(after.c, l.attempts[a]) {
      assert CoversPending(l.c, l.attempts[a]);
    }
  }

  lemma FinishKeepsInv(l: Life, task: TaskId, confirmed: set<NodeId>, serving: set<NodeId>)
    requires Inv(l, serving)
    ensures Inv(l.(c := l.c.(drains := AfterFinish(l.c.drains, task, confirmed))), serving)
  {
    var after := l.(c := l.c.(drains := AfterFinish(l.c.drains, task, confirmed)));
    forall slot | slot in after.c.drains
      ensures slot in l.c.drains && after.c.drains[slot].(cleanup := l.c.drains[slot].cleanup) == l.c.drains[slot]
      ensures TimedRight(after.c.drains[slot], after.clock)
      ensures slot.node in serving && !Expired(after.c.drains[slot], after.clock) ==> Retained(after, slot)
    {
      assert TimedRight(l.c.drains[slot], l.clock);
    }
    forall a | a in l.attempts ensures CoversPending(after.c, l.attempts[a]) {
      assert CoversPending(l.c, l.attempts[a]);
    }
  }

  lemma MarkKeepsInv(l: Life, id: AttemptId, at: int, serving: set<NodeId>)
    requires Inv(l, serving) && id in l.attempts && l.attempts[id].phase.Measured? && l.clock <= at
    ensures Inv(MarkStep(l, id, at), serving)
  {
    var after := MarkStep(l, id, at);
    assert CoversPending(l.c, l.attempts[id]);
    forall slot | slot in after.c.drains
      ensures TimedRight(after.c.drains[slot], at)
      ensures slot.node in serving && !Expired(after.c.drains[slot], at) ==> Retained(after, slot)
    {
      assert TimedRight(l.c.drains[slot], l.clock);
      assert !Expired(after.c.drains[slot], at) ==> !Expired(l.c.drains[slot], l.clock);
    }
    forall a | a in after.attempts ensures CoversPending(after.c, after.attempts[a]) {
      assert CoversPending(l.c, l.attempts[a]);
    }
  }

  lemma AttemptKeepsInv(l: Life, e: Event, serving: set<NodeId>)
    requires Inv(l, serving) && Fits(l, e, serving)
    requires e.Load? || e.Check? || e.Write? || e.Abandon?
    ensures Inv(Step(l, e, serving), serving)
  {
    var after := Step(l, e, serving);
    forall slot | slot in l.c.drains && slot.node in serving && !Expired(l.c.drains[slot], l.clock)
      ensures Retained(after, slot)
    {
      assert Retained(l, slot);
    }
  }

  lemma MeasureKeepsInv(l: Life, id: AttemptId, ttl: int, listing: seq<Slot>, serving: set<NodeId>)
    requires Inv(l, serving) && id in l.attempts && IsListing(l.c, l.attempts[id].site, listing)
    ensures Inv(MeasureStep(l, id, ttl, listing), serving)
  {
    var after := MeasureStep(l, id, ttl, listing);
    forall slot | slot in l.c.drains && slot.node in serving && !Expired(l.c.drains[slot], l.clock)
      ensures Retained(after, slot)
    {
      assert Retained(l, slot);
    }
    forall slot | slot in l.c.drains && Pending(l.c, l.attempts[id].site, slot)
      ensures Longer(l.c.drains[slot], after.attempts[id].phase.drainTTL)
    {
      var i :| 0 <= i < |listing| && listing[i] == slot;
      assert Listed(l.c, listing)[i] in Listed(l.c, listing);
    }
  }

  lemma StepKeepsInv(l: Life, e: Event, serving: set<NodeId>)
    requires Inv(l, serving) && Fits(l, e, serving)
    ensures Inv(Step(l, e, serving), serving)
  {
    match e
    case Publish(site, draft, defaultTTL, fleet, r) => PublishKeepsInv(l, site, draft, defaultTTL, fleet, r, serving);
    case Refresh(affected, fleet, r) => RefreshKeepsInv(l, affected, fleet, r, serving);
    case Measure(a, ttl, listing) => MeasureKeepsInv(l, a, ttl, listing, serving);
    case Mark(a, at) => MarkKeepsInv(l, a, at, serving);
    case Clean(_, due, now, task, fleet, r, hurdle) => CleanKeepsInv(l, due, now, task, fleet, r, hurdle, serving);
    case Finish(task, confirmed) => FinishKeepsInv(l, task, confirmed, serving);
    case _ => AttemptKeepsInv(l, e, serving);
  }

  // ------------------------------------------------------------------------- whole runs

  const START: Life := Life(Control(map[], map[], map[], 0), 0, map[], map[], map[])

  ghost predicate IsRun(states: seq<Life>, events: seq<Event>, serving: set<NodeId>) {
    && |states| == |events| + 1
    && states[0] == START
    && forall i: nat :: i < |events| ==> Follows(states, events, serving, i)
  }

  ghost predicate Follows(states: seq<Life>, events: seq<Event>, serving: set<NodeId>, i: nat)
    requires i < |events| < |states|
  {
    Fits(states[i], events[i], serving) && states[i + 1] == Step(states[i], events[i], serving)
  }

  lemma {:induction false} EveryStateIsRight(states: seq<Life>, events: seq<Event>, serving: set<NodeId>, i: nat)
    requires IsRun(states, events, serving) && i < |states|
    ensures Inv(states[i], serving)
  {
    if i > 0 {
      EveryStateIsRight(states, events, serving, i - 1);
      assert Follows(states, events, serving, i - 1);
      StepKeepsInv(states[i - 1], events[i - 1], serving);
    }
  }

  /** A node's stored state and recorded view are both left alone, or the state is a rendering
      of the view. */
  predicate RecordsTruly(l: Life, after: Life, node: NodeId, r: Renderer) {
    || (StateOf(after.c, node) == StateOf(l.c, node) && ViewOf(after, node) == ViewOf(l, node))
    || (node in after.c.states && node in after.rendered
        && IsRenderingOf(after.c.states[node].content, node, after.rendered[node], r))
  }

  function ViewOf(l: Life, node: NodeId): Option<map<SiteId, Snapshot>> {
    if node in l.rendered then Some(l.rendered[node]) else None
  }

  lemma RefreshRecordsTruly(l: Life, after: Life, tables: Control, affected: set<NodeId>, fleet: Fleet, r: Renderer,
                            node: NodeId)
    requires tables.states == l.c.states && Refreshed(tables, affected, fleet, r).Some?
    requires after.c.states == Refreshed(tables, affected, fleet, r).value.states
    requires after.rendered == RenderedFrom(l.rendered, tables, affected, fleet)
    ensures RecordsTruly(l, after, node, r)
  {
    if Renders(affected, fleet, node) {
      RefreshStoresTheView(tables, affected, fleet, r, node);
    } else {
      RefreshMovesIff(tables, affected, fleet, r, node);
    }
  }

  /** What is recorded as the view behind a node's stored state is just that, after every step
      that renders; no other step touches either. */
  lemma RecordedViewIsStored(l: Life, e: Event, serving: set<NodeId>, node: NodeId)
    requires Fits(l, e, serving)
    ensures if e.Publish? || e.Refresh? || e.Clean? then RecordsTruly(l, Step(l, e, serving), node, e.r)
            else Step(l, e, serving).c.states == l.c.states && Step(l, e, serving).rendered == l.rendered
  {
    var after := Step(l, e, serving);
    if e.Publish? {
      var tables, affected := Committed(l.c, e.site, e.draft, e.defaultTTL), Affected(l.c, e.site, e.draft);
      if Refreshed(tables, affected, e.fleet, e.r).Some? {
        RefreshRecordsTruly(l, after, tables, affected, e.fleet, e.r, node);
      }
    } else if e.Refresh? {
      if Refreshed(l.c, e.affected, e.fleet, e.r).Some? {
        RefreshRecordsTruly(l, after, l.c, e.affected, e.fleet, e.r, node);
      }
    } else if e.Clean? {
      CleanRecordsTruly(l, e.due, e.when, e.task, e.fleet, e.r, e.hurdle, node);
    }
  }

  lemma CleanRecordsTruly(l: Life, due: set<Slot>, now: int, task: TaskId, fleet: Fleet, r: Renderer, hurdle: Hurdle,
                          node: NodeId)
    ensures RecordsTruly(l, CleanStep(l, due, now, task, fleet, r, hurdle), node, r)
  {
    var after := CleanStep(l, due, now, task, fleet, r, hurdle);
    if after.c != l.c && Targets(Without(l.c, due), NodesOf(due), fleet, r) != map[] {
      RefreshRecordsTruly(l, after, Without(l.c, due), NodesOf(due), fleet, r, node);
    }
  }

  /** A publication that drops a node leaves it holding the previous snapshot, without a timer. */
  lemma DropsAreHeld(l: Life, e: Event, serving: set<NodeId>, node: NodeId)
    requires Inv(l, serving) && Fits(l, e, serving) && e.Publish? && Step(l, e, serving) != l
    requires node in PreviouslyAssigned(l.c, e.site) && node !in e.draft.nodes
    ensures var after := Step(l, e, serving);
            HeldAs(after, Slot(e.site, node), l.c.publications[e.site].snapshot)
            && after.c.drains[Slot(e.site, node)].removeAfter.None?
  {
    DroppedNodesDrain(l.c, e.site, e.draft, e.defaultTTL, Slot(e.site, node));
    assert Slot(e.site, node) !in l.c.drains;
    PublishKeepsInv(l, e.site, e.draft, e.defaultTTL, e.fleet, e.r, serving);
    assert TimedRight(Step(l, e, serving).c.drains[Slot(e.site, node)], l.clock);
  }

  /** A publication that assigns the drain's node again. */
  predicate Reassigns(e: Event, slot: Slot) {
    e.Publish? && e.site == slot.site && slot.node in e.draft.nodes
  }

  /** A step at whose time a running hold is over. */
  predicate HoldEnds(before: Life, after: Life, slot: Slot) {
    && Held(before.c, slot) && before.c.drains[slot].readyAt.Some?
    && after.clock >= before.c.drains[slot].readyAt.value + before.c.drains[slot].ttl * SECOND + GRACE
  }

  predicate EndsAt(states: seq<Life>, slot: Slot, k: nat) {
    k + 1 < |states| && HoldEnds(states[k], states[k + 1], slot)
  }

  predicate HeldAs(l: Life, slot: Slot, snapshot: Snapshot) {
    Held(l.c, slot) && l.c.drains[slot].snapshot == snapshot
  }

  lemma CleanHolds(c: Control, due: set<Slot>, at: int, task: TaskId, fleet: Fleet, r: Renderer, hurdle: Hurdle,
                   slot: Slot)
    requires Held(c, slot) && slot !in due
    ensures slot in CleanSite(c, due, at, task, fleet, r, hurdle).drains
    ensures CleanSite(c, due, at, task, fleet, r, hurdle).drains[slot] == c.drains[slot]
  {
  }

  /** One step ends a hold only by cleaning up a drain whose time is over. */
  lemma HeldStep(l: Life, e: Event, serving: set<NodeId>, slot: Slot, snapshot: Snapshot)
    requires Inv(l, serving) && Fits(l, e, serving) && HeldAs(l, slot, snapshot) && !Reassigns(e, slot)
    ensures HeldAs(Step(l, e, serving), slot, snapshot) || HoldEnds(l, Step(l, e, serving), slot)
  {
    if e.Publish? {
      DroppedNodesDrain(l.c, e.site, e.draft, e.defaultTTL, slot);
    } else if e.Clean? {
      if slot in e.due {
        assert TimedRight(l.c.drains[slot], l.clock);
      } else {
        CleanHolds(l.c, e.due, e.when, e.task, e.fleet, e.r, e.hurdle, slot);
      }
    }
  }

  predicate HeldThrough(states: seq<Life>, slot: Slot, snapshot: Snapshot, i: nat, k: nat) {
    k < |states| && forall l :: i <= l <= k ==> HeldAs(states[l], slot, snapshot)
  }

  lemma {:induction false} HeldOrEnded(states: seq<Life>, events: seq<Event>, serving: set<NodeId>, slot: Slot,
                                       snapshot: Snapshot, i: nat, j: nat)
    requires IsRun(states, events, serving) && i <= j < |states|
    requires HeldAs(states[i], slot, snapshot)
    requires forall k :: i <= k < j ==> !Reassigns(events[k], slot)
    ensures || HeldThrough(states, slot, snapshot, i, j)
            || exists k: nat :: i <= k < j && HeldThrough(states, slot, snapshot, i, k) && EndsAt(states, slot, k)
  {
    if i < j {
      HeldOrEnded(states, events, serving, slot, snapshot, i, j - 1);
      if HeldThrough(states, slot, snapshot, i, j - 1) {
        EveryStateIsRight(states, events, serving, j - 1);
        assert Follows(states, events, serving, j - 1);
        HeldStep(states[j - 1], events[j - 1], serving, slot, snapshot);
        assert HeldAs(states[j], slot, snapshot) || EndsAt(states, slot, j - 1);
      }
    }
  }

  /** Over any run, a drained node goes on being assigned the snapshot it served, in its view
      and (when it is in service) in what its stored state was rendered from, until the node
      is assigned again or the hold has ended: the timers ran, and a step came after
      `readyAt + TTL + five minutes`. */
  lemma DrainsAreHeld(states: seq<Life>, events: seq<Event>, serving: set<NodeId>, slot: Slot, snapshot: Snapshot,
                      i: nat, j: nat)
    requires IsRun(states, events, serving) && i <= j < |states|
    requires HeldAs(states[i], slot, snapshot)
    requires forall k :: i <= k < j ==> !Reassigns(events[k], slot)
    ensures || (Served(states[j], slot, snapshot)
                && (slot.node in serving && !Expired(states[j].c.drains[slot], states[j].clock) ==>
                      Retained(states[j], slot)))
            || exists k: nat :: i <= k < j && HeldThrough(states, slot, snapshot, i, k) && EndsAt(states, slot, k)
  {
    EveryStateIsRight(states, events, serving, j);
    HeldOrEnded(states, events, serving, slot, snapshot, i, j);
  }

  predicate Served(l: Life, slot: Slot, snapshot: Snapshot) {
    HeldAs(l, slot, snapshot) && Serving(l.c, slot.site, slot.node) == Some(snapshot)
  }

  /** A timer starts only by a mark of an attempt for the publication that is current then, and
      its hold covers the provider, the publication and every drain pending on the site. */
  lemma TimersStartByMark(l: Life, e: Event, serving: set<NodeId>, slot: Slot)
    requires Inv(l, serving) && Fits(l, e, serving)
    requires slot in l.c.drains && l.c.drains[slot].readyAt.None?
    requires slot in Step(l, e, serving).c.drains && Step(l, e, serving).c.drains[slot].readyAt.Some?
    ensures e.Mark? && l.attempts[e.marking].site == slot.site && Current(l.c, l.attempts[e.marking])
    ensures var a, d := l.attempts[e.marking], Step(l, e, serving).c.drains[slot];
            && d.readyAt == Some(e.at) && d.removeAfter.Some?
            && d.removeAfter.value >= e.at + a.phase.providerTTL * SECOND + GRACE
            && d.removeAfter.value >= e.at + a.publicationTTL * SECOND + GRACE
            && forall other <- l.c.drains :: Pending(l.c, slot.site, other) ==>
                 HoldCovers(d.removeAfter.value, e.at, l.c.drains[other])
  {
    if e.Clean? {
      CleanSiteRows(l.c, e.due, e.when, e.task, e.fleet, e.r, e.hurdle, slot);
    } else if e.Publish? {
      DroppedNodesDrain(l.c, e.site, e.draft, e.defaultTTL, slot);
    } else if e.Mark? {
      assert CoversPending(l.c, l.attempts[e.marking]);
    }
  }

  predicate HoldCovers(removeAfter: int, at: int, d: Drain) {
    && removeAfter >= at + d.ttl * SECOND + GRACE
    && (d.snapshot.dnsTTL.Some? ==> removeAfter >= at + d.snapshot.dnsTTL.value * SECOND + GRACE)
  }

  /** Timers that run are never reset while the drain is stored. */
  lemma RunningTimersStay(l: Life, e: Event, serving: set<NodeId>, slot: Slot)
    requires Inv(l, serving) && Fits(l, e, serving)
    requires slot in l.c.drains && l.c.drains[slot].readyAt.Some? && slot in Step(l, e, serving).c.drains
    ensures var before, after := l.c.drains[slot], Step(l, e, serving).c.drains[slot];
            after.readyAt == before.readyAt && after.removeAfter == before.removeAfter && after.ttl == before.ttl
  {
    if e.Clean? {
      CleanSiteRows(l.c, e.due, e.when, e.task, e.fleet, e.r, e.hurdle, slot);
    } else if e.Publish? {
      DroppedNodesDrain(l.c, e.site, e.draft, e.defaultTTL, slot);
    }
  }

  /** A mark ends its attempt. If the publication it loaded is still the current one it starts every
      timer that waits on the site, each for the measured TTL and five minutes; otherwise none. */
  lemma MarkStartsEveryTimer(l: Life, e: Event, serving: set<NodeId>, slot: Slot)
    requires Inv(l, serving) && Fits(l, e, serving) && e.Mark? && slot in l.c.drains
    ensures Step(l, e, serving).attempts == l.attempts - {e.marking} && slot in Step(l, e, serving).c.drains
    ensures var a, before := l.attempts[e.marking], l.c.drains[slot];
            Step(l, e, serving).c.drains[slot]
              == if slot.site == a.site && before.readyAt.None?
                    && a.site in l.c.publications && l.c.publications[a.site].publishedAt == a.token
                 then before.(ttl := a.phase.drainTTL, readyAt := Some(e.at),
                              removeAfter := Some(e.at + a.phase.drainTTL * 1_000_000_000 + 300_000_000_000))
                 else before
  {
  }

  /** What an attempt measures is the longest of the TTLs an answer may have been given: the
      provider's, the publication's, and those of every drain of the site. */
  lemma MeasuredIsLongest(l: Life, e: Event, serving: set<NodeId>)
    requires Inv(l, serving) && Fits(l, e, serving) && e.Measure?
    ensures var a, m := l.attempts[e.measuring], Step(l, e, serving).attempts[e.measuring].phase;
            && m.Measured? && m.drainTTL >= m.providerTTL && m.drainTTL >= a.publicationTTL
            && (forall slot <- l.c.drains :: slot.site == a.site ==>
                  && m.drainTTL >= l.c.drains[slot].ttl
                  && (l.c.drains[slot].snapshot.dnsTTL.Some? ==> m.drainTTL >= l.c.drains[slot].snapshot.dnsTTL.value))
            && (|| m.drainTTL == m.providerTTL || m.drainTTL == a.publicationTTL
                || exists slot <- l.c.drains :: slot.site == a.site
                     && (m.drainTTL == l.c.drains[slot].ttl || l.c.drains[slot].snapshot.dnsTTL == Some(m.drainTTL)))
  {
    var a, m := l.attempts[e.measuring], Step(l, e, serving).attempts[e.measuring].phase;
    var drains := Listed(l.c, e.listing);
    var start := Max(m.providerTTL, a.publicationTTL);
    assert m.drainTTL == LongestTTL(start, drains);
    forall slot | slot in l.c.drains && slot.site == a.site ensures l.c.drains[slot] in drains {
      var i :| 0 <= i < |e.listing| && e.listing[i] == slot;
      assert drains[i] == l.c.drains[slot];
    }
    if m.drainTTL != start {
      var d :| d in drains && (m.drainTTL == d.ttl || d.snapshot.dnsTTL == Some(m.drainTTL));
      var i :| 0 <= i < |drains| && drains[i] == d;
      assert e.listing[i] in l.c.drains && l.c.drains[e.listing[i]] == d;
    }
  }

  /** An attempt loads its site's publication of the moment and goes on only while that is the
      current one; neither changes any table. */
  lemma StaleAttemptsEnd(l: Life, e: Event, serving: set<NodeId>)
    requires Fits(l, e, serving) && (e.Load? || e.Check?)
    ensures Step(l, e, serving).c == l.c && Step(l, e, serving).provider == l.provider
    ensures e.Load? ==>
              var p := l.c.publications[e.target];
              Step(l, e, serving).attempts
                == l.attempts[e.loading := Attempt(e.target, p.publishedAt, p.snapshot.nodes, p.dnsTTL, Loaded)]
    ensures e.Check? ==>
              var a := l.attempts[e.checking];
              Step(l, e, serving).attempts
                == if a.site in l.c.publications && l.c.publications[a.site].publishedAt == a.token
                   then l.attempts[e.checking := a.(phase := Checked)] else l.attempts - {e.checking}
  {
  }

  /** A cleanup that ends deletes the drains whose nodes have confirmed it, and releases the rest of
      its own; no other drain changes. */
  lemma FinishDeletesOrReleases(l: Life, e: Event, serving: set<NodeId>, slot: Slot)
    requires Fits(l, e, serving) && e.Finish? && slot in l.c.drains
    ensures var before, after := l.c.drains[slot], Step(l, e, serving).c.drains;
            if before.cleanup != Some(e.finished) then slot in after && after[slot] == before
            else if slot.node in e.confirmed then slot !in after
            else slot in after && after[slot] == before.(cleanup := None)
  {
  }

  predicate HasWritten(a: Attempt) { a.phase.Written? || a.phase.Measured? }

  predicate Wrote(l: Life, e: Event, a: AttemptId, later: Attempt) {
    && e.Write? && e.writing == a && a in l.attempts
    && l.attempts[a].site == later.site && l.attempts[a].token == later.token
  }

  lemma WritingStep(l: Life, e: Event, serving: set<NodeId>, a: AttemptId)
    requires Fits(l, e, serving) && a in Step(l, e, serving).attempts && HasWritten(Step(l, e, serving).attempts[a])
    ensures var later := Step(l, e, serving).attempts[a];
            || Wrote(l, e, a, later)
            || (a in l.attempts && HasWritten(l.attempts[a])
                && l.attempts[a].site == later.site && l.attempts[a].token == later.token)
  {
  }

  /** An attempt that reached its mark wrote to the provider for the same publication. */
  lemma {:induction false} MarksFollowWrites(states: seq<Life>, events: seq<Event>, serving: set<NodeId>, a: AttemptId,
                                             j: nat)
    requires IsRun(states, events, serving) && j < |states|
    requires a in states[j].attempts && HasWritten(states[j].attempts[a])
    ensures exists i :: 0 <= i < j && Wrote(states[i], events[i], a, states[j].attempts[a])
  {
    if j > 0 {
      assert Follows(states, events, serving, j - 1);
      WritingStep(states[j - 1], events[j - 1], serving, a);
      if !Wrote(states[j - 1], events[j - 1], a, states[j].attempts[a]) {
        MarksFollowWrites(states, events, serving, a, j - 1);
      }
    }
  }

  /** A mark of an attempt for the publication that is current at that moment. */
  predicate Marks(l: Life, e: Event, site: SiteId) {
    && e.Mark? && e.marking in l.attempts
    && l.attempts[e.marking].site == site && l.attempts[e.marking].phase.Measured?
    && Current(l.c, l.attempts[e.marking])
  }

  /** Ending at `end`, a hold that began with this mark covers every TTL there was to cover. */
  ghost predicate Covered(l: Life, e: Event, site: SiteId, end: int)
    requires Marks(l, e, site)
  {
    && end >= e.at + l.attempts[e.marking].phase.providerTTL * SECOND + GRACE
    && end >= e.at + l.attempts[e.marking].publicationTTL * SECOND + GRACE
    && forall other <- l.c.drains :: Pending(l.c, site, other) ==> HoldCovers(end, e.at, l.c.drains[other])
  }

  ghost predicate StartedAt(states: seq<Life>, events: seq<Event>, slot: Slot, m: nat, end: int) {
    && m < |events| && m < |states|
    && Pending(states[m].c, slot.site, slot)
    && Marks(states[m], events[m], slot.site) && Covered(states[m], events[m], slot.site, end)
  }

  /** A running timer was running already, or the step is a mark that has just started it. */
  lemma TimerMoves(l: Life, e: Event, serving: set<NodeId>, slot: Slot)
    requires Inv(l, serving) && Fits(l, e, serving)
    requires slot in l.c.drains && slot in Step(l, e, serving).c.drains
    requires Step(l, e, serving).c.drains[slot].removeAfter.Some?
    ensures if l.c.drains[slot].removeAfter.Some?
            then l.c.drains[slot].removeAfter == Step(l, e, serving).c.drains[slot].removeAfter
            else Pending(l.c, slot.site, slot) && Marks(l, e, slot.site)
                 && Covered(l, e, slot.site, Step(l, e, serving).c.drains[slot].removeAfter.value)
  {
    StepKeepsInv(l, e, serving);
    assert TimedRight(l.c.drains[slot], l.clock);
    assert TimedRight(Step(l, e, serving).c.drains[slot], Step(l, e, serving).clock);
    if l.c.drains[slot].readyAt.Some? {
      RunningTimersStay(l, e, serving, slot);
    } else {
      TimersStartByMark(l, e, serving, slot);
    }
  }

  lemma TimerStep(states: seq<Life>, events: seq<Event>, serving: set<NodeId>, slot: Slot, k: nat)
    requires IsRun(states, events, serving) && 0 < k < |states|
    requires slot in states[k - 1].c.drains && slot in states[k].c.drains
    requires states[k].c.drains[slot].removeAfter.Some?
    ensures if states[k - 1].c.drains[slot].removeAfter.Some?
            then states[k - 1].c.drains[slot].removeAfter == states[k].c.drains[slot].removeAfter
            else StartedAt(states, events, slot, k - 1, states[k].c.drains[slot].removeAfter.value)
  {
    EveryStateIsRight(states, events, serving, k - 1);
    assert Follows(states, events, serving, k - 1);
    TimerMoves(states[k - 1], events[k - 1], serving, slot);
  }

  lemma {:induction false} RunningTimersWereMarked(states: seq<Life>, events: seq<Event>, serving: set<NodeId>,
                                                   slot: Slot, snapshot: Snapshot, i: nat, k: nat)
    requires IsRun(states, events, serving) && i <= k && HeldThrough(states, slot, snapshot, i, k)
    requires states[i].c.drains[slot].removeAfter.None? && states[k].c.drains[slot].removeAfter.Some?
    ensures exists m: nat ::
              i <= m < k && StartedAt(states, events, slot, m, states[k].c.drains[slot].removeAfter.value)
  {
    assert HeldAs(states[k - 1], slot, snapshot) && HeldAs(states[k], slot, snapshot);
    TimerStep(states, events, serving, slot, k);
    if states[k - 1].c.drains[slot].removeAfter.Some? {
      RunningTimersWereMarked(states, events, serving, slot, snapshot, i, k - 1);
    }
  }

  /** Over any run, a drain that had no timer and whose hold ends went through all of this: an
      attempt wrote to the provider, its mark came while its publication was still current, and
      the end lies at least five minutes after that mark plus each of the provider TTL, the
      publication's TTL and the TTLs of every drain then pending on the site. */
  lemma HoldsCoverEveryTTL(states: seq<Life>, events: seq<Event>, serving: set<NodeId>, slot: Slot, snapshot: Snapshot,
                           i: nat, k: nat)
    requires IsRun(states, events, serving) && i <= k && HeldThrough(states, slot, snapshot, i, k)
    requires states[i].c.drains[slot].removeAfter.None? && EndsAt(states, slot, k)
    ensures exists m: nat, w: nat :: w < m < k && i <= m
              && StartedAt(states, events, slot, m, states[k + 1].clock)
              && Wrote(states[w], events[w], events[m].marking, states[m].attempts[events[m].marking])
  {
    EveryStateIsRight(states, events, serving, k);
    assert TimedRight(states[k].c.drains[slot], states[k].clock);
    var end := states[k].c.drains[slot].removeAfter.value;
    RunningTimersWereMarked(states, events, serving, slot, snapshot, i, k);
    var m: nat :| i <= m < k && StartedAt(states, events, slot, m, end);
    MarksFollowWrites(states, events, serving, events[m].marking, m);
    var w: nat :| w < m && Wrote(states[w], events[w], events[m].marking, states[m].attempts[events[m].marking]);
    assert StartedAt(states, events, slot, m, states[k + 1].clock);
  }

  // ------------------------------------------------------------------ version discipline

  lemma StepAdvances(l: Life, e: Event, serving: set<NodeId>, node: NodeId)
    requires Fits(l, e, serving)
    ensures Advances(StateOf(l.c, node), StateOf(Step(l, e, serving).c, node))
  {
    if e.Publish? {
      var tables := Committed(l.c, e.site, e.draft, e.defaultTTL);
      if Published(l.c, e.site, e.draft, e.defaultTTL, e.fleet, e.r).Some? {
        RefreshAdvances(tables, Affected(l.c, e.site, e.draft), e.fleet, e.r, node);
      }
    } else if e.Refresh? {
      if Refreshed(l.c, e.affected, e.fleet, e.r).Some? { RefreshAdvances(l.c, e.affected, e.fleet, e.r, node); }
    } else if e.Clean? {
      if Refreshed(Without(l.c, e.due), NodesOf(e.due), e.fleet, e.r).Some? {
        RefreshAdvances(Without(l.c, e.due), NodesOf(e.due), e.fleet, e.r, node);
      }
    }
  }

  /** Over any run a node's version never goes back, and one version names one content. */
  lemma {:induction false} VersionsNameOneContent(states: seq<Life>, events: seq<Event>, serving: set<NodeId>,
                                                  node: NodeId, i: nat, j: nat)
    requires IsRun(states, events, serving) && i <= j < |states| && node in states[i].c.states
    ensures node in states[j].c.states
    ensures states[i].c.states[node].version <= states[j].c.states[node].version
    ensures states[i].c.states[node].version == states[j].c.states[node].version ==>
              states[i].c.states[node] == states[j].c.states[node]
  {
    if i < j {
      VersionsNameOneContent(states, events, serving, node, i, j - 1);
      assert Follows(states, events, serving, j - 1);
      StepAdvances(states[j - 1], events[j - 1], serving, node);
    }
  }

  // ------------------------------------------------------------- what is stored, over runs

  predicate Rendering(e: Event) { e.Publish? || e.Refresh? || e.Clean? }

  /** Some step before `j` rendered what is stored for the node from the view recorded for it. */
  ghost predicate RenderedEarlier(events: seq<Event>, l: Life, node: NodeId, j: nat)
    requires node in l.c.states
  {
    node in l.rendered
    && exists i: nat :: i < j && RenderedBy(events, i, l.c.states[node].content, node, l.rendered[node])
  }

  predicate RenderedBy(events: seq<Event>, i: nat, content: Content, node: NodeId, view: map<SiteId, Snapshot>) {
    i < |events| && Rendering(events[i]) && IsRenderingOf(content, node, view, events[i].r)
  }

  /** Every state stored in any run is a rendering of the view recorded for its node. */
  lemma {:induction false} EveryStoredStateIsRendered(states: seq<Life>, events: seq<Event>, serving: set<NodeId>,
                                                      node: NodeId, j: nat)
    requires IsRun(states, events, serving) && j < |states| && node in states[j].c.states
    ensures RenderedEarlier(events, states[j], node, j)
  {
    if j > 0 {
      assert Follows(states, events, serving, j - 1);
      RecordedViewIsStored(states[j - 1], events[j - 1], serving, node);
      if StateOf(states[j].c, node) == StateOf(states[j - 1].c, node)
         && ViewOf(states[j], node) == ViewOf(states[j - 1], node) {
        EveryStoredStateIsRendered(states, events, serving, node, j - 1);
        var i: nat :| i < j - 1
          && RenderedBy(events, i, states[j].c.states[node].content, node, states[j].rendered[node]);
        assert i < j;
      } else {
        assert RenderedBy(events, j - 1, states[j].c.states[node].content, node, states[j].rendered[node]);
      }
    }
  }
}
