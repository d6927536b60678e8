/**
 A run in which a cleanup task fails (site_node_drains.go): a site moves from one node to
 another, the hold ends, the old node is staged without its drain, and the task gives up.
 The node serves its drain again, on a state without it.
 */
module FailedCleanup {
  import opened Common
  import opened Publication
  import opened DrainCleanup
  import opened DrainLifecycle
  import opened CurrentStates

  /** A site that moves from one node to another, both active, under a default TTL. */
  datatype Move = Move(site: SiteId, from: NodeId, to: NodeId, material: string, ttl: int)
  {
    function Before(): Snapshot { Snapshot([from], None, material) }

    function After(): Snapshot { Snapshot([to], None, material) }

    function Left(): Slot { Slot(site, from) }

    function Nodes(): Fleet { Fleet(map[from := Node(Active, 0), to := Node(Active, 0)], {}) }

    function Serving(): set<NodeId> { {from, to} }

    /** The end of a hold that starts at zero. */
    function HoldEnd(): int { ttl * SECOND + GRACE }

    function Retained(readyAt: Option<int>, removeAfter: Option<int>, cleanup: Option<TaskId>): Drain {
      Drain(Before(), ttl, readyAt, removeAfter, cleanup)
    }

    function OldView(): map<SiteId, Snapshot> { map[site := Before()] }

    function NewView(): map<SiteId, Snapshot> { map[site := After()] }

    predicate Moves() { from != to && ttl >= DEFAULT_DNS_TTL }

    /** What the two nodes come to serve can be rendered, the certificates hold, and the old
        node's configuration shows whether it serves the site. */
    ghost predicate Smooth(r: Renderer, other: SiteId) {
      && RendersView(r, from, map[]) && RendersView(r, from, OldView())
      && RendersView(r, to, NewView()) && RendersView(r, to, NewView()[other := After()])
      && (forall placeholder :: r.render(from, map[], placeholder) != r.render(from, OldView(), false))
      && r.certificateHolds(Before(), false) && r.certificateHolds(Before(), true) && r.certificateHolds(After(), false)
    }

    predicate IsStored(l: Life, r: Renderer) {
      from in l.c.states && r.render(from, OldView(), false) == Some(l.c.states[from].content)
    }

    /** After the second publication: the node left behind holds a drain without a timer. */
    predicate HasMoved(l: Life, r: Renderer) {
      && l.c.publications == map[site := SitePublication(After(), false, 0, 2)]
      && l.c.drains == map[Left() := Retained(None, None, None)]
      && l.clock == 0 && IsStored(l, r)
    }

    /** A DNS attempt for the second publication. */
    function Attempting(phase: Phase): map<AttemptId, Attempt> {
      map[0 := Attempt(site, 2, [to], 0, phase)]
    }

    /** After the mark its hold runs, and after the cleanup it is claimed. */
    predicate IsHeld(c: Control, cleanup: Option<TaskId>) {
      && c.publications.Keys == {site} && c.publications[site].snapshot == After() && !c.publications[site].deleting
      && c.drains == map[Left() := Retained(Some(0), Some(HoldEnd()), cleanup)]
    }
  }

  predicate RendersView(r: Renderer, node: NodeId, view: map<SiteId, Snapshot>) {
    r.render(node, view, false).Some? && (view == map[] ==> r.render(node, view, true).Some?)
  }

  // ------------------------------------------------------------------- refreshes that work

  predicate CertificatesAllHold(c: Control, r: Renderer) {
    && (forall site <- c.publications :: r.certificateHolds(c.publications[site].snapshot, false))
    && (forall slot <- c.drains :: r.certificateHolds(c.drains[slot].snapshot, true))
  }

  lemma RefreshWorks(c: Control, affected: set<NodeId>, fleet: Fleet, r: Renderer)
    requires fleet.upgrading == {} && CertificatesAllHold(c, r)
    requires forall node <- fleet.nodes :: node in affected ==> RendersView(r, node, View(c, node))
    ensures CanRefresh(c, affected, fleet, r)
  {
  }

  lemma PublishSucceeds(l: Life, site: SiteId, draft: Snapshot, ttl: int, fleet: Fleet, r: Renderer, node: NodeId)
    requires Stable(r) && CanRefresh(Committed(l.c, site, draft, ttl), Affected(l.c, site, draft), fleet, r)
    requires node in Affected(l.c, site, draft) && node in fleet.nodes && !Retired(fleet.nodes[node])
    ensures var tables, after := Committed(l.c, site, draft, ttl), PublishStep(l, site, draft, ttl, fleet, r);
            && after.c == tables.(states := after.c.states) && after.attempts == l.attempts && after.clock == l.clock
            && View(after.c, node) == View(tables, node) && UpToDate(after.c, node, r)
  {
    RefreshBringsUpToDate(Committed(l.c, site, draft, ttl), Affected(l.c, site, draft), fleet, r, node);
  }

  /** A node whose only site is this one. */
  lemma OneSite(c: Control, site: SiteId, node: NodeId, snapshot: Snapshot)
    requires c.publications.Keys <= {site} && (forall slot <- c.drains :: slot.site == site)
    requires Serving(c, site, node) == Some(snapshot)
    ensures View(c, node) == map[site := snapshot]
  {
    ViewIff(c, node);
  }

  // ------------------------------------------------------------------- the two publications

  predicate Empty(l: Life) {
    && l.c.publications == map[] && l.c.drains == map[] && l.c.lastPublished == 0 && l.attempts == map[]
    && l.clock == 0
  }

  predicate FirstTables(m: Move, c: Control) {
    && c.publications == map[m.site := SitePublication(m.Before(), false, 0, 1)]
    && c.drains == map[] && c.lastPublished == 1
  }

  predicate SecondTables(m: Move, c: Control) {
    && c.publications == map[m.site := SitePublication(m.After(), false, 0, 2)]
    && c.drains == map[m.Left() := m.Retained(None, None, None)]
  }

  lemma FirstCommits(m: Move, c: Control)
    requires c.publications == map[] && c.drains == map[] && c.lastPublished == 0
    ensures FirstTables(m, Committed(c, m.site, m.Before(), m.ttl))
  {
    assert KeptDrains(c, m.site, m.Before()) + NewDrains(c, m.site, m.Before(), m.ttl) == map[];
  }

  lemma SecondCommits(m: Move, c: Control)
    requires m.Moves() && FirstTables(m, c)
    ensures SecondTables(m, Committed(c, m.site, m.After(), m.ttl))
  {
    assert m.from in m.Before().nodes && m.from !in m.After().nodes;
    assert Dropped(c, m.site, m.After(), m.from);
    assert KeptDrains(c, m.site, m.After()) == map[];
    assert NewDrains(c, m.site, m.After(), m.ttl) == map[m.Left() := m.Retained(None, None, None)];
  }

  lemma FirstViews(m: Move, c: Control)
    requires m.Moves() && FirstTables(m, c)
    ensures View(c, m.from) == m.OldView()
  {
    assert m.from in m.Before().nodes;
    OneSite(c, m.site, m.from, m.Before());
  }

  lemma SecondViews(m: Move, c: Control)
    requires m.Moves() && SecondTables(m, c)
    ensures View(c, m.from) == m.OldView() && View(c, m.to) == m.NewView()
  {
    assert m.from !in m.After().nodes && m.to in m.After().nodes;
    OneSite(c, m.site, m.from, m.Before());
    OneSite(c, m.site, m.to, m.After());
  }

  lemma FirstIsPublished(m: Move, l: Life, r: Renderer, other: SiteId)
    requires Stable(r) && m.Smooth(r, other) && m.Moves() && Empty(l)
    ensures var after := PublishStep(l, m.site, m.Before(), m.ttl, m.Nodes(), r);
            FirstTables(m, after.c) && after.attempts == l.attempts && after.clock == l.clock
  {
    var tables := Committed(l.c, m.site, m.Before(), m.ttl);
    FirstCommits(m, l.c);
    FirstViews(m, tables);
    assert m.from in m.Before().nodes && Affected(l.c, m.site, m.Before()) == {m.from};
    RefreshWorks(tables, {m.from}, m.Nodes(), r);
    PublishSucceeds(l, m.site, m.Before(), m.ttl, m.Nodes(), r, m.from);
  }

  lemma SecondMoves(m: Move, l: Life, r: Renderer, other: SiteId)
    requires Stable(r) && m.Smooth(r, other) && m.Moves()
    requires FirstTables(m, l.c) && l.clock == 0
    ensures var after := PublishStep(l, m.site, m.After(), m.ttl, m.Nodes(), r);
            m.HasMoved(after, r) && after.attempts == l.attempts
  {
    var tables := Committed(l.c, m.site, m.After(), m.ttl);
    SecondCommits(m, l.c);
    SecondViews(m, tables);
    assert m.from in PreviouslyAssigned(l.c, m.site) && m.to in m.After().nodes;
    assert Affected(l.c, m.site, m.After()) == {m.from, m.to};
    RefreshWorks(tables, {m.from, m.to}, m.Nodes(), r);
    PublishSucceeds(l, m.site, m.After(), m.ttl, m.Nodes(), r, m.from);
  }

  // ------------------------------------------------------------------------ the DNS attempt

  lemma AttemptFits(m: Move, l: Life, r: Renderer)
    requires m.HasMoved(l, r) && l.attempts == map[]
    ensures Fits(l, Load(0, m.site), m.Serving())
    ensures m.HasMoved(Step(l, Load(0, m.site), m.Serving()), r)
    ensures Step(l, Load(0, m.site), m.Serving()).attempts == m.Attempting(Loaded)
  {
  }

  lemma CheckFits(m: Move, l: Life, r: Renderer)
    requires m.HasMoved(l, r) && l.attempts == m.Attempting(Loaded)
    ensures Fits(l, Check(0), m.Serving())
    ensures m.HasMoved(Step(l, Check(0), m.Serving()), r)
    ensures Step(l, Check(0), m.Serving()).attempts == m.Attempting(Checked)
  {
  }

  lemma WriteFits(m: Move, l: Life, r: Renderer)
    requires m.HasMoved(l, r) && l.attempts == m.Attempting(Checked)
    ensures Fits(l, Write(0, {m.to}), m.Serving())
    ensures m.HasMoved(Step(l, Write(0, {m.to}), m.Serving()), r)
    ensures Step(l, Write(0, {m.to}), m.Serving()).attempts == m.Attempting(Written)
  {
    assert m.to in l.attempts[0].nodes;
  }

  lemma MeasureFits(m: Move, l: Life, r: Renderer)
    requires m.HasMoved(l, r) && l.attempts == m.Attempting(Written) && m.ttl >= DEFAULT_DNS_TTL
    ensures Fits(l, Measure(0, m.ttl, [m.Left()]), m.Serving())
    ensures m.HasMoved(Step(l, Measure(0, m.ttl, [m.Left()]), m.Serving()), r)
    ensures Step(l, Measure(0, m.ttl, [m.Left()]), m.Serving()).attempts == m.Attempting(Measured(m.ttl, m.ttl))
  {
    assert IsListing(l.c, m.site, [m.Left()]);
    var listed := Listed(l.c, [m.Left()]);
    assert listed == [m.Retained(None, None, None)];
    assert LongestTTL(m.ttl, listed) == m.ttl;
  }

  lemma MarkFits(m: Move, l: Life, r: Renderer)
    requires m.HasMoved(l, r) && l.attempts == m.Attempting(Measured(m.ttl, m.ttl))
    ensures Fits(l, Mark(0, 0), m.Serving())
    ensures var after := Step(l, Mark(0, 0), m.Serving());
            m.IsHeld(after.c, None) && m.IsStored(after, r) && after.clock == 0
  {
  }

  // ------------------------------------------------------------------------- whole runs

  ghost predicate Reaches(states: seq<Life>, events: seq<Event>, serving: set<NodeId>, r: Renderer, l: Life) {
    IsRun(states, events, serving) && OneRenderer(events, r) && states[|states| - 1] == l
  }

  /** Some run with this renderer ends here. */
  ghost predicate Reachable(l: Life, serving: set<NodeId>, r: Renderer) {
    exists states, events :: Reaches(states, events, serving, r, l)
  }

  lemma StepReaches(l: Life, e: Event, serving: set<NodeId>, r: Renderer)
    requires Reachable(l, serving, r) && Fits(l, e, serving) && (Rendering(e) ==> e.r == r)
    ensures Reachable(Step(l, e, serving), serving, r)
  {
    var states, events :| Reaches(states, events, serving, r, l);
    var longer, more := states + [Step(l, e, serving)], events + [e];
    forall i: nat | i < |more| ensures Follows(longer, more, serving, i) {
      if i < |events| { assert Follows(states, events, serving, i); }
    }
    assert Reaches(longer, more, serving, r, Step(l, e, serving));
  }

  lemma ReachableIsRight(l: Life, serving: set<NodeId>, r: Renderer)
    requires Reachable(l, serving, r)
    ensures Inv(l, serving)
  {
    var states, events :| Reaches(states, events, serving, r, l);
    EveryStateIsRight(states, events, serving, |events|);
  }

  lemma StartReaches(serving: set<NodeId>, r: Renderer)
    ensures Reachable(START, serving, r)
  {
    assert Reaches([START], [], serving, r, START);
  }

  lemma MoveReaches(m: Move, r: Renderer, other: SiteId) returns (l: Life)
    requires Stable(r) && m.Smooth(r, other) && m.Moves()
    ensures Reachable(l, m.Serving(), r) && m.HasMoved(l, r) && l.attempts == map[]
  {
    StartReaches(m.Serving(), r);
    FirstIsPublished(m, START, r, other);
    StepReaches(START, Publish(m.site, m.Before(), m.ttl, m.Nodes(), r), m.Serving(), r);
    l := PublishStep(START, m.site, m.Before(), m.ttl, m.Nodes(), r);
    SecondMoves(m, l, r, other);
    StepReaches(l, Publish(m.site, m.After(), m.ttl, m.Nodes(), r), m.Serving(), r);
    l := PublishStep(l, m.site, m.After(), m.ttl, m.Nodes(), r);
  }

  lemma HoldReaches(m: Move, r: Renderer, other: SiteId) returns (l: Life)
    requires Stable(r) && m.Smooth(r, other) && m.Moves()
    ensures Reachable(l, m.Serving(), r) && m.IsHeld(l.c, None) && m.IsStored(l, r) && l.clock == 0
  {
    l := MoveReaches(m, r, other);
    AttemptFits(m, l, r);
    StepReaches(l, Load(0, m.site), m.Serving(), r);
    l := Step(l, Load(0, m.site), m.Serving());
    CheckFits(m, l, r);
    StepReaches(l, Check(0), m.Serving(), r);
    l := Step(l, Check(0), m.Serving());
    WriteFits(m, l, r);
    StepReaches(l, Write(0, {m.to}), m.Serving(), r);
    l := Step(l, Write(0, {m.to}), m.Serving());
    MeasureFits(m, l, r);
    StepReaches(l, Measure(0, m.ttl, [m.Left()]), m.Serving(), r);
    l := Step(l, Measure(0, m.ttl, [m.Left()]), m.Serving());
    MarkFits(m, l, r);
    StepReaches(l, Mark(0, 0), m.Serving(), r);
    l := Step(l, Mark(0, 0), m.Serving());
  }

  /** Without its drain the node serves nothing, which is not what is stored. */
  lemma MustBeStaged(m: Move, l: Life, r: Renderer, other: SiteId)
    requires m.Smooth(r, other) && m.Moves() && m.IsHeld(l.c, None) && m.IsStored(l, r)
    ensures CanRefresh(Without(l.c, {m.Left()}), {m.from}, m.Nodes(), r)
    ensures m.from in Targets(Without(l.c, {m.Left()}), {m.from}, m.Nodes(), r)
  {
    var tables := Without(l.c, {m.Left()});
    assert View(tables, m.from) == map[] by {
      assert m.from !in m.After().nodes;
      ViewIff(tables, m.from);
    }
    RefreshWorks(tables, {m.from}, m.Nodes(), r);
    assert NodeOutcome(tables, m.from, r).Saved?;
    assert Renders({m.from}, m.Nodes(), m.from);
  }

  lemma Claims(c: Control, due: set<Slot>, at: int, task: TaskId, fleet: Fleet, r: Renderer)
    requires CanRefresh(Without(c, due), NodesOf(due), fleet, r)
    requires Targets(Without(c, due), NodesOf(due), fleet, r) != map[]
    requires forall slot <- due :: slot in c.drains && IsDue(c.drains[slot], at)
    ensures CleanSite(c, due, at, task, fleet, r, Clear).drains == Claimed(c.drains, due, task)
    ensures CleanSite(c, due, at, task, fleet, r, Clear).publications == c.publications
  {
  }

  lemma ClaimedDrains(m: Move)
    ensures var held := map[m.Left() := m.Retained(Some(0), Some(m.HoldEnd()), None)];
            && Claimed(held, {m.Left()}, 0) == map[m.Left() := m.Retained(Some(0), Some(m.HoldEnd()), Some(0))]
            && Claimed(held, {m.Left()}, 0) != held
    ensures NodesOf({m.Left()}) == {m.from}
  {
    var held := map[m.Left() := m.Retained(Some(0), Some(m.HoldEnd()), None)];
    assert Claimed(held, {m.Left()}, 0)[m.Left()] != held[m.Left()];
    assert m.Left().node == m.from;
  }

  /** When the hold is over the node is staged without its drain, which the cleanup claims. */
  lemma CleanupClaims(m: Move, l: Life, r: Renderer, other: SiteId)
    requires Stable(r) && m.Smooth(r, other) && m.Moves() && m.IsHeld(l.c, None) && m.IsStored(l, r)
    ensures MayClean(l.c, {m.Left()}, m.HoldEnd(), m.Nodes())
    ensures var after := CleanStep(l, {m.Left()}, m.HoldEnd(), 0, m.Nodes(), r, Clear);
            m.IsHeld(after.c, Some(0)) && UpToDate(after.c, m.from, r) && View(after.c, m.from) == map[]
  {
    ClaimedDrains(m);
    MustBeStaged(m, l, r, other);
    Claims(l.c, {m.Left()}, m.HoldEnd(), 0, m.Nodes(), r);
    CleaningRenews(l, {m.Left()}, m.HoldEnd(), 0, m.Nodes(), r, Clear, m.from);
    ClaimedView(m, CleanStep(l, {m.Left()}, m.HoldEnd(), 0, m.Nodes(), r, Clear).c);
  }

  lemma ClaimedView(m: Move, c: Control)
    requires m.Moves() && m.IsHeld(c, Some(0))
    ensures View(c, m.from) == map[]
  {
    assert m.from !in m.After().nodes;
    ViewIff(c, m.from);
  }

  lemma HeldViews(m: Move, c: Control)
    requires m.Moves() && m.IsHeld(c, None)
    ensures View(c, m.from) == m.OldView() && View(c, m.to) == m.NewView()
  {
    assert m.from !in m.After().nodes && m.to in m.After().nodes;
    OneSite(c, m.site, m.from, m.Before());
    OneSite(c, m.site, m.to, m.After());
  }

  /** The node is served its drain again when the task gives up, on a state without it. */
  lemma GivingUpLeavesBehind(m: Move, l: Life, r: Renderer, other: SiteId)
    requires m.Smooth(r, other) && m.Moves()
    requires m.IsHeld(l.c, Some(0)) && UpToDate(l.c, m.from, r) && View(l.c, m.from) == map[]
    ensures var after := Step(l, Finish(0, {}), m.Serving());
            m.IsHeld(after.c, None) && m.from in after.c.states && !UpToDate(after.c, m.from, r)
  {
    var after := Step(l, Finish(0, {}), m.Serving());
    assert after.c.drains == map[m.Left() := m.Retained(Some(0), Some(m.HoldEnd()), None)];
    HeldViews(m, after.c);
  }

  lemma CleanReaches(l: Life, due: set<Slot>, site: SiteId, now: int, task: TaskId, fleet: Fleet, r: Renderer,
                     serving: set<NodeId>)
    requires Reachable(l, serving, r) && l.clock <= now && ServesAll(fleet, serving)
    requires MayClean(l.c, due, now, fleet) && forall slot <- due :: slot.site == site
    ensures Reachable(CleanStep(l, due, now, task, fleet, r, Clear), serving, r)
  {
    StepReaches(l, Clean(site, due, now, task, fleet, r, Clear), serving, r);
  }

  lemma BothServe(m: Move)
    ensures ServesAll(m.Nodes(), m.Serving())
  {
  }

  lemma ClaimReaches(m: Move, r: Renderer, other: SiteId) returns (l: Life)
    requires Stable(r) && m.Smooth(r, other) && m.Moves()
    ensures Reachable(l, m.Serving(), r) && m.IsHeld(l.c, Some(0))
    ensures UpToDate(l.c, m.from, r) && View(l.c, m.from) == map[]
  {
    var held := HoldReaches(m, r, other);
    BothServe(m);
    CleanupClaims(m, held, r, other);
    CleanReaches(held, {m.Left()}, m.site, m.HoldEnd(), 0, m.Nodes(), r, m.Serving());
    l := CleanStep(held, {m.Left()}, m.HoldEnd(), 0, m.Nodes(), r, Clear);
  }

  lemma FailureReaches(m: Move, r: Renderer, other: SiteId) returns (l: Life)
    requires Stable(r) && m.Smooth(r, other) && m.Moves()
    ensures Reachable(l, m.Serving(), r) && m.IsHeld(l.c, None)
    ensures m.from in l.c.states && !UpToDate(l.c, m.from, r)
  {
    var claimed := ClaimReaches(m, r, other);
    GivingUpLeavesBehind(m, claimed, r, other);
    StepReaches(claimed, Finish(0, {}), m.Serving(), r);
    l := Step(claimed, Finish(0, {}), m.Serving());
  }

  // ------------------------------------------------------------- publishing from there

  /** A publication of any site on the new node, after the failure. */
  lemma NextTables(m: Move, c: Control, other: SiteId)
    requires m.Moves() && m.IsHeld(c, None)
    ensures var tables := Committed(c, other, m.After(), m.ttl);
            && tables.drains == c.drains && tables.publications.Keys == {m.site, other}
            && (forall site <- tables.publications ::
                  tables.publications[site].snapshot == m.After() && !tables.publications[site].deleting)
    ensures Affected(c, other, m.After()) == {m.to}
  {
    assert m.to in m.After().nodes && m.from !in m.After().nodes;
    assert KeptDrains(c, other, m.After()) == c.drains;
    assert NewDrains(c, other, m.After(), m.ttl) == map[];
    assert c.drains + map[] == c.drains;
  }

  lemma NextViews(m: Move, c: Control, other: SiteId)
    requires m.Moves() && c.drains == map[m.Left() := m.Retained(Some(0), Some(m.HoldEnd()), None)]
    requires c.publications.Keys == {m.site, other}
    requires forall site <- c.publications ::
               c.publications[site].snapshot == m.After() && !c.publications[site].deleting
    ensures View(c, m.from) == m.OldView() && View(c, m.to) == m.NewView()[other := m.After()]
  {
    assert m.to in m.After().nodes && m.from !in m.After().nodes;
    ViewIff(c, m.from);
    ViewIff(c, m.to);
    forall site: SiteId ensures Serving(c, site, m.from) == if site == m.site then Some(m.Before()) else None { }
  }

  lemma NextWorks(m: Move, c: Control, r: Renderer, other: SiteId)
    requires m.Smooth(r, other) && m.Moves() && m.IsHeld(c, None)
    ensures Published(c, other, m.After(), m.ttl, m.Nodes(), r).Some?
    ensures Rebuilt(Committed(c, other, m.After(), m.ttl), m.Nodes(), r).Some?
  {
    var tables := Committed(c, other, m.After(), m.ttl);
    NextTables(m, c, other);
    NextViews(m, tables, other);
    RefreshWorks(tables, {m.to}, m.Nodes(), r);
    RefreshWorks(tables, m.Nodes().nodes.Keys, m.Nodes(), r);
  }

  /** For any site that moves from one active node to another, and any stable renderer that can
      render what the two nodes come to serve and shows the site, there is a run from the start
      that ends with the old node in service but not up to date: the hold ends, the node is staged
      without its drain, and the cleanup task fails. From there, publishing any site on the new
      node alone succeeds, a full rebuild succeeds too, and they differ. */
  lemma FailedCleanupLeavesBehind(m: Move, r: Renderer, other: SiteId) returns (l: Life)
    requires Stable(r) && m.Smooth(r, other) && m.Moves()
    ensures Reachable(l, m.Serving(), r) && m.from in l.c.states && !UpToDate(l.c, m.from, r)
    ensures Published(l.c, other, m.After(), m.ttl, m.Nodes(), r).Some?
    ensures Rebuilt(Committed(l.c, other, m.After(), m.ttl), m.Nodes(), r).Some?
    ensures Published(l.c, other, m.After(), m.ttl, m.Nodes(), r)
         != Rebuilt(Committed(l.c, other, m.After(), m.ttl), m.Nodes(), r)
  {
    l := FailureReaches(m, r, other);
    NextTables(m, l.c, other);
    NextWorks(m, l.c, r, other);
    IncrementalIsFullIff(l.c, other, m.After(), m.ttl, m.Nodes(), r);
    assert m.from in m.Nodes().nodes && m.from !in {m.to};
  }

  // --------------------------------------------------------------- a renderer of that kind

  predicate Enabled(snapshot: Snapshot) { snapshot.material != "disabled" }

  /** Renders the enabled sites of this history, and refuses any others. */
  function Sample(m: Move, other: SiteId): Renderer {
    Renderer((node, view, placeholder) => SampleContent(m, other, view, placeholder), content => content == "tcp only",
             (snapshot, expired) => true)
  }

  function SampleContent(m: Move, other: SiteId, view: map<SiteId, Snapshot>, placeholder: bool): Option<Content> {
    var sites := MarkedSites(view, Enabled);
    if sites == {} then Some(if placeholder && view == map[] then "tcp only" else "no sites")
    else if sites == {m.site} then Some("the site")
    else if sites == {m.site, other} then Some("both sites")
    else None
  }

  function SampleFragments(m: Move, other: SiteId): Content -> set<SiteId> {
    content => if content == "the site" then {m.site} else if content == "both sites" then {m.site, other} else {}
  }

  lemma SampleIsStable(m: Move, other: SiteId)
    ensures Stable(Sample(m, other))
  {
    assert MarkedSites(map[], Enabled) == {};
  }

  lemma SampleMarks(m: Move, other: SiteId)
    ensures MarksSites(Sample(m, other), Enabled, SampleFragments(m, other))
  {
    forall view, placeholder | SampleContent(m, other, view, placeholder).Some?
      ensures SampleFragments(m, other)(SampleContent(m, other, view, placeholder).value) == MarkedSites(view, Enabled)
    {
    }
  }

  lemma SampleRenders(m: Move, other: SiteId)
    requires m.material != "disabled"
    ensures SampleContent(m, other, m.OldView(), false) == Some("the site")
    ensures SampleContent(m, other, m.NewView(), false) == Some("the site")
    ensures SampleContent(m, other, m.NewView()[other := m.After()], false).Some?
    ensures forall placeholder :: SampleContent(m, other, map[], placeholder).Some?
    ensures forall placeholder :: SampleContent(m, other, map[], placeholder) != Some("the site")
  {
    assert MarkedSites(map[], Enabled) == {};
    assert MarkedSites(m.OldView(), Enabled) == {m.site};
    assert MarkedSites(m.NewView(), Enabled) == {m.site};
    assert MarkedSites(m.NewView()[other := m.After()], Enabled) == {m.site, other};
  }

  /** It is stable, marks exactly the enabled sites, and renders all that the run needs. */
  lemma SampleIsSmooth(m: Move, other: SiteId)
    requires m.material != "disabled"
    ensures Stable(Sample(m, other)) && m.Smooth(Sample(m, other), other)
    ensures MarksSites(Sample(m, other), Enabled, SampleFragments(m, other))
  {
    SampleIsStable(m, other);
    SampleMarks(m, other);
    SampleRenders(m, other);
  }

  /** Giving up on the drain of a disabled site makes no difference to this renderer. */
  lemma DisabledReleaseIsNotFelt(m: Move, other: SiteId, node: NodeId, view: map<SiteId, Snapshot>,
                                 released: map<SiteId, Snapshot>, tcpOnly: bool)
    requires view != map[] && view.Keys * released.Keys == {} && forall site <- released :: !Enabled(released[site])
    ensures SameConfiguration(Sample(m, other), node, view, view + released, tcpOnly)
  {
    var both := view + released;
    forall site: SiteId ensures site in MarkedSites(both, Enabled) <==> site in MarkedSites(view, Enabled) {
      assert site in view && site in released ==> site in view.Keys * released.Keys;
    }
    assert MarkedSites(both, Enabled) == MarkedSites(view, Enabled);
    var some :| some in view;
    assert some in both;
  }
}
