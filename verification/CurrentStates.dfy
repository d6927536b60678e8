/**
 Which nodes are stored as their publications and drains call for (publisher.go,
 site_node_drains.go), over whole runs with one renderer: every event that renders a node
 brings it up to date, and the one that can leave it behind is a cleanup task that gives up
 on a drain of it. An incremental publication equals a full rebuild just when the releases
 since then make no difference to the nodes it leaves alone.
 */
module CurrentStates {
  import opened Common
  import opened Publication
  import opened DrainCleanup
  import opened DrainLifecycle

  /** What is stored for the node is what rendering it now would give, or there is nothing to store. */
  predicate InStep(c: Control, node: NodeId, r: Renderer) {
    if node in c.states then UpToDate(c, node, r) else View(c, node) == map[]
  }

  ghost predicate OneRenderer(events: seq<Event>, r: Renderer) {
    forall e <- events :: Rendering(e) ==> e.r == r
  }

  // ------------------------------------------------------------------------- one step

  /** The event renders the node and takes effect. */
  predicate Renews(l: Life, e: Event, node: NodeId) {
    match e
    case Publish(site, draft, defaultTTL, fleet, r) =>
      Published(l.c, site, draft, defaultTTL, fleet, r).Some? && node in Affected(l.c, site, draft)
    case Refresh(affected, fleet, r) => Refreshed(l.c, affected, fleet, r).Some? && node in affected
    case Clean(_, due, now, task, fleet, r, hurdle) =>
      CleanSite(l.c, due, now, task, fleet, r, hurdle) != l.c && node in NodesOf(due)
    case _ => false
  }

  predicate ClaimedBy(c: Control, slot: Slot, task: TaskId) {
    slot in c.drains && c.drains[slot].cleanup == Some(task)
  }

  /** What a cleanup task that ends gives up on: the node serves it again. */
  function ReleasedBy(c: Control, e: Event, node: NodeId): map<SiteId, Snapshot> {
    if !e.Finish? || node in e.confirmed then map[]
    else
      map site | site in Sites(c) && ClaimedBy(c, Slot(site, node), e.finished)
               :: c.drains[Slot(site, node)].snapshot
  }

  lemma CleaningRenews(l: Life, due: set<Slot>, now: int, task: TaskId, fleet: Fleet, r: Renderer, hurdle: Hurdle,
                       node: NodeId)
    requires Stable(r) && MayClean(l.c, due, now, fleet)
    ensures var after := CleanStep(l, due, now, task, fleet, r, hurdle);
            if after.c != l.c && node in NodesOf(due) then UpToDate(after.c, node, r) else LeftAlone(l.c, after.c, node)
  {
    var after := CleanStep(l, due, now, task, fleet, r, hurdle);
    if after.c != l.c {
      if Targets(Without(l.c, due), NodesOf(due), fleet, r) == map[] {
        PruneCleans(l.c, due, fleet, r);
      } else {
        StagingCleans(l.c, due, task, fleet, r);
      }
      assert Cleaned(l.c, after.c, due, r);
    }
  }

  lemma MarkingMovesNothing(l: Life, id: AttemptId, at: int, node: NodeId)
    requires id in l.attempts && l.attempts[id].phase.Measured?
    ensures LeftAlone(l.c, MarkStep(l, id, at).c, node)
  {
    SameServing(MarkStep(l, id, at).c, l.c, node);
  }

  lemma ViewIff(c: Control, node: NodeId)
    ensures forall site :: site in View(c, node) <==> Serving(c, site, node).Some?
    ensures forall site <- View(c, node) :: Serving(c, site, node) == Some(View(c, node)[site])
  {
    forall site: SiteId ensures Serving(c, site, node).Some? ==> site in Sites(c) { }
  }

  /** A node's stored state is left alone, and its view grows by what is released. */
  predicate Grows(c: Control, after: Control, node: NodeId, released: map<SiteId, Snapshot>) {
    && StateOf(after, node) == StateOf(c, node)
    && View(after, node) == View(c, node) + released
    && View(c, node).Keys * released.Keys == {}
  }

  lemma LeftAloneGrows(c: Control, after: Control, node: NodeId)
    requires LeftAlone(c, after, node)
    ensures Grows(c, after, node, map[])
  {
    assert View(c, node) + map[] == View(c, node);
  }

  lemma FinishServes(c: Control, task: TaskId, confirmed: set<NodeId>, node: NodeId, site: SiteId)
    requires OneSnapshotPerSlot(c)
    ensures var after, released := c.(drains := AfterFinish(c.drains, task, confirmed)),
                                   ReleasedBy(c, Finish(task, confirmed), node);
            if site in released then Serving(c, site, node).None? && Serving(after, site, node) == Some(released[site])
            else Serving(after, site, node) == Serving(c, site, node)
  {
    assert Slot(site, node) in c.drains ==> site in Sites(c);
  }

  lemma IsSum<K, V>(before: map<K, V>, more: map<K, V>, now: map<K, V>)
    requires forall k :: k in now <==> k in before || k in more
    requires forall k <- more :: k !in before && now[k] == more[k]
    requires forall k <- before :: now[k] == before[k]
    ensures now == before + more && before.Keys * more.Keys == {}
  {
  }

  /** Ending a task adds the drains it gives up on to the node's view, and nothing else. */
  lemma FinishGrows(c: Control, task: TaskId, confirmed: set<NodeId>, node: NodeId)
    requires OneSnapshotPerSlot(c)
    ensures Grows(c, c.(drains := AfterFinish(c.drains, task, confirmed)), node,
                  ReleasedBy(c, Finish(task, confirmed), node))
  {
    var after := c.(drains := AfterFinish(c.drains, task, confirmed));
    var before, now, released := View(c, node), View(after, node), ReleasedBy(c, Finish(task, confirmed), node);
    ViewIff(c, node);
    ViewIff(after, node);
    forall site: SiteId
      ensures site in now <==> site in before || site in released
      ensures site in released ==> site !in before && now[site] == released[site]
      ensures site in before ==> now[site] == before[site]
    {
      FinishServes(c, task, confirmed, node, site);
    }
    IsSum(before, released, now);
  }

  lemma PublishRenews(l: Life, e: Event, serving: set<NodeId>, node: NodeId)
    requires Fits(l, e, serving) && node in serving && e.Publish? && Stable(e.r)
    ensures if Renews(l, e, node) then UpToDate(Step(l, e, serving).c, node, e.r)
            else LeftAlone(l.c, Step(l, e, serving).c, node)
  {
    if Published(l.c, e.site, e.draft, e.defaultTTL, e.fleet, e.r).Some? {
      PublishIsIncremental(l.c, e.site, e.draft, e.defaultTTL, e.fleet, e.r, node);
    }
  }

  lemma RefreshRenews(l: Life, e: Event, serving: set<NodeId>, node: NodeId)
    requires Fits(l, e, serving) && node in serving && e.Refresh? && Stable(e.r)
    ensures if Renews(l, e, node) then UpToDate(Step(l, e, serving).c, node, e.r)
            else LeftAlone(l.c, Step(l, e, serving).c, node)
  {
    if Refreshed(l.c, e.affected, e.fleet, e.r).Some? {
      RefreshBringsUpToDate(l.c, e.affected, e.fleet, e.r, node);
    }
  }

  lemma OthersRenewOrLeaveAlone(l: Life, e: Event, serving: set<NodeId>, r: Renderer, node: NodeId)
    requires Fits(l, e, serving) && node in serving && !e.Finish?
    requires Stable(r) && (Rendering(e) ==> e.r == r)
    ensures if Renews(l, e, node) then UpToDate(Step(l, e, serving).c, node, r)
            else LeftAlone(l.c, Step(l, e, serving).c, node)
  {
    match e
    case Publish(_, _, _, _, _) => PublishRenews(l, e, serving, node);
    case Refresh(_, _, _) => RefreshRenews(l, e, serving, node);
    case Clean(_, due, now, task, fleet, _, hurdle) => CleaningRenews(l, due, now, task, fleet, r, hurdle, node);
    case Mark(a, at) => MarkingMovesNothing(l, a, at, node);
    case _ =>
  }

  /** A node in service is up to date after an event that renders it; any other event leaves its
      stored state alone, and its view but for the drains that a failed cleanup gives up on. */
  lemma RenewsOrLeavesAlone(l: Life, e: Event, serving: set<NodeId>, r: Renderer, node: NodeId)
    requires OneSnapshotPerSlot(l.c) && Fits(l, e, serving) && node in serving
    requires Stable(r) && (Rendering(e) ==> e.r == r)
    ensures if Renews(l, e, node) then UpToDate(Step(l, e, serving).c, node, r)
            else Grows(l.c, Step(l, e, serving).c, node, ReleasedBy(l.c, e, node))
  {
    if e.Finish? {
      FinishGrows(l.c, e.finished, e.confirmed, node);
    } else {
      OthersRenewOrLeaveAlone(l, e, serving, r, node);
      if !Renews(l, e, node) { LeftAloneGrows(l.c, Step(l, e, serving).c, node); }
    }
  }

  // ------------------------------------------------------------------ since a rendering

  /** The state after the last event that rendered the node; 0 if none has. */
  function LastRenewal(states: seq<Life>, events: seq<Event>, node: NodeId, j: nat): (i: nat)
    requires j < |states| == |events| + 1
    ensures i <= j
  {
    if j == 0 then 0
    else if Renews(states[j - 1], events[j - 1], node) then j
    else LastRenewal(states, events, node, j - 1)
  }

  /** The drains of the node that cleanup tasks have given up on in these steps. */
  function Released(states: seq<Life>, events: seq<Event>, node: NodeId, i: nat, j: nat): map<SiteId, Snapshot>
    requires i <= j < |states| == |events| + 1
  {
    if i == j then map[]
    else Released(states, events, node, i, j - 1) + ReleasedBy(states[j - 1].c, events[j - 1], node)
  }

  /** Nothing has ever been published to the node. */
  predicate Idle(c: Control, node: NodeId) {
    && (forall site <- c.publications :: node !in c.publications[site].snapshot.nodes)
    && (forall slot <- c.drains :: slot.node != node)
    && node !in c.states
  }

  lemma IdleUntilRenewed(l: Life, e: Event, serving: set<NodeId>, node: NodeId)
    requires Inv(l, serving) && Fits(l, e, serving) && Idle(l.c, node) && !Renews(l, e, node)
    ensures Idle(Step(l, e, serving).c, node)
  {
    if e.Publish? && Published(l.c, e.site, e.draft, e.defaultTTL, e.fleet, e.r).Some? {
      forall slot | slot in Committed(l.c, e.site, e.draft, e.defaultTTL).drains ensures slot.node != node {
        DroppedNodesDrain(l.c, e.site, e.draft, e.defaultTTL, slot);
      }
    } else if e.Clean? {
      forall slot ensures slot in Step(l, e, serving).c.drains ==> slot in l.c.drains {
        CleanSiteRows(l.c, e.due, e.when, e.task, e.fleet, e.r, e.hurdle, slot);
      }
      SamePublications(l.c, e.due, e.when, e.task, e.fleet, e.r, e.hurdle);
    }
  }

  lemma SumOfSums<K, V>(at: map<K, V>, r: map<K, V>, more: map<K, V>)
    requires at.Keys * r.Keys == {} && (at + r).Keys * more.Keys == {}
    ensures (at + r) + more == at + (r + more) && at.Keys * (r + more).Keys == {}
  {
  }

  lemma GrowsMore(at: Control, c: Control, after: Control, node: NodeId, released: map<SiteId, Snapshot>,
                  more: map<SiteId, Snapshot>)
    requires Grows(at, c, node, released) && Grows(c, after, node, more)
    ensures Grows(at, after, node, released + more)
  {
    SumOfSums(View(at, node), released, more);
  }

  /** Over any run: since its last rendering a node's stored state has not moved, and its view
      has only grown by what cleanup tasks gave up on. */
  lemma {:induction false} SinceLastRenewal(states: seq<Life>, events: seq<Event>, serving: set<NodeId>, r: Renderer,
                                            node: NodeId, j: nat)
    requires IsRun(states, events, serving) && j < |states| && node in serving
    requires Stable(r) && OneRenderer(events, r)
    ensures var i := LastRenewal(states, events, node, j);
            && Grows(states[i].c, states[j].c, node, Released(states, events, node, i, j))
            && (if i > 0 then UpToDate(states[i].c, node, r) else Idle(states[j].c, node))
  {
    if j == 0 {
      LeftAloneGrows(states[0].c, states[0].c, node);
    } else {
      EveryStateIsRight(states, events, serving, j - 1);
      assert Follows(states, events, serving, j - 1);
      RenewsOrLeavesAlone(states[j - 1], events[j - 1], serving, r, node);
      if Renews(states[j - 1], events[j - 1], node) {
        LeftAloneGrows(states[j].c, states[j].c, node);
      } else {
        SinceLastRenewal(states, events, serving, r, node, j - 1);
        var i := LastRenewal(states, events, node, j - 1);
        GrowsMore(states[i].c, states[j - 1].c, states[j].c, node, Released(states, events, node, i, j - 1),
                  ReleasedBy(states[j - 1].c, events[j - 1], node));
        if i == 0 { IdleUntilRenewed(states[j - 1], events[j - 1], serving, node); }
      }
    }
  }

  /** Some drain of the node has been given up on since it was last rendered. */
  predicate Behind(states: seq<Life>, events: seq<Event>, node: NodeId, j: nat)
    requires j < |states| == |events| + 1
  {
    Released(states, events, node, LastRenewal(states, events, node, j), j) != map[]
  }

  /** Two views of a node, the later one holding more, are rendered alike. */
  predicate SameConfiguration(r: Renderer, node: NodeId, before: map<SiteId, Snapshot>, now: map<SiteId, Snapshot>,
                              tcpOnly: bool)
  {
    r.render(node, now, now == map[] && tcpOnly) == r.render(node, before, before == map[] && tcpOnly)
  }

  /** The node has been rendered, and what has been given up on since makes no difference. */
  predicate StillRight(states: seq<Life>, events: seq<Event>, r: Renderer, node: NodeId, j: nat)
    requires j < |states| == |events| + 1
  {
    var i := LastRenewal(states, events, node, j);
    && i > 0 && node in states[i].c.states
    && SameConfiguration(r, node, View(states[i].c, node),
                         View(states[i].c, node) + Released(states, events, node, i, j),
                         r.isTcpOnly(states[i].c.states[node].content))
  }

  /** Over any run, a node in service is stored as its view calls for exactly when it has never
      been published to, or the drains given up on since its last rendering make no difference. */
  lemma InStepIff(states: seq<Life>, events: seq<Event>, serving: set<NodeId>, r: Renderer, node: NodeId, j: nat)
    requires IsRun(states, events, serving) && j < |states| && node in serving
    requires Stable(r) && OneRenderer(events, r)
    ensures node in states[j].c.states <==> LastRenewal(states, events, node, j) > 0
    ensures InStep(states[j].c, node, r)
       <==> LastRenewal(states, events, node, j) == 0 || StillRight(states, events, r, node, j)
  {
    var i := LastRenewal(states, events, node, j);
    SinceLastRenewal(states, events, serving, r, node, j);
    if i == 0 {
      IdleIsUnviewed(states[j].c, node);
    } else {
      assert StateOf(states[i].c, node).Some? && StateOf(states[j].c, node) == StateOf(states[i].c, node);
    }
  }

  /** In particular when nothing has been given up on. */
  lemma InStepUnlessBehind(states: seq<Life>, events: seq<Event>, serving: set<NodeId>, r: Renderer, node: NodeId,
                           j: nat)
    requires IsRun(states, events, serving) && j < |states| && node in serving
    requires Stable(r) && OneRenderer(events, r) && !Behind(states, events, node, j)
    ensures InStep(states[j].c, node, r)
  {
    InStepIff(states, events, serving, r, node, j);
    SinceLastRenewal(states, events, serving, r, node, j);
    var i := LastRenewal(states, events, node, j);
    assert View(states[i].c, node) + map[] == View(states[i].c, node);
  }

  /** A configuration holds a fragment for each marked site it serves, and for no other. In the
      program those are the enabled HTTP sites and the enabled sites with TCP forwards. */
  ghost predicate MarksSites(r: Renderer, marked: Snapshot -> bool, fragments: Content -> set<SiteId>) {
    forall node, view, placeholder :: r.render(node, view, placeholder).Some? ==>
      fragments(r.render(node, view, placeholder).value) == MarkedSites(view, marked)
  }

  function MarkedSites(view: map<SiteId, Snapshot>, marked: Snapshot -> bool): set<SiteId> {
    set site | site in view && marked(view[site])
  }

  lemma StoredMarks(c: Control, node: NodeId, r: Renderer, marked: Snapshot -> bool, fragments: Content -> set<SiteId>)
    requires MarksSites(r, marked, fragments) && UpToDate(c, node, r)
    ensures fragments(c.states[node].content) == MarkedSites(View(c, node), marked)
  {
  }

  lemma IdleIsUnviewed(c: Control, node: NodeId)
    requires Idle(c, node)
    ensures View(c, node) == map[] && node !in c.states
  {
    ViewIff(c, node);
  }

  lemma MarkedGrowthIsFelt(c: Control, after: Control, node: NodeId, released: map<SiteId, Snapshot>, r: Renderer,
                           marked: Snapshot -> bool, fragments: Content -> set<SiteId>, site: SiteId)
    requires MarksSites(r, marked, fragments) && Grows(c, after, node, released) && UpToDate(c, node, r)
    requires site in released && marked(released[site])
    ensures !UpToDate(after, node, r)
  {
    StoredMarks(c, node, r, marked, fragments);
    if UpToDate(after, node, r) {
      StoredMarks(after, node, r, marked, fragments);
      MarksGrow(View(c, node), released, marked, site);
      assert false;
    }
  }

  lemma MarksGrow(view: map<SiteId, Snapshot>, released: map<SiteId, Snapshot>, marked: Snapshot -> bool, site: SiteId)
    requires view.Keys * released.Keys == {} && site in released && marked(released[site])
    ensures MarkedSites(view + released, marked) != MarkedSites(view, marked)
  {
    assert site in MarkedSites(view + released, marked);
    assert site !in view.Keys * released.Keys;
  }

  /** Giving up on the drain of a marked site always makes a difference. */
  lemma MarkedReleaseIsFelt(states: seq<Life>, events: seq<Event>, serving: set<NodeId>, r: Renderer,
                            marked: Snapshot -> bool, fragments: Content -> set<SiteId>, node: NodeId, j: nat,
                            site: SiteId)
    requires IsRun(states, events, serving) && j < |states| && node in serving
    requires Stable(r) && OneRenderer(events, r) && MarksSites(r, marked, fragments)
    requires site in Released(states, events, node, LastRenewal(states, events, node, j), j)
    requires marked(Released(states, events, node, LastRenewal(states, events, node, j), j)[site])
    ensures LastRenewal(states, events, node, j) > 0 && !InStep(states[j].c, node, r)
  {
    var i := LastRenewal(states, events, node, j);
    var released := Released(states, events, node, i, j);
    SinceLastRenewal(states, events, serving, r, node, j);
    assert site in View(states[j].c, node);
    if i > 0 {
      MarkedGrowthIsFelt(states[i].c, states[j].c, node, released, r, marked, fragments, site);
    } else {
      IdleIsUnviewed(states[j].c, node);
    }
  }

  // -------------------------------------------------------------- the full rebuild, over runs

  predicate Spared(c: Control, site: SiteId, draft: Snapshot, fleet: Fleet, node: NodeId) {
    node in fleet.nodes && !Retired(fleet.nodes[node]) && node !in Affected(c, site, draft)
  }

  /** At any moment of a run, and for any stable renderer, publishing a site ends in the state of
      a full rebuild exactly when every node that it leaves alone is still right. */
  lemma IncrementalIsFullOverRunsIff(states: seq<Life>, events: seq<Event>, serving: set<NodeId>, r: Renderer, j: nat,
                                     site: SiteId, draft: Snapshot, defaultTTL: int, fleet: Fleet)
    requires IsRun(states, events, serving) && j < |states|
    requires Stable(r) && OneRenderer(events, r)
    requires forall node <- fleet.nodes :: !Retired(fleet.nodes[node]) ==> node in serving
    requires Published(states[j].c, site, draft, defaultTTL, fleet, r).Some?
    requires Rebuilt(Committed(states[j].c, site, draft, defaultTTL), fleet, r).Some?
    ensures Published(states[j].c, site, draft, defaultTTL, fleet, r)
         == Rebuilt(Committed(states[j].c, site, draft, defaultTTL), fleet, r)
       <==> forall node <- fleet.nodes ::
              Spared(states[j].c, site, draft, fleet, node) ==> StillRight(states, events, r, node, j)
  {
    var c := states[j].c;
    IncrementalIsFullIff(c, site, draft, defaultTTL, fleet, r);
    forall node | node in fleet.nodes && !Retired(fleet.nodes[node])
      ensures UpToDate(c, node, r) <==> StillRight(states, events, r, node, j)
    {
      InStepIff(states, events, serving, r, node, j);
    }
    assert LeftAloneAndCurrent(c, Affected(c, site, draft), fleet, r)
      <==> forall node <- fleet.nodes ::
             Spared(c, site, draft, fleet, node) ==> StillRight(states, events, r, node, j);
  }

  /** It does when each of them has been rendered and no cleanup has given up on it since. */
  lemma IncrementalIsFullUnlessBehind(states: seq<Life>, events: seq<Event>, serving: set<NodeId>, r: Renderer, j: nat,
                                      site: SiteId, draft: Snapshot, defaultTTL: int, fleet: Fleet)
    requires IsRun(states, events, serving) && j < |states|
    requires Stable(r) && OneRenderer(events, r)
    requires forall node <- fleet.nodes :: !Retired(fleet.nodes[node]) ==> node in serving
    requires Published(states[j].c, site, draft, defaultTTL, fleet, r).Some?
    requires Rebuilt(Committed(states[j].c, site, draft, defaultTTL), fleet, r).Some?
    requires forall node <- fleet.nodes :: Spared(states[j].c, site, draft, fleet, node) ==>
               LastRenewal(states, events, node, j) > 0 && !Behind(states, events, node, j)
    ensures Published(states[j].c, site, draft, defaultTTL, fleet, r)
         == Rebuilt(Committed(states[j].c, site, draft, defaultTTL), fleet, r)
  {
    IncrementalIsFullOverRunsIff(states, events, serving, r, j, site, draft, defaultTTL, fleet);
    forall node | node in fleet.nodes && Spared(states[j].c, site, draft, fleet, node)
      ensures StillRight(states, events, r, node, j)
    {
      InStepUnlessBehind(states, events, serving, r, node, j);
      InStepIff(states, events, serving, r, node, j);
    }
  }
}
