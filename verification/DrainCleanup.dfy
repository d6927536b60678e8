/**
 Removing drains whose hold has ended (publisher.go, site_node_drains.go): site by site,
 a cleanup re-renders the nodes of the due drains without them and claims those drains
 for a task. A claimed drain is no longer served; its row goes once the edge confirms.
 */
module DrainCleanup {
  import opened Common
  import opened Publication

  /** What can go wrong for one site: another cleanup is active or cannot be queued, the drains
      cannot be read, an upgrade has begun by the final transaction, or that fails. */
  datatype Hurdle = Clear | TaskUnavailable | ReadFails | UpgradesBegan(nodes: set<NodeId>) | CommitFails

  predicate IsDue(drain: Drain, now: int) {
    drain.removeAfter.Some? && drain.removeAfter.value <= now && drain.cleanup.None?
  }

  /** The due drains of a site, on active nodes only: an inactive node cannot confirm. */
  function DueOf(c: Control, site: SiteId, now: int, fleet: Fleet): set<Slot> {
    set slot | slot in c.drains && slot.site == site && IsDue(c.drains[slot], now)
               && slot.node in fleet.nodes && fleet.nodes[slot.node].status == Active
  }

  function NodesOf(slots: set<Slot>): set<NodeId> {
    set slot | slot in slots :: slot.node
  }

  function Without(c: Control, slots: set<Slot>): Control {
    c.(drains := c.drains - slots)
  }

  function Claimed(drains: map<Slot, Drain>, slots: set<Slot>, task: TaskId): map<Slot, Drain> {
    map slot | slot in drains ::
      if slot in slots then drains[slot].(cleanup := Some(task)) else drains[slot]
  }

  /** Whether the edge already applied a node's stored state. */
  predicate Applied(c: Control, fleet: Fleet, node: NodeId) {
    && node in fleet.nodes && fleet.nodes[node].status == Active
    && node in c.states && fleet.nodes[node].applied >= c.states[node].version
  }

  /** Deletes the rows whose node already runs a state without them. */
  function Pruned(c: Control, slots: set<Slot>, fleet: Fleet): Control {
    c.(drains := map slot | slot in c.drains
                            && !(slot in slots && c.drains[slot].cleanup.None? && Applied(c, fleet, slot.node))
                          :: c.drains[slot])
  }

  function Begun(hurdle: Hurdle): set<NodeId> {
    if hurdle.UpgradesBegan? then hurdle.nodes else {}
  }

  /** The final transaction's own checks: nothing it stages is being upgraded, and every drain
      is still unclaimed and due at its time. */
  predicate MayStage(c: Control, due: set<Slot>, staged: set<NodeId>, upgrading: set<NodeId>, at: int) {
    staged * upgrading == {} && forall slot <- due :: slot in c.drains && IsDue(c.drains[slot], at)
  }

  /** One site's turn, committed at the time `at`. */
  function CleanSite(c: Control, due: set<Slot>, at: int, task: TaskId, fleet: Fleet, r: Renderer, hurdle: Hurdle)
    : Control
  {
    var tables, affected := Without(c, due), NodesOf(due);
    if hurdle == TaskUnavailable || hurdle == ReadFails || !CanRefresh(tables, affected, fleet, r) then c
    else if Targets(tables, affected, fleet, r) == map[] then
      if hurdle == CommitFails then c else Pruned(c, due, fleet)
    else if hurdle == CommitFails
            || !MayStage(c, due, Updates(tables, affected, fleet, r).Keys + Targets(tables, affected, fleet, r).Keys,
                         Begun(hurdle), at)
    then c
    else c.(drains := Claimed(c.drains, due, task), states := c.states + Updates(tables, affected, fleet, r))
  }

  datatype Turn = Turn(site: SiteId, at: int, task: TaskId, hurdle: Hurdle)

  /** Every site's turn, over the drains that were due when the round began. */
  function CleanFrom(c: Control, turns: seq<Turn>, start: Control, now: int, fleet: Fleet, r: Renderer): Control {
    if turns == [] then c
    else
      var before := CleanFrom(c, turns[..|turns| - 1], start, now, fleet, r);
      var turn := turns[|turns| - 1];
      CleanSite(before, DueOf(start, turn.site, now, fleet), turn.at, turn.task, fleet, r, turn.hurdle)
  }

  // ----------------------------------------------------- claimed drains never come back

  /** A drain still stored and not claimed. */
  predicate Held(c: Control, slot: Slot) {
    slot in c.drains && c.drains[slot].cleanup.None?
  }

  /** What the round has done so far: a drain only leaves when its hold had ended by the start of
      the round and its node is active; a node that lost one is stored without it; everything else
      is served as before. */
  ghost predicate Progress(start: Control, c: Control, now: int, fleet: Fleet, r: Renderer) {
    && c.publications == start.publications
    && (forall slot <- c.drains :: slot in start.drains && c.drains[slot].snapshot == start.drains[slot].snapshot)
    && (forall slot <- start.drains :: Held(c, slot) ==> c.drains[slot] == start.drains[slot])
    && (forall slot <- start.drains ::
          Held(start, slot) && !Held(c, slot) ==>
            && start.drains[slot].removeAfter.Some? && start.drains[slot].removeAfter.value <= now
            && slot.node in fleet.nodes && fleet.nodes[slot.node].status == Active
            && UpToDate(c, slot.node, r))
    && (forall slot <- start.drains :: Held(c, slot) ==> Held(start, slot))
  }

  lemma SlotServing(c: Control, d: Control, node: NodeId)
    requires c.publications == d.publications
    requires forall slot: Slot :: slot.node == node ==> Held(c, slot) == Held(d, slot)
    requires forall slot: Slot :: slot.node == node && Held(c, slot) && Held(d, slot) ==>
               c.drains[slot].snapshot == d.drains[slot].snapshot
    ensures View(c, node) == View(d, node)
  {
    forall site: SiteId ensures Serving(c, site, node) == Serving(d, site, node) {
      assert Held(c, Slot(site, node)) == Held(d, Slot(site, node));
    }
    SameServing(c, d, node);
  }

  /** A staged site is served without its due drains, and its nodes are stored that way. */
  lemma StagedWithoutDue(c: Control, due: set<Slot>, task: TaskId, fleet: Fleet, r: Renderer, node: NodeId)
    requires Stable(r) && CanRefresh(Without(c, due), NodesOf(due), fleet, r)
    requires forall slot <- due :: slot.node in fleet.nodes && fleet.nodes[slot.node].status == Active
    ensures var staged := c.(drains := Claimed(c.drains, due, task),
                             states := c.states + Updates(Without(c, due), NodesOf(due), fleet, r));
            && View(staged, node) == View(Without(c, due), node)
            && (node in NodesOf(due) ==> UpToDate(staged, node, r))
            && (node !in NodesOf(due) ==>
                  StateOf(staged, node) == StateOf(c, node) && View(staged, node) == View(c, node))
  {
    var tables := Without(c, due);
    var staged := c.(drains := Claimed(c.drains, due, task),
                     states := c.states + Updates(tables, NodesOf(due), fleet, r));
    SlotServing(staged, tables, node);
    RefreshBringsUpToDate(tables, NodesOf(due), fleet, r, node);
    if node !in NodesOf(due) { SlotServing(staged, c, node); }
  }

  /** Without a target every affected node is already stored, and runs, without the due drains. */
  lemma NoTargetsMeansApplied(c: Control, due: set<Slot>, fleet: Fleet, r: Renderer, slot: Slot)
    requires CanRefresh(Without(c, due), NodesOf(due), fleet, r)
    requires Targets(Without(c, due), NodesOf(due), fleet, r) == map[]
    requires slot in due && slot.node in fleet.nodes && fleet.nodes[slot.node].status == Active
    ensures Applied(c, fleet, slot.node) && UpToDate(Without(c, due), slot.node, r)
  {
    var tables := Without(c, due);
    assert slot.node in NodesOf(due);
    assert Renders(NodesOf(due), fleet, slot.node);
    assert !NodeOutcome(tables, slot.node, r).Fails?;
    assert slot.node !in Targets(tables, NodesOf(due), fleet, r);
  }

  lemma PrunedWithoutDue(c: Control, due: set<Slot>, fleet: Fleet, r: Renderer, node: NodeId)
    requires CanRefresh(Without(c, due), NodesOf(due), fleet, r)
    requires Targets(Without(c, due), NodesOf(due), fleet, r) == map[]
    requires forall slot <- due :: slot.node in fleet.nodes && fleet.nodes[slot.node].status == Active
    ensures View(Pruned(c, due, fleet), node) == View(Without(c, due), node)
    ensures forall slot <- due :: !Held(Pruned(c, due, fleet), slot)
    ensures node in NodesOf(due) ==> UpToDate(Pruned(c, due, fleet), node, r)
    ensures node !in NodesOf(due) ==> View(Pruned(c, due, fleet), node) == View(c, node)
  {
    forall slot | slot in due ensures !Held(Pruned(c, due, fleet), slot) {
      NoTargetsMeansApplied(c, due, fleet, r, slot);
    }
    SlotServing(Pruned(c, due, fleet), Without(c, due), node);
    if node in NodesOf(due) {
      var slot :| slot in due && slot.node == node;
      NoTargetsMeansApplied(c, due, fleet, r, slot);
    } else {
      SlotServing(Pruned(c, due, fleet), c, node);
    }
  }

  /** What a site's turn does when it takes effect. */
  ghost predicate Cleaned(c: Control, after: Control, due: set<Slot>, r: Renderer) {
    && after.publications == c.publications
    && (forall slot :: Held(after, slot) <==> Held(c, slot) && slot !in due)
    && (forall slot <- after.drains :: slot in c.drains && after.drains[slot].snapshot == c.drains[slot].snapshot)
    && (forall slot <- after.drains :: slot !in due ==> after.drains[slot] == c.drains[slot])
    && (forall node :: if node in NodesOf(due) then UpToDate(after, node, r) else LeftAlone(c, after, node))
  }

  predicate LeftAlone(c: Control, after: Control, node: NodeId) {
    View(after, node) == View(c, node) && StateOf(after, node) == StateOf(c, node)
  }

  lemma PruneCleans(c: Control, due: set<Slot>, fleet: Fleet, r: Renderer)
    requires Stable(r) && CanRefresh(Without(c, due), NodesOf(due), fleet, r)
    requires Targets(Without(c, due), NodesOf(due), fleet, r) == map[]
    requires forall slot <- due :: slot.node in fleet.nodes && fleet.nodes[slot.node].status == Active
    ensures Cleaned(c, Pruned(c, due, fleet), due, r)
  {
    var after := Pruned(c, due, fleet);
    forall node ensures if node in NodesOf(due) then UpToDate(after, node, r) else LeftAlone(c, after, node) {
      PrunedWithoutDue(c, due, fleet, r, node);
    }
    forall slot ensures Held(after, slot) <==> Held(c, slot) && slot !in due {
      PrunedWithoutDue(c, due, fleet, r, slot.node);
    }
  }

  lemma StagingCleans(c: Control, due: set<Slot>, task: TaskId, fleet: Fleet, r: Renderer)
    requires Stable(r) && CanRefresh(Without(c, due), NodesOf(due), fleet, r)
    requires forall slot <- due :: slot.node in fleet.nodes && fleet.nodes[slot.node].status == Active
    ensures Cleaned(c, c.(drains := Claimed(c.drains, due, task),
                          states := c.states + Updates(Without(c, due), NodesOf(due), fleet, r)), due, r)
  {
    var after := c.(drains := Claimed(c.drains, due, task),
                    states := c.states + Updates(Without(c, due), NodesOf(due), fleet, r));
    forall node ensures if node in NodesOf(due) then UpToDate(after, node, r) else LeftAlone(c, after, node) {
      StagedWithoutDue(c, due, task, fleet, r, node);
    }
  }

  lemma CleanedProgresses(start: Control, c: Control, after: Control, site: SiteId, now: int, fleet: Fleet, r: Renderer)
    requires Progress(start, c, now, fleet, r) && Cleaned(c, after, DueOf(start, site, now, fleet), r)
    ensures Progress(start, after, now, fleet, r)
  {
    var due := DueOf(start, site, now, fleet);
    forall slot | slot in start.drains && Held(start, slot) && !Held(after, slot)
      ensures start.drains[slot].removeAfter.Some? && start.drains[slot].removeAfter.value <= now
      ensures slot.node in fleet.nodes && fleet.nodes[slot.node].status == Active
      ensures UpToDate(after, slot.node, r)
    {
      if slot in due {
        assert slot.node in NodesOf(due);
      } else {
        assert !Held(c, slot);
        if slot.node !in NodesOf(due) { assert LeftAlone(c, after, slot.node); }
      }
    }
  }

  lemma CleanSiteProgresses(start: Control, c: Control, site: SiteId, at: int, task: TaskId, now: int, fleet: Fleet,
                            r: Renderer, hurdle: Hurdle)
    requires Stable(r) && Progress(start, c, now, fleet, r)
    ensures Progress(start, CleanSite(c, DueOf(start, site, now, fleet), at, task, fleet, r, hurdle), now, fleet, r)
  {
    var due := DueOf(start, site, now, fleet);
    var after := CleanSite(c, due, at, task, fleet, r, hurdle);
    if after != c {
      if Targets(Without(c, due), NodesOf(due), fleet, r) == map[] {
        PruneCleans(c, due, fleet, r);
      } else {
        StagingCleans(c, due, task, fleet, r);
      }
      CleanedProgresses(start, c, after, site, now, fleet, r);
    }
  }

  /** Whatever the turns and their failures: a drain that was claimed or removed stays out
      of its node's stored state, only due drains leave, and every other one is served. */
  lemma {:induction false} ClaimedNeverComeBack(start: Control, turns: seq<Turn>, now: int, fleet: Fleet, r: Renderer)
    requires Stable(r)
    ensures Progress(start, CleanFrom(start, turns, start, now, fleet, r), now, fleet, r)
  {
    if turns != [] {
      var turn := turns[|turns| - 1];
      ClaimedNeverComeBack(start, turns[..|turns| - 1], now, fleet, r);
      CleanSiteProgresses(start, CleanFrom(start, turns[..|turns| - 1], start, now, fleet, r), turn.site, turn.at,
                          turn.task, now, fleet, r, turn.hurdle);
    }
  }

  // ---------------------------------------------------------------- what one turn does

  /** Whatever a turn was asked to clean up, it claims for its own task only rows that nobody has
      claimed and whose hold has ended by its commit, on nodes not being upgraded; and it deletes
      only rows that nobody has claimed, on active nodes that have applied their stored version. */
  lemma TurnTouchesOnly(c: Control, due: set<Slot>, at: int, task: TaskId, fleet: Fleet, r: Renderer, hurdle: Hurdle,
                        slot: Slot)
    requires slot in c.drains
    requires forall s <- due :: s.node in fleet.nodes && fleet.nodes[s.node].status == Active
    ensures var after := CleanSite(c, due, at, task, fleet, r, hurdle);
            if slot !in after.drains then
              && slot in due && c.drains[slot].cleanup.None? && !hurdle.CommitFails?
              && slot.node in c.states && c.states[slot.node].version <= fleet.nodes[slot.node].applied
            else if after.drains[slot] != c.drains[slot] then
              && slot in due && after.drains[slot] == c.drains[slot].(cleanup := Some(task))
              && c.drains[slot].cleanup.None?
              && c.drains[slot].removeAfter.Some? && c.drains[slot].removeAfter.value <= at
              && slot.node !in fleet.upgrading && (hurdle.Clear? || hurdle.UpgradesBegan?)
            else true
  {
    var after := CleanSite(c, due, at, task, fleet, r, hurdle);
    var tables, affected := Without(c, due), NodesOf(due);
    if after != c {
      assert slot in due ==> slot.node in affected;
      assert slot.node in affected && slot.node in fleet.upgrading ==> slot.node in affected * fleet.upgrading;
      if Targets(tables, affected, fleet, r) == map[] {
        assert after == Pruned(c, due, fleet);
      } else {
        assert after.drains == Claimed(c.drains, due, task);
      }
    }
  }

  /** A turn stores only states of nodes it was asked about, none of them being upgraded. */
  lemma TurnStoresOnly(c: Control, due: set<Slot>, at: int, task: TaskId, fleet: Fleet, r: Renderer, hurdle: Hurdle,
                       node: NodeId)
    ensures var after := CleanSite(c, due, at, task, fleet, r, hurdle);
            StateOf(after, node) == StateOf(c, node)
            || (&& (exists slot <- due :: slot.node == node) && node !in fleet.upgrading
                && (hurdle.Clear? || (hurdle.UpgradesBegan? && node !in hurdle.nodes)))
  {
    var tables, affected := Without(c, due), NodesOf(due);
    var updates := Updates(tables, affected, fleet, r);
    if node in updates {
      assert node in affected;
      assert node in fleet.upgrading ==> node in affected * fleet.upgrading;
      var staged := updates.Keys + Targets(tables, affected, fleet, r).Keys;
      assert forall nodes :: node in nodes ==> node in staged * nodes;
    } else {
      assert StateOf(c.(states := c.states + updates), node) == StateOf(c, node);
    }
  }

  /** Every node of these drains is stored without them, and has applied that. */
  predicate RunsWithout(c: Control, due: set<Slot>, fleet: Fleet, r: Renderer) {
    forall slot <- due :: slot.node in fleet.nodes ==>
      && UpToDate(Without(c, due), slot.node, r)
      && slot.node in c.states && c.states[slot.node].version <= fleet.nodes[slot.node].applied
  }

  lemma NoTargetsIff(c: Control, due: set<Slot>, fleet: Fleet, r: Renderer)
    requires CanRefresh(Without(c, due), NodesOf(due), fleet, r)
    requires forall slot <- due :: slot.node in fleet.nodes && fleet.nodes[slot.node].status == Active
    ensures Targets(Without(c, due), NodesOf(due), fleet, r) == map[] <==> RunsWithout(c, due, fleet, r)
  {
    var tables, affected := Without(c, due), NodesOf(due);
    if Targets(tables, affected, fleet, r) == map[] {
      forall slot | slot in due ensures Applied(c, fleet, slot.node) && UpToDate(tables, slot.node, r) {
        NoTargetsMeansApplied(c, due, fleet, r, slot);
      }
    } else {
      var node :| node in Targets(tables, affected, fleet, r);
      var slot :| slot in due && slot.node == node;
      assert StateOf(tables, node) == StateOf(c, node);
    }
  }

  lemma ClearTurn(c: Control, due: set<Slot>, at: int, task: TaskId, fleet: Fleet, r: Renderer)
    requires forall slot <- due :: slot.node in fleet.nodes && fleet.nodes[slot.node].status == Active
    requires forall slot <- due :: slot in c.drains && IsDue(c.drains[slot], at)
    requires CanRefresh(Without(c, due), NodesOf(due), fleet, r)
    ensures CleanSite(c, due, at, task, fleet, r, Clear)
         == if RunsWithout(c, due, fleet, r) then Pruned(c, due, fleet)
            else c.(drains := Claimed(c.drains, due, task),
                    states := c.states + Updates(Without(c, due), NodesOf(due), fleet, r))
  {
    NoTargetsIff(c, due, fleet, r);
  }

  /** With nothing in the way, no drain of the site whose hold has ended is left to serve. If every
      node concerned already runs without them all, their rows go; otherwise each one on an active
      node is claimed for the task. */
  lemma ClearTurnLeavesNothingDue(c: Control, site: SiteId, now: int, at: int, task: TaskId, fleet: Fleet, r: Renderer,
                                  slot: Slot)
    requires slot in c.drains && slot.site == site && c.drains[slot].cleanup.None?
    requires c.drains[slot].removeAfter.Some? && c.drains[slot].removeAfter.value <= now <= at
    requires slot.node in fleet.nodes && fleet.nodes[slot.node].status == Active
    requires CanRefresh(Without(c, DueOf(c, site, now, fleet)), NodesOf(DueOf(c, site, now, fleet)), fleet, r)
    ensures var after := CleanSite(c, DueOf(c, site, now, fleet), at, task, fleet, r, Clear);
            if RunsWithout(c, DueOf(c, site, now, fleet), fleet, r) then slot !in after.drains
            else slot in after.drains && after.drains[slot].cleanup == Some(task)
  {
    var due := DueOf(c, site, now, fleet);
    assert slot in due;
    ClearTurn(c, due, at, task, fleet, r);
  }
}
