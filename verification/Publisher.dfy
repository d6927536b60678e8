/**
 The publisher (publisher.go) working on the stored tables: it collects the materials the
 affected nodes may serve, renders those nodes, and commits tables and states together.
 */
module Publisher {
  import opened Common
  import opened Publication
  import opened DrainCleanup
  import Sorting

  /** A snapshot to serve: on its assigned nodes, or on the one node where it drains. */
  datatype Material = Material(site: SiteId, snapshot: Snapshot, only: Option<NodeId>)

  predicate Reaches(m: Material, node: NodeId) {
    if m.only.Some? then m.only.value == node else node in m.snapshot.nodes
  }

  predicate MaterialTouches(m: Material, affected: set<NodeId>) {
    if m.only.Some? then m.only.value in affected else Touches(m.snapshot, affected)
  }

  /** Everything the tables call for: publications not being deleted, and unclaimed drains. */
  predicate IsMaterial(c: Control, m: Material) {
    if m.only.None? then
      m.site in c.publications && !c.publications[m.site].deleting && m.snapshot == c.publications[m.site].snapshot
    else
      var slot := Slot(m.site, m.only.value);
      Held(c, slot) && m.snapshot == c.drains[slot].snapshot
  }

  ghost predicate AreMaterials(c: Control, materials: seq<Material>) {
    forall m :: m in materials <==> IsMaterial(c, m)
  }

  datatype ConfirmationResult = Confirmed | Failed | TimedOut

  predicate NeedsRetry(c: Control, results: map<NodeId, ConfirmationResult>, fleet: Fleet, node: NodeId) {
    && node in results && results[node] != Confirmed
    && node in fleet.nodes && fleet.nodes[node].status == Active
    && node in c.states && c.states[node].version >= 1 && fleet.nodes[node].applied < c.states[node].version
  }

  /** A site as a read finds it. Versions start at one, and every change of the draft takes a new one. */
  datatype SiteRow = SiteRow(deleting: bool, version: nat, draft: Snapshot)

  predicate OneDraftPerVersion(a: SiteRow, b: SiteRow) {
    a.version == b.version ==> a.draft == b.draft
  }

  predicate MayCommit(read: SiteRow, row: SiteRow, staged: set<NodeId>, upgrading: set<NodeId>) {
    !row.deleting && row.version == read.version && staged * upgrading == {}
  }

  /** The nodes whose state or confirmation a refresh touches. */
  function Staged(c: Control, affected: set<NodeId>, fleet: Fleet, r: Renderer): set<NodeId> {
    Updates(c, affected, fleet, r).Keys + Targets(c, affected, fleet, r).Keys
  }

  datatype TaskStatus = Queued | Dispatching | Applying | TaskSucceeded | TaskPartial | TaskFailed | TaskRolledBack

  /** What a retry can come to: refused, left to the task that is active already, or a new one. */
  datatype Retry = Refused | LeftToActiveTask | Retrying(targets: map<NodeId, nat>)

  /** A retry is for the failed nodes of the latest task of a site that is published as it stands. */
  predicate MayRetry(deleting: bool, published: bool, latest: Option<TaskStatus>) {
    !deleting && published && latest.Some? && (latest.value.TaskPartial? || latest.value.TaskFailed?)
  }

  lemma ReachedIsServed(c: Control, m: Material, node: NodeId)
    requires OneSnapshotPerSlot(c) && IsMaterial(c, m) && Reaches(m, node)
    ensures Serving(c, m.site, node) == Some(m.snapshot)
  {
  }

  lemma ServedIsReached(c: Control, site: SiteId, node: NodeId) returns (m: Material)
    requires Serving(c, site, node).Some?
    ensures IsMaterial(c, m) && Reaches(m, node) && m.site == site
  {
    if site in c.publications && !c.publications[site].deleting && node in c.publications[site].snapshot.nodes {
      m := Material(site, c.publications[site].snapshot, None);
    } else {
      m := Material(site, c.drains[Slot(site, node)].snapshot, Some(node));
    }
  }

  class Publisher {
    var publications: map<SiteId, SitePublication>
    var drains: map<Slot, Drain>
    var states: map<NodeId, NodeState>
    var lastPublished: nat

    constructor ()
      ensures Now() == Control(map[], map[], map[], 0)
    {
      publications, drains, states, lastPublished := map[], map[], map[], 0;
    }

    ghost function Now(): Control
      reads this
    {
      Control(publications, drains, states, lastPublished)
    }

    // -------------------------------------------------------------- collecting materials

    method PublicationMaterials(except: Option<SiteId>) returns (materials: seq<Material>)
      ensures forall m :: m in materials <==>
                m.only.None? && except != Some(m.site) && m.site in publications && !publications[m.site].deleting
                && m.snapshot == publications[m.site].snapshot
    {
      materials := [];
      var left := publications.Keys;
      while left != {}
        invariant left <= publications.Keys
        invariant forall m :: m in materials <==>
                    m.only.None? && except != Some(m.site) && m.site in publications.Keys - left
                    && !publications[m.site].deleting && m.snapshot == publications[m.site].snapshot
      {
        var site :| site in left;
        left := left - {site};
        if except != Some(site) && !publications[site].deleting {
          materials := materials + [Material(site, publications[site].snapshot, None)];
        }
      }
    }

    method DrainMaterials(excluded: set<Slot>) returns (materials: seq<Material>)
      ensures forall m :: m in materials <==>
                m.only.Some? && Slot(m.site, m.only.value) in drains && Slot(m.site, m.only.value) !in excluded
                && drains[Slot(m.site, m.only.value)].cleanup.None?
                && m.snapshot == drains[Slot(m.site, m.only.value)].snapshot
    {
      materials := [];
      var left := drains.Keys;
      while left != {}
        invariant left <= drains.Keys
        invariant forall m :: m in materials <==>
                    m.only.Some? && Slot(m.site, m.only.value) in drains.Keys - left
                    && Slot(m.site, m.only.value) !in excluded
                    && drains[Slot(m.site, m.only.value)].cleanup.None?
                    && m.snapshot == drains[Slot(m.site, m.only.value)].snapshot
      {
        var slot :| slot in left;
        left := left - {slot};
        if slot !in excluded && drains[slot].cleanup.None? {
          materials := materials + [Material(slot.site, drains[slot].snapshot, Some(slot.node))];
        }
      }
    }

    method MaterialsWithDrains(excluded: set<Slot>) returns (materials: seq<Material>)
      ensures AreMaterials(Without(Now(), excluded), materials)
    {
      var published := PublicationMaterials(None);
      var draining := DrainMaterials(excluded);
      materials := published + draining;
    }

    /** The old and new nodes of a site, the drains its draft cancels, and the new ones. */
    method PrepareDrains(site: SiteId, draft: Snapshot, defaultTTL: int)
      returns (affected: set<NodeId>, cancelled: set<Slot>, added: map<Slot, Drain>)
      ensures affected == Affected(Now(), site, draft)
      ensures cancelled == set slot | slot in drains && slot.site == site && slot.node in draft.nodes
      ensures added == NewDrains(Now(), site, draft, defaultTTL)
    {
      affected, cancelled, added := {}, {}, map[];
      for i := 0 to |draft.nodes|
        invariant affected == Elements(draft.nodes[..i])
        invariant cancelled == set slot | slot in drains && slot.site == site && slot.node in draft.nodes[..i]
      {
        affected := affected + {draft.nodes[i]};
        if Slot(site, draft.nodes[i]) in drains { cancelled := cancelled + {Slot(site, draft.nodes[i])}; }
        assert draft.nodes[..i + 1] == draft.nodes[..i] + [draft.nodes[i]];
      }
      assert draft.nodes[..|draft.nodes|] == draft.nodes;
      if site in publications {
        var previous := publications[site];
        var ttl := DrainTTL(previous, defaultTTL);
        for i := 0 to |previous.snapshot.nodes|
          invariant affected == Elements(previous.snapshot.nodes[..i]) + Elements(draft.nodes)
          invariant forall slot :: slot in added <==> slot.site == site && slot.node in previous.snapshot.nodes[..i]
                                                       && Dropped(Now(), site, draft, slot.node)
          invariant forall slot <- added :: added[slot] == Drain(previous.snapshot, ttl, None, None, None)
        {
          var node := previous.snapshot.nodes[i];
          affected := affected + {node};
          if node !in draft.nodes && Slot(site, node) !in drains {
            added := added[Slot(site, node) := Drain(previous.snapshot, ttl, None, None, None)];
          }
          assert previous.snapshot.nodes[..i + 1] == previous.snapshot.nodes[..i] + [node];
        }
        assert previous.snapshot.nodes[..|previous.snapshot.nodes|] == previous.snapshot.nodes;
      }
    }

    /** The materials the tables will call for once the draft is committed. */
    method PrepareMaterials(site: SiteId, draft: Snapshot, defaultTTL: int, cancelled: set<Slot>, added: map<Slot, Drain>)
      returns (materials: seq<Material>)
      requires OneSnapshotPerSlot(Now())
      requires cancelled == set slot | slot in drains && slot.site == site && slot.node in draft.nodes
      requires added == NewDrains(Now(), site, draft, defaultTTL)
      ensures AreMaterials(Committed(Now(), site, draft, defaultTTL), materials)
    {
      var published := PublicationMaterials(Some(site));
      var dropping: seq<Material> := [];
      var left := added.Keys;
      while left != {}
        invariant left <= added.Keys
        invariant forall m :: m in dropping <==>
                    m.only.Some? && Slot(m.site, m.only.value) in added.Keys - left
                    && m.snapshot == added[Slot(m.site, m.only.value)].snapshot
      {
        var slot :| slot in left;
        left := left - {slot};
        dropping := dropping + [Material(slot.site, added[slot].snapshot, Some(slot.node))];
      }
      var kept := DrainMaterials(cancelled);
      materials := published + [Material(site, draft, None)] + dropping + kept;
      ghost var tables := Committed(Now(), site, draft, defaultTTL);
      assert tables.drains == KeptDrains(Now(), site, draft) + added;
      forall m ensures m in materials <==> IsMaterial(tables, m) {
        if m.only.Some? {
          var slot := Slot(m.site, m.only.value);
          assert slot in added ==> slot !in drains;
        }
      }
    }

    // ------------------------------------------------------------------ rendering nodes

    /** The materials that touch the affected nodes, once their certificates are accepted. */
    method Decrypt(materials: seq<Material>, affected: set<NodeId>, r: Renderer)
      returns (ok: bool, rendered: seq<Material>)
      ensures ok == forall m <- materials :: MaterialTouches(m, affected) ==> r.certificateHolds(m.snapshot, m.only.Some?)
      ensures ok ==> forall m :: m in rendered <==> m in materials && MaterialTouches(m, affected)
    {
      ok, rendered := true, [];
      for i := 0 to |materials|
        invariant ok
        invariant forall m <- materials[..i] ::
                    MaterialTouches(m, affected) ==> r.certificateHolds(m.snapshot, m.only.Some?)
        invariant forall m :: m in rendered <==> m in materials[..i] && MaterialTouches(m, affected)
      {
        var m := materials[i];
        assert materials[..i + 1] == materials[..i] + [m];
        if MaterialTouches(m, affected) {
          if !r.certificateHolds(m.snapshot, m.only.Some?) {
            ok := false;
            return;
          }
          rendered := rendered + [m];
        }
      }
      assert materials[..|materials|] == materials;
    }

    /** The sites of one node, gathered from the materials that reach it. */
    method NodeSites(ghost tables: Control, ghost affected: set<NodeId>, rendered: seq<Material>, node: NodeId)
      returns (sites: map<SiteId, Snapshot>)
      requires OneSnapshotPerSlot(tables) && node in affected
      requires forall m :: m in rendered <==> IsMaterial(tables, m) && MaterialTouches(m, affected)
      ensures sites == View(tables, node)
    {
      sites := map[];
      for i := 0 to |rendered|
        invariant forall site <- sites :: Serving(tables, site, node) == Some(sites[site])
        invariant forall k :: 0 <= k < i && Reaches(rendered[k], node) ==> rendered[k].site in sites
      {
        if Reaches(rendered[i], node) {
          assert IsMaterial(tables, rendered[i]);
          ReachedIsServed(tables, rendered[i], node);
          sites := sites[rendered[i].site := rendered[i].snapshot];
        }
      }
      forall site | site in View(tables, node) ensures site in sites {
        var m := ServedIsReached(tables, site, node);
        assert m in rendered;
      }
    }

    method RenderNodeStateUpdates(ghost tables: Control, materials: seq<Material>, affected: set<NodeId>, fleet: Fleet,
                                  r: Renderer)
      returns (ok: bool, updates: map<NodeId, NodeState>, targets: map<NodeId, nat>)
      requires OneSnapshotPerSlot(tables) && AreMaterials(tables, materials) && tables.states == states
      ensures ok == CanRefresh(tables, affected, fleet, r)
      ensures ok ==> updates == Updates(tables, affected, fleet, r) && targets == Targets(tables, affected, fleet, r)
    {
      updates, targets := map[], map[];
      if affected * fleet.upgrading != {} { return false, updates, targets; }
      var rendered;
      ok, rendered := Decrypt(materials, affected, r);
      CertificatesOfMaterials(tables, materials, affected, r);
      if !ok { return; }
      ok, updates, targets := RenderAll(tables, affected, rendered, fleet, r);
    }

    method RenderAll(ghost tables: Control, affected: set<NodeId>, rendered: seq<Material>, fleet: Fleet, r: Renderer)
      returns (ok: bool, updates: map<NodeId, NodeState>, targets: map<NodeId, nat>)
      requires OneSnapshotPerSlot(tables) && tables.states == states
      requires forall m :: m in rendered <==> IsMaterial(tables, m) && MaterialTouches(m, affected)
      ensures ok == forall node <- fleet.nodes :: Renders(affected, fleet, node) ==> !NodeOutcome(tables, node, r).Fails?
      ensures ok ==> updates == Updates(tables, affected, fleet, r) && targets == Targets(tables, affected, fleet, r)
    {
      ok, updates, targets := true, map[], map[];
      var left := fleet.nodes.Keys;
      while left != {}
        invariant left <= fleet.nodes.Keys
        invariant forall node <- fleet.nodes :: node !in left && Renders(affected, fleet, node) ==>
                    !NodeOutcome(tables, node, r).Fails?
        invariant forall node :: node in updates <==> node in Updates(tables, affected, fleet, r) && node !in left
        invariant forall node <- updates :: updates[node] == Updates(tables, affected, fleet, r)[node]
        invariant forall node :: node in targets <==> node in Targets(tables, affected, fleet, r) && node !in left
        invariant forall node <- targets :: targets[node] == Targets(tables, affected, fleet, r)[node]
      {
        var node :| node in left;
        left := left - {node};
        if node in affected && !Retired(fleet.nodes[node]) {
          var outcome, target := NodeUpdate(tables, affected, rendered, node, fleet.nodes[node], r);
          if outcome.Fails? { return false, updates, targets; }
          if outcome.Saved? { updates := updates[node := outcome.state]; }
          if target.Some? { targets := targets[node := target.value]; }
        }
      }
      assert updates == Updates(tables, affected, fleet, r);
      assert targets == Targets(tables, affected, fleet, r);
    }

    method NodeUpdate(ghost tables: Control, ghost affected: set<NodeId>, rendered: seq<Material>, id: NodeId, node: Node,
                      r: Renderer)
      returns (outcome: Outcome, target: Option<nat>)
      requires OneSnapshotPerSlot(tables) && id in affected && tables.states == states
      requires forall m :: m in rendered <==> IsMaterial(tables, m) && MaterialTouches(m, affected)
      ensures outcome == NodeOutcome(tables, id, r)
      ensures target == TargetFor(node, outcome, StateOf(tables, id))
    {
      target := None;
      var sites := NodeSites(tables, affected, rendered, id);
      var previous := if id in states then Some(states[id]) else None;
      outcome := RenderNode(id, sites, previous, r);
      if outcome.Saved? {
        if node.status == Active { target := Some(outcome.state.version); }
      } else if outcome.Unchanged? && node.status == Active && node.applied < previous.value.version {
        target := Some(previous.value.version);
      }
    }

    method RenderNode(node: NodeId, sites: map<SiteId, Snapshot>, previous: Option<NodeState>, r: Renderer)
      returns (outcome: Outcome)
      ensures outcome == OutcomeFor(node, sites, previous, r)
      ensures outcome.Unchanged? ==> previous.Some?
    {
      var placeholder := false;
      if sites == map[] && previous.Some? && r.isTcpOnly(previous.value.content) { placeholder := true; }
      var content := r.render(node, sites, placeholder);
      if content.None? { return Fails; }
      var version := 1;
      if previous.Some? {
        if previous.value.content == content.value { return Unchanged; }
        version := previous.value.version + 1;
      }
      return Saved(NodeState(version, content.value));
    }

    // -------------------------------------------------------------------- publications

    /** Publishes the draft that was read: everything is committed at once, or nothing changes.
        `storeAnswers` is false when a read or the commit fails, or when an earlier publication
        is still active. */
    method PublishSite(site: SiteId, read: SiteRow, atCommit: SiteRow, upgrading: set<NodeId>, defaultTTL: int,
                       fleet: Fleet, r: Renderer, storeAnswers: bool)
      returns (targets: Option<map<NodeId, nat>>)
      requires OneSnapshotPerSlot(Now()) && OneDraftPerVersion(read, atCommit)
      modifies this
      ensures OneSnapshotPerSlot(Now())
      ensures targets.Some? <==>
              && !read.deleting && storeAnswers && Published(old(Now()), site, read.draft, defaultTTL, fleet, r).Some?
              && MayCommit(read, atCommit,
                           Staged(Committed(old(Now()), site, read.draft, defaultTTL),
                                  Affected(old(Now()), site, read.draft), fleet, r), upgrading)
      ensures if targets.None? then Now() == old(Now())
              else
                && Now() == Published(old(Now()), site, read.draft, defaultTTL, fleet, r).value
                && targets.value == Targets(Committed(old(Now()), site, read.draft, defaultTTL),
                                            Affected(old(Now()), site, read.draft), fleet, r)
    {
      if read.deleting || !storeAnswers { return None; }
      ghost var tables := Committed(Now(), site, read.draft, defaultTTL);
      PublishingKeepsOneSnapshotPerSlot(Now(), site, read.draft, defaultTTL);
      var affected, cancelled, added := PrepareDrains(site, read.draft, defaultTTL);
      var materials := PrepareMaterials(site, read.draft, defaultTTL, cancelled, added);
      var ok, updates, nodes := RenderNodeStateUpdates(tables, materials, affected, fleet, r);
      if !ok { return None; }
      ok := Commit(site, read, atCommit, upgrading, defaultTTL, cancelled, added, updates, nodes);
      if !ok { return None; }
      return Some(nodes);
    }

    /** One transaction: it promotes the draft of the row it finds, unless the site is being
        deleted, its draft has changed, or a node it stages is being upgraded. */
    method Commit(site: SiteId, read: SiteRow, row: SiteRow, upgrading: set<NodeId>, ghost defaultTTL: int,
                  cancelled: set<Slot>, added: map<Slot, Drain>, updates: map<NodeId, NodeState>,
                  targets: map<NodeId, nat>)
      returns (ok: bool)
      requires OneDraftPerVersion(read, row)
      requires cancelled == set slot | slot in drains && slot.site == site && slot.node in read.draft.nodes
      requires added == NewDrains(Now(), site, read.draft, defaultTTL)
      modifies this
      ensures ok == MayCommit(read, row, updates.Keys + targets.Keys, upgrading)
      ensures Now() == if ok then Committed(old(Now()), site, read.draft, defaultTTL).(states := old(states) + updates)
                       else old(Now())
    {
      if row.deleting || row.version != read.version || (updates.Keys + targets.Keys) * upgrading != {} { return false; }
      var ttl := if site in publications && publications[site].dnsTTL > 0 then publications[site].dnsTTL else 0;
      lastPublished := lastPublished + 1;
      publications := publications[site := SitePublication(row.draft, false, ttl, lastPublished)];
      states := states + updates;
      drains := drains - cancelled;
      assert drains == KeptDrains(old(Now()), site, read.draft);
      drains := drains + added;
      return true;
    }

    /** Rebuilds the given nodes from the committed publications and drains. */
    method PublishNodes(affected: set<NodeId>, fleet: Fleet, r: Renderer) returns (ok: bool)
      requires OneSnapshotPerSlot(Now())
      modifies `states
      ensures ok == Refreshed(old(Now()), affected, fleet, r).Some?
      ensures if ok then Now() == Refreshed(old(Now()), affected, fleet, r).value else Now() == old(Now())
    {
      var materials := MaterialsWithDrains({});
      assert Without(Now(), {}) == Now();
      var updates, targets;
      ok, updates, targets := RenderNodeStateUpdates(Now(), materials, affected, fleet, r);
      if ok { states := states + updates; }
    }

    method PublishAll(fleet: Fleet, r: Renderer) returns (ok: bool)
      requires OneSnapshotPerSlot(Now())
      modifies `states
      ensures ok == Rebuilt(old(Now()), fleet, r).Some?
      ensures if ok then Now() == Rebuilt(old(Now()), fleet, r).value else Now() == old(Now())
    {
      ok := PublishNodes(fleet.nodes.Keys, fleet, r);
    }

    /** The nodes of the last publication whose confirmation failed and that still lag behind
        their stored state, with the versions they must confirm now. */
    method RetryFailedPublish(deleting: bool, published: bool, latest: Option<TaskStatus>,
                              results: map<NodeId, ConfirmationResult>, fleet: Fleet, created: bool)
      returns (retry: Retry)
      ensures !retry.Refused? <==>
              && MayRetry(deleting, published, latest)
              && (forall node <- results :: results[node] != Confirmed ==> node in fleet.nodes)
              && (exists node <- results :: NeedsRetry(Now(), results, fleet, node))
              && (forall node <- results :: NeedsRetry(Now(), results, fleet, node) ==> node !in fleet.upgrading)
      ensures retry.Retrying? ==> created
      ensures retry.LeftToActiveTask? ==> !created
      ensures retry.Retrying? ==>
              && (forall node :: node in retry.targets <==> NeedsRetry(Now(), results, fleet, node))
              && (forall node <- retry.targets :: retry.targets[node] == states[node].version)
      ensures retry.Retrying? ==>
              && !deleting && published && (latest == Some(TaskPartial) || latest == Some(TaskFailed))
              && (forall node <- retry.targets ::
                    && node in results && results[node] != Confirmed && node !in fleet.upgrading
                    && fleet.nodes[node].status == Active && fleet.nodes[node].applied < states[node].version)
              && (forall node <- results ::
                    (&& results[node] != Confirmed && fleet.nodes[node].status == Active && node in states
                     && fleet.nodes[node].applied < states[node].version) ==>
                      node in retry.targets)
    {
      if deleting || !published || latest.None? || !(latest.value.TaskPartial? || latest.value.TaskFailed?) {
        return Refused;
      }
      var retried: map<NodeId, nat> := map[];
      var left := results.Keys;
      while left != {}
        invariant left <= results.Keys
        invariant forall node <- results :: node !in left && results[node] != Confirmed ==> node in fleet.nodes
        invariant forall node :: node in retried <==> node !in left && NeedsRetry(Now(), results, fleet, node)
        invariant forall node <- retried :: retried[node] == states[node].version
      {
        var node :| node in left;
        left := left - {node};
        if results[node] != Confirmed {
          if node !in fleet.nodes { return Refused; }
          if fleet.nodes[node].status == Active && node in states && states[node].version >= 1
             && fleet.nodes[node].applied < states[node].version
          {
            retried := retried[node := states[node].version];
          }
        }
      }
      if retried == map[] {
        assert forall node <- results :: node !in retried;
        return Refused;
      }
      if retried.Keys * fleet.upgrading != {} {
        var node :| node in retried.Keys * fleet.upgrading;
        assert NeedsRetry(Now(), results, fleet, node);
        return Refused;
      }
      var node :| node in retried;
      assert NeedsRetry(Now(), results, fleet, node);
      assert forall other <- retried :: other in retried.Keys;
      if !created { return LeftToActiveTask; }
      return Retrying(retried);
    }

    // ------------------------------------------------------------------ drain cleanup

    method PruneApplied(slots: set<Slot>, fleet: Fleet)
      modifies `drains
      ensures Now() == Pruned(old(Now()), slots, fleet)
    {
      var left := slots;
      while left != {}
        invariant left <= slots
        invariant forall slot :: slot in drains <==>
                    slot in old(drains) && !(slot in slots && slot !in left && old(drains)[slot].cleanup.None?
                                             && Applied(old(Now()), fleet, slot.node))
        invariant forall slot <- drains :: drains[slot] == old(drains)[slot]
      {
        var slot :| slot in left;
        left := left - {slot};
        if slot in drains && drains[slot].cleanup.None? && slot.node in fleet.nodes
           && fleet.nodes[slot.node].status == Active && slot.node in states
           && fleet.nodes[slot.node].applied >= states[slot.node].version
        {
          drains := drains - {slot};
        }
      }
    }

    /** Claims the drains and stages the states together, or does nothing. */
    method StageDrainCleanup(slots: set<Slot>, task: TaskId, updates: map<NodeId, NodeState>, targets: map<NodeId, nat>,
                             upgrading: set<NodeId>, at: int, commits: bool)
      modifies `drains, `states
      ensures Now() == if commits && MayStage(old(Now()), slots, updates.Keys + targets.Keys, upgrading, at)
                       then old(Now()).(drains := Claimed(old(drains), slots, task), states := old(states) + updates)
                       else old(Now())
    {
      if (updates.Keys + targets.Keys) * upgrading != {} { return; }
      var claimed := drains;
      var left := slots;
      while left != {}
        invariant left <= slots
        invariant forall slot <- slots :: slot !in left ==> slot in drains && IsDue(drains[slot], at)
        invariant claimed == Claimed(drains, slots - left, task)
      {
        var slot :| slot in left;
        left := left - {slot};
        if slot !in drains || !IsDue(drains[slot], at) { return; }
        claimed := claimed[slot := drains[slot].(cleanup := Some(task))];
      }
      if !commits { return; }
      assert slots - {} == slots;
      drains := claimed;
      states := states + updates;
    }

    method CleanUpSite(due: set<Slot>, at: int, task: TaskId, fleet: Fleet, r: Renderer, hurdle: Hurdle)
      requires OneSnapshotPerSlot(Now())
      modifies `drains, `states
      ensures Now() == CleanSite(old(Now()), due, at, task, fleet, r, hurdle)
      ensures OneSnapshotPerSlot(Now())
    {
      if hurdle == TaskUnavailable || hurdle == ReadFails { return; }
      var affected := NodesOf(due);
      var materials := MaterialsWithDrains(due);
      var ok, updates, targets := RenderNodeStateUpdates(Without(Now(), due), materials, affected, fleet, r);
      if !ok { return; }
      if targets == map[] {
        if hurdle != CommitFails { PruneApplied(due, fleet); }
      } else {
        StageDrainCleanup(due, task, updates, targets, Begun(hurdle), at, hurdle != CommitFails);
      }
    }

    /** The due drains on active nodes, by site. */
    method GroupDue(now: int, fleet: Fleet) returns (bySite: map<SiteId, set<Slot>>)
      ensures forall site :: site in bySite <==> DueOf(Now(), site, now, fleet) != {}
      ensures forall site <- bySite :: bySite[site] == DueOf(Now(), site, now, fleet)
    {
      bySite := map[];
      var left := drains.Keys;
      while left != {}
        invariant left <= drains.Keys
        invariant forall site <- bySite :: bySite[site] != {} && bySite[site] == DueOf(Now(), site, now, fleet) - left
        invariant forall site :: site !in bySite ==> DueOf(Now(), site, now, fleet) - left == {}
      {
        var slot :| slot in left;
        left := left - {slot};
        if IsDue(drains[slot], now) && slot.node in fleet.nodes && fleet.nodes[slot.node].status == Active {
          bySite := bySite[slot.site := (if slot.site in bySite then bySite[slot.site] else {}) + {slot}];
        }
      }
    }

    method Order(sites: set<SiteId>) returns (ordered: seq<SiteId>)
      ensures forall site :: site in ordered <==> site in sites
      ensures forall i, j :: 0 <= i < j < |ordered| ==> Sorting.Before(ordered[i], ordered[j])
    {
      var listed: seq<SiteId> := [];
      var left := sites;
      while left != {}
        invariant forall site :: site in sites <==> site in left || site in listed
        invariant forall site <- listed :: site !in left
        invariant NoDuplicates(listed)
      {
        var site :| site in left;
        left := left - {site};
        listed := listed + [site];
      }
      ordered := Sorting.Sorted(listed, Sorting.Before);
      Sorting.TextOrder();
      Sorting.TotalIsWeak(Sorting.Before);
      Sorting.SortedIsOrdered(listed, Sorting.Before);
      Sorting.SameElements(listed, ordered);
    }

    /** Visits the sites with due drains in order, each with whatever befalls it. */
    method ReconcileDrains(now: int, fleet: Fleet, r: Renderer, at: SiteId -> int, task: SiteId -> TaskId,
                           hurdle: SiteId -> Hurdle)
      returns (sites: seq<SiteId>)
      requires OneSnapshotPerSlot(Now())
      modifies `drains, `states
      ensures forall site :: site in sites <==> DueOf(old(Now()), site, now, fleet) != {}
      ensures forall i, j :: 0 <= i < j < |sites| ==> Sorting.Before(sites[i], sites[j])
      ensures Now() == CleanFrom(old(Now()), TurnsOf(sites, at, task, hurdle), old(Now()), now, fleet, r)
      ensures OneSnapshotPerSlot(Now())
    {
      var due := GroupDue(now, fleet);
      sites := Order(due.Keys);
      for i := 0 to |sites|
        invariant Now() == CleanFrom(old(Now()), TurnsOf(sites[..i], at, task, hurdle), old(Now()), now, fleet, r)
        invariant OneSnapshotPerSlot(Now())
      {
        CleanUpSite(due[sites[i]], at(sites[i]), task(sites[i]), fleet, r, hurdle(sites[i]));
        assert TurnsOf(sites[..i + 1], at, task, hurdle)[..i] == TurnsOf(sites[..i], at, task, hurdle);
      }
      assert sites[..|sites|] == sites;
    }
  }

  function TurnsOf(sites: seq<SiteId>, at: SiteId -> int, task: SiteId -> TaskId, hurdle: SiteId -> Hurdle): seq<Turn> {
    seq(|sites|, i requires 0 <= i < |sites| => Turn(sites[i], at(sites[i]), task(sites[i]), hurdle(sites[i])))
  }

  lemma CertificatesOfMaterials(tables: Control, materials: seq<Material>, affected: set<NodeId>, r: Renderer)
    requires AreMaterials(tables, materials)
    ensures (forall m <- materials :: MaterialTouches(m, affected) ==> r.certificateHolds(m.snapshot, m.only.Some?))
       <==> CertificatesHold(tables, affected, r)
  {
    if forall m <- materials :: MaterialTouches(m, affected) ==> r.certificateHolds(m.snapshot, m.only.Some?) {
      forall site | site in tables.publications && !tables.publications[site].deleting
                    && Touches(tables.publications[site].snapshot, affected)
        ensures r.certificateHolds(tables.publications[site].snapshot, false)
      {
        assert Material(site, tables.publications[site].snapshot, None) in materials;
      }
      forall slot | slot in tables.drains && tables.drains[slot].cleanup.None? && slot.node in affected
        ensures r.certificateHolds(tables.drains[slot].snapshot, true)
      {
        assert Material(slot.site, tables.drains[slot].snapshot, Some(slot.node)) in materials;
      }
    }
  }
}
