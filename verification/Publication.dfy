/**
 Publishing (publisher.go, publication.go, site_node_drains.go): the committed
 publications and drains, what each node must serve because of them, and what one
 publication changes.

 Rendering a node's configuration is an uninterpreted function of the node and of the
 snapshot it serves for each site.
 */
module Publication {
  import opened Common

  type NodeId = string
  type SiteId = string
  type Content = string
  type TaskId = nat

  /** A frozen site: its primary and backup nodes, its own TTL, and the rest (configuration
      and certificate). */
  datatype Snapshot = Snapshot(nodes: seq<NodeId>, dnsTTL: Option<int>, material: string)

  /** The committed snapshot of a site and the TTL last accepted by the DNS provider. */
  datatype SitePublication = SitePublication(snapshot: Snapshot, deleting: bool, dnsTTL: int, publishedAt: nat)

  datatype Slot = Slot(site: SiteId, node: NodeId)

  /** A dropped node's retained snapshot. At most one is stored for a slot. */
  datatype Drain = Drain(snapshot: Snapshot, ttl: int, readyAt: Option<int>, removeAfter: Option<int>,
                         cleanup: Option<TaskId>)

  datatype NodeState = NodeState(version: nat, content: Content)

  datatype Control = Control(
    publications: map<SiteId, SitePublication>,
    drains: map<Slot, Drain>,
    states: map<NodeId, NodeState>,
    lastPublished: nat)

  datatype NodeStatus = Pending | Active | Draining | Revoked | Uninstalling | Uninstalled

  datatype Node = Node(status: NodeStatus, applied: nat)

  datatype Fleet = Fleet(nodes: map<NodeId, Node>, upgrading: set<NodeId>)

  predicate Retired(node: Node) { node.status in {Revoked, Uninstalling, Uninstalled} }

  /** The renderer, the test for a configuration without HTTP sites, and the certificate check
      (drains accept an expired certificate). */
  datatype Renderer = Renderer(
    render: (NodeId, map<SiteId, Snapshot>, bool) -> Option<Content>,
    isTcpOnly: Content -> bool,
    certificateHolds: (Snapshot, bool) -> bool)

  // -------------------------------------------------------------- what a node serves

  function Serving(c: Control, site: SiteId, node: NodeId): Option<Snapshot> {
    if site in c.publications && !c.publications[site].deleting && node in c.publications[site].snapshot.nodes
    then Some(c.publications[site].snapshot)
    else if Slot(site, node) in c.drains && c.drains[Slot(site, node)].cleanup.None?
    then Some(c.drains[Slot(site, node)].snapshot)
    else None
  }

  function Sites(c: Control): set<SiteId> {
    c.publications.Keys + set slot | slot in c.drains :: slot.site
  }

  /** The one snapshot a node serves for each of its sites. */
  function View(c: Control, node: NodeId): map<SiteId, Snapshot> {
    map site | site in Sites(c) && Serving(c, site, node).Some? :: Serving(c, site, node).value
  }

  /** No node holds a drain of a site that its publication assigns to it. */
  ghost predicate OneSnapshotPerSlot(c: Control) {
    forall slot <- c.drains ::
      slot.site in c.publications ==> slot.node !in c.publications[slot.site].snapshot.nodes
  }

  // ------------------------------------------------------------ rendering node states

  datatype Outcome = Fails | Unchanged | Saved(state: NodeState)

  function StateOf(c: Control, node: NodeId): Option<NodeState> {
    if node in c.states then Some(c.states[node]) else None
  }

  /** What rendering a node gives: a new version only when the content differs. A node left
      without sites keeps serving only TCP if that is what it did. */
  function OutcomeFor(node: NodeId, view: map<SiteId, Snapshot>, previous: Option<NodeState>, r: Renderer): Outcome {
    var placeholder := view == map[] && previous.Some? && r.isTcpOnly(previous.value.content);
    match r.render(node, view, placeholder)
    case None => Fails
    case Some(content) =>
      if previous.None? then Saved(NodeState(1, content))
      else if previous.value.content == content then Unchanged
      else Saved(NodeState(previous.value.version + 1, content))
  }

  function NodeOutcome(c: Control, node: NodeId, r: Renderer): Outcome {
    OutcomeFor(node, View(c, node), StateOf(c, node), r)
  }

  predicate Renders(affected: set<NodeId>, fleet: Fleet, node: NodeId) {
    node in affected && node in fleet.nodes && !Retired(fleet.nodes[node])
  }

  predicate Touches(snapshot: Snapshot, affected: set<NodeId>) {
    exists node <- snapshot.nodes :: node in affected
  }

  predicate CertificatesHold(c: Control, affected: set<NodeId>, r: Renderer) {
    && (forall site <- c.publications ::
          !c.publications[site].deleting && Touches(c.publications[site].snapshot, affected) ==>
            r.certificateHolds(c.publications[site].snapshot, false))
    && (forall slot <- c.drains ::
          c.drains[slot].cleanup.None? && slot.node in affected ==>
            r.certificateHolds(c.drains[slot].snapshot, true))
  }

  predicate CanRefresh(c: Control, affected: set<NodeId>, fleet: Fleet, r: Renderer) {
    && affected * fleet.upgrading == {}
    && CertificatesHold(c, affected, r)
    && forall node <- fleet.nodes :: Renders(affected, fleet, node) ==> !NodeOutcome(c, node, r).Fails?
  }

  function Updates(c: Control, affected: set<NodeId>, fleet: Fleet, r: Renderer): map<NodeId, NodeState> {
    map node | node in fleet.nodes && Renders(affected, fleet, node) && NodeOutcome(c, node, r).Saved?
             :: NodeOutcome(c, node, r).state
  }

  /** The version an edge must confirm, if any: a new one, or one it has not applied yet. */
  function TargetFor(node: Node, outcome: Outcome, previous: Option<NodeState>): Option<nat> {
    if node.status != Active then None
    else if outcome.Saved? then Some(outcome.state.version)
    else if outcome.Unchanged? && previous.Some? && node.applied < previous.value.version
    then Some(previous.value.version)
    else None
  }

  function Targets(c: Control, affected: set<NodeId>, fleet: Fleet, r: Renderer): map<NodeId, nat> {
    map node | node in fleet.nodes && Renders(affected, fleet, node)
               && TargetFor(fleet.nodes[node], NodeOutcome(c, node, r), StateOf(c, node)).Some?
             :: TargetFor(fleet.nodes[node], NodeOutcome(c, node, r), StateOf(c, node)).value
  }

  /** The control state after re-rendering the affected nodes for these publications and
      drains; nothing at all happens when one of them cannot be rendered. */
  function Refreshed(c: Control, affected: set<NodeId>, fleet: Fleet, r: Renderer): Option<Control> {
    if CanRefresh(c, affected, fleet, r) then Some(c.(states := c.states + Updates(c, affected, fleet, r))) else None
  }

  /** The full rebuild. */
  function Rebuilt(c: Control, fleet: Fleet, r: Renderer): Option<Control> {
    Refreshed(c, fleet.nodes.Keys, fleet, r)
  }

  // ------------------------------------------------------------------ one publication

  const DEFAULT_DNS_TTL: int := 60

  function Max(a: int, b: int): int { if a < b then b else a }

  /** The longest TTL an answer for the previous publication can have. */
  function DrainTTL(previous: SitePublication, defaultTTL: int): (ttl: int)
    ensures ttl >= 1 && ttl >= previous.dnsTTL && (previous.dnsTTL < 1 ==> ttl >= 60)
    ensures if previous.snapshot.dnsTTL.Some? && previous.snapshot.dnsTTL.value > 0
            then ttl >= previous.snapshot.dnsTTL.value else ttl >= defaultTTL
    // And no longer than one of those.
    ensures || ttl == previous.dnsTTL || (previous.dnsTTL < 1 && ttl == 60)
            || (if previous.snapshot.dnsTTL.Some? && previous.snapshot.dnsTTL.value > 0
                then ttl == previous.snapshot.dnsTTL.value else ttl == defaultTTL)
  {
    var known := if previous.dnsTTL < 1 then DEFAULT_DNS_TTL else previous.dnsTTL;
    var own := previous.snapshot.dnsTTL;
    Max(known, if own.Some? && own.value > 0 then own.value else defaultTTL)
  }

  function PreviouslyAssigned(c: Control, site: SiteId): seq<NodeId> {
    if site in c.publications then c.publications[site].snapshot.nodes else []
  }

  function Affected(c: Control, site: SiteId, draft: Snapshot): set<NodeId> {
    Elements(PreviouslyAssigned(c, site)) + Elements(draft.nodes)
  }

  /** Dropped nodes that hold no drain of the site yet. */
  predicate Dropped(c: Control, site: SiteId, draft: Snapshot, node: NodeId) {
    node in PreviouslyAssigned(c, site) && node !in draft.nodes && Slot(site, node) !in c.drains
  }

  function NewDrains(c: Control, site: SiteId, draft: Snapshot, defaultTTL: int): map<Slot, Drain> {
    if site !in c.publications then map[]
    else
      var previous := c.publications[site];
      map node | node in previous.snapshot.nodes && Dropped(c, site, draft, node)
               :: Slot(site, node) := Drain(previous.snapshot, DrainTTL(previous, defaultTTL), None, None, None)
  }

  function KeptDrains(c: Control, site: SiteId, draft: Snapshot): map<Slot, Drain> {
    map slot | slot in c.drains && !(slot.site == site && slot.node in draft.nodes) :: c.drains[slot]
  }

  /** The committed tables: the draft becomes the publication, drains on its nodes are
      cancelled, and each dropped node keeps what it served. */
  function Committed(c: Control, site: SiteId, draft: Snapshot, defaultTTL: int): Control {
    var ttl := if site in c.publications && c.publications[site].dnsTTL > 0 then c.publications[site].dnsTTL else 0;
    c.(publications := c.publications[site := SitePublication(draft, false, ttl, c.lastPublished + 1)],
       drains := KeptDrains(c, site, draft) + NewDrains(c, site, draft, defaultTTL),
       lastPublished := c.lastPublished + 1)
  }

  function Published(c: Control, site: SiteId, draft: Snapshot, defaultTTL: int, fleet: Fleet, r: Renderer)
    : Option<Control>
  {
    Refreshed(Committed(c, site, draft, defaultTTL), Affected(c, site, draft), fleet, r)
  }

  // ------------------------------------------------------------ drains and assignments

  lemma PublishingKeepsOneSnapshotPerSlot(c: Control, site: SiteId, draft: Snapshot, defaultTTL: int)
    requires OneSnapshotPerSlot(c)
    ensures OneSnapshotPerSlot(Committed(c, site, draft, defaultTTL))
  {
  }

  /** A dropped node gets exactly one drain, holding the previous snapshot unclaimed; a
      node of the draft holds none; every other drain is untouched. */
  lemma DroppedNodesDrain(c: Control, site: SiteId, draft: Snapshot, defaultTTL: int, slot: Slot)
    requires OneSnapshotPerSlot(c)
    ensures var after := Committed(c, site, draft, defaultTTL);
            if slot.site != site then slot in after.drains <==> slot in c.drains
            else slot in after.drains <==>
                 slot.node !in draft.nodes && (slot in c.drains || slot.node in PreviouslyAssigned(c, site))
    ensures var after := Committed(c, site, draft, defaultTTL);
            slot in after.drains ==>
              if slot in c.drains then after.drains[slot] == c.drains[slot]
              else after.drains[slot].snapshot == c.publications[site].snapshot && after.drains[slot].cleanup.None?
                   && after.drains[slot].readyAt.None?
  {
  }

  /** A dropped node goes on serving exactly what it served. */
  lemma DroppedNodesKeepServing(c: Control, site: SiteId, draft: Snapshot, defaultTTL: int, node: NodeId)
    requires OneSnapshotPerSlot(c)
    requires site in c.publications && !c.publications[site].deleting
    requires node in c.publications[site].snapshot.nodes && node !in draft.nodes
    ensures View(Committed(c, site, draft, defaultTTL), node) == View(c, node)
  {
    var after := Committed(c, site, draft, defaultTTL);
    DroppedNodesDrain(c, site, draft, defaultTTL, Slot(site, node));
    forall other: SiteId ensures Serving(after, other, node) == Serving(c, other, node) {
      if other != site {
        ServingFrame(c, site, draft, defaultTTL, other, node);
      } else {
        assert Slot(site, node) !in c.drains;
      }
    }
    SameServing(c, after, node);
  }

  lemma ServingFrame(c: Control, site: SiteId, draft: Snapshot, defaultTTL: int, other: SiteId, node: NodeId)
    requires other != site
    ensures Serving(Committed(c, site, draft, defaultTTL), other, node) == Serving(c, other, node)
  {
    assert Slot(other, node) !in NewDrains(c, site, draft, defaultTTL);
  }

  lemma ServesIff(c: Control, site: SiteId, node: NodeId)
    ensures site in View(c, node) <==> Serving(c, site, node).Some?
  {
    assert Slot(site, node) in c.drains ==> site in Sites(c);
  }

  lemma SameServing(c: Control, d: Control, node: NodeId)
    requires forall site :: Serving(c, site, node) == Serving(d, site, node)
    ensures View(c, node) == View(d, node)
  {
    forall site: SiteId ensures site in View(c, node) <==> site in View(d, node) {
      ServesIff(c, site, node);
      ServesIff(d, site, node);
    }
  }

  // ------------------------------------------------- incremental equals full rebuild

  /** A renderer whose configuration for no sites keeps the TCP-only form it was asked for. */
  ghost predicate Stable(r: Renderer) {
    forall node, placeholder :: r.render(node, map[], placeholder).Some? ==>
      r.isTcpOnly(r.render(node, map[], placeholder).value) == placeholder
  }

  /** A node whose stored state is what rendering it now would give. */
  predicate UpToDate(c: Control, node: NodeId, r: Renderer) {
    NodeOutcome(c, node, r).Unchanged?
  }

  /** A publication leaves the view of every node outside the old and new assignment alone. */
  lemma UnaffectedView(c: Control, site: SiteId, draft: Snapshot, defaultTTL: int, node: NodeId)
    requires node !in Affected(c, site, draft)
    ensures View(Committed(c, site, draft, defaultTTL), node) == View(c, node)
  {
    var after := Committed(c, site, draft, defaultTTL);
    assert node !in PreviouslyAssigned(c, site) && node !in draft.nodes;
    forall other: SiteId ensures Serving(after, other, node) == Serving(c, other, node) {
      if other != site {
        ServingFrame(c, site, draft, defaultTTL, other, node);
      } else {
        assert Slot(site, node) !in NewDrains(c, site, draft, defaultTTL);
      }
    }
    SameServing(c, after, node);
  }

  /** Views do not depend on the stored states. */
  lemma ViewIgnoresStates(c: Control, states: map<NodeId, NodeState>, node: NodeId)
    ensures View(c.(states := states), node) == View(c, node)
  {
    SameServing(c, c.(states := states), node);
  }

  /** After a refresh every affected node in service is up to date, and no other state moved. */
  lemma RefreshBringsUpToDate(c: Control, affected: set<NodeId>, fleet: Fleet, r: Renderer, node: NodeId)
    requires Stable(r) && Refreshed(c, affected, fleet, r).Some?
    ensures var after := Refreshed(c, affected, fleet, r).value;
            && View(after, node) == View(c, node)
            && (Renders(affected, fleet, node) ==> UpToDate(after, node, r))
            && (!Renders(affected, fleet, node) ==> StateOf(after, node) == StateOf(c, node))
  {
    var after := Refreshed(c, affected, fleet, r).value;
    ViewIgnoresStates(c, after.states, node);
    assert Renders(affected, fleet, node) ==> !NodeOutcome(c, node, r).Fails?;
  }

  /** What a refresh leaves stored for a node in scope is the rendering of its view. */
  lemma RefreshStoresTheView(c: Control, affected: set<NodeId>, fleet: Fleet, r: Renderer, node: NodeId)
    requires Refreshed(c, affected, fleet, r).Some? && Renders(affected, fleet, node)
    ensures node in Refreshed(c, affected, fleet, r).value.states
    ensures IsRenderingOf(Refreshed(c, affected, fleet, r).value.states[node].content, node, View(c, node), r)
  {
    assert !NodeOutcome(c, node, r).Fails?;
    var after := Refreshed(c, affected, fleet, r).value;
    assert r.render(node, View(c, node), true) == Some(after.states[node].content)
        || r.render(node, View(c, node), false) == Some(after.states[node].content);
  }

  predicate IsRenderingOf(content: Content, node: NodeId, view: map<SiteId, Snapshot>, r: Renderer) {
    r.render(node, view, true) == Some(content) || r.render(node, view, false) == Some(content)
  }

  /** Publishing one site touches only its old and new nodes, and gives each of those in
      service exactly what the committed tables call for. */
  lemma PublishIsIncremental(c: Control, site: SiteId, draft: Snapshot, defaultTTL: int, fleet: Fleet, r: Renderer,
                             node: NodeId)
    requires Stable(r) && Published(c, site, draft, defaultTTL, fleet, r).Some?
    ensures var after := Published(c, site, draft, defaultTTL, fleet, r).value;
            if node in Affected(c, site, draft)
            then node in fleet.nodes && !Retired(fleet.nodes[node]) ==> UpToDate(after, node, r)
            else View(after, node) == View(c, node) && StateOf(after, node) == StateOf(c, node)
  {
    RefreshBringsUpToDate(Committed(c, site, draft, defaultTTL), Affected(c, site, draft), fleet, r, node);
    if node !in Affected(c, site, draft) { UnaffectedView(c, site, draft, defaultTTL, node); }
  }

  predicate LeftAloneAndCurrent(c: Control, affected: set<NodeId>, fleet: Fleet, r: Renderer) {
    forall node <- fleet.nodes :: !Retired(fleet.nodes[node]) && node !in affected ==> UpToDate(c, node, r)
  }

  /** A refresh moves exactly the states in scope that were not up to date. */
  lemma RefreshMovesIff(c: Control, affected: set<NodeId>, fleet: Fleet, r: Renderer, node: NodeId)
    requires Refreshed(c, affected, fleet, r).Some?
    ensures StateOf(Refreshed(c, affected, fleet, r).value, node) != StateOf(c, node)
       <==> Renders(affected, fleet, node) && !UpToDate(c, node, r)
    ensures Renders(affected, fleet, node) && !UpToDate(c, node, r) ==>
              StateOf(Refreshed(c, affected, fleet, r).value, node) == Some(NodeOutcome(c, node, r).state)
  {
    assert Renders(affected, fleet, node) ==> !NodeOutcome(c, node, r).Fails?;
  }

  lemma LargerRefreshIff(c: Control, fewer: set<NodeId>, more: set<NodeId>, fleet: Fleet, r: Renderer)
    requires fewer <= more
    requires Refreshed(c, fewer, fleet, r).Some? && Refreshed(c, more, fleet, r).Some?
    ensures Refreshed(c, fewer, fleet, r) == Refreshed(c, more, fleet, r)
       <==> forall node <- fleet.nodes :: Renders(more, fleet, node) && node !in fewer ==> UpToDate(c, node, r)
  {
    var part, full := Refreshed(c, fewer, fleet, r).value, Refreshed(c, more, fleet, r).value;
    forall node ensures StateOf(part, node) == StateOf(full, node)
                   <==> !(Renders(more, fleet, node) && node !in fewer && !UpToDate(c, node, r))
    {
      RefreshMovesIff(c, fewer, fleet, r, node);
      RefreshMovesIff(c, more, fleet, r, node);
    }
    SameStatesIff(part.states, full.states);
  }

  lemma SameStatesIff(a: map<NodeId, NodeState>, b: map<NodeId, NodeState>)
    ensures a == b <==> forall node :: (node in a <==> node in b) && (node in a && node in b ==> a[node] == b[node])
  {
  }

  /** The incremental publication ends in the state of a full rebuild of the committed
      tables exactly when the nodes it left alone were up to date. */
  lemma IncrementalIsFullIff(c: Control, site: SiteId, draft: Snapshot, defaultTTL: int, fleet: Fleet, r: Renderer)
    requires Published(c, site, draft, defaultTTL, fleet, r).Some?
    requires Rebuilt(Committed(c, site, draft, defaultTTL), fleet, r).Some?
    ensures Published(c, site, draft, defaultTTL, fleet, r) == Rebuilt(Committed(c, site, draft, defaultTTL), fleet, r)
       <==> LeftAloneAndCurrent(c, Affected(c, site, draft), fleet, r)
  {
    var tables := Committed(c, site, draft, defaultTTL);
    var affected := Affected(c, site, draft);
    var everyone := affected + fleet.nodes.Keys;
    assert forall node :: Renders(everyone, fleet, node) <==> Renders(fleet.nodes.Keys, fleet, node);
    forall node | node !in affected ensures UpToDate(tables, node, r) == UpToDate(c, node, r) {
      UnaffectedView(c, site, draft, defaultTTL, node);
    }
    SameScope(tables, everyone, affected, fleet, r);
    LargerRefreshIff(tables, affected, everyone, fleet, r);
  }

  /** A refresh depends on the nodes of the fleet in its scope, and on the certificates of
      whatever the scope touches. */
  lemma SameScope(c: Control, everyone: set<NodeId>, affected: set<NodeId>, fleet: Fleet, r: Renderer)
    requires everyone == affected + fleet.nodes.Keys
    requires CanRefresh(c, affected, fleet, r) && CanRefresh(c, fleet.nodes.Keys, fleet, r)
    ensures Refreshed(c, everyone, fleet, r) == Refreshed(c, fleet.nodes.Keys, fleet, r)
    ensures Refreshed(c, everyone, fleet, r).Some?
  {
    assert everyone * fleet.upgrading == {};
    forall site | site in c.publications && Touches(c.publications[site].snapshot, everyone)
      ensures || Touches(c.publications[site].snapshot, affected)
              || Touches(c.publications[site].snapshot, fleet.nodes.Keys)
    {
      var node :| node in c.publications[site].snapshot.nodes && node in everyone;
      assert node in affected || node in fleet.nodes.Keys;
    }
    assert Updates(c, everyone, fleet, r) == Updates(c, fleet.nodes.Keys, fleet, r);
  }

  // --------------------------------------------------------------- version discipline

  /** Versions grow by one, and only with the content. */
  predicate Advances(before: Option<NodeState>, after: Option<NodeState>) {
    || after == before
    || (before.None? && after.Some? && after.value.version == 1)
    || (before.Some? && after.Some? && after.value.version == before.value.version + 1
        && after.value.content != before.value.content)
  }

  lemma RefreshAdvances(c: Control, affected: set<NodeId>, fleet: Fleet, r: Renderer, node: NodeId)
    requires Refreshed(c, affected, fleet, r).Some?
    ensures Advances(StateOf(c, node), StateOf(Refreshed(c, affected, fleet, r).value, node))
  {
  }

  /** An edge has to confirm exactly the active nodes in scope whose stored state moves or whose
      applied version is behind it, each at the version it has after the commit. */
  lemma TargetsAreDesired(c: Control, affected: set<NodeId>, fleet: Fleet, r: Renderer, node: NodeId)
    requires Refreshed(c, affected, fleet, r).Some?
    ensures var after := Refreshed(c, affected, fleet, r).value;
            && (node in Targets(c, affected, fleet, r) <==>
                  && node in affected && node in fleet.nodes && fleet.nodes[node].status == Active
                  && node in after.states
                  && (StateOf(c, node) != Some(after.states[node])
                      || fleet.nodes[node].applied < after.states[node].version))
            && (node in Targets(c, affected, fleet, r) ==>
                  Targets(c, affected, fleet, r)[node] == after.states[node].version)
  {
    assert Renders(affected, fleet, node) ==> !NodeOutcome(c, node, r).Fails?;
  }

  /** A node left without sites serves only TCP exactly if that is what it did; any other is
      rendered as itself. */
  lemma TcpOnlyIsKept(c: Control, affected: set<NodeId>, fleet: Fleet, r: Renderer, node: NodeId)
    requires Stable(r) && Refreshed(c, affected, fleet, r).Some?
    requires node in affected && node in fleet.nodes && fleet.nodes[node].status in {Pending, Active, Draining}
    ensures node in Refreshed(c, affected, fleet, r).value.states
    ensures var content := Refreshed(c, affected, fleet, r).value.states[node].content;
            if View(c, node) == map[] then
              r.isTcpOnly(content) <==> node in c.states && r.isTcpOnly(c.states[node].content)
            else
              r.render(node, View(c, node), false) == Some(content)
  {
    assert Renders(affected, fleet, node) && !NodeOutcome(c, node, r).Fails?;
  }

  /** A drain serves the site on the node; its certificate may have expired. */
  predicate ByDrain(c: Control, site: SiteId, node: NodeId) {
    !(site in c.publications && node in c.publications[site].snapshot.nodes)
  }

  /** What a node renders from: no upgrade, and certificates that hold for all it serves. */
  ghost predicate Ready(c: Control, fleet: Fleet, r: Renderer, node: NodeId) {
    && node !in fleet.upgrading
    && forall site <- View(c, node) :: r.certificateHolds(View(c, node)[site], ByDrain(c, site, node))
  }

  /** A refresh goes ahead exactly when every affected node, in service or not, is not being
      upgraded and serves only sites whose certificates hold, and every one in service renders. */
  lemma RefreshedIff(c: Control, affected: set<NodeId>, fleet: Fleet, r: Renderer)
    requires OneSnapshotPerSlot(c)
    ensures Refreshed(c, affected, fleet, r).Some?
       <==> && (forall node <- affected :: Ready(c, fleet, r, node))
            && (forall node <- affected ::
                  node in fleet.nodes && fleet.nodes[node].status !in {Revoked, Uninstalling, Uninstalled} ==>
                    r.render(node, View(c, node), View(c, node) == map[] && node in c.states
                                                  && r.isTcpOnly(c.states[node].content)).Some?)
  {
    CertificatesIff(c, affected, r);
    assert affected * fleet.upgrading == {} <==> forall node <- affected :: node !in fleet.upgrading by {
      if affected * fleet.upgrading != {} {
        var node :| node in affected * fleet.upgrading;
        assert node in affected && node in fleet.upgrading;
      } else {
        assert forall node <- affected :: node in fleet.upgrading ==> node in affected * fleet.upgrading;
      }
    }
    assert (forall node <- affected :: Ready(c, fleet, r, node)) <==>
           CertificatesHold(c, affected, r) && forall node <- affected :: node !in fleet.upgrading;
  }

  lemma CertificatesIff(c: Control, affected: set<NodeId>, r: Renderer)
    requires OneSnapshotPerSlot(c)
    ensures CertificatesHold(c, affected, r)
       <==> forall node <- affected, site <- View(c, node) ::
              r.certificateHolds(View(c, node)[site], ByDrain(c, site, node))
  {
    forall site: SiteId, node: NodeId ensures site in View(c, node) <==> Serving(c, site, node).Some? {
      ServesIff(c, site, node);
    }
    if CertificatesHold(c, affected, r) {
      forall node, site | node in affected && site in View(c, node)
        ensures r.certificateHolds(View(c, node)[site], ByDrain(c, site, node))
      {
        if !ByDrain(c, site, node) { assert Touches(c.publications[site].snapshot, affected); }
      }
    } else if slot :| slot in c.drains && c.drains[slot].cleanup.None? && slot.node in affected
                      && !r.certificateHolds(c.drains[slot].snapshot, true) {
      assert slot == Slot(slot.site, slot.node) && slot.site in View(c, slot.node);
    } else {
      var site :| site in c.publications && !c.publications[site].deleting
                  && Touches(c.publications[site].snapshot, affected)
                  && !r.certificateHolds(c.publications[site].snapshot, false);
      var node :| node in c.publications[site].snapshot.nodes && node in affected;
      assert site in View(c, node);
    }
  }

  /** Each node of the draft serves it from then on. */
  lemma DraftIsServed(c: Control, site: SiteId, draft: Snapshot, defaultTTL: int, fleet: Fleet, r: Renderer,
                      node: NodeId)
    requires Published(c, site, draft, defaultTTL, fleet, r).Some? && node in draft.nodes
    ensures var after := Published(c, site, draft, defaultTTL, fleet, r).value;
            site in View(after, node) && View(after, node)[site] == draft
  {
  }

  /** A refresh of nodes that are all up to date changes nothing. */
  lemma RefreshOfUpToDate(c: Control, affected: set<NodeId>, fleet: Fleet, r: Renderer)
    requires affected * fleet.upgrading == {} && CertificatesHold(c, affected, r)
    requires forall node <- fleet.nodes :: Renders(affected, fleet, node) ==> UpToDate(c, node, r)
    ensures Refreshed(c, affected, fleet, r) == Some(c)
  {
    assert Updates(c, affected, fleet, r) == map[];
    assert c.states + Updates(c, affected, fleet, r) == c.states;
  }

  /** Publishing the same draft again saves no state and changes no drain: it only stamps
      the tables it found. */
  lemma RepublishingSavesNothing(c: Control, site: SiteId, draft: Snapshot, ttl: int, again: int, fleet: Fleet,
                                 r: Renderer)
    requires Stable(r) && OneSnapshotPerSlot(c) && Published(c, site, draft, ttl, fleet, r).Some?
    ensures var once := Published(c, site, draft, ttl, fleet, r).value;
            var twice := Published(once, site, draft, again, fleet, r);
            && twice.Some?
            && twice.value.states == once.states && twice.value.drains == once.drains
            && twice.value.publications ==
                 once.publications[site := once.publications[site].(publishedAt := once.lastPublished + 1)]
  {
    var once := Published(c, site, draft, ttl, fleet, r).value;
    var tables := Committed(once, site, draft, again);
    var affected := Affected(once, site, draft);
    PublishingKeepsOneSnapshotPerSlot(c, site, draft, ttl);
    SameDraftSameTables(once, site, draft, again);
    assert affected <= Affected(c, site, draft);
    forall node | Renders(affected, fleet, node) ensures UpToDate(tables, node, r) {
      RefreshBringsUpToDate(Committed(c, site, draft, ttl), Affected(c, site, draft), fleet, r, node);
      SameDraftSameView(once, site, draft, again, node);
    }
    CertificatesStillHold(Committed(c, site, draft, ttl), Affected(c, site, draft), tables, affected, r);
    RefreshOfUpToDate(tables, affected, fleet, r);
  }

  lemma SameDraftSameView(once: Control, site: SiteId, draft: Snapshot, again: int, node: NodeId)
    requires OneSnapshotPerSlot(once) && site in once.publications && once.publications[site].snapshot == draft
    requires !once.publications[site].deleting && once.publications[site].dnsTTL >= 0
    ensures View(Committed(once, site, draft, again), node) == View(once, node)
  {
    SameDraftSameTables(once, site, draft, again);
    SameServing(Committed(once, site, draft, again), once, node);
  }

  lemma SameDraftSameTables(once: Control, site: SiteId, draft: Snapshot, again: int)
    requires OneSnapshotPerSlot(once) && site in once.publications && once.publications[site].snapshot == draft
    requires !once.publications[site].deleting && once.publications[site].dnsTTL >= 0
    ensures Committed(once, site, draft, again).drains == once.drains
  {
    assert NewDrains(once, site, draft, again) == map[];
    assert KeptDrains(once, site, draft) == once.drains;
  }

  lemma CertificatesStillHold(c: Control, affected: set<NodeId>, d: Control, fewer: set<NodeId>, r: Renderer)
    requires CertificatesHold(c, affected, r) && fewer <= affected && d.drains == c.drains
    requires d.publications.Keys == c.publications.Keys
    requires forall site <- d.publications :: d.publications[site].snapshot == c.publications[site].snapshot
                                              && d.publications[site].deleting == c.publications[site].deleting
    ensures CertificatesHold(d, fewer, r)
  {
    forall site | site in d.publications && Touches(d.publications[site].snapshot, fewer)
      ensures Touches(c.publications[site].snapshot, affected)
    {
      var node :| node in d.publications[site].snapshot.nodes && node in fewer;
      assert node in affected;
    }
  }
}
