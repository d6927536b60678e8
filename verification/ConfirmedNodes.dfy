/**
 What the nodes that DNS names are running (health.go), over whole runs: an attempt names a
 node only after finding that the edge has applied its stored state, and while the attempt's
 publication is the current one that state was rendered with it.
 */
module ConfirmedNodes {
  import opened Common
  import opened Publication
  import opened DrainCleanup
  import opened DrainLifecycle
  import ProviderNames

  /** Beside the tables: the version each edge has applied, and the nodes each attempt has found
      to run their stored state. */
  datatype Deployment = Deployment(life: Life, applied: map<NodeId, nat>, confirmed: map<AttemptId, set<NodeId>>)

  datatype Happening =
    | Lives(e: Event)
    | Applies(applying: NodeId, version: nat)
    | Confirms(confirming: AttemptId, node: NodeId)

  function AppliedBy(d: Deployment, node: NodeId): nat {
    if node in d.applied then d.applied[node] else 0
  }

  function ConfirmedFor(d: Deployment, a: AttemptId): set<NodeId> {
    if a in d.confirmed then d.confirmed[a] else {}
  }

  /** Edges apply what was stored for them, and do not go back. A node is confirmed between the
      check of the publication and the write, and only confirmed nodes are written. */
  ghost predicate Fits(d: Deployment, h: Happening, serving: set<NodeId>) {
    match h
    case Lives(e) =>
      && DrainLifecycle.Fits(d.life, e, serving)
      && (e.Write? ==> e.named <= ConfirmedFor(d, e.writing))
    case Applies(node, version) =>
      node in d.life.c.states && AppliedBy(d, node) <= version <= d.life.c.states[node].version
    case Confirms(a, node) =>
      && a in d.life.attempts && d.life.attempts[a].phase == Checked && node in d.life.attempts[a].nodes
      && node in d.life.c.states && AppliedBy(d, node) >= d.life.c.states[node].version
  }

  /** An attempt that begins has confirmed nothing. */
  ghost function Step(d: Deployment, h: Happening, serving: set<NodeId>): Deployment
    requires Fits(d, h, serving)
  {
    match h
    case Lives(e) =>
      d.(life := DrainLifecycle.Step(d.life, e, serving),
         confirmed := if e.Load? then d.confirmed[e.loading := {}] else d.confirmed)
    case Applies(node, version) => d.(applied := d.applied[node := version])
    case Confirms(a, node) => d.(confirmed := d.confirmed[a := ConfirmedFor(d, a) + {node}])
  }

  const START: Deployment := Deployment(DrainLifecycle.START, map[], map[])

  ghost predicate IsRun(states: seq<Deployment>, happenings: seq<Happening>, serving: set<NodeId>, r: Renderer) {
    && |states| == |happenings| + 1 && states[0] == START
    && forall i: nat :: i < |happenings| ==> Follows(states, happenings, serving, r, i)
  }

  ghost predicate Follows(states: seq<Deployment>, happenings: seq<Happening>, serving: set<NodeId>, r: Renderer,
                          i: nat)
    requires i < |happenings| < |states|
  {
    && Fits(states[i], happenings[i], serving) && states[i + 1] == Step(states[i], happenings[i], serving)
    && (happenings[i].Lives? && Rendering(happenings[i].e) ==> happenings[i].e.r == r)
  }

  // --------------------------------------------------------------------- the invariant

  /** What a node in service stores was rendered with every publication it is assigned. */
  predicate PublicationRetained(l: Life, site: SiteId, node: NodeId)
    requires site in l.c.publications
  {
    && node in l.rendered && site in l.rendered[node]
    && l.rendered[node][site] == l.c.publications[site].snapshot
  }

  ghost predicate PublicationsRetained(l: Life, serving: set<NodeId>) {
    forall site <- l.c.publications ::
      && !l.c.publications[site].deleting
      && forall node <- l.c.publications[site].snapshot.nodes :: node in serving ==> PublicationRetained(l, site, node)
  }

  ghost predicate StoredTruly(l: Life, r: Renderer) {
    forall node <- l.c.states ::
      node in l.rendered && IsRenderingOf(l.c.states[node].content, node, l.rendered[node], r)
  }

  /** A current attempt would name what its publication assigns. */
  ghost predicate AttemptsMatch(l: Life) {
    forall a <- l.attempts :: Current(l.c, l.attempts[a]) ==>
      l.attempts[a].nodes == l.c.publications[l.attempts[a].site].snapshot.nodes
  }

  ghost predicate Inv(d: Deployment, serving: set<NodeId>, r: Renderer) {
    && DrainLifecycle.Inv(d.life, serving) && AttemptsMatch(d.life)
    && PublicationsRetained(d.life, serving) && StoredTruly(d.life, r)
    && forall node <- d.applied :: node in d.life.c.states && d.applied[node] <= d.life.c.states[node].version
  }

  /** Rendering a node in service records every publication the tables assign to it. */
  lemma RenderedWithPublications(tables: Control, node: NodeId, site: SiteId)
    requires site in tables.publications && !tables.publications[site].deleting
    requires node in tables.publications[site].snapshot.nodes
    ensures site in View(tables, node) && View(tables, node)[site] == tables.publications[site].snapshot
  {
    assert Serving(tables, site, node) == Some(tables.publications[site].snapshot);
    assert site in Sites(tables);
  }

  /** One rendering of some nodes in service: those have every publication of the tables, and
      the others keep what they had. */
  lemma RenderingRetains(l: Life, after: Life, tables: Control, affected: set<NodeId>, fleet: Fleet,
                         serving: set<NodeId>, site: SiteId, node: NodeId)
    requires ServesAll(fleet, serving) && node in serving
    requires after.rendered == RenderedFrom(l.rendered, tables, affected, fleet)
    requires after.c.publications == tables.publications
    requires site in tables.publications && !tables.publications[site].deleting
    requires node in tables.publications[site].snapshot.nodes
    requires node !in affected ==>
               site in l.c.publications && l.c.publications[site].snapshot == tables.publications[site].snapshot
               && PublicationRetained(l, site, node)
    ensures PublicationRetained(after, site, node)
  {
    if node in affected { RenderedWithPublications(tables, node, site); }
  }

  lemma PublishRetains(l: Life, e: Event, serving: set<NodeId>)
    requires PublicationsRetained(l, serving) && DrainLifecycle.Fits(l, e, serving) && e.Publish?
    ensures PublicationsRetained(DrainLifecycle.Step(l, e, serving), serving)
  {
    var after := DrainLifecycle.Step(l, e, serving);
    if Published(l.c, e.site, e.draft, e.defaultTTL, e.fleet, e.r).Some? {
      var tables, affected := Committed(l.c, e.site, e.draft, e.defaultTTL), Affected(l.c, e.site, e.draft);
      forall site, node
        | site in tables.publications && node in tables.publications[site].snapshot.nodes && node in serving
        ensures PublicationRetained(after, site, node)
      {
        RenderingRetains(l, after, tables, affected, e.fleet, serving, site, node);
      }
    }
  }

  lemma RefreshRetains(l: Life, e: Event, serving: set<NodeId>)
    requires PublicationsRetained(l, serving) && DrainLifecycle.Fits(l, e, serving) && e.Refresh?
    ensures PublicationsRetained(DrainLifecycle.Step(l, e, serving), serving)
  {
    var after := DrainLifecycle.Step(l, e, serving);
    if Refreshed(l.c, e.affected, e.fleet, e.r).Some? {
      forall site, node | site in l.c.publications && node in l.c.publications[site].snapshot.nodes && node in serving
        ensures PublicationRetained(after, site, node)
      {
        RenderingRetains(l, after, l.c, e.affected, e.fleet, serving, site, node);
      }
    }
  }

  lemma CleanRetainsPublications(l: Life, e: Event, serving: set<NodeId>)
    requires PublicationsRetained(l, serving) && DrainLifecycle.Fits(l, e, serving) && e.Clean?
    ensures PublicationsRetained(DrainLifecycle.Step(l, e, serving), serving)
  {
    var after := DrainLifecycle.Step(l, e, serving);
    SamePublications(l.c, e.due, e.when, e.task, e.fleet, e.r, e.hurdle);
    if after.rendered != l.rendered {
      forall site, node | site in l.c.publications && node in l.c.publications[site].snapshot.nodes && node in serving
        ensures PublicationRetained(after, site, node)
      {
        RenderingRetains(l, after, Without(l.c, e.due), NodesOf(e.due), e.fleet, serving, site, node);
      }
    }
  }

  lemma OtherEventRetains(l: Life, e: Event, serving: set<NodeId>)
    requires PublicationsRetained(l, serving) && DrainLifecycle.Fits(l, e, serving) && !Rendering(e)
    ensures PublicationsRetained(DrainLifecycle.Step(l, e, serving), serving)
  {
    var after := DrainLifecycle.Step(l, e, serving);
    forall site | site in after.c.publications
      ensures site in l.c.publications && after.c.publications[site].snapshot == l.c.publications[site].snapshot
    {
    }
  }

  lemma StepRetains(l: Life, e: Event, serving: set<NodeId>)
    requires PublicationsRetained(l, serving) && DrainLifecycle.Fits(l, e, serving)
    ensures PublicationsRetained(DrainLifecycle.Step(l, e, serving), serving)
  {
    if e.Publish? {
      PublishRetains(l, e, serving);
    } else if e.Refresh? {
      RefreshRetains(l, e, serving);
    } else if e.Clean? {
      CleanRetainsPublications(l, e, serving);
    } else {
      OtherEventRetains(l, e, serving);
    }
  }

  lemma StepStoresTruly(l: Life, e: Event, serving: set<NodeId>, r: Renderer)
    requires StoredTruly(l, r) && DrainLifecycle.Fits(l, e, serving) && (Rendering(e) ==> e.r == r)
    ensures StoredTruly(DrainLifecycle.Step(l, e, serving), r)
  {
    var after := DrainLifecycle.Step(l, e, serving);
    forall node | node in after.c.states
      ensures node in after.rendered && IsRenderingOf(after.c.states[node].content, node, after.rendered[node], r)
    {
      RecordedViewIsStored(l, e, serving, node);
      assert node in l.c.states ==> node in l.rendered;
    }
  }

  lemma SameAttempt(l: Life, e: Event, serving: set<NodeId>, a: AttemptId)
    requires DrainLifecycle.Fits(l, e, serving) && a in DrainLifecycle.Step(l, e, serving).attempts
    requires !(e.Load? && e.loading == a)
    ensures a in l.attempts
    ensures Alike(l.attempts[a], DrainLifecycle.Step(l, e, serving).attempts[a])
  {
  }

  /** One attempt, perhaps in another phase. */
  predicate Alike(a: Attempt, b: Attempt) {
    a.site == b.site && a.token == b.token && a.nodes == b.nodes
  }

  lemma StepKeepsMatch(l: Life, e: Event, serving: set<NodeId>)
    requires DrainLifecycle.Inv(l, serving) && AttemptsMatch(l) && DrainLifecycle.Fits(l, e, serving)
    ensures AttemptsMatch(DrainLifecycle.Step(l, e, serving))
  {
    var after := DrainLifecycle.Step(l, e, serving);
    forall a | a in after.attempts && Current(after.c, after.attempts[a])
      ensures after.attempts[a].nodes == after.c.publications[after.attempts[a].site].snapshot.nodes
    {
      if !(e.Load? && e.loading == a) {
        SameAttempt(l, e, serving, a);
        ProviderNames.NoneBecomesCurrent(l, e, serving, l.attempts[a]);
      }
    }
  }

  lemma StepKeepsInv(d: Deployment, h: Happening, serving: set<NodeId>, r: Renderer)
    requires Inv(d, serving, r) && Fits(d, h, serving) && (h.Lives? && Rendering(h.e) ==> h.e.r == r)
    ensures Inv(Step(d, h, serving), serving, r)
  {
    if h.Lives? {
      DrainLifecycle.StepKeepsInv(d.life, h.e, serving);
      StepRetains(d.life, h.e, serving);
      StepStoresTruly(d.life, h.e, serving, r);
      StepKeepsMatch(d.life, h.e, serving);
      forall node | node in d.applied
        ensures node in Step(d, h, serving).life.c.states
        ensures d.applied[node] <= Step(d, h, serving).life.c.states[node].version
      {
        StepAdvances(d.life, h.e, serving, node);
      }
    }
  }

  lemma {:induction false} EveryStateIsRight(states: seq<Deployment>, happenings: seq<Happening>, serving: set<NodeId>,
                                             r: Renderer, j: nat)
    requires IsRun(states, happenings, serving, r) && j < |states|
    ensures Inv(states[j], serving, r)
  {
    if j > 0 {
      EveryStateIsRight(states, happenings, serving, r, j - 1);
      assert Follows(states, happenings, serving, r, j - 1);
      StepKeepsInv(states[j - 1], happenings[j - 1], serving, r);
    }
  }

  // ---------------------------------------------------------------- what a write relies on

  /** An attempt finds the node running exactly what is stored for it, which is a rendering of
      the recorded view; and the view holds the attempt's publication while that is current. */
  predicate FoundRunning(d: Deployment, h: Happening, a: AttemptId, node: NodeId, serving: set<NodeId>, r: Renderer) {
    && h == Confirms(a, node) && a in d.life.attempts && node in d.life.c.states && node in d.life.rendered
    && AppliedBy(d, node) == d.life.c.states[node].version
    && IsRenderingOf(d.life.c.states[node].content, node, d.life.rendered[node], r)
    && (Current(d.life.c, d.life.attempts[a]) && node in serving ==>
          PublicationRetained(d.life, d.life.attempts[a].site, node))
  }

  lemma ConfirmedIsFoundRunning(d: Deployment, a: AttemptId, node: NodeId, serving: set<NodeId>, r: Renderer)
    requires Inv(d, serving, r) && Fits(d, Confirms(a, node), serving)
    ensures FoundRunning(d, Confirms(a, node), a, node, serving, r)
  {
  }

  ghost predicate FoundAt(states: seq<Deployment>, happenings: seq<Happening>, serving: set<NodeId>, r: Renderer,
                          i: nat, attempt: Attempt, a: AttemptId, node: NodeId)
  {
    && i < |states| && i < |happenings| && FoundRunning(states[i], happenings[i], a, node, serving, r)
    && Alike(states[i].life.attempts[a], attempt)
  }

  lemma {:induction false} ConfirmedWereFound(states: seq<Deployment>, happenings: seq<Happening>, serving: set<NodeId>,
                                              r: Renderer, a: AttemptId, node: NodeId, j: nat)
    requires IsRun(states, happenings, serving, r) && j < |states|
    requires a in states[j].life.attempts && node in ConfirmedFor(states[j], a)
    ensures exists i: nat ::
              i < j && FoundAt(states, happenings, serving, r, i, states[j].life.attempts[a], a, node)
  {
    if j > 0 {
      var before, h := states[j - 1], happenings[j - 1];
      EveryStateIsRight(states, happenings, serving, r, j - 1);
      assert Follows(states, happenings, serving, r, j - 1);
      if h == Confirms(a, node) {
        ConfirmedIsFoundRunning(before, a, node, serving, r);
        assert FoundAt(states, happenings, serving, r, j - 1, states[j].life.attempts[a], a, node);
      } else {
        if h.Lives? { SameAttempt(before.life, h.e, serving, a); }
        ConfirmedWereFound(states, happenings, serving, r, a, node, j - 1);
        var i: nat :| i < j - 1 && FoundAt(states, happenings, serving, r, i, before.life.attempts[a], a, node);
        assert FoundAt(states, happenings, serving, r, i, states[j].life.attempts[a], a, node);
      }
    }
  }

  /** Over any run: every node that an attempt names to the provider was found by that attempt to
      run a rendering of its recorded view, and unless the attempt's publication had been
      superseded by then, that view holds the publication. */
  lemma WrittenNodesRunThePublication(states: seq<Deployment>, happenings: seq<Happening>, serving: set<NodeId>,
                                      r: Renderer, k: nat, node: NodeId)
    requires IsRun(states, happenings, serving, r) && k < |happenings|
    requires happenings[k].Lives? && happenings[k].e.Write? && node in happenings[k].e.named
    ensures var a := happenings[k].e.writing;
            && a in states[k].life.attempts
            && exists i: nat ::
                 i < k && FoundAt(states, happenings, serving, r, i, states[k].life.attempts[a], a, node)
  {
    assert Follows(states, happenings, serving, r, k);
    ConfirmedWereFound(states, happenings, serving, r, happenings[k].e.writing, node, k);
  }
}
