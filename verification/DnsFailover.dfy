/**
 Choosing a site's DNS records (health.go): primary nodes first, standbys only when no
 primary is healthy or converging, nothing at all while the picture is unsettled. A write
 that the provider accepts starts the timers of the site's pending drains.
 */
module DnsFailover {
  import opened Common
  import opened Publication
  import opened DrainLifecycle

  datatype Edge = Edge(active: bool, upgradeReported: bool, applied: nat, ipv4: string, ipv6: string)

  datatype Site = Site(
    id: SiteId, primary: seq<NodeId>, standby: seq<NodeId>, domains: seq<string>,
    ipv6Enabled: bool, tcpOnly: bool, ttl: int)

  /** Everything read while deciding; `None` is a failed read. */
  datatype Readings = Readings(
    edges: map<NodeId, Edge>,
    upgradeStored: NodeId -> Option<bool>,
    desired: NodeId -> Option<nat>,
    publishing: NodeId -> Option<bool>,
    eligible: NodeId -> Option<bool>,
    reportsSite: NodeId -> Option<bool>,
    siteEligible: NodeId -> Option<bool>,
    siteIPv6Eligible: NodeId -> Option<bool>,
    cancelled: bool,
    current: Option<bool>,
    publishTask: Option<bool>,
    drainsConverging: Option<bool>,
    cancelledBeforeWrite: bool,
    currentBeforeClear: Option<bool>,
    writeAccepted: bool,
    markAnswers: bool)

  datatype Kind = A | AAAA

  datatype Record = Record(kind: Kind, name: string, content: string, node: NodeId, site: SiteId, ttl: int)

  // ------------------------------------------------------------------ where a node stands

  /** `Unread` is a failed read on the way; only active nodes are ever unfit or healthy. */
  datatype Standing = Unread | Idle | IdleConverging | ActiveConverging | Unfit | Healthy
  {
    predicate IsConverging() { IdleConverging? || ActiveConverging? }

    predicate IsActive() { ActiveConverging? || Unfit? || Healthy? }

    predicate IsSettled() { Idle? || Unfit? || Healthy? }
  }

  function Upgrading(w: Readings, id: NodeId): Option<bool>
    requires id in w.edges
  {
    if w.edges[id].upgradeReported then Some(true) else w.upgradeStored(id)
  }

  function StandingOf(w: Readings, id: NodeId): Standing {
    if id !in w.edges then Idle
    else if Upgrading(w, id).None? then Unread
    else if !w.edges[id].active then (if Upgrading(w, id).value then IdleConverging else Idle)
    else if Upgrading(w, id).value then ActiveConverging
    else if w.desired(id).None? then Unread
    else if w.desired(id).value == 0 || w.edges[id].applied < w.desired(id).value then ActiveConverging
    else if w.publishing(id).None? then Unread
    else if w.publishing(id).value then ActiveConverging
    else if w.eligible(id).None? then Unread
    else if !w.eligible(id).value then Unfit
    else if w.reportsSite(id).None? then Unread
    else if !w.reportsSite(id).value then Healthy
    else if w.siteEligible(id).None? then Unread
    else if w.siteEligible(id).value then Healthy else Unfit
  }

  predicate Converging(w: Readings, id: NodeId) {
    StandingOf(w, id).IsConverging()
  }

  predicate CountsAsActive(w: Readings, id: NodeId) {
    StandingOf(w, id).IsActive()
  }

  function HealthyOf(w: Readings, ids: seq<NodeId>): (healthy: seq<NodeId>)
    ensures forall id <- healthy :: StandingOf(w, id) == Healthy
  {
    if ids == [] then []
    else
      HealthyOf(w, ids[..|ids| - 1]) + if StandingOf(w, ids[|ids| - 1]) == Healthy then [ids[|ids| - 1]] else []
  }

  /** An IPv6 node is passed over when it has no address or is not ready; `None` is a failed read. */
  function IPv6Ready(w: Readings, site: Site, id: NodeId): Option<bool> {
    if id !in w.edges || w.edges[id].ipv6 == "" || !w.edges[id].active then Some(false)
    else if Upgrading(w, id).None? then None
    else if Upgrading(w, id).value then Some(false)
    else if w.desired(id).None? then None
    else if w.desired(id).value == 0 || w.edges[id].applied < w.desired(id).value then Some(false)
    else if w.publishing(id).None? then None
    else if w.publishing(id).value then Some(false)
    else if w.eligible(id).None? then None
    else if !w.eligible(id).value then Some(false)
    else if w.reportsSite(id).None? then None
    else if !site.tcpOnly && !w.reportsSite(id).value then Some(false)
    else w.siteIPv6Eligible(id)
  }

  function IPv6Of(w: Readings, site: Site, ids: seq<NodeId>): (ready: seq<NodeId>)
    ensures forall id <- ready :: IPv6Ready(w, site, id) == Some(true)
  {
    if ids == [] then []
    else
      IPv6Of(w, site, ids[..|ids| - 1])
      + if IPv6Ready(w, site, ids[|ids| - 1]) == Some(true) then [ids[|ids| - 1]] else []
  }

  predicate AnyUnread(w: Readings, ids: seq<NodeId>) {
    exists id <- ids :: StandingOf(w, id) == Unread
  }

  predicate AnyConverging(w: Readings, ids: seq<NodeId>) {
    exists id <- ids :: Converging(w, id)
  }

  predicate AnyActive(w: Readings, ids: seq<NodeId>) {
    exists id <- ids :: CountsAsActive(w, id)
  }

  predicate AnyIPv6Unread(w: Readings, site: Site, ids: seq<NodeId>) {
    exists id <- ids :: IPv6Ready(w, site, id).None?
  }

  // ----------------------------------------------------------------------- the decision

  datatype Decision = GiveUp | Hold | NothingHealthy | Send(records: seq<Record>)

  /** The nodes looked at: standbys only when no primary is healthy. */
  function Consulted(w: Readings, site: Site): seq<NodeId> {
    if HealthyOf(w, site.primary) != [] then site.primary else site.primary + site.standby
  }

  function Pool(w: Readings, site: Site): seq<NodeId> {
    if HealthyOf(w, site.primary) != [] then HealthyOf(w, site.primary) else HealthyOf(w, site.standby)
  }

  function IPv6Pool(w: Readings, site: Site): seq<NodeId> {
    if !site.ipv6Enabled then []
    else if IPv6Of(w, site, site.primary) != [] then IPv6Of(w, site, site.primary)
    else IPv6Of(w, site, site.standby)
  }

  predicate IPv6Unread(w: Readings, site: Site) {
    && site.ipv6Enabled
    && (AnyIPv6Unread(w, site, site.primary)
        || (IPv6Of(w, site, site.primary) == [] && AnyIPv6Unread(w, site, site.standby)))
  }

  function NodeRecords(w: Readings, site: Site, kind: Kind, id: NodeId): seq<Record>
    requires id in w.edges
  {
    var content := if kind == A then w.edges[id].ipv4 else w.edges[id].ipv6;
    seq(|site.domains|, i requires 0 <= i < |site.domains| =>
      Record(kind, site.domains[i], content, id, site.id, site.ttl))
  }

  function RecordsFor(w: Readings, site: Site, kind: Kind, ids: seq<NodeId>): (records: seq<Record>)
    requires forall id <- ids :: id in w.edges
    ensures records == [] <==> ids == [] || site.domains == []
  {
    if ids == [] then []
    else RecordsFor(w, site, kind, ids[..|ids| - 1]) + NodeRecords(w, site, kind, ids[|ids| - 1])
  }

  /** Reads that must answer, and answer quietly, before any node is looked at. */
  predicate Settled(w: Readings, token: Option<nat>) {
    && !w.cancelled
    && (token.Some? ==> w.current == Some(true))
    && w.publishTask == Some(false)
    && w.drainsConverging == Some(false)
  }

  /** A gate read that fails ends the attempt; one that answers otherwise postpones it. */
  predicate GateFails(w: Readings, token: Option<nat>) {
    || w.cancelled
    || (token.Some? && w.current.None?)
    || ((token.Some? ==> w.current == Some(true))
        && (w.publishTask.None? || (w.publishTask == Some(false) && w.drainsConverging.None?)))
  }

  function Decide(w: Readings, site: Site, token: Option<nat>): Decision {
    if GateFails(w, token) then GiveUp
    else if !Settled(w, token) then Hold
    else DecideByNodes(w, site, token)
  }

  /** Behind quiet gates. */
  function DecideByNodes(w: Readings, site: Site, token: Option<nat>): Decision {
    if AnyUnread(w, site.primary) then GiveUp
    else if AnyConverging(w, site.primary) then Hold
    else if AnyUnread(w, Consulted(w, site)) then GiveUp
    else if AnyConverging(w, Consulted(w, site)) then Hold
    else if Pool(w, site) == [] then
      if AnyActive(w, Consulted(w, site)) then NothingHealthy else ClearDecision(w, token)
    else if IPv6Unread(w, site) || w.cancelledBeforeWrite then GiveUp
    else Send(AllRecords(w, site))
  }

  /** Removing every record checks the publication once more. */
  function ClearDecision(w: Readings, token: Option<nat>): Decision {
    if w.cancelledBeforeWrite || (token.Some? && w.currentBeforeClear.None?) then GiveUp
    else if token.Some? && !w.currentBeforeClear.value then Hold
    else Send([])
  }

  function AllRecords(w: Readings, site: Site): seq<Record> {
    RecordsFor(w, site, A, Pool(w, site)) + RecordsFor(w, site, AAAA, IPv6Pool(w, site))
  }

  // ------------------------------------------------------------------ what it guarantees

  lemma {:induction false} HealthyOfIff(w: Readings, ids: seq<NodeId>)
    ensures forall id :: id in HealthyOf(w, ids) <==> id in ids && StandingOf(w, id) == Healthy
  {
    if ids != [] {
      assert ids == ids[..|ids| - 1] + [ids[|ids| - 1]];
      HealthyOfIff(w, ids[..|ids| - 1]);
    }
  }

  lemma {:induction false} IPv6OfIff(w: Readings, site: Site, ids: seq<NodeId>)
    ensures forall id :: id in IPv6Of(w, site, ids) <==> id in ids && IPv6Ready(w, site, id) == Some(true)
  {
    if ids != [] {
      assert ids == ids[..|ids| - 1] + [ids[|ids| - 1]];
      IPv6OfIff(w, site, ids[..|ids| - 1]);
    }
  }

  lemma PrimariesAreConsulted(w: Readings, site: Site)
    ensures forall id <- site.primary :: id in Consulted(w, site)
    ensures AnyUnread(w, site.primary) ==> AnyUnread(w, Consulted(w, site))
    ensures AnyConverging(w, site.primary) ==> AnyConverging(w, Consulted(w, site))
  {
    if AnyUnread(w, site.primary) {
      var id :| id in site.primary && StandingOf(w, id) == Unread;
      assert id in Consulted(w, site);
    }
    if AnyConverging(w, site.primary) {
      var id :| id in site.primary && Converging(w, id);
      assert id in Consulted(w, site);
    }
  }

  lemma PoolIsEmptyIff(w: Readings, site: Site)
    ensures Pool(w, site) == [] <==> forall id <- Consulted(w, site) :: StandingOf(w, id) != Healthy
  {
    HealthyOfIff(w, site.primary);
    HealthyOfIff(w, site.standby);
    if Pool(w, site) != [] {
      var id := Pool(w, site)[0];
      assert id in Pool(w, site);
      assert id in Consulted(w, site);
    } else {
      forall id | id in Consulted(w, site) ensures StandingOf(w, id) != Healthy {
        assert id in HealthyOf(w, site.standby) <==> id in site.standby && StandingOf(w, id) == Healthy;
        assert id in HealthyOf(w, site.primary) <==> id in site.primary && StandingOf(w, id) == Healthy;
      }
    }
  }

  predicate AllSettled(w: Readings, ids: seq<NodeId>) {
    forall id <- ids :: StandingOf(w, id).IsSettled()
  }

  lemma SettledIff(w: Readings, ids: seq<NodeId>)
    ensures !AnyUnread(w, ids) && !AnyConverging(w, ids) <==> AllSettled(w, ids)
    ensures AllSettled(w, ids) ==>
              (AnyActive(w, ids) <==> exists id <- ids :: (StandingOf(w, id).Unfit? || StandingOf(w, id).Healthy?))
  {
    if !AnyUnread(w, ids) && !AnyConverging(w, ids) {
      forall id | id in ids ensures StandingOf(w, id).IsSettled() {
        assert !Converging(w, id) && !(StandingOf(w, id) == Unread);
      }
    }
    if AllSettled(w, ids) && exists id <- ids :: (StandingOf(w, id).Unfit? || StandingOf(w, id).Healthy?) {
      var id :| id in ids && (StandingOf(w, id).Unfit? || StandingOf(w, id).Healthy?);
      assert CountsAsActive(w, id);
    }
    if AllSettled(w, ids) && AnyActive(w, ids) {
      var id :| id in ids && CountsAsActive(w, id);
      assert (StandingOf(w, id).Unfit? || StandingOf(w, id).Healthy?);
    }
  }

  /** Nothing is sent during a publication, a converging drain, for a stale publication, or
      while a consulted node converges or cannot be read. */
  lemma NothingSentWhileUnsettled(w: Readings, site: Site, token: Option<nat>)
    requires Decide(w, site, token).Send?
    ensures Settled(w, token)
    ensures AllSettled(w, Consulted(w, site))
  {
    SettledIff(w, Consulted(w, site));
  }

  predicate NobodyServes(w: Readings, site: Site, token: Option<nat>) {
    && (forall id <- Consulted(w, site) :: StandingOf(w, id) == Idle)
    && (token.Some? ==> w.currentBeforeClear == Some(true))
  }

  predicate NothingToName(w: Readings, site: Site) {
    && site.domains == [] && Pool(w, site) != [] && !IPv6Unread(w, site)
    && AllSettled(w, Consulted(w, site))
  }

  /** The empty set is sent exactly when every consulted node is idle (and the attempt was
      neither cancelled nor overtaken), or when the site has no domains to point anywhere. */
  lemma EmptySetIff(w: Readings, site: Site, token: Option<nat>)
    ensures Decide(w, site, token) == Send([]) <==>
            Settled(w, token) && !w.cancelledBeforeWrite && (NobodyServes(w, site, token) || NothingToName(w, site))
  {
    var all := Consulted(w, site);
    PrimariesAreConsulted(w, site);
    PoolIsEmptyIff(w, site);
    SettledIff(w, all);
    assert AllSettled(w, all) && !AnyActive(w, all) <==> forall id <- all :: StandingOf(w, id) == Idle;
    if Settled(w, token) {
      assert !GateFails(w, token);
      if !AllSettled(w, all) {
        assert !Decide(w, site, token).Send?;
      } else if Pool(w, site) == [] {
        assert NobodyServes(w, site, token)
          <==> !AnyActive(w, all) && (token.Some? ==> w.currentBeforeClear == Some(true));
        assert w.currentBeforeClear.Some? && w.currentBeforeClear.value ==> w.currentBeforeClear == Some(true);
      } else {
        NamesSomethingIff(w, site);
        assert !NobodyServes(w, site, token);
        assert NothingToName(w, site) <==> site.domains == [] && !IPv6Unread(w, site);
      }
    }
  }

  lemma NamesSomethingIff(w: Readings, site: Site)
    requires Pool(w, site) != []
    ensures AllRecords(w, site) == [] <==> site.domains == []
  {
    var first, second := RecordsFor(w, site, A, Pool(w, site)), RecordsFor(w, site, AAAA, IPv6Pool(w, site));
    assert |first + second| == |first| + |second|;
  }

  /** Every A record names a healthy node of one pool, on every domain; a standby appears only
      when no primary is healthy or converging. */
  lemma RecordsFromOnePool(w: Readings, site: Site, token: Option<nat>, r: Record)
    requires Decide(w, site, token).Send? && r.kind == A
    ensures r in Decide(w, site, token).records <==>
            && r.name in site.domains && r.site == site.id && r.ttl == site.ttl
            && r.node in w.edges && r.content == w.edges[r.node].ipv4 && StandingOf(w, r.node) == Healthy
            && (if exists id <- site.primary :: StandingOf(w, id) == Healthy
                then r.node in site.primary
                else r.node in site.standby
                     && forall id <- site.primary :: (StandingOf(w, id).Idle? || StandingOf(w, id).Unfit?))
  {
    NothingSentWhileUnsettled(w, site, token);
    PoolIff(w, site, r.node);
    RecordsOf(w, site, A, Pool(w, site), r);
    RecordsOf(w, site, AAAA, IPv6Pool(w, site), r);
    if forall id <- site.primary :: StandingOf(w, id) != Healthy { SettledPrimaries(w, site); }
    if Pool(w, site) == [] {
      assert Decide(w, site, token).records == [];
    }
  }

  lemma PoolIff(w: Readings, site: Site, id: NodeId)
    ensures id in Pool(w, site) <==>
            && StandingOf(w, id) == Healthy
            && if exists id <- site.primary :: StandingOf(w, id) == Healthy then id in site.primary
               else id in site.standby
  {
    HealthyOfIff(w, site.primary);
    HealthyOfIff(w, site.standby);
    if HealthyOf(w, site.primary) != [] { assert HealthyOf(w, site.primary)[0] in HealthyOf(w, site.primary); }
  }

  lemma SettledPrimaries(w: Readings, site: Site)
    requires AllSettled(w, Consulted(w, site)) && forall id <- site.primary :: StandingOf(w, id) != Healthy
    ensures forall id <- site.primary :: StandingOf(w, id).Idle? || StandingOf(w, id).Unfit?
  {
    PrimariesAreConsulted(w, site);
  }

  /** AAAA records come from one pool too, chosen on its own: standbys only when no primary is
      ready for IPv6, and none at all unless some A record is sent. */
  lemma IPv6RecordsFromOnePool(w: Readings, site: Site, token: Option<nat>, r: Record)
    requires Decide(w, site, token).Send? && r.kind == AAAA
    ensures r in Decide(w, site, token).records <==>
            && Pool(w, site) != [] && site.ipv6Enabled
            && r.name in site.domains && r.site == site.id && r.ttl == site.ttl
            && r.node in w.edges && r.content == w.edges[r.node].ipv6 && IPv6Ready(w, site, r.node) == Some(true)
            && (if exists id <- site.primary :: IPv6Ready(w, site, id) == Some(true)
                then r.node in site.primary else r.node in site.standby)
  {
    IPv6OfIff(w, site, site.primary);
    IPv6OfIff(w, site, site.standby);
    if Pool(w, site) != [] {
      var ready := IPv6Of(w, site, site.primary);
      if ready != [] { assert ready[0] in site.primary; }
      RecordsOf(w, site, A, Pool(w, site), r);
      RecordsOf(w, site, AAAA, IPv6Pool(w, site), r);
    }
  }

  lemma {:induction false} RecordsOf(w: Readings, site: Site, kind: Kind, ids: seq<NodeId>, r: Record)
    requires forall id <- ids :: id in w.edges
    ensures r in RecordsFor(w, site, kind, ids) <==>
            && r.kind == kind && r.name in site.domains && r.site == site.id && r.ttl == site.ttl && r.node in ids
            && r.content == if kind == A then w.edges[r.node].ipv4 else w.edges[r.node].ipv6
  {
    if ids != [] {
      var last := ids[|ids| - 1];
      assert ids == ids[..|ids| - 1] + [last];
      RecordsOf(w, site, kind, ids[..|ids| - 1], r);
      var records := NodeRecords(w, site, kind, last);
      if r.name in site.domains {
        var i :| 0 <= i < |site.domains| && site.domains[i] == r.name;
        assert records[i].name == r.name;
      }
      assert r in records <==> r.kind == kind && r.name in site.domains && r.site == site.id && r.ttl == site.ttl
                               && r.node == last
                               && r.content == if kind == A then w.edges[last].ipv4 else w.edges[last].ipv6;
    }
  }

  /** The site is reported as having no healthy node exactly when some consulted node is
      active, all of them are settled, and none is healthy. */
  lemma NothingHealthyIff(w: Readings, site: Site, token: Option<nat>)
    ensures Decide(w, site, token).NothingHealthy? <==>
            && Settled(w, token)
            && (forall id <- Consulted(w, site) :: (StandingOf(w, id).Idle? || StandingOf(w, id).Unfit?))
            && (exists id <- Consulted(w, site) :: StandingOf(w, id) == Unfit)
  {
    PrimariesAreConsulted(w, site);
    PoolIsEmptyIff(w, site);
    SettledIff(w, Consulted(w, site));
  }

  // ------------------------------------------------------------ in terms of the readings

  /** The node is active, is known not to be upgrading or published to, and has applied the state
      stored for it. */
  predicate AtRest(w: Readings, id: NodeId) {
    && id in w.edges && w.edges[id].active
    && !w.edges[id].upgradeReported && w.upgradeStored(id) == Some(false)
    && w.desired(id).Some? && 0 < w.desired(id).value <= w.edges[id].applied
    && w.publishing(id) == Some(false)
  }

  /** Its own checks pass, and so do those of the site if it reports any. */
  predicate PassesChecks(w: Readings, id: NodeId) {
    && w.eligible(id) == Some(true)
    && (w.reportsSite(id) == Some(false) || (w.reportsSite(id) == Some(true) && w.siteEligible(id) == Some(true)))
  }

  predicate FailsChecks(w: Readings, id: NodeId) {
    || w.eligible(id) == Some(false)
    || (w.eligible(id) == Some(true) && w.reportsSite(id) == Some(true) && w.siteEligible(id) == Some(false))
  }

  /** Something is on its way to the node: an upgrade, a state it has not applied, a publication. */
  predicate InTransit(w: Readings, id: NodeId) {
    && id in w.edges
    && (|| w.edges[id].upgradeReported || w.upgradeStored(id) == Some(true)
        || (&& w.edges[id].active && w.upgradeStored(id) == Some(false) && w.desired(id).Some?
            && (|| w.desired(id).value == 0 || w.edges[id].applied < w.desired(id).value
                || w.publishing(id) == Some(true))))
  }

  predicate OutOfService(w: Readings, id: NodeId) {
    id !in w.edges || (!w.edges[id].active && !w.edges[id].upgradeReported && w.upgradeStored(id) == Some(false))
  }

  /** What each standing comes down to; a node of which none holds could not be read. */
  lemma StandingIff(w: Readings, id: NodeId)
    ensures StandingOf(w, id) == Healthy <==> AtRest(w, id) && PassesChecks(w, id)
    ensures StandingOf(w, id) == Unfit <==> AtRest(w, id) && FailsChecks(w, id)
    ensures Converging(w, id) <==> InTransit(w, id)
    ensures StandingOf(w, id) == Idle <==> OutOfService(w, id)
    ensures CountsAsActive(w, id) ==> id in w.edges && w.edges[id].active
    ensures InTransit(w, id) && w.edges[id].active ==> CountsAsActive(w, id)
  {
  }

  /** A node is ready for IPv6 when it is at rest with an address, passes its own checks and the
      site's over IPv6, and reports the site unless that is TCP only. */
  lemma IPv6ReadyIff(w: Readings, site: Site, id: NodeId)
    ensures IPv6Ready(w, site, id) == Some(true)
       <==> && AtRest(w, id) && w.edges[id].ipv6 != "" && w.eligible(id) == Some(true)
            && (w.reportsSite(id) == Some(true) || (site.tcpOnly && w.reportsSite(id) == Some(false)))
            && w.siteIPv6Eligible(id) == Some(true)
  {
    var reports := w.reportsSite(id);
    assert reports.Some? ==> reports == Some(reports.value);
    assert reports == Some(true) <==> reports.Some? && reports.value;
    assert reports == Some(false) <==> reports.Some? && !reports.value;
  }

  /** A read about the node's IPv6 fails that was needed: no earlier answer had settled it. */
  predicate IPv6Fails(w: Readings, site: Site, id: NodeId) {
    && id in w.edges && w.edges[id].active && w.edges[id].ipv6 != "" && !w.edges[id].upgradeReported
    && (|| w.upgradeStored(id).None?
        || (&& w.upgradeStored(id) == Some(false)
            && (|| w.desired(id).None?
                || (&& 0 < w.desired(id).value <= w.edges[id].applied
                    && (|| w.publishing(id).None?
                        || (&& w.publishing(id) == Some(false)
                            && (|| w.eligible(id).None?
                                || (&& w.eligible(id) == Some(true)
                                    && (|| w.reportsSite(id).None?
                                        || (&& (site.tcpOnly || w.reportsSite(id) == Some(true))
                                            && w.siteIPv6Eligible(id).None?))))))))))
  }

  lemma IPv6FailsIff(w: Readings, site: Site, id: NodeId)
    ensures IPv6Ready(w, site, id).None? <==> IPv6Fails(w, site, id)
  {
    var stored, publishing, eligible, reports :=
      w.upgradeStored(id), w.publishing(id), w.eligible(id), w.reportsSite(id);
    assert stored.Some? ==> stored == Some(stored.value);
    assert publishing.Some? ==> publishing == Some(publishing.value);
    assert eligible.Some? ==> eligible == Some(eligible.value);
    assert reports.Some? ==> reports == Some(reports.value);
  }

  /** The IPv6 pool cannot be told exactly when the site has IPv6 and a needed read fails on a
      primary, or on a standby while no primary is ready. */
  lemma IPv6UnreadIff(w: Readings, site: Site)
    ensures IPv6Unread(w, site) <==>
            && site.ipv6Enabled
            && (|| (exists id <- site.primary :: IPv6Fails(w, site, id))
                || (&& (forall id <- site.primary :: IPv6Ready(w, site, id) != Some(true))
                    && exists id <- site.standby :: IPv6Fails(w, site, id)))
  {
    IPv6OfIff(w, site, site.primary);
    if IPv6Of(w, site, site.primary) != [] {
      var ready := IPv6Of(w, site, site.primary)[0];
      assert ready in IPv6Of(w, site, site.primary);
    }
    forall id | id in site.primary + site.standby
      ensures IPv6Ready(w, site, id).None? <==> IPv6Fails(w, site, id)
    {
      IPv6FailsIff(w, site, id);
    }
  }

  /** Records are sent exactly when the attempt goes on, its publication is current, no task or
      drain of the site is under way, every node consulted is settled, and either a healthy one is
      found (and any IPv6 reading needed answers), or all are out of service and the publication is
      still the current one. */
  lemma SendIff(w: Readings, site: Site, token: Option<nat>)
    ensures Decide(w, site, token).Send? <==>
            && !w.cancelled && !w.cancelledBeforeWrite && (token.Some? ==> w.current == Some(true))
            && w.publishTask == Some(false) && w.drainsConverging == Some(false)
            && (forall id <- Looked(w, site) :: Settles(w, id))
            && if exists id <- Looked(w, site) :: Fit(w, id) then !IPv6Unread(w, site)
               else
                 && (forall id <- Looked(w, site) :: OutOfService(w, id))
                 && (token.Some? ==> w.currentBeforeClear == Some(true))
  {
    StandingsOf(w, site.primary + site.standby);
    PrimariesAreConsulted(w, site);
    ConsultedIsLooked(w, site);
    PoolIsEmptyIff(w, site);
    SettledIff(w, Consulted(w, site));
    assert w.currentBeforeClear.Some? && w.currentBeforeClear.value ==> w.currentBeforeClear == Some(true);
    if AllSettled(w, Consulted(w, site)) && Pool(w, site) == [] {
      assert AnyActive(w, Consulted(w, site)) <==> exists id <- Looked(w, site) :: !OutOfService(w, id);
    }
  }

  /** No healthy node is reported exactly when the gates are quiet, every node consulted is
      settled, none is fit, and some is at rest but fails its checks. */
  lemma NoHealthyFromReadings(w: Readings, site: Site, token: Option<nat>)
    ensures Decide(w, site, token).NothingHealthy? <==>
            && !w.cancelled && (token.Some? ==> w.current == Some(true))
            && w.publishTask == Some(false) && w.drainsConverging == Some(false)
            && (forall id <- Looked(w, site) :: Settles(w, id) && !Fit(w, id))
            && exists id <- Looked(w, site) :: AtRest(w, id) && FailsChecks(w, id)
  {
    StandingsOf(w, site.primary + site.standby);
    ConsultedIsLooked(w, site);
    NothingHealthyIff(w, site, token);
    forall id | id in Looked(w, site)
      ensures StandingOf(w, id) == Unfit <==> AtRest(w, id) && FailsChecks(w, id)
      ensures StandingOf(w, id).Idle? || StandingOf(w, id).Unfit? <==> Settles(w, id) && !Fit(w, id)
    {
      StandingIff(w, id);
    }
  }

  /** An attempt fails, rather than waiting for the next one, exactly when it is cancelled or a
      read that it needed fails: of a gate, of a primary, of any node looked at while no primary is
      in transit, of IPv6, or of the publication before everything is removed. */
  lemma GiveUpIff(w: Readings, site: Site, token: Option<nat>)
    ensures Decide(w, site, token) == GiveUp <==>
            || w.cancelled || (token.Some? && w.current.None?)
            || ((token.Some? ==> w.current == Some(true))
                && (|| w.publishTask.None?
                    || (w.publishTask == Some(false)
                        && (w.drainsConverging.None?
                            || (w.drainsConverging == Some(false) && NodesGiveUp(w, site, token))))))
  {
    assert w.publishTask.Some? ==> w.publishTask == Some(w.publishTask.value);
    assert w.drainsConverging.Some? ==> w.drainsConverging == Some(w.drainsConverging.value);
    assert w.current.Some? ==> w.current == Some(w.current.value);
    if Settled(w, token) { NodesGiveUpIff(w, site, token); }
  }

  predicate Unreadable(w: Readings, id: NodeId) {
    !Settles(w, id) && !InTransit(w, id)
  }

  predicate NodesGiveUp(w: Readings, site: Site, token: Option<nat>) {
    || (exists id <- site.primary :: Unreadable(w, id))
    || ((forall id <- site.primary :: !InTransit(w, id)) && exists id <- Looked(w, site) :: Unreadable(w, id))
    || ((forall id <- Looked(w, site) :: Settles(w, id))
        && if exists id <- Looked(w, site) :: Fit(w, id) then IPv6Unread(w, site) || w.cancelledBeforeWrite
           else (forall id <- Looked(w, site) :: OutOfService(w, id))
                && (w.cancelledBeforeWrite || (token.Some? && w.currentBeforeClear.None?)))
  }

  lemma NodesGiveUpIff(w: Readings, site: Site, token: Option<nat>)
    ensures DecideByNodes(w, site, token) == GiveUp <==> NodesGiveUp(w, site, token)
  {
    ConsultedIsLooked(w, site);
    PrimariesAreConsulted(w, site);
    PoolIsEmptyIff(w, site);
    AnyIff(w, site.primary);
    AnyIff(w, Looked(w, site));
    SettledIff(w, Consulted(w, site));
  }

  lemma AnyIff(w: Readings, ids: seq<NodeId>)
    ensures AnyUnread(w, ids) <==> exists id <- ids :: Unreadable(w, id)
    ensures AnyConverging(w, ids) <==> exists id <- ids :: InTransit(w, id)
    ensures AllSettled(w, ids) <==> forall id <- ids :: Settles(w, id)
    ensures (exists id <- ids :: Fit(w, id)) <==> exists id <- ids :: StandingOf(w, id) == Healthy
    ensures AllSettled(w, ids) ==> (AnyActive(w, ids) <==> !forall id <- ids :: OutOfService(w, id))
  {
    forall id | id in ids
      ensures StandingOf(w, id) == Unread <==> Unreadable(w, id)
      ensures Converging(w, id) <==> InTransit(w, id)
      ensures StandingOf(w, id) == Healthy <==> Fit(w, id)
      ensures StandingOf(w, id).IsSettled() <==> Settles(w, id)
      ensures StandingOf(w, id) == Idle <==> OutOfService(w, id)
    {
      StandingIff(w, id);
    }
  }

  predicate Fit(w: Readings, id: NodeId) { AtRest(w, id) && PassesChecks(w, id) }

  predicate Settles(w: Readings, id: NodeId) {
    Fit(w, id) || (AtRest(w, id) && FailsChecks(w, id)) || OutOfService(w, id)
  }

  /** The primaries, and the standbys as well when no primary is fit. */
  function Looked(w: Readings, site: Site): seq<NodeId> {
    if exists id <- site.primary :: Fit(w, id) then site.primary else site.primary + site.standby
  }

  lemma StandingsOf(w: Readings, ids: seq<NodeId>)
    ensures forall id <- ids ::
              && (StandingOf(w, id) == Healthy <==> Fit(w, id))
              && (StandingOf(w, id) == Idle <==> OutOfService(w, id))
              && (StandingOf(w, id).IsSettled() <==> Settles(w, id))
  {
    forall id | id in ids
      ensures StandingOf(w, id) == Healthy <==> Fit(w, id)
      ensures StandingOf(w, id) == Idle <==> OutOfService(w, id)
      ensures StandingOf(w, id).IsSettled() <==> Settles(w, id)
    {
      StandingIff(w, id);
    }
  }

  lemma ConsultedIsLooked(w: Readings, site: Site)
    ensures Consulted(w, site) == Looked(w, site)
  {
    HealthyOfIff(w, site.primary);
    StandingsOf(w, site.primary);
    if HealthyOf(w, site.primary) != [] {
      var id := HealthyOf(w, site.primary)[0];
      assert id in HealthyOf(w, site.primary);
      assert Fit(w, id);
    }
  }

  /** The A records sent, by the readings alone: one for each domain and each fit node of one pool. */
  lemma RecordsFromReadings(w: Readings, site: Site, token: Option<nat>, r: Record)
    requires Decide(w, site, token).Send? && r.kind == A
    ensures r in Decide(w, site, token).records <==>
            && r.name in site.domains && r.site == site.id && r.ttl == site.ttl
            && Fit(w, r.node) && r.content == w.edges[r.node].ipv4
            && (if exists id <- site.primary :: Fit(w, id) then r.node in site.primary else r.node in site.standby)
  {
    RecordsFromOnePool(w, site, token, r);
    StandingIff(w, r.node);
    assert Fit(w, r.node) <==> r.node in w.edges && StandingOf(w, r.node) == Healthy;
    StandingsOf(w, site.primary);
    NothingSentWhileUnsettled(w, site, token);
    NoHealthyPrimarySettles(w, site);
    if exists id <- site.primary :: Fit(w, id) {
      var fit :| fit in site.primary && Fit(w, fit);
      assert StandingOf(w, fit) == Healthy;
    } else {
      assert forall id <- site.primary :: StandingOf(w, id) != Healthy;
      assert forall id <- site.primary :: StandingOf(w, id).Idle? || StandingOf(w, id).Unfit?;
    }
  }

  lemma NoHealthyPrimarySettles(w: Readings, site: Site)
    requires AllSettled(w, Consulted(w, site))
    ensures forall id <- site.primary :: StandingOf(w, id).IsSettled()
  {
    PrimariesAreConsulted(w, site);
  }

  // --------------------------------------------------------------------- starting timers

  /** The tables after the provider accepted the records: timers start for the publication the
      attempt belongs to, or not at all. */
  function Marked(c: Control, a: Attempt, ttl: int, listing: seq<Slot>, at: int): Control
    requires IsListing(c, a.site, listing)
  {
    var provider := AtLeastOne(ttl, DEFAULT_DNS_TTL);
    if !Current(c, a) then c
    else Started(c, a, provider, LongestTTL(Max(provider, a.publicationTTL), Listed(c, listing)), at)
  }

  /** With nothing in between, one reconciliation is a measurement and a mark of the drains' life. */
  lemma MarkedIsMeasureThenMark(l: Life, id: AttemptId, ttl: int, listing: seq<Slot>, at: int)
    requires id in l.attempts && l.attempts[id].phase == Written && IsListing(l.c, l.attempts[id].site, listing)
    ensures var measured := MeasureStep(l, id, ttl, listing);
            && measured.attempts[id].phase.Measured?
            && MarkStep(measured, id, at).c == Marked(l.c, l.attempts[id], ttl, listing, at)
  {
  }

  /** The attempt, once the provider has accepted its records: it may name the site's own nodes. */
  function AsWritten(site: Site, token: nat, publicationTTL: int): Attempt {
    Attempt(site.id, token, site.primary + site.standby, publicationTTL, Written)
  }

  /** Whatever is sent names nodes of the attempt's site only. */
  lemma RecordsNameOwnNodes(w: Readings, site: Site, token: nat, publicationTTL: int, r: Record)
    requires Decide(w, site, Some(token)).Send? && r in Decide(w, site, Some(token)).records
    ensures r.site == site.id && r.node in AsWritten(site, token, publicationTTL).nodes
  {
    if r.kind == A {
      RecordsFromOnePool(w, site, Some(token), r);
    } else {
      IPv6RecordsFromOnePool(w, site, Some(token), r);
    }
  }

  /** Whatever is sent names only active nodes that have applied their stored state. */
  lemma NamedNodesHaveApplied(w: Readings, site: Site, token: Option<nat>, r: Record)
    requires Decide(w, site, token).Send? && r in Decide(w, site, token).records
    ensures r.node in w.edges && w.edges[r.node].active && Upgrading(w, r.node) == Some(false)
    ensures w.desired(r.node).Some? && w.edges[r.node].applied >= w.desired(r.node).value > 0
  {
    if r.kind == A {
      RecordsFromOnePool(w, site, token, r);
    } else {
      IPv6RecordsFromOnePool(w, site, token, r);
    }
  }

  // ------------------------------------------------------------------- the health manager

  datatype Outcome = Errored | Quiet | NoHealthy

  class HealthManager {
    var control: Control
    var provider: map<SiteId, seq<Record>>

    constructor (c: Control)
      ensures control == c && provider == map[]
    {
      control, provider := c, map[];
    }

    method NodeUpgradeInProgress(w: Readings, id: NodeId) returns (upgrading: Option<bool>)
      requires id in w.edges
      ensures upgrading == Upgrading(w, id)
    {
      if w.edges[id].upgradeReported { return Some(true); }
      return w.upgradeStored(id);
    }

    /** One node's standing, read in order and no further than needed. */
    method Inspect(w: Readings, id: NodeId) returns (standing: Standing)
      ensures standing == StandingOf(w, id)
    {
      if id !in w.edges { return Idle; }
      var upgrading := NodeUpgradeInProgress(w, id);
      if upgrading.None? { return Unread; }
      if !w.edges[id].active { return if upgrading.value then IdleConverging else Idle; }
      if upgrading.value { return ActiveConverging; }
      var desired := w.desired(id);
      if desired.None? { return Unread; }
      if desired.value == 0 || w.edges[id].applied < desired.value { return ActiveConverging; }
      var publishing := w.publishing(id);
      if publishing.None? { return Unread; }
      if publishing.value { return ActiveConverging; }
      var eligible := w.eligible(id);
      if eligible.None? { return Unread; }
      if !eligible.value { return Unfit; }
      var reports := w.reportsSite(id);
      if reports.None? { return Unread; }
      if reports.value {
        var siteEligible := w.siteEligible(id);
        if siteEligible.None? { return Unread; }
        if !siteEligible.value { return Unfit; }
      }
      return Healthy;
    }

    method SiteNodePool(w: Readings, ids: seq<NodeId>)
      returns (ok: bool, healthy: seq<NodeId>, active: nat, converging: nat)
      ensures ok == !AnyUnread(w, ids)
      ensures ok ==> healthy == HealthyOf(w, ids)
      ensures ok ==> (active > 0 <==> AnyActive(w, ids)) && (converging > 0 <==> AnyConverging(w, ids))
    {
      ok, healthy, active, converging := true, [], 0, 0;
      for i := 0 to |ids|
        invariant ok && !AnyUnread(w, ids[..i])
        invariant healthy == HealthyOf(w, ids[..i])
        invariant active > 0 <==> AnyActive(w, ids[..i])
        invariant converging > 0 <==> AnyConverging(w, ids[..i])
      {
        OneMoreStanding(w, ids, i);
        var standing := Inspect(w, ids[i]);
        if standing == Unread {
          assert ids[i] in ids;
          ok := false;
          return;
        }
        if standing.IsActive() { active := active + 1; }
        if standing.IsConverging() { converging := converging + 1; }
        if standing == Healthy { healthy := healthy + [ids[i]]; }
      }
      assert ids[..|ids|] == ids;
    }

    method SiteIPv6NodePool(w: Readings, site: Site, ids: seq<NodeId>) returns (ok: bool, ready: seq<NodeId>)
      ensures ok == !AnyIPv6Unread(w, site, ids)
      ensures ok ==> ready == IPv6Of(w, site, ids)
    {
      ok, ready := true, [];
      for i := 0 to |ids|
        invariant ok && !AnyIPv6Unread(w, site, ids[..i])
        invariant ready == IPv6Of(w, site, ids[..i])
      {
        assert ids[..i + 1] == ids[..i] + [ids[i]];
        assert ids[..i + 1][..i] == ids[..i];
        var answer := IPv6Ready(w, site, ids[i]);
        if answer.None? {
          assert ids[i] in ids;
          ok := false;
          return;
        }
        if answer.value { ready := ready + [ids[i]]; }
      }
      assert ids[..|ids|] == ids;
    }

    method SiteIPv6Nodes(w: Readings, site: Site) returns (ok: bool, ready: seq<NodeId>)
      requires site.ipv6Enabled
      ensures ok == !IPv6Unread(w, site)
      ensures ok ==> ready == IPv6Pool(w, site)
    {
      ok, ready := SiteIPv6NodePool(w, site, site.primary);
      if !ok || ready != [] || site.standby == [] { return; }
      ok, ready := SiteIPv6NodePool(w, site, site.standby);
    }

    method AppendNodeRecords(w: Readings, site: Site, kind: Kind, id: NodeId, before: seq<Record>)
      returns (records: seq<Record>)
      requires id in w.edges
      ensures records == before + NodeRecords(w, site, kind, id)
    {
      records := before;
      ghost var all := NodeRecords(w, site, kind, id);
      var content := if kind == A then w.edges[id].ipv4 else w.edges[id].ipv6;
      for k := 0 to |site.domains|
        invariant records == before + all[..k]
      {
        records := records + [Record(kind, site.domains[k], content, id, site.id, site.ttl)];
        assert all[..k + 1] == all[..k] + [all[k]];
      }
      assert all[..|site.domains|] == all;
    }

    method AppendRecords(w: Readings, site: Site, kind: Kind, ids: seq<NodeId>, before: seq<Record>)
      returns (records: seq<Record>)
      requires forall id <- ids :: id in w.edges
      ensures records == before + RecordsFor(w, site, kind, ids)
    {
      records := before;
      for i := 0 to |ids|
        invariant records == before + RecordsFor(w, site, kind, ids[..i])
      {
        OneMoreNode(w, site, kind, ids, i, before);
        records := AppendNodeRecords(w, site, kind, ids[i], records);
      }
      assert ids[..|ids|] == ids;
    }

    /** The longest TTL of the publication, the provider and the drains listed for the site. */
    method DrainTTL(a: Attempt, ttl: int) returns (longest: int, listing: seq<Slot>)
      ensures IsListing(control, a.site, listing)
      ensures longest == LongestTTL(Max(AtLeastOne(ttl, DEFAULT_DNS_TTL), a.publicationTTL), Listed(control, listing))
    {
      longest := ttl;
      if longest < 1 { longest := DEFAULT_DNS_TTL; }
      if a.publicationTTL > longest { longest := a.publicationTTL; }
      ghost var start := longest;
      listing := [];
      var left := control.drains.Keys;
      while left != {}
        invariant left <= control.drains.Keys
        invariant forall slot <- listing :: slot in control.drains && slot.site == a.site
        invariant forall slot <- control.drains :: slot.site == a.site && slot !in left ==> slot in listing
        invariant longest == LongestTTL(start, Listed(control, listing))
      {
        var slot :| slot in left;
        left := left - {slot};
        if slot.site == a.site {
          var drain := control.drains[slot];
          OneMoreDrain(control, listing, slot, start);
          listing := listing + [slot];
          if drain.ttl > longest { longest := drain.ttl; }
          if drain.snapshot.dnsTTL.Some? && drain.snapshot.dnsTTL.value > longest {
            longest := drain.snapshot.dnsTTL.value;
          }
        }
      }
    }

    method MarkSiteNodeDrainsDNSReady(a: Attempt, ttl: int, at: int) returns (listing: seq<Slot>)
      modifies `control
      ensures IsListing(old(control), a.site, listing)
      ensures control == Marked(old(control), a, ttl, listing, at)
    {
      var longest;
      longest, listing := DrainTTL(a, ttl);
      if Current(control, a) {
        control := Started(control, a, AtLeastOne(ttl, DEFAULT_DNS_TTL), longest, at);
      }
    }

    /** Sends a record set; timers start only once the provider has accepted it. */
    method SendRecords(w: Readings, site: Site, token: Option<nat>, publicationTTL: int, records: seq<Record>, at: int)
      returns (outcome: Outcome, listing: seq<Slot>)
      modifies this
      ensures provider == if w.writeAccepted then old(provider)[site.id := records] else old(provider)
      ensures IsListing(old(control), site.id, listing) || listing == []
      ensures if w.writeAccepted && token.Some? && w.markAnswers
              then IsListing(old(control), site.id, listing)
                   && control == Marked(old(control), AsWritten(site, token.value, publicationTTL), site.ttl,
                                        listing, at)
              else control == old(control)
      ensures outcome == if w.writeAccepted && (token.Some? ==> w.markAnswers) then Quiet else Errored
    {
      listing := [];
      if !w.writeAccepted { return Errored, listing; }
      provider := provider[site.id := records];
      if token.Some? {
        if !w.markAnswers { return Errored, listing; }
        listing := MarkSiteNodeDrainsDNSReady(AsWritten(site, token.value, publicationTTL), site.ttl, at);
      }
      return Quiet, listing;
    }

    /** One reconciliation of a site's records. Nothing is sent, and no timer starts, unless
        the decision is to send. */
    method ReconcileSiteDNS(w: Readings, site: Site, token: Option<nat>, publicationTTL: int, at: int)
      returns (outcome: Outcome, listing: seq<Slot>)
      modifies this
      ensures match Decide(w, site, token)
              case GiveUp => outcome == Errored && provider == old(provider) && control == old(control)
              case Hold => outcome == Quiet && provider == old(provider) && control == old(control)
              case NothingHealthy => outcome == NoHealthy && provider == old(provider) && control == old(control)
              case Send(records) =>
                && provider == (if w.writeAccepted then old(provider)[site.id := records] else old(provider))
                && outcome == (if w.writeAccepted && (token.Some? ==> w.markAnswers) then Quiet else Errored)
                && if w.writeAccepted && token.Some? && w.markAnswers
                   then IsListing(old(control), site.id, listing)
                        && control == Marked(old(control), AsWritten(site, token.value, publicationTTL),
                                             site.ttl, listing, at)
                   else control == old(control)
    {
      listing := [];
      var decision := Choose(w, site, token);
      match decision {
        case GiveUp => outcome := Errored;
        case Hold => outcome := Quiet;
        case NothingHealthy => outcome := NoHealthy;
        case Send(records) => outcome, listing := SendRecords(w, site, token, publicationTTL, records, at);
      }
    }

    /** A disabled publication has its records removed, and its drains' timers started, without a
        look at tasks, converging drains or nodes. */
    method ClearSiteDNS(w: Readings, site: Site, token: Option<nat>, publicationTTL: int, at: int)
      returns (outcome: Outcome, listing: seq<Slot>)
      modifies this
      ensures match ClearDecision(w, token)
              case GiveUp => outcome == Errored && provider == old(provider) && control == old(control)
              case Hold => outcome == Quiet && provider == old(provider) && control == old(control)
              case Send(records) =>
                && records == []
                && provider == (if w.writeAccepted then old(provider)[site.id := []] else old(provider))
                && outcome == (if w.writeAccepted && (token.Some? ==> w.markAnswers) then Quiet else Errored)
                && if w.writeAccepted && token.Some? && w.markAnswers
                   then IsListing(old(control), site.id, listing)
                        && control == Marked(old(control), AsWritten(site, token.value, publicationTTL),
                                             site.ttl, listing, at)
                   else control == old(control)
              case NothingHealthy => false
    {
      listing := [];
      var decision := Clear(w, token);
      match decision {
        case GiveUp => outcome := Errored;
        case Hold => outcome := Quiet;
        case Send(records) => outcome, listing := SendRecords(w, site, token, publicationTTL, records, at);
      }
    }

    method Choose(w: Readings, site: Site, token: Option<nat>) returns (decision: Decision)
      ensures decision == Decide(w, site, token)
    {
      var gate := Gate(w, token);
      if gate == Errored { return GiveUp; }
      if gate == Quiet { return Hold; }
      var pools, healthy, active := ConsultPools(w, site);
      if pools == Errored { return GiveUp; }
      if pools == Quiet { return Hold; }
      if healthy == [] {
        if active > 0 { return NothingHealthy; }
        decision := Clear(w, token);
        return;
      }
      var ok, desired := DesiredRecords(w, site, healthy);
      if !ok || w.cancelledBeforeWrite { return GiveUp; }
      return Send(desired);
    }

    method Clear(w: Readings, token: Option<nat>) returns (decision: Decision)
      ensures decision == ClearDecision(w, token)
    {
      if w.cancelledBeforeWrite { return GiveUp; }
      if token.Some? {
        if w.currentBeforeClear.None? { return GiveUp; }
        if !w.currentBeforeClear.value { return Hold; }
      }
      return Send([]);
    }

    method DesiredRecords(w: Readings, site: Site, healthy: seq<NodeId>) returns (ok: bool, desired: seq<Record>)
      requires healthy == Pool(w, site)
      ensures ok == !IPv6Unread(w, site)
      ensures ok ==> desired == AllRecords(w, site)
    {
      var ipv6 := [];
      ok, desired := true, [];
      if site.ipv6Enabled {
        ok, ipv6 := SiteIPv6Nodes(w, site);
        if !ok { return; }
      }
      desired := AppendRecords(w, site, A, healthy, []);
      assert [] + RecordsFor(w, site, A, healthy) == RecordsFor(w, site, A, healthy);
      desired := AppendRecords(w, site, AAAA, ipv6, desired);
    }

    /** Looks at the primaries, and at the standbys when no primary is healthy; `NoHealthy`
        stands for going on with the pool found. */
    method ConsultPools(w: Readings, site: Site) returns (outcome: Outcome, healthy: seq<NodeId>, active: nat)
      ensures outcome == Errored <==>
                AnyUnread(w, site.primary) || (!AnyConverging(w, site.primary) && AnyUnread(w, Consulted(w, site)))
      ensures outcome == Quiet <==>
                !AnyUnread(w, site.primary)
                && (AnyConverging(w, site.primary)
                    || (!AnyUnread(w, Consulted(w, site)) && AnyConverging(w, Consulted(w, site))))
      ensures outcome == NoHealthy ==> healthy == Pool(w, site) && (active > 0 <==> AnyActive(w, Consulted(w, site)))
    {
      var ok, converging;
      ok, healthy, active, converging := SiteNodePool(w, site.primary);
      if !ok { return Errored, healthy, active; }
      if converging > 0 { return Quiet, healthy, active; }
      if healthy != [] { return NoHealthy, healthy, active; }
      ConsultedWithStandby(w, site);
      if site.standby == [] { return NoHealthy, healthy, active; }
      var standbyActive, standbyConverging;
      ok, healthy, standbyActive, standbyConverging := SiteNodePool(w, site.standby);
      if !ok { return Errored, healthy, active; }
      active := active + standbyActive;
      if standbyConverging > 0 { return Quiet, healthy, active; }
      return NoHealthy, healthy, active;
    }

    /** The gates before any node is looked at; `NoHealthy` stands for going on. */
    method Gate(w: Readings, token: Option<nat>) returns (outcome: Outcome)
      ensures outcome == if GateFails(w, token) then Errored else if !Settled(w, token) then Quiet else NoHealthy
    {
      if w.cancelled { return Errored; }
      if token.Some? {
        if w.current.None? { return Errored; }
        if !w.current.value { return Quiet; }
      }
      if w.publishTask.None? { return Errored; }
      if w.publishTask.value { return Quiet; }
      if w.drainsConverging.None? { return Errored; }
      if w.drainsConverging.value { return Quiet; }
      return NoHealthy;
    }
  }

  lemma ConsultedWithStandby(w: Readings, site: Site)
    requires HealthyOf(w, site.primary) == []
    ensures AnyUnread(w, site.primary + site.standby) == (AnyUnread(w, site.primary) || AnyUnread(w, site.standby))
    ensures AnyConverging(w, site.primary + site.standby)
         == (AnyConverging(w, site.primary) || AnyConverging(w, site.standby))
    ensures AnyActive(w, site.primary + site.standby) == (AnyActive(w, site.primary) || AnyActive(w, site.standby))
  {
  }

  lemma OneMoreStanding(w: Readings, ids: seq<NodeId>, i: nat)
    requires i < |ids|
    ensures AnyUnread(w, ids[..i + 1]) == (AnyUnread(w, ids[..i]) || StandingOf(w, ids[i]) == Unread)
    ensures AnyActive(w, ids[..i + 1]) == (AnyActive(w, ids[..i]) || CountsAsActive(w, ids[i]))
    ensures AnyConverging(w, ids[..i + 1]) == (AnyConverging(w, ids[..i]) || Converging(w, ids[i]))
    ensures HealthyOf(w, ids[..i + 1])
         == HealthyOf(w, ids[..i]) + if StandingOf(w, ids[i]) == Healthy then [ids[i]] else []
  {
    assert ids[..i + 1] == ids[..i] + [ids[i]];
    assert ids[..i + 1][..i] == ids[..i];
  }

  lemma OneMoreNode(w: Readings, site: Site, kind: Kind, ids: seq<NodeId>, i: nat, before: seq<Record>)
    requires i < |ids| && forall id <- ids :: id in w.edges
    ensures before + RecordsFor(w, site, kind, ids[..i + 1])
         == before + RecordsFor(w, site, kind, ids[..i]) + NodeRecords(w, site, kind, ids[i])
  {
    assert ids[..i + 1][..i] == ids[..i];
  }

  lemma OneMoreDrain(c: Control, listing: seq<Slot>, slot: Slot, start: int)
    requires slot in c.drains && forall other <- listing :: other in c.drains
    ensures LongestTTL(start, Listed(c, listing + [slot]))
         == Max(Max(LongestTTL(start, Listed(c, listing)), c.drains[slot].ttl),
                if c.drains[slot].snapshot.dnsTTL.Some? then c.drains[slot].snapshot.dnsTTL.value
                else LongestTTL(start, Listed(c, listing)))
  {
    var longer := Listed(c, listing + [slot]);
    assert longer[..|longer| - 1] == Listed(c, listing);
  }
}
