/**
 Adaptive sampling demand (machine_status.go): browser subscribers create demand
 on a node, a grace timer keeps it for a while after the last one leaves, and the
 node's agent learns the sampling policy over a channel of capacity one that keeps
 only the newest value.

 Every method is one critical section under the status mutex. Receivers do not
 take the mutex, so a receive can fall inside a notification.
 */
module MachineDemand {
  import opened Common

  type NodeId = string
  type SubscriberId = nat
  type TimerId = nat

  datatype Policy = Policy(hostSeconds: nat, networkSeconds: nat, originSeconds: nat)

  const ACTIVE_POLICY: Policy := Policy(5, 1, 5)
  const INACTIVE_POLICY: Policy := Policy(60, 0, 5)

  /** A policy stream: the buffered value, what the receiver saw last, and whether it is closed. */
  datatype PolicyChannel = PolicyChannel(pending: Option<Policy>, last: Policy, closed: bool)
  {
    /** The policy the receiver has, or will have once it empties the buffer. */
    function Settled(): Policy {
      if pending.Some? then pending.value else last
    }
  }

  datatype WakeUp = WakeUp(pending: bool, closed: bool)

  datatype Report = Host | Network | Origin

  /** Which machine status features a node's agent reports. */
  datatype Profile = Profile(supported: bool, stream: bool, adaptive: bool)

  datatype Series = Series(node: NodeId, kind: Report)

  datatype Demand = Demand(
    active: set<NodeId>,
    timers: map<NodeId, TimerId>,
    viewers: map<SubscriberId, NodeId>,           // registered status subscribers
    agents: map<SubscriberId, NodeId>,            // registered policy subscribers
    wakeUps: map<SubscriberId, WakeUp>,
    streams: map<SubscriberId, PolicyChannel>,
    collected: map<Series, int>,                  // when the newest report was collected
    profiles: map<NodeId, Profile>,
    lastViewer: nat, lastAgent: nat, lastTimer: nat)

  const IDLE: Demand := Demand({}, map[], map[], map[], map[], map[], map[], map[], 0, 0, 0)

  predicate Serves(registered: map<SubscriberId, NodeId>, id: SubscriberId, node: NodeId) {
    id in registered && registered[id] == node
  }

  predicate Watched(viewers: map<SubscriberId, NodeId>, node: NodeId) {
    exists id <- viewers :: Serves(viewers, id, node)
  }

  function PolicyFor(d: Demand, node: NodeId): Policy {
    if node in d.active then ACTIVE_POLICY else INACTIVE_POLICY
  }

  // ---------------------------------------------------------------- channel steps

  /** A conflating send. `taken` says that the receiver empties the buffer after the
      first send was refused. */
  function Sent(c: PolicyChannel, policy: Policy, taken: bool): PolicyChannel {
    PolicyChannel(Some(policy), if c.pending.Some? && taken then c.pending.value else c.last, c.closed)
  }

  function Notified(streams: map<SubscriberId, PolicyChannel>, agents: map<SubscriberId, NodeId>, node: NodeId,
                    policy: Policy, taken: set<SubscriberId>): map<SubscriberId, PolicyChannel> {
    map id | id in streams :: if Serves(agents, id, node) then Sent(streams[id], policy, id in taken) else streams[id]
  }

  function Woken(wakeUps: map<SubscriberId, WakeUp>, viewers: map<SubscriberId, NodeId>, node: NodeId)
    : map<SubscriberId, WakeUp>
  {
    map id | id in wakeUps :: if Serves(viewers, id, node) then wakeUps[id].(pending := true) else wakeUps[id]
  }

  function Shut(streams: map<SubscriberId, PolicyChannel>, agents: map<SubscriberId, NodeId>, node: NodeId)
    : map<SubscriberId, PolicyChannel>
  {
    map id | id in streams :: if Serves(agents, id, node) then streams[id].(closed := true) else streams[id]
  }

  function Hushed(wakeUps: map<SubscriberId, WakeUp>, viewers: map<SubscriberId, NodeId>, node: NodeId)
    : map<SubscriberId, WakeUp>
  {
    map id | id in wakeUps :: if Serves(viewers, id, node) then wakeUps[id].(closed := true) else wakeUps[id]
  }

  function Elsewhere(registered: map<SubscriberId, NodeId>, node: NodeId): map<SubscriberId, NodeId> {
    map id | id in registered && registered[id] != node :: registered[id]
  }

  // -------------------------------------------------------------- demand as steps

  datatype Event =
    | Subscribe(viewed: NodeId, taken: set<SubscriberId>)
    | Unsubscribe(left: NodeId, viewer: SubscriberId)
    | Expire(expired: NodeId, timer: TimerId, takenToo: set<SubscriberId>)
    | Attach(attached: NodeId)
    | Detach(detached: NodeId, agent: SubscriberId)
    | Clear(cleared: NodeId)
    | Arrive(series: Series, at: int)
    | SeedProfile(seeded: NodeId, initial: Profile)
    | UpdateProfile(updated: NodeId, profile: Profile)
    | ReceivePolicy(receiver: SubscriberId)
    | ReceiveWakeUp(woken: SubscriberId)

  function SubscribeStep(d: Demand, node: NodeId, taken: set<SubscriberId>): Demand {
    var id := d.lastViewer + 1;
    d.(active := d.active + {node},
       timers := d.timers - {node},
       viewers := d.viewers[id := node],
       wakeUps := d.wakeUps[id := WakeUp(false, false)],
       streams := if node in d.active then d.streams
                  else Notified(d.streams, d.agents, node, ACTIVE_POLICY, taken),
       lastViewer := id)
  }

  function UnsubscribeStep(d: Demand, node: NodeId, id: SubscriberId): Demand {
    if !Serves(d.viewers, id, node) then d
    else
      var rest := d.(viewers := d.viewers - {id});
      if Watched(rest.viewers, node) then rest
      else rest.(timers := d.timers[node := d.lastTimer + 1], lastTimer := d.lastTimer + 1)
  }

  /** The id registered for a node, or the zero value of a missing entry. */
  function TimerOf(timers: map<NodeId, TimerId>, node: NodeId): TimerId {
    if node in timers then timers[node] else 0
  }

  function Deactivated(d: Demand, node: NodeId, taken: set<SubscriberId>): Demand {
    d.(active := d.active - {node}, streams := Notified(d.streams, d.agents, node, INACTIVE_POLICY, taken))
  }

  /** A timer may fire after it was stopped or replaced: any id may arrive. */
  function ExpireStep(d: Demand, node: NodeId, timer: TimerId, taken: set<SubscriberId>): Demand {
    if TimerOf(d.timers, node) != timer || Watched(d.viewers, node) then d
    else
      var idle := d.(timers := d.timers - {node});
      if node !in d.active then idle else Deactivated(idle, node, taken)
  }

  function AttachStep(d: Demand, node: NodeId): Demand {
    var id := d.lastAgent + 1;
    d.(agents := d.agents[id := node],
       streams := d.streams[id := PolicyChannel(None, PolicyFor(d, node), false)],
       lastAgent := id)
  }

  function DetachStep(d: Demand, node: NodeId, id: SubscriberId): Demand {
    if !Serves(d.agents, id, node) then d else d.(agents := d.agents - {id})
  }

  function Forgotten(collected: map<Series, int>, node: NodeId): map<Series, int> {
    map s | s in collected && s.node != node :: collected[s]
  }

  function ClearStep(d: Demand, node: NodeId): Demand {
    d.(active := d.active - {node}, timers := d.timers - {node},
       viewers := Elsewhere(d.viewers, node), agents := Elsewhere(d.agents, node),
       wakeUps := Hushed(d.wakeUps, d.viewers, node), streams := Shut(d.streams, d.agents, node),
       collected := Forgotten(d.collected, node),
       profiles := d.profiles - {node})
  }

  predicate Newer(collected: map<Series, int>, series: Series, at: int) {
    series in collected ==> collected[series] < at
  }

  function ArriveStep(d: Demand, series: Series, at: int): Demand {
    if !Newer(d.collected, series, at) then d
    else d.(collected := d.collected[series := at], wakeUps := Woken(d.wakeUps, d.viewers, series.node))
  }

  function SeedProfileStep(d: Demand, node: NodeId, profile: Profile): Demand {
    if node in d.profiles then d else d.(profiles := d.profiles[node := profile])
  }

  /** A changed profile is news for the watchers of the node. */
  function UpdateProfileStep(d: Demand, node: NodeId, profile: Profile): Demand {
    if node in d.profiles && d.profiles[node] == profile then d
    else d.(profiles := d.profiles[node := profile], wakeUps := Woken(d.wakeUps, d.viewers, node))
  }

  function ReceivePolicyStep(d: Demand, id: SubscriberId): Demand {
    if id in d.streams && d.streams[id].pending.Some? then
      d.(streams := d.streams[id := PolicyChannel(None, d.streams[id].pending.value, d.streams[id].closed)])
    else d
  }

  function ReceiveWakeUpStep(d: Demand, id: SubscriberId): Demand {
    if id in d.wakeUps then d.(wakeUps := d.wakeUps[id := d.wakeUps[id].(pending := false)]) else d
  }

  function Step(d: Demand, e: Event): Demand {
    match e
    case Subscribe(node, taken) => SubscribeStep(d, node, taken)
    case Unsubscribe(node, id) => UnsubscribeStep(d, node, id)
    case Expire(node, timer, taken) => ExpireStep(d, node, timer, taken)
    case Attach(node) => AttachStep(d, node)
    case Detach(node, id) => DetachStep(d, node, id)
    case Clear(node) => ClearStep(d, node)
    case Arrive(series, at) => ArriveStep(d, series, at)
    case SeedProfile(node, profile) => SeedProfileStep(d, node, profile)
    case UpdateProfile(node, profile) => UpdateProfileStep(d, node, profile)
    case ReceivePolicy(id) => ReceivePolicyStep(d, id)
    case ReceiveWakeUp(id) => ReceiveWakeUpStep(d, id)
  }

  function Run(events: seq<Event>): Demand {
    if events == [] then IDLE else Step(Run(events[..|events| - 1]), events[|events| - 1])
  }

  // -------------------------------------------------------------------- invariants

  /** Demand on a node is active exactly when someone watches it or its grace timer is
      registered, and never both. */
  predicate Justified(d: Demand, node: NodeId) {
    && (node in d.active <==> node in d.timers || Watched(d.viewers, node))
    && !(node in d.timers && Watched(d.viewers, node))
    && (node in d.timers ==> 0 < d.timers[node] <= d.lastTimer)
  }

  ghost predicate DemandIsJustified(d: Demand) {
    forall node :: Justified(d, node)
  }

  predicate StreamsAreOpen(agents: map<SubscriberId, NodeId>, streams: map<SubscriberId, PolicyChannel>) {
    forall id <- agents :: id in streams && !streams[id].closed
  }

  predicate WakeUpsAreOpen(viewers: map<SubscriberId, NodeId>, wakeUps: map<SubscriberId, WakeUp>) {
    forall id <- viewers :: id in wakeUps && !wakeUps[id].closed
  }

  /** Registered subscribers have open channels, and ids are never reused. */
  predicate ChannelsAreOpen(d: Demand) {
    && WakeUpsAreOpen(d.viewers, d.wakeUps)
    && StreamsAreOpen(d.agents, d.streams)
    && (forall id <- d.wakeUps :: id <= d.lastViewer)
    && (forall id <- d.streams :: id <= d.lastAgent)
  }

  /** Every registered policy stream settles on its node's current policy. */
  predicate PoliciesAgree(d: Demand) {
    forall id <- d.agents :: id in d.streams && d.streams[id].Settled() == PolicyFor(d, d.agents[id])
  }

  ghost predicate Inv(d: Demand) {
    DemandIsJustified(d) && ChannelsAreOpen(d) && PoliciesAgree(d)
  }

  /** Who else watches a node does not depend on a viewer of another node. */
  lemma WatchedFrame(before: map<SubscriberId, NodeId>, after: map<SubscriberId, NodeId>, node: NodeId)
    requires forall id :: Serves(before, id, node) <==> Serves(after, id, node)
    ensures Watched(before, node) == Watched(after, node)
  {
    if Watched(before, node) {
      var id :| id in before && Serves(before, id, node);
      assert Serves(after, id, node);
    }
    if Watched(after, node) {
      var id :| id in after && Serves(after, id, node);
      assert Serves(before, id, node);
    }
  }

  lemma SubscribeKeepsInv(d: Demand, node: NodeId, taken: set<SubscriberId>)
    requires Inv(d)
    ensures Inv(SubscribeStep(d, node, taken))
  {
    var after := SubscribeStep(d, node, taken);
    assert Serves(after.viewers, after.lastViewer, node);
    forall n ensures Justified(after, n) {
      assert Justified(d, n);
      if n != node { WatchedFrame(d.viewers, after.viewers, n); }
    }
  }

  lemma UnsubscribeKeepsJustified(d: Demand, node: NodeId, id: SubscriberId, n: NodeId)
    requires Justified(d, n)
    ensures Justified(UnsubscribeStep(d, node, id), n)
  {
    if n != node {
      var after := UnsubscribeStep(d, node, id);
      assert forall i :: Serves(d.viewers, i, n) <==> Serves(after.viewers, i, n);
      WatchedFrame(d.viewers, after.viewers, n);
    } else if Serves(d.viewers, id, node) {
      assert Watched(d.viewers, n);
    }
  }

  /** Losing watchers, and nothing but timers besides, leaves channels and policies right. */
  lemma FewerViewers(d: Demand, after: Demand)
    requires ChannelsAreOpen(d) && PoliciesAgree(d) && after.viewers.Keys <= d.viewers.Keys
    requires after == d.(viewers := after.viewers, timers := after.timers, lastTimer := after.lastTimer)
    ensures ChannelsAreOpen(after) && PoliciesAgree(after)
  {
  }

  lemma UnsubscribeKeepsInv(d: Demand, node: NodeId, id: SubscriberId)
    requires Inv(d)
    ensures Inv(UnsubscribeStep(d, node, id))
  {
    FewerViewers(d, UnsubscribeStep(d, node, id));
    forall n ensures Justified(UnsubscribeStep(d, node, id), n) {
      assert Justified(d, n);
      UnsubscribeKeepsJustified(d, node, id, n);
    }
  }

  lemma ExpireKeepsJustified(d: Demand, node: NodeId, timer: TimerId, taken: set<SubscriberId>, n: NodeId)
    requires Inv(d)
    ensures Justified(ExpireStep(d, node, timer, taken), n)
  {
    assert Justified(d, n) && Justified(d, node);
  }

  lemma DeactivatedAgrees(d: Demand, node: NodeId, taken: set<SubscriberId>)
    requires ChannelsAreOpen(d) && PoliciesAgree(d)
    ensures ChannelsAreOpen(Deactivated(d, node, taken)) && PoliciesAgree(Deactivated(d, node, taken))
  {
  }

  lemma ExpireKeepsInv(d: Demand, node: NodeId, timer: TimerId, taken: set<SubscriberId>)
    requires Inv(d)
    ensures Inv(ExpireStep(d, node, timer, taken))
  {
    var idle := d.(timers := d.timers - {node});
    assert ChannelsAreOpen(idle) && PoliciesAgree(idle);
    DeactivatedAgrees(idle, node, taken);
    forall n ensures Justified(ExpireStep(d, node, timer, taken), n) {
      ExpireKeepsJustified(d, node, timer, taken, n);
    }
  }

  lemma AttachKeepsInv(d: Demand, node: NodeId)
    requires Inv(d)
    ensures Inv(AttachStep(d, node))
  {
    forall n ensures Justified(AttachStep(d, node), n) {
      assert Justified(d, n);
    }
  }

  lemma DetachKeepsInv(d: Demand, node: NodeId, id: SubscriberId)
    requires Inv(d)
    ensures Inv(DetachStep(d, node, id))
  {
    forall n ensures Justified(DetachStep(d, node, id), n) {
      assert Justified(d, n);
    }
  }

  lemma ClearKeepsInv(d: Demand, node: NodeId)
    requires Inv(d)
    ensures Inv(ClearStep(d, node))
  {
    var after := ClearStep(d, node);
    forall n ensures Justified(after, n) {
      assert Justified(d, n);
      if n != node { WatchedFrame(d.viewers, after.viewers, n); }
    }
  }

  lemma ArriveKeepsInv(d: Demand, series: Series, at: int)
    requires Inv(d)
    ensures Inv(ArriveStep(d, series, at))
  {
    forall n ensures Justified(ArriveStep(d, series, at), n) {
      assert Justified(d, n);
    }
  }

  lemma ProfileKeepsInv(d: Demand, node: NodeId, profile: Profile)
    requires Inv(d)
    ensures Inv(SeedProfileStep(d, node, profile)) && Inv(UpdateProfileStep(d, node, profile))
  {
    forall n ensures Justified(SeedProfileStep(d, node, profile), n) && Justified(UpdateProfileStep(d, node, profile), n) {
      assert Justified(d, n);
    }
  }

  lemma ReceiveWakeUpKeepsInv(d: Demand, id: SubscriberId)
    requires Inv(d)
    ensures Inv(ReceiveWakeUpStep(d, id))
  {
    var after := ReceiveWakeUpStep(d, id);
    assert after.viewers == d.viewers && after.active == d.active && after.timers == d.timers;
    forall n ensures Justified(after, n) {
      assert Justified(d, n);
    }
  }

  lemma ReceivePolicyKeepsInv(d: Demand, id: SubscriberId)
    requires Inv(d)
    ensures Inv(ReceivePolicyStep(d, id))
  {
    var after := ReceivePolicyStep(d, id);
    assert after.viewers == d.viewers && after.active == d.active && after.timers == d.timers;
    forall n ensures Justified(after, n) {
      assert Justified(d, n);
    }
  }

  lemma StepKeepsInv(d: Demand, e: Event)
    requires Inv(d)
    ensures Inv(Step(d, e))
  {
    match e
    case Subscribe(node, taken) => SubscribeKeepsInv(d, node, taken);
    case Unsubscribe(node, id) => UnsubscribeKeepsInv(d, node, id);
    case Expire(node, timer, taken) => ExpireKeepsInv(d, node, timer, taken);
    case Attach(node) => AttachKeepsInv(d, node);
    case Detach(node, id) => DetachKeepsInv(d, node, id);
    case Clear(node) => ClearKeepsInv(d, node);
    case Arrive(series, at) => ArriveKeepsInv(d, series, at);
    case SeedProfile(node, profile) => ProfileKeepsInv(d, node, profile);
    case UpdateProfile(node, profile) => ProfileKeepsInv(d, node, profile);
    case ReceivePolicy(id) => ReceivePolicyKeepsInv(d, id);
    case ReceiveWakeUp(id) => ReceiveWakeUpKeepsInv(d, id);
  }

  /** Every interleaving, late timers and node deletions included, keeps demand and
      policies in agreement and the channels of registered subscribers open. */
  lemma {:induction false} EveryRunAgrees(events: seq<Event>)
    ensures Inv(Run(events))
  {
    if events != [] {
      EveryRunAgrees(events[..|events| - 1]);
      StepKeepsInv(Run(events[..|events| - 1]), events[|events| - 1]);
    }
  }

  /** Demand ends at one step exactly when the node is deleted, or when the timer that is
      registered now fires; a stopped or replaced timer never ends it. */
  lemma DemandEndsIff(events: seq<Event>, e: Event, node: NodeId)
    requires node in Run(events).active
    ensures node !in Step(Run(events), e).active <==>
            || e == Clear(node)
            || (e.Expire? && e.expired == node && node in Run(events).timers && Run(events).timers[node] == e.timer)
  {
    EveryRunAgrees(events);
    EndsIff(Run(events), e, node);
  }

  lemma EndsIff(d: Demand, e: Event, node: NodeId)
    requires Justified(d, node) && node in d.active
    ensures node !in Step(d, e).active <==>
            e == Clear(node) || (e.Expire? && e.expired == node && node in d.timers && d.timers[node] == e.timer)
  {
    match e
    case Expire(_, _, _) =>
    case _ =>
  }

  /** The collection time kept for a series: the newest to arrive since the node was last
      deleted, whatever the order of arrival. */
  function NewestSinceCleared(events: seq<Event>, series: Series): Option<int> {
    if events == [] then None
    else
      var before := NewestSinceCleared(events[..|events| - 1], series);
      var e := events[|events| - 1];
      if e == Clear(series.node) then None
      else if !(e.Arrive? && e.series == series) then before
      else if before.Some? && e.at <= before.value then before
      else Some(e.at)
  }

  function CollectedAt(d: Demand, series: Series): Option<int> {
    if series in d.collected then Some(d.collected[series]) else None
  }

  lemma CollectedStep(d: Demand, e: Event, series: Series)
    ensures CollectedAt(Step(d, e), series)
         == if e == Clear(series.node) then None
            else if e.Arrive? && e.series == series && Newer(d.collected, series, e.at) then Some(e.at)
            else CollectedAt(d, series)
  {
  }

  lemma {:induction false} OlderReportsNeverReplaceNewer(events: seq<Event>, series: Series)
    ensures CollectedAt(Run(events), series) == NewestSinceCleared(events, series)
  {
    if events != [] {
      OlderReportsNeverReplaceNewer(events[..|events| - 1], series);
      CollectedStep(Run(events[..|events| - 1]), events[|events| - 1], series);
    }
  }

  /** Whether a watcher has news of its node that it was not woken for since. */
  function HasNews(events: seq<Event>, id: SubscriberId): bool {
    if events == [] then false
    else
      var before, e := Run(events[..|events| - 1]), events[|events| - 1];
      if e == ReceiveWakeUp(id) then false
      else IsNews(before, e, id) || HasNews(events[..|events| - 1], id)
  }

  /** A report that is kept, or a profile that changes, about a node the subscriber watches. */
  predicate IsNews(d: Demand, e: Event, id: SubscriberId) {
    || (e.Arrive? && Serves(d.viewers, id, e.series.node)
        && (e.series in d.collected ==> d.collected[e.series] < e.at))
    || (e.UpdateProfile? && Serves(d.viewers, id, e.updated)
        && !(e.updated in d.profiles && d.profiles[e.updated] == e.profile))
  }

  lemma {:induction false} NewsNeedsAWatcher(events: seq<Event>, id: SubscriberId)
    requires id !in Run(events).wakeUps
    ensures !HasNews(events, id)
  {
    if events != [] {
      var rest, e := events[..|events| - 1], events[|events| - 1];
      EveryRunAgrees(rest);
      WakeUpStep(Run(rest), e, id);
      NewsNeedsAWatcher(rest, id);
    }
  }

  /** What a step does to one wake-up channel, apart from closing it. */
  predicate WakesRight(d: Demand, e: Event, id: SubscriberId) {
    var before, after := d.wakeUps, Step(d, e).wakeUps;
    && (id in before ==> id in after)
    && (id in after && id !in before ==> !after[id].pending && e.Subscribe?)
    && (id in before ==>
          after[id].pending == (e != ReceiveWakeUp(id) && (before[id].pending || IsNews(d, e, id))))
  }

  lemma WakeUpStep(d: Demand, e: Event, id: SubscriberId)
    requires ChannelsAreOpen(d)
    ensures WakesRight(d, e, id)
  {
    match e
    case Subscribe(_, _) => SubscribeWakes(d, e, id);
    case Clear(_) => ClearWakes(d, e, id);
    case Arrive(_, _) => NewsWakes(d, e, id);
    case UpdateProfile(_, _) => NewsWakes(d, e, id);
    case ReceiveWakeUp(_) => ReceiveWakes(d, e, id);
    case _ => OthersWake(d, e, id);
  }

  lemma SubscribeWakes(d: Demand, e: Event, id: SubscriberId)
    requires ChannelsAreOpen(d) && e.Subscribe?
    ensures WakesRight(d, e, id)
  {
  }

  lemma ClearWakes(d: Demand, e: Event, id: SubscriberId)
    requires e.Clear?
    ensures WakesRight(d, e, id)
  {
  }

  lemma NewsWakes(d: Demand, e: Event, id: SubscriberId)
    requires e.Arrive? || e.UpdateProfile?
    ensures WakesRight(d, e, id)
  {
  }

  lemma ReceiveWakes(d: Demand, e: Event, id: SubscriberId)
    requires e.ReceiveWakeUp?
    ensures WakesRight(d, e, id)
  {
  }

  lemma OthersWake(d: Demand, e: Event, id: SubscriberId)
    requires !e.Subscribe? && !e.Clear? && !e.Arrive? && !e.UpdateProfile? && !e.ReceiveWakeUp?
    ensures WakesRight(d, e, id)
  {
    assert Step(d, e).wakeUps == d.wakeUps;
  }

  /** Over every run a watcher has a wake-up waiting exactly when there is news for it: a full
      buffer swallows a wake-up only where one is waiting already. */
  lemma {:induction false} NoWakeUpIsLost(events: seq<Event>, id: SubscriberId)
    requires id in Run(events).wakeUps
    ensures Run(events).wakeUps[id].pending == HasNews(events, id)
  {
    var rest, e := events[..|events| - 1], events[|events| - 1];
    EveryRunAgrees(rest);
    WakeUpStep(Run(rest), e, id);
    if id in Run(rest).wakeUps {
      NoWakeUpIsLost(rest, id);
    } else {
      NewsNeedsAWatcher(rest, id);
    }
  }

  // ---------------------------------------------------------------------- the server

  class StatusServer {
    var active: set<NodeId>
    var timers: map<NodeId, TimerId>
    var viewers: map<SubscriberId, NodeId>
    var agents: map<SubscriberId, NodeId>
    var wakeUps: map<SubscriberId, WakeUp>
    var streams: map<SubscriberId, PolicyChannel>
    var collected: map<Series, int>
    var profiles: map<NodeId, Profile>
    var lastViewer: nat
    var lastAgent: nat
    var lastTimer: nat

    constructor ()
      ensures Now() == IDLE
    {
      active, timers, viewers, agents := {}, map[], map[], map[];
      wakeUps, streams, collected, profiles := map[], map[], map[], map[];
      lastViewer, lastAgent, lastTimer := 0, 0, 0;
    }

    ghost function Now(): Demand
      reads this
    {
      Demand(active, timers, viewers, agents, wakeUps, streams, collected, profiles, lastViewer, lastAgent, lastTimer)
    }

    /** One non-blocking send on an open channel of capacity one. */
    method TrySend(id: SubscriberId, policy: Policy) returns (sent: bool)
      requires id in streams && !streams[id].closed
      modifies `streams
      ensures sent == old(streams[id].pending.None?)
      ensures streams == if sent then old(streams)[id := old(streams[id]).(pending := Some(policy))] else old(streams)
    {
      sent := streams[id].pending.None?;
      if sent { streams := streams[id := streams[id].(pending := Some(policy))]; }
    }

    /** Sends the policy to every registered stream of the node, keeping only the newest value. */
    method NotifyPolicySubscribers(node: NodeId, policy: Policy, taken: set<SubscriberId>)
      requires StreamsAreOpen(agents, streams)
      modifies `streams
      ensures streams == Notified(old(streams), agents, node, policy, taken)
    {
      var left := agents.Keys;
      while left != {}
        invariant left <= agents.Keys
        invariant streams.Keys == old(streams).Keys
        invariant forall id <- streams ::
                    streams[id] == if id !in left && Serves(agents, id, node)
                                   then Sent(old(streams)[id], policy, id in taken) else old(streams)[id]
      {
        var id :| id in left;
        left := left - {id};
        if agents[id] == node {
          var sent := TrySend(id, policy);
          if !sent {
            if id in taken { Receive(id); } else { streams := streams[id := streams[id].(pending := None)]; }
            sent := TrySend(id, policy);
          }
        }
      }
    }

    method Receive(id: SubscriberId)
      modifies `streams
      ensures Now() == ReceivePolicyStep(old(Now()), id)
    {
      if id in streams && streams[id].pending.Some? {
        streams := streams[id := PolicyChannel(None, streams[id].pending.value, streams[id].closed)];
      }
    }

    method Subscribe(node: NodeId, taken: set<SubscriberId>) returns (id: SubscriberId)
      requires StreamsAreOpen(agents, streams)
      modifies this
      ensures Now() == SubscribeStep(old(Now()), node, taken)
      ensures id == lastViewer
    {
      if node in timers { timers := timers - {node}; }
      lastViewer := lastViewer + 1;
      id := lastViewer;
      wakeUps := wakeUps[id := WakeUp(false, false)];
      viewers := viewers[id := node];
      Activate(node, taken);
    }

    method Activate(node: NodeId, taken: set<SubscriberId>)
      requires StreamsAreOpen(agents, streams)
      modifies `active, `streams
      ensures active == old(active) + {node}
      ensures streams == if node in old(active) then old(streams)
                         else Notified(old(streams), agents, node, ACTIVE_POLICY, taken)
    {
      var activated := node !in active;
      active := active + {node};
      if activated { NotifyPolicySubscribers(node, ACTIVE_POLICY, taken); }
    }

    method Unsubscribe(node: NodeId, id: SubscriberId)
      modifies this
      ensures Now() == UnsubscribeStep(old(Now()), node, id)
    {
      if !Serves(viewers, id, node) { return; }
      viewers := viewers - {id};
      if Watched(viewers, node) { return; }
      lastTimer := lastTimer + 1;
      timers := timers[node := lastTimer];
    }

    method Expire(node: NodeId, timer: TimerId, taken: set<SubscriberId>)
      requires StreamsAreOpen(agents, streams)
      modifies this
      ensures Now() == ExpireStep(old(Now()), node, timer, taken)
    {
      if TimerOf(timers, node) != timer || Watched(viewers, node) { return; }
      timers := timers - {node};
      if node !in active { return; }
      active := active - {node};
      NotifyPolicySubscribers(node, INACTIVE_POLICY, taken);
    }

    /** Opens a policy stream and hands its receiver the policy of the moment. */
    method Attach(node: NodeId) returns (id: SubscriberId, policy: Policy)
      modifies this
      ensures Now() == AttachStep(old(Now()), node)
      ensures id == lastAgent && policy == streams[id].last
    {
      lastAgent := lastAgent + 1;
      id := lastAgent;
      policy := INACTIVE_POLICY;
      if node in active { policy := ACTIVE_POLICY; }
      agents := agents[id := node];
      streams := streams[id := PolicyChannel(None, policy, false)];
    }

    method Detach(node: NodeId, id: SubscriberId)
      modifies this
      ensures Now() == DetachStep(old(Now()), node, id)
    {
      if Serves(agents, id, node) { agents := agents - {id}; }
    }

    method CloseStream(id: SubscriberId)
      requires id in streams && !streams[id].closed
      modifies `streams
      ensures streams == old(streams)[id := old(streams[id]).(closed := true)]
    {
      streams := streams[id := streams[id].(closed := true)];
    }

    method CloseWakeUp(id: SubscriberId)
      requires id in wakeUps && !wakeUps[id].closed
      modifies `wakeUps
      ensures wakeUps == old(wakeUps)[id := old(wakeUps[id]).(closed := true)]
    {
      wakeUps := wakeUps[id := wakeUps[id].(closed := true)];
    }

    method CloseAll(node: NodeId)
      requires WakeUpsAreOpen(viewers, wakeUps) && StreamsAreOpen(agents, streams)
      modifies `wakeUps, `streams
      ensures wakeUps == Hushed(old(wakeUps), viewers, node) && streams == Shut(old(streams), agents, node)
    {
      var left := viewers.Keys;
      while left != {}
        invariant left <= viewers.Keys
        invariant streams == old(streams)
        invariant wakeUps.Keys == old(wakeUps).Keys
        invariant forall id <- wakeUps ::
                    wakeUps[id] == if id !in left && Serves(viewers, id, node)
                                   then old(wakeUps)[id].(closed := true) else old(wakeUps)[id]
      {
        var id :| id in left;
        left := left - {id};
        if viewers[id] == node { CloseWakeUp(id); }
      }
      left := agents.Keys;
      while left != {}
        invariant left <= agents.Keys
        invariant wakeUps == Hushed(old(wakeUps), viewers, node)
        invariant streams.Keys == old(streams).Keys
        invariant forall id <- streams ::
                    streams[id] == if id !in left && Serves(agents, id, node)
                                   then old(streams)[id].(closed := true) else old(streams)[id]
      {
        var id :| id in left;
        left := left - {id};
        if agents[id] == node { CloseStream(id); }
      }
    }

    method Clear(node: NodeId)
      requires WakeUpsAreOpen(viewers, wakeUps) && StreamsAreOpen(agents, streams)
      modifies this
      ensures Now() == ClearStep(old(Now()), node)
    {
      CloseAll(node);
      collected := Forgotten(collected, node);
      profiles := profiles - {node};
      active := active - {node};
      timers := timers - {node};
      viewers := Elsewhere(viewers, node);
      agents := Elsewhere(agents, node);
    }

    /** A pending wake-up already says there is news, so a refused send loses nothing. */
    method TryWake(id: SubscriberId)
      requires id in wakeUps && !wakeUps[id].closed
      modifies `wakeUps
      ensures wakeUps == old(wakeUps)[id := old(wakeUps[id]).(pending := true)]
    {
      wakeUps := wakeUps[id := wakeUps[id].(pending := true)];
    }

    method WakeSubscribers(node: NodeId)
      requires WakeUpsAreOpen(viewers, wakeUps)
      modifies `wakeUps
      ensures wakeUps == Woken(old(wakeUps), viewers, node)
    {
      var left := viewers.Keys;
      while left != {}
        invariant left <= viewers.Keys
        invariant wakeUps.Keys == old(wakeUps).Keys
        invariant forall id <- wakeUps ::
                    wakeUps[id] == if id !in left && Serves(viewers, id, node)
                                   then old(wakeUps)[id].(pending := true) else old(wakeUps)[id]
      {
        var id :| id in left;
        left := left - {id};
        if viewers[id] == node { TryWake(id); }
      }
    }

    /** Keeps a report only when it was collected later than the one before it. */
    method RecordReport(series: Series, at: int) returns (accepted: bool)
      requires WakeUpsAreOpen(viewers, wakeUps)
      modifies this
      ensures Now() == ArriveStep(old(Now()), series, at)
      ensures accepted == Newer(old(collected), series, at)
    {
      if series in collected && at <= collected[series] { return false; }
      collected := collected[series := at];
      WakeSubscribers(series.node);
      return true;
    }

    method SeedCapabilityProfile(node: NodeId, profile: Profile) returns (current: Profile)
      modifies `profiles
      ensures Now() == SeedProfileStep(old(Now()), node, profile)
      ensures node in profiles && current == profiles[node]
    {
      if node in profiles { return profiles[node]; }
      profiles := profiles[node := profile];
      return profile;
    }

    method UpdateCapabilityProfile(node: NodeId, profile: Profile)
      requires WakeUpsAreOpen(viewers, wakeUps)
      modifies `profiles, `wakeUps
      ensures Now() == UpdateProfileStep(old(Now()), node, profile)
    {
      if node in profiles && profiles[node] == profile { return; }
      profiles := profiles[node := profile];
      WakeSubscribers(node);
    }
  }
}
