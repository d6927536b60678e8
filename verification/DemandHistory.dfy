/**
 What a history of the status server comes down to (machine_status.go), told from the events
 alone: who watches and who streams, which channels are closed, which profile is kept, and so
 what every agent is told to sample.
 */
module DemandHistory {
  import opened Common
  import opened MachineDemand

  /** The ids given out so far: each new watcher gets the next one, and so does each new stream. */
  function Subscriptions(events: seq<Event>): nat {
    if events == [] then 0
    else Subscriptions(events[..|events| - 1]) + if events[|events| - 1].Subscribe? then 1 else 0
  }

  function Attachments(events: seq<Event>): nat {
    if events == [] then 0
    else Attachments(events[..|events| - 1]) + if events[|events| - 1].Attach? then 1 else 0
  }

  /** The node a subscriber watches: the one it came for, until it leaves it or that is deleted. */
  function Watching(events: seq<Event>, id: SubscriberId): Option<NodeId> {
    if events == [] then None
    else
      var before, e := Watching(events[..|events| - 1], id), events[|events| - 1];
      if e.Subscribe? && Subscriptions(events) == id then Some(e.viewed)
      else if e.Unsubscribe? && e.viewer == id && before == Some(e.left) then None
      else if e.Clear? && before == Some(e.cleared) then None
      else before
  }

  /** The node whose policy a stream follows. */
  function Streaming(events: seq<Event>, id: SubscriberId): Option<NodeId> {
    if events == [] then None
    else
      var before, e := Streaming(events[..|events| - 1], id), events[|events| - 1];
      if e.Attach? && Attachments(events) == id then Some(e.attached)
      else if e.Detach? && e.agent == id && before == Some(e.detached) then None
      else if e.Clear? && before == Some(e.cleared) then None
      else before
  }

  /** The node was deleted while the subscriber watched it. */
  function Dismissed(events: seq<Event>, id: SubscriberId): bool {
    if events == [] then false
    else
      var rest, e := events[..|events| - 1], events[|events| - 1];
      Dismissed(rest, id) || (e.Clear? && Watching(rest, id) == Some(e.cleared))
  }

  function CutOff(events: seq<Event>, id: SubscriberId): bool {
    if events == [] then false
    else
      var rest, e := events[..|events| - 1], events[|events| - 1];
      CutOff(rest, id) || (e.Clear? && Streaming(rest, id) == Some(e.cleared))
  }

  /** The profile last updated since the node was deleted, or the first one seeded. */
  function Reported(events: seq<Event>, node: NodeId): Option<Profile> {
    if events == [] then None
    else
      var before, e := Reported(events[..|events| - 1], node), events[|events| - 1];
      if e == Clear(node) then None
      else if e.UpdateProfile? && e.updated == node then Some(e.profile)
      else if e.SeedProfile? && e.seeded == node && before.None? then Some(e.initial)
      else before
  }

  function At(registered: map<SubscriberId, NodeId>, id: SubscriberId): Option<NodeId> {
    if id in registered then Some(registered[id]) else None
  }

  lemma ViewersStep(d: Demand, e: Event, id: SubscriberId)
    ensures Step(d, e).lastViewer == d.lastViewer + if e.Subscribe? then 1 else 0
    ensures At(Step(d, e).viewers, id)
         == if e.Subscribe? && d.lastViewer + 1 == id then Some(e.viewed)
            else if e.Unsubscribe? && e.viewer == id && At(d.viewers, id) == Some(e.left) then None
            else if e.Clear? && At(d.viewers, id) == Some(e.cleared) then None
            else At(d.viewers, id)
  {
    if !e.Subscribe? && !e.Unsubscribe? && !e.Clear? { OthersKeepViewers(d, e); }
  }

  lemma OthersKeepViewers(d: Demand, e: Event)
    requires !e.Subscribe? && !e.Unsubscribe? && !e.Clear?
    ensures Step(d, e).viewers == d.viewers && Step(d, e).lastViewer == d.lastViewer
  {
  }

  lemma OthersKeepAgents(d: Demand, e: Event)
    requires !e.Attach? && !e.Detach? && !e.Clear?
    ensures Step(d, e).agents == d.agents && Step(d, e).lastAgent == d.lastAgent
  {
  }

  lemma AgentsStep(d: Demand, e: Event, id: SubscriberId)
    ensures Step(d, e).lastAgent == d.lastAgent + if e.Attach? then 1 else 0
    ensures At(Step(d, e).agents, id)
         == if e.Attach? && d.lastAgent + 1 == id then Some(e.attached)
            else if e.Detach? && e.agent == id && At(d.agents, id) == Some(e.detached) then None
            else if e.Clear? && At(d.agents, id) == Some(e.cleared) then None
            else At(d.agents, id)
  {
    if !e.Attach? && !e.Detach? && !e.Clear? { OthersKeepAgents(d, e); }
  }

  /** Over every run the registered watchers and streams are those the history calls for. */
  lemma {:induction false} RegisteredAreThoseWatching(events: seq<Event>, id: SubscriberId)
    ensures At(Run(events).viewers, id) == Watching(events, id) && Run(events).lastViewer == Subscriptions(events)
    ensures At(Run(events).agents, id) == Streaming(events, id) && Run(events).lastAgent == Attachments(events)
  {
    if events != [] {
      RegisteredAreThoseWatching(events[..|events| - 1], id);
      ViewersStep(Run(events[..|events| - 1]), events[|events| - 1], id);
      AgentsStep(Run(events[..|events| - 1]), events[|events| - 1], id);
    }
  }

  ghost predicate SomeoneWatches(events: seq<Event>, node: NodeId) {
    exists id :: Watching(events, id) == Some(node)
  }

  /** Over every run demand on a node is active while someone watches it, and after that exactly
      until its grace timer fires or it is deleted; and every stream has, or will have once it
      empties its buffer, the policy that goes with it. */
  lemma AgentsAreToldWhatIsWatched(events: seq<Event>, node: NodeId, stream: SubscriberId)
    ensures SomeoneWatches(events, node) ==> node in Run(events).active && node !in Run(events).timers
    ensures node in Run(events).active && !SomeoneWatches(events, node) ==> node in Run(events).timers
    ensures Streaming(events, stream) == Some(node) ==>
              && stream in Run(events).streams
              && Run(events).streams[stream].Settled()
                   == if node in Run(events).active then Policy(5, 1, 5) else Policy(60, 0, 5)
  {
    EveryRunAgrees(events);
    assert Justified(Run(events), node);
    RegisteredAreThoseWatching(events, stream);
    if SomeoneWatches(events, node) {
      var id :| Watching(events, id) == Some(node);
      RegisteredAreThoseWatching(events, id);
      assert Serves(Run(events).viewers, id, node);
    }
    if Watched(Run(events).viewers, node) {
      var id :| id in Run(events).viewers && Serves(Run(events).viewers, id, node);
      RegisteredAreThoseWatching(events, id);
      assert Watching(events, id) == Some(node);
    }
  }

  /** What deletion does to channels: those of the node's subscribers are closed, and no other. */
  lemma ClosedStep(d: Demand, e: Event, id: SubscriberId)
    requires ChannelsAreOpen(d)
    ensures ClosesRight(d, e, id) && CutsRight(d, e, id)
  {
    match e
    case Subscribe(node, taken) => SubscribeCloses(d, node, taken, id);
    case Expire(node, timer, taken) => ExpireCloses(d, node, timer, taken, id);
    case Clear(node) => ClearCloses(d, node, id);
    case Attach(node) => AttachCloses(d, node, id);
    case Arrive(_, _) => NewsClosesNothing(d, e, id);
    case UpdateProfile(_, _) => NewsClosesNothing(d, e, id);
    case ReceivePolicy(_) => ReceivingClosesNothing(d, e, id);
    case ReceiveWakeUp(_) => ReceivingClosesNothing(d, e, id);
    case _ => OthersClose(d, e, id);
  }

  predicate ClosesRight(d: Demand, e: Event, id: SubscriberId) {
    var after := Step(d, e).wakeUps;
    && (id in d.wakeUps ==> id in after)
    && (id in after ==>
          after[id].closed == (id in d.wakeUps
                               && (d.wakeUps[id].closed || (e.Clear? && At(d.viewers, id) == Some(e.cleared)))))
  }

  predicate CutsRight(d: Demand, e: Event, id: SubscriberId) {
    var after := Step(d, e).streams;
    && (id in d.streams ==> id in after)
    && (id in after ==>
          after[id].closed == (id in d.streams
                               && (d.streams[id].closed || (e.Clear? && At(d.agents, id) == Some(e.cleared)))))
  }

  lemma SubscribeCloses(d: Demand, node: NodeId, taken: set<SubscriberId>, id: SubscriberId)
    requires ChannelsAreOpen(d)
    ensures ClosesRight(d, Subscribe(node, taken), id) && CutsRight(d, Subscribe(node, taken), id)
  {
  }

  lemma ExpireCloses(d: Demand, node: NodeId, timer: TimerId, taken: set<SubscriberId>, id: SubscriberId)
    ensures ClosesRight(d, Expire(node, timer, taken), id) && CutsRight(d, Expire(node, timer, taken), id)
  {
  }

  lemma ClearCloses(d: Demand, node: NodeId, id: SubscriberId)
    ensures ClosesRight(d, Clear(node), id) && CutsRight(d, Clear(node), id)
  {
  }

  lemma AttachCloses(d: Demand, node: NodeId, id: SubscriberId)
    requires ChannelsAreOpen(d)
    ensures ClosesRight(d, Attach(node), id) && CutsRight(d, Attach(node), id)
  {
  }

  lemma NewsClosesNothing(d: Demand, e: Event, id: SubscriberId)
    requires e.Arrive? || e.UpdateProfile?
    ensures ClosesRight(d, e, id) && CutsRight(d, e, id)
  {
  }

  lemma ReceivingClosesNothing(d: Demand, e: Event, id: SubscriberId)
    requires e.ReceivePolicy? || e.ReceiveWakeUp?
    ensures ClosesRight(d, e, id) && CutsRight(d, e, id)
  {
  }

  lemma OthersClose(d: Demand, e: Event, id: SubscriberId)
    requires e.Unsubscribe? || e.Detach? || e.SeedProfile?
    ensures ClosesRight(d, e, id) && CutsRight(d, e, id)
  {
  }

  lemma {:induction false} NobodyIsDismissedEarly(events: seq<Event>, id: SubscriberId)
    ensures id !in Run(events).wakeUps ==> !Dismissed(events, id)
    ensures id !in Run(events).streams ==> !CutOff(events, id)
  {
    if events != [] {
      var rest, e := events[..|events| - 1], events[|events| - 1];
      EveryRunAgrees(rest);
      NobodyIsDismissedEarly(rest, id);
      ClosedStep(Run(rest), e, id);
      RegisteredAreThoseWatching(rest, id);
    }
  }

  /** Over every run a watcher's channel is closed exactly if its node was deleted while it
      watched, and a stream's exactly if its node was deleted while it followed the policy. */
  lemma {:induction false} ClosedIff(events: seq<Event>, id: SubscriberId)
    ensures id in Run(events).wakeUps ==> Run(events).wakeUps[id].closed == Dismissed(events, id)
    ensures id in Run(events).streams ==> Run(events).streams[id].closed == CutOff(events, id)
  {
    if events != [] {
      var rest, e := events[..|events| - 1], events[|events| - 1];
      EveryRunAgrees(rest);
      ClosedIff(rest, id);
      NobodyIsDismissedEarly(rest, id);
      ClosedStep(Run(rest), e, id);
      RegisteredAreThoseWatching(rest, id);
    }
  }

  function ProfileOf(d: Demand, node: NodeId): Option<Profile> {
    if node in d.profiles then Some(d.profiles[node]) else None
  }

  lemma ProfileStep(d: Demand, e: Event, node: NodeId)
    ensures ProfileOf(Step(d, e), node)
         == if e == Clear(node) then None
            else if e.UpdateProfile? && e.updated == node then Some(e.profile)
            else if e.SeedProfile? && e.seeded == node && ProfileOf(d, node).None? then Some(e.initial)
            else ProfileOf(d, node)
  {
  }

  /** Over every run the profile kept for a node is the one the history calls for. */
  lemma {:induction false} ProfileIsReported(events: seq<Event>, node: NodeId)
    ensures ProfileOf(Run(events), node) == Reported(events, node)
  {
    if events != [] {
      ProfileIsReported(events[..|events| - 1], node);
      ProfileStep(Run(events[..|events| - 1]), events[|events| - 1], node);
    }
  }

  /** Receiving empties the buffer of that stream, leaves its receiver with the policy it settles
      on, and touches no other. */
  lemma ReceivingSettles(d: Demand, id: SubscriberId, other: SubscriberId)
    requires id in d.streams && other in d.streams
    ensures var after := Step(d, ReceivePolicy(id)).streams;
            && after.Keys == d.streams.Keys
            && after[id].pending.None? && after[id].last == d.streams[id].Settled()
            && (other != id ==> after[other] == d.streams[other])
  {
  }

  /** A new watcher of a node in demand is told to nobody; one of a node not in demand is told to
      exactly the node's streams. What a receiver takes during a notification it has seen. */
  lemma SubscribingTells(d: Demand, node: NodeId, taken: set<SubscriberId>, id: SubscriberId)
    requires id in d.streams
    ensures var before, after := d.streams[id], Step(d, Subscribe(node, taken)).streams;
            && after.Keys == d.streams.Keys
            && if node in d.active || At(d.agents, id) != Some(node) then after[id] == before
               else
                 && after[id].pending == Some(Policy(5, 1, 5))
                 && after[id].last == if id in taken && before.pending.Some? then before.pending.value else before.last
  {
  }
}
