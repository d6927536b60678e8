/**
 What the DNS provider was told last (manager.go, health.go), over whole runs: the point of
 a hold is that the drained node has left the records before its timer starts, and stays out.
 */
module ProviderNames {
  import opened Common
  import opened Publication
  import opened DrainCleanup
  import opened DrainLifecycle

  /** One attempt at a time for a site, as one health round after another makes them. */
  ghost predicate Alone(l: Life) {
    forall a, b | a in l.attempts && b in l.attempts && l.attempts[a].site == l.attempts[b].site :: a == b
  }

  /** The record set last accepted for the drain's site names its node. */
  predicate Named(l: Life, slot: Slot) {
    slot.site in l.provider && slot.node in l.provider[slot.site]
  }

  predicate AttemptNames(l: Life, a: Attempt) {
    && (Current(l.c, a) ==> a.nodes == l.c.publications[a.site].snapshot.nodes)
    && (HasWritten(a) ==> a.site in l.provider && forall node <- l.provider[a.site] :: node in a.nodes)
  }

  predicate Running(l: Life, slot: Slot) {
    slot in l.c.drains && l.c.drains[slot].readyAt.Some?
  }

  /** No attempt for the drain's site would name its node. */
  ghost predicate Avoided(l: Life, slot: Slot) {
    forall a <- l.attempts :: l.attempts[a].site == slot.site ==> slot.node !in l.attempts[a].nodes
  }

  /** An attempt that is current names what its publication assigns; one that has written is
      what the provider knows; and no drain whose timer runs is on a node either of them names. */
  ghost predicate NamesRight(l: Life) {
    && (forall a <- l.attempts :: AttemptNames(l, l.attempts[a]))
    && (forall slot <- l.c.drains :: Running(l, slot) ==> !Named(l, slot) && Avoided(l, slot))
  }

  /** The attempts only leave, or move on without writing. */
  lemma FewerAttemptsKeepNames(l: Life, after: Life)
    requires NamesRight(l) && after.c == l.c && after.provider == l.provider
    requires forall a <- after.attempts ::
               && a in l.attempts && after.attempts[a].(phase := l.attempts[a].phase) == l.attempts[a]
               && (HasWritten(after.attempts[a]) ==> HasWritten(l.attempts[a]))
    ensures NamesRight(after)
  {
    forall a | a in after.attempts ensures AttemptNames(after, after.attempts[a]) {
      assert AttemptNames(l, l.attempts[a]);
    }
    forall slot | slot in after.c.drains && Running(after, slot) ensures !Named(after, slot) && Avoided(after, slot) {
      assert Running(l, slot) && Avoided(l, slot);
    }
  }

  lemma LoadKeepsNames(l: Life, id: AttemptId, site: SiteId, after: Life)
    requires OneSnapshotPerSlot(l.c) && NamesRight(l) && site in l.c.publications && id !in l.attempts
    requires var p := l.c.publications[site];
             after == l.(attempts := l.attempts[id := Attempt(site, p.publishedAt, p.snapshot.nodes, p.dnsTTL, Loaded)])
    ensures NamesRight(after)
  {
    forall a | a in after.attempts ensures AttemptNames(after, after.attempts[a]) {
      if a != id { assert AttemptNames(l, l.attempts[a]); }
    }
    forall slot | slot in after.c.drains && Running(after, slot) ensures !Named(after, slot) && Avoided(after, slot) {
      assert Running(l, slot) && Avoided(l, slot);
    }
  }

  lemma WriteKeepsNames(l: Life, id: AttemptId, named: set<NodeId>, after: Life)
    requires NamesRight(l) && Alone(l) && id in l.attempts && forall node <- named :: node in l.attempts[id].nodes
    requires after == Moved(l, id, Written).(provider := l.provider[l.attempts[id].site := named])
    ensures NamesRight(after)
  {
    forall a | a in after.attempts ensures AttemptNames(after, after.attempts[a]) {
      assert AttemptNames(l, l.attempts[a]);
    }
    forall slot | slot in after.c.drains && Running(after, slot) ensures !Named(after, slot) && Avoided(after, slot) {
      assert Running(l, slot) && !Named(l, slot) && Avoided(l, slot);
    }
  }

  lemma MarkKeepsNames(l: Life, id: AttemptId, at: int)
    requires OneSnapshotPerSlot(l.c) && NamesRight(l) && Alone(l)
    requires id in l.attempts && l.attempts[id].phase.Measured?
    ensures NamesRight(MarkStep(l, id, at))
  {
    var after, marked := MarkStep(l, id, at), l.attempts[id];
    assert AttemptNames(l, marked);
    forall a | a in after.attempts ensures AttemptNames(after, after.attempts[a]) {
      assert AttemptNames(l, l.attempts[a]);
    }
    forall slot | slot in after.c.drains && Running(after, slot) ensures !Named(after, slot) && Avoided(after, slot) {
      if Running(l, slot) {
        assert !Named(l, slot) && Avoided(l, slot);
      } else {
        assert Current(l.c, marked) && slot.site == marked.site;
        assert slot.node !in marked.nodes;
        forall a | a in after.attempts ensures after.attempts[a].site != slot.site {
          assert a in l.attempts && a != id;
        }
      }
    }
  }

  /** A step that moves no attempt, tells the provider nothing and starts no timer. */
  lemma OtherStepKeepsNames(l: Life, after: Life)
    requires NamesRight(l) && after.attempts == l.attempts && after.provider == l.provider
    requires forall a <- l.attempts :: Current(after.c, l.attempts[a]) ==>
               Current(l.c, l.attempts[a])
               && after.c.publications[l.attempts[a].site].snapshot == l.c.publications[l.attempts[a].site].snapshot
    requires forall slot <- after.c.drains :: Running(after, slot) ==> Running(l, slot)
    ensures NamesRight(after)
  {
    forall a | a in after.attempts ensures AttemptNames(after, after.attempts[a]) {
      assert AttemptNames(l, l.attempts[a]);
    }
    forall slot | slot in after.c.drains && Running(after, slot) ensures !Named(after, slot) && Avoided(after, slot) {
      assert Running(l, slot) && !Named(l, slot) && Avoided(l, slot);
    }
  }

  lemma NoTimerStarts(l: Life, e: Event, serving: set<NodeId>, slot: Slot)
    requires Inv(l, serving) && Fits(l, e, serving) && !e.Mark?
    ensures Running(Step(l, e, serving), slot) ==> Running(l, slot)
  {
    if e.Clean? {
      CleanSiteRows(l.c, e.due, e.when, e.task, e.fleet, e.r, e.hurdle, slot);
    } else if e.Publish? {
      DroppedNodesDrain(l.c, e.site, e.draft, e.defaultTTL, slot);
    }
  }

  /** Publications and cleanups make no attempt current that was not. */
  lemma NoneBecomesCurrent(l: Life, e: Event, serving: set<NodeId>, a: Attempt)
    requires Inv(l, serving) && Fits(l, e, serving) && a.token <= l.c.lastPublished
    ensures Current(Step(l, e, serving).c, a) ==>
              Current(l.c, a)
              && Step(l, e, serving).c.publications[a.site].snapshot == l.c.publications[a.site].snapshot
  {
    if e.Clean? {
      SamePublications(l.c, e.due, e.when, e.task, e.fleet, e.r, e.hurdle);
    }
  }

  lemma TableStepKeepsNames(l: Life, e: Event, serving: set<NodeId>)
    requires Inv(l, serving) && NamesRight(l) && Fits(l, e, serving)
    requires e.Publish? || e.Refresh? || e.Clean? || e.Finish?
    ensures NamesRight(Step(l, e, serving))
  {
    var after := Step(l, e, serving);
    forall slot | slot in after.c.drains ensures Running(after, slot) ==> Running(l, slot) {
      NoTimerStarts(l, e, serving, slot);
    }
    forall a | a in l.attempts
      ensures Current(after.c, l.attempts[a]) ==>
                Current(l.c, l.attempts[a])
                && after.c.publications[l.attempts[a].site].snapshot == l.c.publications[l.attempts[a].site].snapshot
    {
      NoneBecomesCurrent(l, e, serving, l.attempts[a]);
    }
    OtherStepKeepsNames(l, after);
  }

  lemma StepKeepsNames(l: Life, e: Event, serving: set<NodeId>)
    requires Inv(l, serving) && NamesRight(l) && Alone(l) && Fits(l, e, serving)
    ensures NamesRight(Step(l, e, serving))
  {
    match e
    case Load(a, site) => LoadKeepsNames(l, a, site, Step(l, e, serving));
    case Write(a, named) => WriteKeepsNames(l, a, named, Step(l, e, serving));
    case Mark(a, at) => MarkKeepsNames(l, a, at);
    case Check(_) => FewerAttemptsKeepNames(l, Step(l, e, serving));
    case Abandon(_) => FewerAttemptsKeepNames(l, Step(l, e, serving));
    case Measure(_, _, _) => FewerAttemptsKeepNames(l, Step(l, e, serving));
    case _ => TableStepKeepsNames(l, e, serving);
  }

  /** Over any run with one attempt at a time for each site: while the timer of a drain runs,
      the record set the provider accepted last does not name the drained node, and no attempt
      in flight would name it. */
  lemma {:induction false} HeldNodesAreNotNamed(states: seq<Life>, events: seq<Event>, serving: set<NodeId>, j: nat)
    requires IsRun(states, events, serving) && j < |states|
    requires forall l <- states :: Alone(l)
    ensures NamesRight(states[j])
    ensures forall slot <- states[j].c.drains ::
              Running(states[j], slot) ==> !Named(states[j], slot) && Avoided(states[j], slot)
  {
    if j > 0 {
      HeldNodesAreNotNamed(states, events, serving, j - 1);
      EveryStateIsRight(states, events, serving, j - 1);
      assert Follows(states, events, serving, j - 1);
      assert states[j - 1] in states;
      StepKeepsNames(states[j - 1], events[j - 1], serving);
    }
  }
}
