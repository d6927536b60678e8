/**
 The upgrade rollout controller (upgrade_rollout.go): a canary first, then at most
 `maxParallel` members at a time, each held to a continuous health window that
 survives restarts of the control process.

 One round is one call of the controller; everything the round reads from outside
 (tasks, node readiness, clocks, failing saves) comes from a `World`. Members are
 named by their position, since a rollout refuses two members with one node.
 */
module UpgradeRollout {
  import opened Common

  const SECOND: int := 1_000_000_000
  const MAX_GAP: int := 30 * SECOND
  const VERIFICATION_LIMIT: int := 5 * 60 * SECOND

  datatype MemberState = Pending | Upgrading | Verifying | Succeeded | Failed | Skipped

  datatype Member = Member(
    state: MemberState, hasTask: bool,
    verificationStarted: Option<int>, healthySince: Option<int>, lastObserved: Option<int>)

  datatype RolloutState = Running | Paused | Completed | Cancelled

  datatype Rollout = Rollout(state: RolloutState, maxParallel: nat, windowSeconds: nat, members: seq<Member>)
  {
    predicate Open() { state == Running || state == Paused }

    predicate AllSucceeded() {
      forall m <- members :: m.state == Succeeded
    }

    predicate AnyFailed() {
      exists m <- members :: m.state == Failed
    }
  }

  datatype TaskAnswer = TaskLookupFails | TaskFailed | TaskSucceeded | TaskUnfinished

  datatype Readiness = ReadinessUnknown | Ready | NotReady(probeFailed: bool)

  datatype DispatchAnswer = DispatchFails | TaskAlreadyDone | TaskCreated

  datatype World = World(
    now: int,
    storeAnswers: bool,
    task: nat -> TaskAnswer,
    readiness: nat -> Readiness,
    artifactsMatch: bool,
    heartbeatIsRecent: nat -> bool,
    dispatch: nat -> DispatchAnswer,
    dispatchedAt: int,
    observationsSave: bool,
    verdictSaves: bool)

  predicate Busy(m: Member) { m.state == Upgrading || m.state == Verifying }

  function BusyCount(members: seq<Member>): nat {
    if members == [] then 0 else BusyCount(members[..|members| - 1]) + if Busy(members[|members| - 1]) then 1 else 0
  }

  // ------------------------------------------------------------------ observing

  function Healthier(m: Member, now: int, windowSeconds: nat): Member {
    var since :=
      if m.healthySince.None? || m.lastObserved.None? || !(0 <= now - m.lastObserved.value <= MAX_GAP) then now
      else m.healthySince.value;
    m.(healthySince := Some(since), lastObserved := Some(now),
       state := if now - since >= windowSeconds * SECOND then Succeeded else m.state)
  }

  function Verified(m: Member, now: int): Member {
    if m.state != Verifying || m.verificationStarted.None?
    then m.(state := Verifying, verificationStarted := Some(now)) else m
  }

  function ObserveMember(m: Member, w: World, i: nat, windowSeconds: nat): Member {
    if !Busy(m) then m
    else match w.task(i)
      case TaskFailed => m.(state := Failed)
      case TaskSucceeded =>
        var v := Verified(m, w.now);
        (match w.readiness(i)
         case Ready => Healthier(v, w.now, windowSeconds)
         case NotReady(probeFailed) =>
           v.(healthySince := None, lastObserved := None,
              state := if w.now - v.verificationStarted.value >= VERIFICATION_LIMIT || probeFailed then Failed else v.state)
         case ReadinessUnknown => m)
      case _ => m
  }

  predicate Halts(m: Member, w: World, i: nat) {
    Busy(m) && (w.task(i).TaskLookupFails? || (w.task(i).TaskSucceeded? && w.readiness(i).ReadinessUnknown?))
  }

  predicate Changes(m: Member, w: World, i: nat) {
    Busy(m) && (w.task(i).TaskFailed? || w.task(i).TaskSucceeded?)
  }

  predicate AnyHalts(r: Rollout, w: World) {
    exists i: nat :: i < |r.members| && Halts(r.members[i], w, i)
  }

  predicate AnyChanges(r: Rollout, w: World) {
    exists i: nat :: i < |r.members| && Changes(r.members[i], w, i)
  }

  predicate FailsIn(m: Member, w: World, i: nat, windowSeconds: nat) {
    m.state != Failed && ObserveMember(m, w, i, windowSeconds).state == Failed
  }

  predicate AnyFailsIn(r: Rollout, w: World) {
    exists i: nat :: i < |r.members| && FailsIn(r.members[i], w, i, r.windowSeconds)
  }

  /** The rollout after looking at every busy member; any failure pauses it. */
  function Observed(r: Rollout, w: World): Rollout {
    r.(members := seq(|r.members|, i requires 0 <= i < |r.members| => ObserveMember(r.members[i], w, i, r.windowSeconds)),
       state := if AnyFailsIn(r, w) then Paused else r.state)
  }

  // ---------------------------------------------------------------- dispatching

  /** The store's own guard on a dispatch, taken in one transaction. */
  predicate MayDispatch(r: Rollout, i: nat)
    requires i < |r.members|
  {
    && r.state == Running
    && !r.AnyFailed()
    && r.members[i].state == Pending
    && BusyCount(r.members) < r.maxParallel
    && (i == 0 || r.members[0].state == Succeeded)
  }

  /** A member whose installation already succeeded is only verified again. */
  function DispatchMember(m: Member, w: World, i: nat): Member {
    if m.hasTask && w.dispatch(i).TaskAlreadyDone?
    then m.(state := Verifying, verificationStarted := Some(w.dispatchedAt))
    else m.(state := Upgrading, hasTask := true)
  }

  function Dispatch(r: Rollout, w: World, i: nat): Option<Rollout>
    requires i < |r.members|
  {
    if !MayDispatch(r, i) || w.dispatch(i).DispatchFails? then None
    else Some(r.(members := r.members[i := DispatchMember(r.members[i], w, i)]))
  }

  datatype DispatchRound = Went(rollout: Rollout) | Stopped(rollout: Rollout)

  function DispatchFrom(r: Rollout, w: World, i: nat): (round: DispatchRound)
    requires i <= |r.members|
    ensures |round.rollout.members| == |r.members| && round.rollout.windowSeconds == r.windowSeconds
    decreases |r.members| - i
  {
    if i == |r.members| then Went(r)
    else if r.members[i].state != Pending then DispatchFrom(r, w, i + 1)
    else if BusyCount(r.members) >= r.maxParallel || (i != 0 && r.members[0].state != Succeeded) then Went(r)
    else if !w.heartbeatIsRecent(i) then Stopped(r)
    else match Dispatch(r, w, i)
      case None => Stopped(r)
      case Some(next) => DispatchFrom(next, w, i + 1)
  }

  // ------------------------------------------------------------------- one round

  /** Whether the round's observations reach the record. */
  predicate ObservationsKept(r: Rollout, w: World) {
    && r.Open() && w.storeAnswers && !AnyHalts(r, w)
    && (AnyChanges(r, w) ==> w.observationsSave)
  }

  /** A verdict changes the record only when it can be saved. */
  function Verdict(r: Rollout, state: RolloutState, w: World): Rollout {
    if w.verdictSaves then r.(state := state) else r
  }

  /** The record after one round. */
  function Reconciled(r: Rollout, w: World): (after: Rollout)
    ensures |after.members| == |r.members| && after.windowSeconds == r.windowSeconds
  {
    if !ObservationsKept(r, w) then r
    else
      var seen := Observed(r, w);
      if seen.state == Paused then seen
      else if !w.artifactsMatch then Verdict(seen, Paused, w)
      else
        var round := DispatchFrom(seen, w, 0);
        if round.Stopped? then Verdict(round.rollout, Paused, w)
        else if round.rollout.AllSucceeded() then Verdict(round.rollout, Completed, w)
        else round.rollout
  }

  function Retried(m: Member): Member {
    if m.state == Failed
    then m.(state := Pending, healthySince := None, lastObserved := None, verificationStarted := None) else m
  }

  function Resumed(r: Rollout): Rollout {
    if r.Open()
    then r.(state := Running, members := seq(|r.members|, i requires 0 <= i < |r.members| => Retried(r.members[i])))
    else r
  }

  function Dropped(m: Member): Member {
    if m.state == Pending || m.state == Failed then m.(state := Skipped) else m
  }

  function CancelledBy(r: Rollout): Rollout {
    if r.Open()
    then r.(state := Cancelled, members := seq(|r.members|, i requires 0 <= i < |r.members| => Dropped(r.members[i])))
    else r
  }

  function PausedBy(r: Rollout): Rollout {
    if r.Open() then r.(state := Paused) else r
  }

  predicate WithinLimits(members: nat, maxParallel: nat, windowSeconds: nat) {
    members > 0 && 1 <= maxParallel <= 10 && 30 <= windowSeconds <= 600
  }

  function Created(members: nat, maxParallel: nat, windowSeconds: nat): Option<Rollout> {
    if WithinLimits(members, maxParallel, windowSeconds)
    then Some(Rollout(Running, maxParallel, windowSeconds, seq(members, _ => Member(Pending, false, None, None, None))))
    else None
  }

  // ------------------------------------------------------------------ the controller

  class RolloutController {
    var record: Rollout

    constructor (rollout: Rollout)
      ensures record == rollout
    {
      record := rollout;
    }

    method ObserveAll(w: World) returns (halted: bool, changed: bool, rollout: Rollout)
      ensures halted == AnyHalts(record, w)
      ensures !halted ==> changed == AnyChanges(record, w) && rollout == Observed(record, w)
    {
      halted, changed, rollout := false, false, record;
      var members, paused := record.members, false;
      for i := 0 to |members|
        invariant |members| == |record.members|
        invariant forall k: nat :: k < i ==> !Halts(record.members[k], w, k)
        invariant changed ==> AnyChanges(record, w)
        invariant !changed ==> forall k: nat :: k < i ==> !Changes(record.members[k], w, k)
        invariant paused ==> AnyFailsIn(record, w)
        invariant !paused ==> forall k: nat :: k < i ==> !FailsIn(record.members[k], w, k, record.windowSeconds)
        invariant forall k: nat :: k < i ==> members[k] == ObserveMember(record.members[k], w, k, record.windowSeconds)
        invariant forall k: nat :: i <= k < |members| ==> members[k] == record.members[k]
      {
        if Busy(members[i]) {
          var touched, member, pauses;
          halted, touched, member, pauses := ObserveBusy(members[i], w, i, record.windowSeconds);
          if halted { return; }
          changed := changed || touched;
          paused := paused || pauses;
          members := members[i := member];
        }
      }
      assert members == Observed(record, w).members;
      rollout := record.(members := members, state := if paused then Paused else record.state);
    }

    method ObserveBusy(was: Member, w: World, i: nat, windowSeconds: nat)
      returns (halted: bool, changed: bool, member: Member, pauses: bool)
      requires Busy(was)
      ensures halted == Halts(was, w, i) && changed == Changes(was, w, i)
      ensures !halted ==> member == ObserveMember(was, w, i, windowSeconds)
      ensures !halted ==> pauses == FailsIn(was, w, i, windowSeconds)
    {
      halted, changed, member, pauses := false, false, was, false;
      match w.task(i) {
        case TaskLookupFails =>
          halted := true;
        case TaskFailed =>
          member := member.(state := Failed);
          changed, pauses := true, true;
        case TaskUnfinished =>
        case TaskSucceeded =>
          changed := true;
          halted, member, pauses := Observe(member, w, i, windowSeconds);
      }
    }

    /** Looks at one member whose installation has succeeded. */
    method Observe(was: Member, w: World, i: nat, windowSeconds: nat) returns (halted: bool, member: Member, pauses: bool)
      requires Busy(was) && w.task(i).TaskSucceeded?
      ensures halted == Halts(was, w, i)
      ensures !halted ==> member == ObserveMember(was, w, i, windowSeconds)
      ensures !halted ==> pauses == FailsIn(was, w, i, windowSeconds)
    {
      halted, member, pauses := false, was, false;
      if member.state != Verifying || member.verificationStarted.None? {
        member := member.(state := Verifying, verificationStarted := Some(w.now));
      }
      match w.readiness(i) {
        case ReadinessUnknown =>
          halted := true;
        case NotReady(probeFailed) =>
          member := member.(healthySince := None, lastObserved := None);
          if w.now - member.verificationStarted.value >= VERIFICATION_LIMIT || probeFailed {
            member := member.(state := Failed);
            pauses := true;
          }
        case Ready =>
          if member.healthySince.None? || member.lastObserved.None? || w.now - member.lastObserved.value > MAX_GAP
             || w.now < member.lastObserved.value
          {
            member := member.(healthySince := Some(w.now));
          }
          member := member.(lastObserved := Some(w.now));
          if w.now - member.healthySince.value >= windowSeconds * SECOND {
            member := member.(state := Succeeded);
          }
      }
    }

    method CountBusy(members: seq<Member>) returns (active: nat)
      ensures active == BusyCount(members)
    {
      active := 0;
      for k := 0 to |members|
        invariant active == BusyCount(members[..k])
      {
        assert members[..k + 1][..k] == members[..k];
        if Busy(members[k]) { active := active + 1; }
      }
      assert members[..|members|] == members;
    }

    /** Walks the members as they stood when the walk began. */
    method DispatchAll(w: World) returns (stopped: bool)
      modifies this
      ensures var round := DispatchFrom(old(record), w, 0);
              stopped == round.Stopped? && record == round.rollout
    {
      var members := record.members;
      for i := 0 to |members|
        invariant |record.members| == |members|
        invariant forall k :: i <= k < |members| ==> record.members[k] == members[k]
        invariant DispatchFrom(record, w, i) == DispatchFrom(old(record), w, 0)
      {
        if members[i].state == Pending {
          var active := CountBusy(record.members);
          if active >= record.maxParallel || (i != 0 && record.members[0].state != Succeeded) { return false; }
          if !w.heartbeatIsRecent(i) { return true; }
          var next := Dispatch(record, w, i);
          if next.None? { return true; }
          record := next.value;
        }
      }
      return false;
    }

    method SaveVerdict(state: RolloutState, w: World)
      modifies this
      ensures record == Verdict(old(record), state, w)
    {
      if w.verdictSaves { record := record.(state := state); }
    }

    method Reconcile(w: World)
      modifies this
      ensures record == Reconciled(old(record), w)
    {
      if !w.storeAnswers || !record.Open() { return; }
      var halted, changed, rollout := ObserveAll(w);
      if halted { return; }
      if changed {
        if !w.observationsSave { return; }
        record := rollout;
      } else {
        NothingChanges(record, w);
      }
      if record.state == Paused { return; }
      if !w.artifactsMatch {
        SaveVerdict(Paused, w);
        return;
      }
      var stopped := DispatchAll(w);
      if stopped {
        SaveVerdict(Paused, w);
        return;
      }
      var complete := true;
      for k := 0 to |record.members|
        invariant complete == forall m <- record.members[..k] :: m.state == Succeeded
        invariant record == DispatchFrom(Observed(old(record), w), w, 0).rollout
      {
        if record.members[k].state != Succeeded { complete := false; }
      }
      assert record.members[..|record.members|] == record.members;
      if complete { SaveVerdict(Completed, w); }
    }

    method Resume()
      modifies this
      ensures record == Resumed(old(record))
    {
      if !record.Open() { return; }
      var members := record.members;
      for i := 0 to |members|
        invariant |members| == |record.members|
        invariant forall k :: 0 <= k < |members| ==>
                    members[k] == if k < i then Retried(record.members[k]) else record.members[k]
      {
        if members[i].state == Failed {
          members := members[i := members[i].(state := Pending, healthySince := None, lastObserved := None,
                                              verificationStarted := None)];
        }
      }
      record := record.(state := Running, members := members);
    }

    method Cancel()
      modifies this
      ensures record == CancelledBy(old(record))
    {
      if !record.Open() { return; }
      var members := record.members;
      for i := 0 to |members|
        invariant |members| == |record.members|
        invariant forall k :: 0 <= k < |members| ==>
                    members[k] == if k < i then Dropped(record.members[k]) else record.members[k]
      {
        if members[i].state == Pending || members[i].state == Failed {
          members := members[i := members[i].(state := Skipped)];
        }
      }
      record := record.(state := Cancelled, members := members);
    }

    method Pause()
      modifies this
      ensures record == PausedBy(old(record))
    {
      if record.Open() { record := record.(state := Paused); }
    }
  }

  lemma NothingChanges(r: Rollout, w: World)
    requires !AnyChanges(r, w)
    ensures Observed(r, w) == r
  {
    forall i: nat | i < |r.members|
      ensures ObserveMember(r.members[i], w, i, r.windowSeconds) == r.members[i]
    {
      assert !Changes(r.members[i], w, i);
    }
    assert Observed(r, w).members == r.members;
  }

  // ------------------------------------------------------------------ rollout safety

  /** What every reachable record satisfies. */
  ghost predicate Sound(r: Rollout) {
    && BusyCount(r.members) <= r.maxParallel
    && CanaryFirst(r)
    && (r.state == Running ==> !r.AnyFailed())
    && (r.state == Completed ==> r.AllSucceeded())
    && (r.Open() ==> forall m <- r.members :: m.state != Skipped)
  }

  /** No later member has been touched before the first has succeeded. */
  ghost predicate CanaryFirst(r: Rollout) {
    forall i :: 0 < i < |r.members| && r.members[i].state !in {Pending, Skipped} ==> r.members[0].state == Succeeded
  }

  lemma {:induction false} BusyCountShrinks(before: seq<Member>, after: seq<Member>)
    requires |after| == |before|
    requires forall i :: 0 <= i < |before| && Busy(after[i]) ==> Busy(before[i])
    ensures BusyCount(after) <= BusyCount(before)
  {
    if before != [] { BusyCountShrinks(before[..|before| - 1], after[..|after| - 1]); }
  }

  lemma {:induction false} BusyCountOfOneMore(members: seq<Member>, i: nat, m: Member)
    requires i < |members| && !Busy(members[i]) && Busy(m)
    ensures BusyCount(members[i := m]) == BusyCount(members) + 1
  {
    var last := |members| - 1;
    if i == last {
      assert members[i := m][..last] == members[..last];
    } else {
      assert members[i := m][..last] == members[..last][i := m];
      BusyCountOfOneMore(members[..last], i, m);
    }
  }

  lemma ObserveMemberStates(m: Member, w: World, i: nat, windowSeconds: nat)
    ensures var after := ObserveMember(m, w, i, windowSeconds);
            if Busy(m) then after.state !in {Pending, Skipped} else after == m
  {
  }

  lemma ObservedIsSound(r: Rollout, w: World)
    requires Sound(r) && r.Open()
    ensures Sound(Observed(r, w))
    ensures Observed(r, w).state == Running ==> r.state == Running
  {
    var seen := Observed(r, w);
    forall i: nat | i < |r.members|
      ensures seen.members[i].state != Skipped
      ensures seen.state == Running ==> seen.members[i].state != Failed
      ensures if Busy(r.members[i]) then seen.members[i].state != Pending else seen.members[i] == r.members[i]
    {
      assert r.members[i] in r.members;
      ObserveMemberStates(r.members[i], w, i, r.windowSeconds);
      assert seen.state == Running ==> !FailsIn(r.members[i], w, i, r.windowSeconds);
    }
    BusyCountShrinks(r.members, seen.members);
  }

  lemma DispatchIsSound(r: Rollout, w: World, i: nat)
    requires Sound(r) && i < |r.members| && Dispatch(r, w, i).Some?
    ensures Sound(Dispatch(r, w, i).value) && Dispatch(r, w, i).value.state == Running
  {
    BusyCountOfOneMore(r.members, i, DispatchMember(r.members[i], w, i));
    var next := Dispatch(r, w, i).value;
    forall k | 0 <= k < |next.members| ensures next.members[k].state !in {Failed, Skipped} {
      assert r.members[k] in r.members;
    }
  }

  lemma {:induction false} DispatchRoundIsSound(r: Rollout, w: World, i: nat)
    requires Sound(r) && r.state == Running && i <= |r.members|
    ensures Sound(DispatchFrom(r, w, i).rollout) && DispatchFrom(r, w, i).rollout.state == Running
    decreases |r.members| - i
  {
    if i < |r.members| {
      var next := Dispatch(r, w, i);
      if r.members[i].state != Pending {
        DispatchRoundIsSound(r, w, i + 1);
      } else if next.Some? {
        DispatchIsSound(r, w, i);
        DispatchRoundIsSound(next.value, w, i + 1);
      }
    }
  }

  lemma RoundIsSound(r: Rollout, w: World)
    requires Sound(r)
    ensures Sound(Reconciled(r, w))
  {
    if ObservationsKept(r, w) {
      ObservedIsSound(r, w);
      var seen := Observed(r, w);
      if seen.state == Running { DispatchRoundIsSound(seen, w, 0); }
    }
  }

  lemma ResumedIsSound(r: Rollout)
    requires Sound(r)
    ensures Sound(Resumed(r))
  {
    if r.Open() {
      var after := Resumed(r);
      BusyCountShrinks(r.members, after.members);
      forall i | 0 <= i < |r.members| ensures after.members[i].state !in {Failed, Skipped} {
        assert r.members[i] in r.members;
      }
    }
  }

  lemma CancelledIsSound(r: Rollout)
    requires Sound(r)
    ensures Sound(CancelledBy(r))
  {
    if r.Open() { BusyCountShrinks(r.members, CancelledBy(r).members); }
  }

  lemma {:induction false} FreshMembersAreIdle(members: seq<Member>)
    requires forall m <- members :: m.state == Pending
    ensures BusyCount(members) == 0
  {
    if members != [] { FreshMembersAreIdle(members[..|members| - 1]); }
  }

  /** A member leaves `Pending` in a round only when the rollout was running, no member
      failed in that round, the artifacts still match, its heartbeat is recent and the
      canary is through (or it is the canary). */
  lemma DispatchNeedsACleanRound(r: Rollout, w: World, i: nat)
    requires Sound(r) && i < |r.members| && r.members[i].state == Pending
    requires Reconciled(r, w).members[i].state != Pending
    ensures r.state == Running && w.artifactsMatch && w.heartbeatIsRecent(i)
    ensures forall k: nat | k < |r.members| :: !Doomed(r.members[k], w, k)
    ensures i == 0 || Reconciled(r, w).members[0].state == Succeeded
  {
    ObservedIsSound(r, w);
    DispatchTouches(Observed(r, w), w, 0, i);
    DispatchTouches(Observed(r, w), w, 0, 0);
    if exists k: nat :: k < |r.members| && Doomed(r.members[k], w, k) {
      var k: nat :| k < |r.members| && Doomed(r.members[k], w, k);
      AnyFailurePauses(r, w, k, i);
    }
  }

  lemma {:induction false} DispatchTouches(r: Rollout, w: World, from: nat, i: nat)
    requires from <= |r.members| && i < |r.members|
    ensures var after := DispatchFrom(r, w, from).rollout;
            && |after.members| == |r.members|
            && (r.members[i].state != Pending ==> after.members[i] == r.members[i])
            && (r.members[i].state == Pending && after.members[i].state != Pending ==>
                  w.heartbeatIsRecent(i) && (i == 0 || r.members[0].state == Succeeded))
            && (after.members[i] == r.members[i] || after.members[i] == DispatchMember(r.members[i], w, i))
    decreases |r.members| - from
  {
    if from < |r.members| {
      var next := Dispatch(r, w, from);
      if r.members[from].state != Pending {
        DispatchTouches(r, w, from + 1, i);
      } else if next.Some? {
        DispatchTouches(next.value, w, from + 1, i);
      }
    }
  }

  /** A round completes an open rollout exactly when it was running, every member has
      succeeded by the end of its observations, and the verdict can be saved. */
  lemma CompletesIff(r: Rollout, w: World)
    requires Sound(r) && r.Open()
    ensures Reconciled(r, w).state == Completed <==>
            && ObservationsKept(r, w) && r.state == Running && w.artifactsMatch && w.verdictSaves
            && Observed(r, w).AllSucceeded()
  {
    if ObservationsKept(r, w) {
      ObservedIsSound(r, w);
      var seen := Observed(r, w);
      if seen.AllSucceeded() {
        forall i: nat | i < |r.members| ensures !FailsIn(r.members[i], w, i, r.windowSeconds) {
          assert seen.members[i] in seen.members;
        }
      }
      if seen.state == Running {
        DispatchRoundIsSound(seen, w, 0);
        var round := DispatchFrom(seen, w, 0);
        if seen.AllSucceeded() {
          assert forall i :: 0 <= i < |r.members| ==> seen.members[i] in seen.members;
          NothingToDispatch(seen, w, 0);
        } else if round.rollout.AllSucceeded() {
          forall i: nat | i < |seen.members| ensures seen.members[i].state == Succeeded {
            DispatchTouches(seen, w, 0, i);
            assert round.rollout.members[i] in round.rollout.members;
          }
        }
      }
    }
  }

  lemma {:induction false} NothingToDispatch(r: Rollout, w: World, i: nat)
    requires i <= |r.members|
    requires forall k :: i <= k < |r.members| ==> r.members[k].state != Pending
    ensures DispatchFrom(r, w, i) == Went(r)
    decreases |r.members| - i
  {
    if i < |r.members| { NothingToDispatch(r, w, i + 1); }
  }

  // -------------------------------------------------------- rounds, by what they read

  /** A round's observations reach the record exactly when the rollout is open, the store and every
      lookup of a busy member answer, and whatever there is to save is saved. */
  lemma KeptIff(r: Rollout, w: World)
    ensures ObservationsKept(r, w) <==>
            && (r.state == Running || r.state == Paused) && w.storeAnswers
            && (forall i: nat | i < |r.members| && Busy(r.members[i]) ::
                  !w.task(i).TaskLookupFails? && !(w.task(i).TaskSucceeded? && w.readiness(i).ReadinessUnknown?))
            && (|| w.observationsSave
                || forall i: nat | i < |r.members| && Busy(r.members[i]) :: w.task(i).TaskUnfinished?)
  {
    if !w.observationsSave && !AnyHalts(r, w) && !AnyChanges(r, w) {
      forall i: nat | i < |r.members| && Busy(r.members[i]) ensures w.task(i).TaskUnfinished? {
        assert !Halts(r.members[i], w, i) && !Changes(r.members[i], w, i);
      }
    }
    if !AnyHalts(r, w) {
      forall i: nat | i < |r.members| && Busy(r.members[i])
        ensures !w.task(i).TaskLookupFails? && !(w.task(i).TaskSucceeded? && w.readiness(i).ReadinessUnknown?)
      {
        assert !Halts(r.members[i], w, i);
      }
    }
  }

  /** Its task failed; or the node is seen unready with a failed probe, or five minutes after its
      verification began. */
  predicate Doomed(m: Member, w: World, i: nat) {
    && Busy(m)
    && (|| w.task(i).TaskFailed?
        || (&& w.task(i).TaskSucceeded? && w.readiness(i).NotReady?
            && (|| w.readiness(i).probeFailed
                || (m.state == Verifying && m.verificationStarted.Some?
                    && w.now - m.verificationStarted.value >= 300_000_000_000))))
  }

  lemma DoomedIff(m: Member, w: World, i: nat, windowSeconds: nat)
    requires Busy(m) && !Halts(m, w, i)
    ensures ObserveMember(m, w, i, windowSeconds).state == Failed <==> Doomed(m, w, i)
  {
  }

  /** In a round whose observations are kept a busy member fails exactly when it is doomed. */
  lemma FailsInARoundIff(r: Rollout, w: World, i: nat)
    requires ObservationsKept(r, w) && i < |r.members| && Busy(r.members[i])
    ensures Reconciled(r, w).members[i].state == Failed <==> Doomed(r.members[i], w, i)
  {
    assert !Halts(r.members[i], w, i);
    DoomedIff(r.members[i], w, i, r.windowSeconds);
    ObserveMemberStates(r.members[i], w, i, r.windowSeconds);
    DispatchTouches(Observed(r, w), w, 0, i);
  }

  /** Any failure pauses the rollout, and then no member leaves pending. */
  lemma AnyFailurePauses(r: Rollout, w: World, i: nat, k: nat)
    requires ObservationsKept(r, w) && i < |r.members| && k < |r.members| && Doomed(r.members[i], w, i)
    ensures Reconciled(r, w).state == Paused
    ensures r.members[k].state == Pending ==> Reconciled(r, w).members[k] == r.members[k]
  {
    assert !Halts(r.members[i], w, i);
    DoomedIff(r.members[i], w, i, r.windowSeconds);
    assert FailsIn(r.members[i], w, i, r.windowSeconds);
  }

  /** A busy member whose task is unfinished, and every member that is not busy but for those
      dispatched, stays as it was. */
  lemma OthersStay(r: Rollout, w: World, i: nat)
    requires ObservationsKept(r, w) && i < |r.members|
    requires if Busy(r.members[i]) then w.task(i).TaskUnfinished? else r.members[i].state != Pending
    ensures Reconciled(r, w).members[i] == r.members[i]
  {
    assert !Halts(r.members[i], w, i);
    DispatchTouches(Observed(r, w), w, 0, i);
  }

  /** A member whose task has succeeded, and that is not doomed, is verified or done: its
      verification goes on from when it began, or begins now. */
  lemma VerifiedAfterItsTask(r: Rollout, w: World, i: nat)
    requires ObservationsKept(r, w) && i < |r.members| && Busy(r.members[i])
    requires w.task(i).TaskSucceeded? && !Doomed(r.members[i], w, i)
    ensures var m, after := r.members[i], Reconciled(r, w).members[i];
            && after.state in {Verifying, Succeeded}
            && after.verificationStarted ==
                 (if m.state == Verifying && m.verificationStarted.Some? then m.verificationStarted else Some(w.now))
            && (w.readiness(i).Ready? <==> after.lastObserved == Some(w.now))
            && (w.readiness(i).NotReady? ==>
                  after.state == Verifying && after.healthySince.None? && after.lastObserved.None?)
  {
    assert !Halts(r.members[i], w, i);
    DispatchTouches(Observed(r, w), w, 0, i);
  }

  /** Who may be dispatched in a round, and who is: with nothing failing and the artifacts matching,
      the first pending member of a running rollout leaves pending exactly when there is room, the
      canary is through (or it is the canary), its heartbeat is recent and its dispatch is taken. */
  lemma FirstPendingIsDispatchedIff(r: Rollout, w: World, i: nat)
    requires Sound(r) && ObservationsKept(r, w) && r.state == Running && w.artifactsMatch
    requires forall k: nat | k < |r.members| :: !Doomed(r.members[k], w, k)
    requires i < |r.members| && r.members[i].state == Pending
    requires forall k :: 0 <= k < i ==> r.members[k].state != Pending
    ensures Reconciled(r, w).members[i].state != Pending
       <==> && BusyCount(Observed(r, w).members) < r.maxParallel
            && (i == 0 || Reconciled(r, w).members[0].state == Succeeded)
            && w.heartbeatIsRecent(i) && !w.dispatch(i).DispatchFails?
    ensures Reconciled(r, w).members[i].state in {Pending, Upgrading, Verifying}
    ensures Reconciled(r, w).members[i].state == Verifying ==> r.members[i].hasTask && w.dispatch(i).TaskAlreadyDone?
  {
    NothingDoomedNothingFails(r, w);
    ObservedIsSound(r, w);
    var seen := Observed(r, w);
    forall k | 0 <= k < i ensures seen.members[k].state != Pending {
      ObserveMemberStates(r.members[k], w, k, r.windowSeconds);
    }
    SkipsToFirstPending(seen, w, 0, i);
    DispatchTouches(seen, w, 0, i);
    DispatchTouches(seen, w, 0, 0);
    FirstIsDispatchedIff(seen, w, i);
  }

  lemma NothingDoomedNothingFails(r: Rollout, w: World)
    requires ObservationsKept(r, w) && forall k: nat | k < |r.members| :: !Doomed(r.members[k], w, k)
    ensures !AnyFailsIn(r, w)
  {
    forall k: nat | k < |r.members| ensures !FailsIn(r.members[k], w, k, r.windowSeconds) {
      assert !Halts(r.members[k], w, k) && !Doomed(r.members[k], w, k);
      if Busy(r.members[k]) { DoomedIff(r.members[k], w, k, r.windowSeconds); }
    }
  }

  lemma {:induction false} SkipsToFirstPending(r: Rollout, w: World, from: nat, i: nat)
    requires from <= i < |r.members| && forall k :: from <= k < i ==> r.members[k].state != Pending
    ensures DispatchFrom(r, w, from) == DispatchFrom(r, w, i)
    decreases i - from
  {
    if from < i { SkipsToFirstPending(r, w, from + 1, i); }
  }

  lemma FirstIsDispatchedIff(r: Rollout, w: World, i: nat)
    requires Sound(r) && r.state == Running && i < |r.members| && r.members[i].state == Pending
    ensures DispatchFrom(r, w, i).rollout.members[i].state != Pending
       <==> && BusyCount(r.members) < r.maxParallel && (i == 0 || r.members[0].state == Succeeded)
            && w.heartbeatIsRecent(i) && !w.dispatch(i).DispatchFails?
    ensures DispatchFrom(r, w, i).rollout.members[i].state in {Pending, Upgrading, Verifying}
    ensures DispatchFrom(r, w, i).rollout.members[i].state == Verifying ==>
              r.members[i].hasTask && w.dispatch(i).TaskAlreadyDone?
  {
    var next := Dispatch(r, w, i);
    if next.Some? { DispatchTouches(next.value, w, i + 1, i); }
  }

  /** One that could be dispatched but for a stale heartbeat or a refused dispatch pauses the
      rollout. */
  lemma RefusedDispatchPauses(r: Rollout, w: World, i: nat)
    requires Sound(r) && ObservationsKept(r, w) && r.state == Running && w.artifactsMatch && w.verdictSaves
    requires forall k: nat | k < |r.members| :: !Doomed(r.members[k], w, k)
    requires i < |r.members| && r.members[i].state == Pending
    requires forall k :: 0 <= k < i ==> r.members[k].state != Pending
    requires BusyCount(Observed(r, w).members) < r.maxParallel
    requires i == 0 || Reconciled(r, w).members[0].state == Succeeded
    requires !w.heartbeatIsRecent(i) || w.dispatch(i).DispatchFails?
    ensures Reconciled(r, w).state == Paused && Reconciled(r, w).members[i] == r.members[i]
  {
    NothingDoomedNothingFails(r, w);
    ObservedIsSound(r, w);
    var seen := Observed(r, w);
    forall k | 0 <= k < i ensures seen.members[k].state != Pending {
      ObserveMemberStates(r.members[k], w, k, r.windowSeconds);
    }
    SkipsToFirstPending(seen, w, 0, i);
    DispatchTouches(seen, w, 0, i);
    DispatchTouches(seen, w, 0, 0);
  }

  /** The store takes a dispatch, whatever has happened to the record since the round read it,
      exactly if the rollout runs, nobody has failed, the member waits, there is room and the canary
      is through. A member whose installation had already succeeded is verified from then on, and
      any other is installed. */
  lemma DispatchIff(r: Rollout, w: World, i: nat)
    requires i < |r.members|
    ensures Dispatch(r, w, i).Some? <==>
            && r.state == Running && (forall m <- r.members :: m.state != Failed) && r.members[i].state == Pending
            && BusyCount(r.members) < r.maxParallel && (i == 0 || r.members[0].state == Succeeded)
            && !w.dispatch(i).DispatchFails?
    ensures Dispatch(r, w, i).Some? ==>
              var m, after := r.members[i], Dispatch(r, w, i).value.members;
              && |after| == |r.members| && (forall k :: 0 <= k < |after| && k != i ==> after[k] == r.members[k])
              && if m.hasTask && w.dispatch(i).TaskAlreadyDone?
                 then after[i].state == Verifying && after[i].verificationStarted == Some(w.dispatchedAt)
                 else after[i].state == Upgrading && after[i].hasTask
  {
  }

  /** What a rollout may be created with. It starts running, with every member waiting. */
  lemma CreatedIff(members: nat, maxParallel: nat, windowSeconds: nat)
    ensures Created(members, maxParallel, windowSeconds).Some?
       <==> members >= 1 && maxParallel in {1, 2, 3, 4, 5, 6, 7, 8, 9, 10} && 30 <= windowSeconds < 601
    ensures Created(members, maxParallel, windowSeconds).Some? ==>
              var r := Created(members, maxParallel, windowSeconds).value;
              && r.state == Running && r.maxParallel == maxParallel && r.windowSeconds == windowSeconds
              && |r.members| == members && forall m <- r.members :: m == Member(Pending, false, None, None, None)
  {
  }

  /** A paused rollout, and one whose artifacts have changed, dispatches nothing. */
  lemma NothingLeavesPendingUnless(r: Rollout, w: World, i: nat)
    requires i < |r.members| && r.members[i].state == Pending && (r.state != Running || !w.artifactsMatch)
    ensures Reconciled(r, w).members[i] == r.members[i]
    ensures ObservationsKept(r, w) && r.state == Running && w.verdictSaves ==> Reconciled(r, w).state == Paused
  {
  }

  // ---------------------------------------------------------- the continuous window

  datatype Observation = Observation(at: int, ready: bool)

  /** Every observation from there on is ready, and none comes more than thirty seconds late. */
  predicate Linked(seen: seq<Observation>, from: nat) {
    && from < |seen|
    && (forall i :: from <= i < |seen| ==> seen[i].ready)
    && (forall i :: from <= i < |seen| - 1 ==> 0 <= seen[i + 1].at - seen[i].at <= 30_000_000_000)
  }

  /** The newest observations include an unbroken chain of ready ones that spans the window. */
  ghost predicate Proven(seen: seq<Observation>, windowSeconds: nat) {
    exists from: nat :: Linked(seen, from) && seen[|seen| - 1].at - seen[from].at >= windowSeconds * 1_000_000_000
  }

  /** What a member remembers of the chain: when it began and when it was last extended. */
  function Since(seen: seq<Observation>): Option<int> {
    if seen == [] || !seen[|seen| - 1].ready then None
    else
      var rest, o := seen[..|seen| - 1], seen[|seen| - 1];
      if Since(rest).None? || !(0 <= o.at - rest[|rest| - 1].at <= MAX_GAP) then Some(o.at) else Since(rest)
  }

  function LastReady(seen: seq<Observation>): Option<int> {
    if seen == [] || !seen[|seen| - 1].ready then None else Some(seen[|seen| - 1].at)
  }

  predicate Continues(seen: seq<Observation>)
    requires seen != []
  {
    var n := |seen| - 1;
    n > 0 && seen[n - 1].ready && 0 <= seen[n].at - seen[n - 1].at <= MAX_GAP
  }

  /** A chain either began before the newest observation, which continues it, or begins there. */
  lemma LinkedStep(seen: seq<Observation>, from: nat)
    requires seen != [] && seen[|seen| - 1].ready
    ensures Linked(seen, from) <==> from == |seen| - 1 || (Continues(seen) && Linked(seen[..|seen| - 1], from))
  {
    var rest := seen[..|seen| - 1];
    if Continues(seen) && Linked(rest, from) {
      assert forall i :: from <= i < |rest| ==> seen[i] == rest[i];
    }
    if Linked(seen, from) && from < |seen| - 1 {
      assert seen[|seen| - 2].ready && 0 <= seen[|seen| - 2 + 1].at - seen[|seen| - 2].at <= MAX_GAP;
    }
  }

  /** No chain begins before the remembered start. */
  lemma {:induction false} SinceIsEarliest(seen: seq<Observation>, from: nat)
    requires Linked(seen, from)
    ensures Since(seen).Some? && Since(seen).value <= seen[from].at
  {
    LinkedStep(seen, from);
    var rest := seen[..|seen| - 1];
    if from < |seen| - 1 {
      SinceIsEarliest(rest, from);
    } else if Continues(seen) {
      SinceOfReady(rest);
    }
  }

  lemma {:induction false} SinceOfReady(seen: seq<Observation>)
    requires seen != [] && seen[|seen| - 1].ready
    ensures Since(seen).Some? && Since(seen).value <= seen[|seen| - 1].at
  {
    if Continues(seen) { SinceOfReady(seen[..|seen| - 1]); }
  }

  lemma {:induction false} SinceBeginsAChain(seen: seq<Observation>) returns (from: nat)
    requires Since(seen).Some?
    ensures Linked(seen, from) && seen[from].at == Since(seen).value
  {
    if Continues(seen) {
      SinceOfReady(seen[..|seen| - 1]);
      from := SinceBeginsAChain(seen[..|seen| - 1]);
    } else {
      from := |seen| - 1;
    }
    LinkedStep(seen, from);
  }

  /** The two remembered times decide exactly whether a spanning chain exists. */
  lemma ProvenIff(seen: seq<Observation>, windowSeconds: nat)
    ensures Proven(seen, windowSeconds) <==>
            Since(seen).Some? && LastReady(seen).value - Since(seen).value >= windowSeconds * 1_000_000_000
  {
    if Proven(seen, windowSeconds) {
      var from: nat :|
        Linked(seen, from) && seen[|seen| - 1].at - seen[from].at >= windowSeconds * 1_000_000_000;
      SinceIsEarliest(seen, from);
    }
    if Since(seen).Some? {
      var from := SinceBeginsAChain(seen);
    }
  }

  /** What one saved round adds to a member's observations. */
  function Seen(r: Rollout, w: World, i: nat): seq<Observation>
    requires i < |r.members|
  {
    if ObservationsKept(r, w) && Busy(r.members[i]) && w.task(i).TaskSucceeded?
    then [Observation(w.now, w.readiness(i).Ready?)] else []
  }

  /** A record with the saved observations of each member since its last dispatch was prepared. */
  datatype Trace = Trace(rollout: Rollout, seen: seq<seq<Observation>>)

  datatype Event = Round(w: World) | Pause | Resume | Cancel

  ghost function Step(t: Trace, e: Event): Trace
    requires |t.seen| == |t.rollout.members|
  {
    var r := t.rollout;
    match e
    case Round(w) =>
      Trace(Reconciled(r, w), seq(|t.seen|, i requires 0 <= i < |t.seen| => t.seen[i] + Seen(r, w, i)))
    case Pause => Trace(PausedBy(r), t.seen)
    case Resume =>
      Trace(Resumed(r), seq(|t.seen|, i requires 0 <= i < |t.seen| =>
                              if r.Open() && r.members[i].state == Failed then [] else t.seen[i]))
    case Cancel => Trace(CancelledBy(r), t.seen)
  }

  /** How a member's fields stand for its observations. */
  ghost predicate Remembers(m: Member, seen: seq<Observation>, windowSeconds: nat) {
    match m.state
    case Pending => seen == [] && m.healthySince.None? && m.lastObserved.None?
    case Upgrading => seen == [] && m.healthySince.None? && m.lastObserved.None?
    case Verifying => m.healthySince == Since(seen) && m.lastObserved == LastReady(seen) && !Proven(seen, windowSeconds)
    case Succeeded => Proven(seen, windowSeconds)
    case _ => true
  }

  ghost predicate Inv(t: Trace) {
    && Sound(t.rollout)
    && |t.seen| == |t.rollout.members|
    && t.rollout.windowSeconds > 0
    && forall i :: 0 <= i < |t.seen| ==> Remembers(t.rollout.members[i], t.seen[i], t.rollout.windowSeconds)
  }

  lemma ObservationIsRemembered(m: Member, seen: seq<Observation>, w: World, i: nat, windowSeconds: nat)
    requires Remembers(m, seen, windowSeconds) && windowSeconds > 0 && Busy(m) && !Halts(m, w, i)
    ensures Remembers(ObserveMember(m, w, i, windowSeconds),
                      if w.task(i).TaskSucceeded? then seen + [Observation(w.now, w.readiness(i).Ready?)] else seen,
                      windowSeconds)
  {
    if w.task(i).TaskSucceeded? {
      var longer := seen + [Observation(w.now, w.readiness(i).Ready?)];
      assert longer[..|longer| - 1] == seen;
      ProvenIff(longer, windowSeconds);
    }
  }

  lemma ObservedIsRemembered(t: Trace, w: World, i: nat)
    requires Inv(t) && i < |t.seen| && ObservationsKept(t.rollout, w)
    ensures Remembers(Observed(t.rollout, w).members[i], t.seen[i] + Seen(t.rollout, w, i), t.rollout.windowSeconds)
  {
    var r := t.rollout;
    assert t.seen[i] + [] == t.seen[i];
    assert !Halts(r.members[i], w, i);
    if Busy(r.members[i]) { ObservationIsRemembered(r.members[i], t.seen[i], w, i, r.windowSeconds); }
  }

  lemma RoundIsRemembered(t: Trace, w: World, i: nat)
    requires Inv(t) && i < |t.seen|
    ensures Remembers(Reconciled(t.rollout, w).members[i], t.seen[i] + Seen(t.rollout, w, i), t.rollout.windowSeconds)
  {
    if ObservationsKept(t.rollout, w) {
      ObservedIsRemembered(t, w, i);
      DispatchTouches(Observed(t.rollout, w), w, 0, i);
    } else {
      assert t.seen[i] + [] == t.seen[i];
    }
  }

  lemma RoundKeepsInv(t: Trace, w: World)
    requires Inv(t)
    ensures Inv(Step(t, Round(w)))
  {
    RoundIsSound(t.rollout, w);
    forall i: nat | i < |t.seen|
      ensures Remembers(Step(t, Round(w)).rollout.members[i], Step(t, Round(w)).seen[i], t.rollout.windowSeconds)
    {
      RoundIsRemembered(t, w, i);
    }
  }

  lemma ResumeKeepsInv(t: Trace)
    requires Inv(t)
    ensures Inv(Step(t, Resume))
  {
    ResumedIsSound(t.rollout);
  }

  lemma CancelKeepsInv(t: Trace)
    requires Inv(t)
    ensures Inv(Step(t, Cancel))
  {
    CancelledIsSound(t.rollout);
  }

  lemma StepKeepsInv(t: Trace, e: Event)
    requires Inv(t)
    ensures Inv(Step(t, e))
  {
    match e
    case Round(w) => RoundKeepsInv(t, w);
    case Pause =>
    case Resume => ResumeKeepsInv(t);
    case Cancel => CancelKeepsInv(t);
  }

  ghost function Run(start: Trace, events: seq<Event>): (t: Trace)
    requires Inv(start)
    ensures Inv(t)
  {
    if |events| == 0 then start
    else
      var t := Run(start, events[..|events| - 1]);
      StepKeepsInv(t, events[|events| - 1]);
      Step(t, events[|events| - 1])
  }

  ghost function Fresh(rollout: Rollout): Trace {
    Trace(rollout, seq(|rollout.members|, _ => []))
  }

  /** Every run of a created rollout: the parallel limit, the canary and the verdicts hold
      throughout, and every success rests on an unbroken, long enough chain of ready
      observations made after the member's installation succeeded. */
  lemma EveryRunIsSafe(n: nat, maxParallel: nat, windowSeconds: nat, events: seq<Event>)
    requires Created(n, maxParallel, windowSeconds).Some?
    ensures Inv(Fresh(Created(n, maxParallel, windowSeconds).value))
    ensures Inv(Run(Fresh(Created(n, maxParallel, windowSeconds).value), events))
  {
    FreshMembersAreIdle(Created(n, maxParallel, windowSeconds).value.members);
  }

  /** In any run, a saved round marks an observed member succeeded exactly when its
      observations now end in an unbroken chain that spans the window. */
  lemma SucceedsIff(t: Trace, w: World, i: nat)
    requires Inv(t) && i < |t.seen| && ObservationsKept(t.rollout, w)
    requires Busy(t.rollout.members[i]) && w.task(i).TaskSucceeded?
    ensures Reconciled(t.rollout, w).members[i].state == Succeeded <==>
            Proven(t.seen[i] + [Observation(w.now, w.readiness(i).Ready?)], t.rollout.windowSeconds)
  {
    ObservedIsRemembered(t, w, i);
    DispatchTouches(Observed(t.rollout, w), w, 0, i);
    ProvenIff(t.seen[i] + Seen(t.rollout, w, i), t.rollout.windowSeconds);
    assert !Halts(t.rollout.members[i], w, i);
  }

  /** An unready observation restarts the window exactly when the whole round reaches the
      record: an error on another member, or a failed save, forgets it. */
  lemma UnreadyRestartsIff(r: Rollout, w: World, i: nat)
    requires i < |r.members| && Busy(r.members[i]) && r.members[i].healthySince.Some?
    requires w.task(i).TaskSucceeded? && w.readiness(i).NotReady?
    ensures Reconciled(r, w).members[i].healthySince.None? <==> ObservationsKept(r, w)
  {
    if ObservationsKept(r, w) { DispatchTouches(Observed(r, w), w, 0, i); }
  }

  // ------------------------------------------------------------ an operator's actions

  predicate NoResume(events: seq<Event>) {
    forall i :: 0 <= i < |events| ==> !events[i].Resume?
  }

  /** Once paused an open rollout dispatches nothing until it is resumed. */
  lemma {:induction false} PausedUntilResumed(t: Trace, events: seq<Event>, i: nat)
    requires Inv(t) && t.rollout.Open() && NoResume(events) && i < |t.seen|
    requires t.rollout.members[i].state == Pending
    ensures Inv(Step(t, Pause)) && |Run(Step(t, Pause), events).seen| == |t.seen|
    ensures Run(Step(t, Pause), events).rollout.state in {Paused, Cancelled}
    ensures Run(Step(t, Pause), events).rollout.members[i].state in {Pending, Skipped}
  {
    StepKeepsInv(t, Pause);
    if events != [] {
      PausedUntilResumed(t, events[..|events| - 1], i);
      var before, e := Run(Step(t, Pause), events[..|events| - 1]), events[|events| - 1];
      if e.Round? { PausedRoundDispatchesNothing(before.rollout, e.w, i); }
    }
  }

  lemma PausedRoundDispatchesNothing(r: Rollout, w: World, i: nat)
    requires r.state in {Paused, Cancelled} && i < |r.members| && r.members[i].state in {Pending, Skipped}
    ensures Reconciled(r, w).state == r.state && Reconciled(r, w).members[i] == r.members[i]
  {
  }

  /** A cancelled rollout skips whatever was waiting or failed, leaves the rest as it was, and
      never changes again. */
  lemma {:induction false} CancelledForGood(t: Trace, events: seq<Event>)
    requires Inv(t) && t.rollout.Open()
    ensures Inv(Step(t, Cancel))
    ensures var r := Run(Step(t, Cancel), events).rollout;
            && r.state == Cancelled && |r.members| == |t.rollout.members|
            && forall i :: 0 <= i < |r.members| ==>
                 r.members[i] == if t.rollout.members[i].state in {Pending, Failed}
                                 then t.rollout.members[i].(state := Skipped) else t.rollout.members[i]
  {
    StepKeepsInv(t, Cancel);
    if events != [] {
      CancelledForGood(t, events[..|events| - 1]);
      CancelledStays(Run(Step(t, Cancel), events[..|events| - 1]), events[|events| - 1]);
    } else {
      CancelSkips(t.rollout);
    }
  }

  lemma CancelSkips(r: Rollout)
    requires r.Open()
    ensures CancelledBy(r).state == Cancelled && |CancelledBy(r).members| == |r.members|
    ensures forall i :: 0 <= i < |r.members| ==>
              CancelledBy(r).members[i] == if r.members[i].state in {Pending, Failed}
                                           then r.members[i].(state := Skipped) else r.members[i]
  {
  }

  lemma CancelledStays(t: Trace, e: Event)
    requires |t.seen| == |t.rollout.members| && t.rollout.state == Cancelled
    ensures Step(t, e).rollout == t.rollout
  {
  }

  /** Resuming sends exactly the failed members back to wait, with nothing remembered of their
      verification, and the rollout runs again. */
  lemma ResumeRetriesTheFailed(r: Rollout, i: nat)
    requires r.Open() && i < |r.members|
    ensures Resumed(r).state == Running && |Resumed(r).members| == |r.members|
    ensures Resumed(r).members[i]
         == if r.members[i].state == Failed then Member(Pending, r.members[i].hasTask, None, None, None)
            else r.members[i]
  {
  }

  /** Nothing an operator does changes a rollout that is over. */
  lemma OverIsOver(r: Rollout, w: World)
    requires r.state in {Completed, Cancelled}
    ensures PausedBy(r) == r && Resumed(r) == r && CancelledBy(r) == r && Reconciled(r, w) == r
  {
  }

  // ------------------------------------------------- an observation that is forgotten

  /** Everything answers, every task has succeeded and every node is ready. */
  function Quiet(now: int): World {
    World(now, true, _ => TaskSucceeded, _ => Ready, true, _ => true, _ => TaskCreated, now, true, true)
  }

  const WAITING: Member := Member(Pending, false, None, None, None)

  const INSTALLING: Member := Member(Upgrading, true, None, None, None)

  function HealthySince(at: int, state: MemberState, now: int): Member {
    Member(state, true, Some(at), Some(at), Some(now))
  }

  function Trio(canary: Member, second: Member, third: Member): Rollout {
    Rollout(Running, 2, 30, [canary, second, third])
  }

  lemma {:induction false} BusyCountOfTrio(members: seq<Member>)
    requires |members| == 3
    ensures BusyCount(members)
         == (if Busy(members[0]) then 1 else 0) + (if Busy(members[1]) then 1 else 0)
            + if Busy(members[2]) then 1 else 0
  {
    assert members[..2][..1][..0] == [];
    assert BusyCount(members[..2][..1]) == if Busy(members[0]) then 1 else 0;
    assert BusyCount(members[..2]) == BusyCount(members[..2][..1]) + if Busy(members[1]) then 1 else 0;
  }

  lemma ObservedTrio(r: Rollout, w: World)
    requires |r.members| == 3 && !AnyFailsIn(r, w)
    ensures Observed(r, w) == r.(members := [ObserveMember(r.members[0], w, 0, r.windowSeconds),
                                             ObserveMember(r.members[1], w, 1, r.windowSeconds),
                                             ObserveMember(r.members[2], w, 2, r.windowSeconds)])
  {
  }

  lemma QuietIsKept(r: Rollout, now: int)
    requires r.Open()
    ensures ObservationsKept(r, Quiet(now)) && !AnyFailsIn(r, Quiet(now))
  {
  }

  lemma CanaryIsDispatched(now: int)
    ensures Reconciled(Trio(WAITING, WAITING, WAITING), Quiet(now)) == Trio(INSTALLING, WAITING, WAITING)
  {
    var r, after := Trio(WAITING, WAITING, WAITING), Trio(INSTALLING, WAITING, WAITING);
    QuietIsKept(r, now);
    ObservedTrio(r, Quiet(now));
    BusyCountOfTrio(r.members);
    BusyCountOfTrio(after.members);
    assert r.members[0 := INSTALLING] == after.members;
    assert DispatchFrom(after, Quiet(now), 1) == Went(after);
    assert !after.AllSucceeded() by { assert after.members[0] in after.members; }
  }

  lemma CanaryIsVerified(now: int)
    ensures Reconciled(Trio(INSTALLING, WAITING, WAITING), Quiet(now))
         == Trio(HealthySince(now, Verifying, now), WAITING, WAITING)
  {
    var r, after := Trio(INSTALLING, WAITING, WAITING), Trio(HealthySince(now, Verifying, now), WAITING, WAITING);
    QuietIsKept(r, now);
    ObservedTrio(r, Quiet(now));
    BusyCountOfTrio(after.members);
    assert DispatchFrom(after, Quiet(now), 1) == Went(after);
    assert !after.AllSucceeded() by { assert after.members[0] in after.members; }
  }

  lemma CanarySucceeds(since: int, now: int)
    requires now == since + 30 * SECOND
    ensures Reconciled(Trio(HealthySince(since, Verifying, since), WAITING, WAITING), Quiet(now))
         == Trio(HealthySince(since, Succeeded, now), INSTALLING, INSTALLING)
  {
    var r := Trio(HealthySince(since, Verifying, since), WAITING, WAITING);
    var seen := Trio(HealthySince(since, Succeeded, now), WAITING, WAITING);
    var half := Trio(HealthySince(since, Succeeded, now), INSTALLING, WAITING);
    var after := Trio(HealthySince(since, Succeeded, now), INSTALLING, INSTALLING);
    QuietIsKept(r, now);
    ObservedTrio(r, Quiet(now));
    BusyCountOfTrio(seen.members);
    BusyCountOfTrio(half.members);
    assert seen.members[1 := INSTALLING] == half.members && half.members[2 := INSTALLING] == after.members;
    TrioDispatch(seen, half, now);
    assert !after.AllSucceeded() by { assert after.members[1] in after.members; }
  }

  lemma TrioDispatch(seen: Rollout, half: Rollout, now: int)
    requires |seen.members| == 3 && seen.state == Running && seen.members[0].state == Succeeded
    requires seen.members[1] == WAITING && seen.members[2] == WAITING
    requires half == seen.(members := seen.members[1 := INSTALLING])
    requires BusyCount(seen.members) == 0 && BusyCount(half.members) == 1 && seen.maxParallel == 2
    ensures DispatchFrom(seen, Quiet(now), 0) == Went(half.(members := half.members[2 := INSTALLING]))
  {
    var after := half.(members := half.members[2 := INSTALLING]);
    var w := Quiet(now);
    assert !seen.AnyFailed() && !half.AnyFailed();
    assert DispatchFrom(after, w, 3) == Went(after);
    assert DispatchFrom(half, w, 2) == DispatchFrom(after, w, 3);
    assert DispatchFrom(seen, w, 1) == DispatchFrom(half, w, 2);
  }

  lemma OthersAreVerified(since: int, now: int)
    ensures Reconciled(Trio(HealthySince(since, Succeeded, now), INSTALLING, INSTALLING), Quiet(now))
         == Trio(HealthySince(since, Succeeded, now), HealthySince(now, Verifying, now),
                 HealthySince(now, Verifying, now))
  {
    var canary, other := HealthySince(since, Succeeded, now), HealthySince(now, Verifying, now);
    var r, after := Trio(canary, INSTALLING, INSTALLING), Trio(canary, other, other);
    QuietIsKept(r, now);
    ObservedTrio(r, Quiet(now));
    NothingToDispatch(after, Quiet(now), 0);
    assert !after.AllSucceeded() by { assert after.members[1] in after.members; }
  }

  /** One member is seen unready in a round that another member's lookup stops. */
  function Disturbed(now: int): World {
    Quiet(now).(task := i => if i == 2 then TaskLookupFails else TaskSucceeded, readiness := _ => NotReady(false))
  }

  /** A whole run of a created rollout: the second member is ready, then seen unready in a round
      that the third one's lookup stops, and ready again. It keeps the window it should have lost,
      and succeeds. */
  lemma UnreadyCanBeForgotten() returns (events: seq<Event>, w: World, later: World)
    ensures Created(3, 2, 30).Some? && Inv(Fresh(Created(3, 2, 30).value))
    ensures var r := Run(Fresh(Created(3, 2, 30).value), events).rollout;
            && Sound(r) && |r.members| == 3 && r.members[1].state == Verifying && r.members[1].healthySince.Some?
            && w.task(1).TaskSucceeded? && w.readiness(1).NotReady? && w.now > r.members[1].lastObserved.value
            && Reconciled(r, w).members[1].healthySince == r.members[1].healthySince
            && later.now > w.now && later.readiness(1).Ready?
            && Reconciled(Reconciled(r, w), later).members[1].state == Succeeded
  {
    EveryRunIsSafe(3, 2, 30, []);
    var start := Fresh(Created(3, 2, 30).value);
    assert start.rollout == Trio(WAITING, WAITING, WAITING);
    events := [];
    var half := 30 * SECOND;
    CanaryIsDispatched(0);
    events := OneMore(start, events, Quiet(0));
    CanaryIsVerified(0);
    events := OneMore(start, events, Quiet(0));
    CanarySucceeds(0, half);
    events := OneMore(start, events, Quiet(half));
    OthersAreVerified(0, half);
    events := OneMore(start, events, Quiet(half));
    w, later := Disturbed(40 * SECOND), Quiet(60 * SECOND);
    ForgottenAndSucceeded(Run(start, events).rollout);
  }

  lemma OneMore(start: Trace, events: seq<Event>, w: World) returns (more: seq<Event>)
    requires Inv(start)
    ensures more == events + [Round(w)]
    ensures Run(start, more).rollout == Reconciled(Run(start, events).rollout, w)
  {
    more := events + [Round(w)];
    assert more[..|events|] == events;
  }

  lemma ForgottenAndSucceeded(r: Rollout)
    requires var ready := 30 * SECOND;
             r == Trio(HealthySince(0, Succeeded, ready), HealthySince(ready, Verifying, ready),
                       HealthySince(ready, Verifying, ready))
    ensures Reconciled(r, Disturbed(40 * SECOND)) == r
    ensures Reconciled(r, Quiet(60 * SECOND)).members[1].state == Succeeded
  {
    assert Halts(r.members[2], Disturbed(40 * SECOND), 2);
    QuietIsKept(r, 60 * SECOND);
    ObservedTrio(r, Quiet(60 * SECOND));
    DispatchTouches(Observed(r, Quiet(60 * SECOND)), Quiet(60 * SECOND), 0, 1);
  }
}
