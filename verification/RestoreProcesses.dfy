/**
 The online restore over whole runs of processes (cmd/control/main.go): a process dies, the
 next one applies a pending cutover before anything else, and the job manager starts only if
 that lets it. What is served, and when the maintenance marker is gone, is followed across
 all of them.

 How a cutover ends is what `RestoreApply.OnlineRestore.ApplyPending` promises of it. One that
 began and left its record committing, because the process died or the record could not be
 written, promises nothing about the next.
 */
module RestoreProcesses {
  import opened Common
  import opened RestoreManager
  import Apply = RestoreApply

  /** Everything served is one whole: the original, or what a job restored. */
  datatype Live = Whole(restored: Option<JobId>) | Mixture

  datatype Control = Control(manager: Manager, up: bool, begun: bool, live: Live)

  const START: Control := Control(EMPTY, true, false, Whole(None))

  /** What a starting process makes of a pending cutover: it cannot begin, or it ends. */
  datatype Attempt = Waits | Ends(ending: Apply.Ending)

  datatype Happening =
    | Managed(e: Event)
    | Dies
    | Boots(attempt: Attempt, dropWorks: bool)

  predicate Pending(m: Manager) {
    m.disk.Some? && m.disk.value.state.Committing?
  }

  function StateOf(record: Apply.JobState): State {
    match record
    case Completed => Completed
    case Committing => Committing
    case _ => Failed
  }

  function LiveAfter(live: Live, id: JobId, e: Apply.Ending): Live {
    if e.asRestored then Whole(Some(id)) else if e.asBefore then live else Mixture
  }

  /** The cutover has ended; its marker and its record say how. */
  function Ended(c: Control, e: Apply.Ending): Control
    requires Pending(c.manager)
  {
    var m, job := c.manager, c.manager.disk.value;
    c.(manager := m.(disk := Some(job.(state := StateOf(e.record))), marker := if e.locked then m.marker else None),
       begun := e.record.Committing?,
       live := LiveAfter(c.live, job.id, e))
  }

  function Started(c: Control, dropWorks: bool): Control {
    if ComesUp(c.manager) then c.(manager := RestartStep(c.manager, dropWorks), up := true) else c
  }

  /** A failed cutover ends the process too; a completed and unlocked one goes on to start. */
  function BootStep(c: Control, attempt: Attempt, dropWorks: bool): Control {
    if !Pending(c.manager) then Started(c, dropWorks)
    else match attempt
      case Waits => c
      case Ends(e) => if e.record.Completed? && !e.locked then Started(Ended(c, e), dropWorks) else Ended(c, e)
  }

  function Step(c: Control, h: Happening): Control {
    match h
    case Managed(e) => c.(manager := RestoreManager.Step(c.manager, e))
    case Dies => c.(up := false)
    case Boots(attempt, dropWorks) => BootStep(c, attempt, dropWorks)
  }

  /** Whether this can happen: one process at a time, and a first cutover ends as promised. */
  predicate Fits(c: Control, h: Happening) {
    match h
    case Managed(e) => c.up && !e.Restart?
    case Dies => c.up
    case Boots(attempt, _) =>
      !c.up && (attempt.Ends? && Pending(c.manager) && !c.begun ==> Apply.MayEnd(attempt.ending))
  }

  /** No cutover that has begun leaves its record committing. */
  predicate Recorded(h: Happening) {
    h.Boots? && h.attempt.Ends? ==> !h.attempt.ending.record.Committing?
  }

  predicate IsRun(states: seq<Control>, happenings: seq<Happening>) {
    && |states| == |happenings| + 1 && states[0] == START
    && forall i: nat :: i < |happenings| ==> Follows(states, happenings, i)
  }

  predicate Follows(states: seq<Control>, happenings: seq<Happening>, i: nat)
    requires i < |happenings| < |states|
  {
    Fits(states[i], happenings[i]) && states[i + 1] == Step(states[i], happenings[i])
  }

  // --------------------------------------------------------------- what is on record

  predicate RecordRight(m: Manager) {
    && (m.disk.Some? ==> m.disk.value.id in m.used)
    && (m.disk.Some? && m.disk.value.verifyOnly ==> m.disk.value.state !in {Ready, Committing, Completed})
  }

  predicate Inv(c: Control) {
    RecordRight(c.manager) && (c.up ==> RestoreManager.Inv(c.manager))
  }

  lemma StepKeepsInv(c: Control, h: Happening)
    requires Inv(c) && Fits(c, h)
    ensures Inv(Step(c, h))
  {
    if h.Managed? { RestoreManager.StepKeepsInv(c.manager, h.e); }
  }

  /** Until a begun cutover goes unrecorded: a pending one has its marker, and what is served is
      whole, unless a failed undo keeps every process from coming up. */
  predicate Safe(c: Control) {
    && !c.begun
    && (Pending(c.manager) ==> c.manager.marker == Some(c.manager.disk.value.id))
    && (c.live.Whole?
        || (!c.up && c.manager.marker.Some? && c.manager.disk.Some? && c.manager.disk.value.state.Failed?))
  }

  lemma StepKeepsSafe(c: Control, h: Happening)
    requires Inv(c) && Safe(c) && Fits(c, h) && Recorded(h)
    ensures Safe(Step(c, h))
  {
    if h.Managed? { RestoreManager.StepKeepsInv(c.manager, h.e); }
  }

  lemma {:induction false} EveryRunIsRight(states: seq<Control>, happenings: seq<Happening>, j: nat)
    requires IsRun(states, happenings) && j < |states|
    ensures Inv(states[j])
    ensures (forall i: nat :: i < j ==> Recorded(happenings[i])) ==> Safe(states[j])
  {
    if j > 0 {
      EveryRunIsRight(states, happenings, j - 1);
      assert Follows(states, happenings, j - 1);
      StepKeepsInv(states[j - 1], happenings[j - 1]);
      if forall i: nat :: i < j ==> Recorded(happenings[i]) { StepKeepsSafe(states[j - 1], happenings[j - 1]); }
    }
  }

  /** Over every run of processes in which each cutover that begins reaches its record: whenever
      a process is up, or the maintenance marker is gone, what is served is whole; it is the
      original until a cutover restores all of a job, and nothing else ever changes it. */
  lemma ReleasedMeansWhole(states: seq<Control>, happenings: seq<Happening>, j: nat)
    requires IsRun(states, happenings) && j < |states|
    requires forall i: nat :: i < j ==> Recorded(happenings[i])
    ensures states[j].up || states[j].manager.marker.None? ==> states[j].live.Whole?
    ensures j > 0 && states[j].live.Whole? && states[j - 1].live.Whole? && states[j].live != states[j - 1].live ==>
              && Pending(states[j - 1].manager) && happenings[j - 1].Boots?
              && states[j].live == Whole(Some(states[j - 1].manager.disk.value.id))
  {
    EveryRunIsRight(states, happenings, j);
    if j > 0 { assert Follows(states, happenings, j - 1); }
  }

  /** A start comes up exactly if its cutover, when one is pending, ends completed and unlocked, or
      with none pending unless a failed one has kept its marker. A completed cutover serves what the
      job restored, and one that ends unlocked without it serves what was served before. */
  lemma ComesUpIff(c: Control, attempt: Attempt, dropWorks: bool)
    requires Inv(c) && Safe(c) && Fits(c, Boots(attempt, dropWorks))
    ensures var after := Step(c, Boots(attempt, dropWorks));
            if !Pending(c.manager) then
              && after.live == c.live
              && (after.up <==> !(c.manager.disk.Some? && c.manager.disk.value.state.Failed? && c.manager.marker.Some?))
            else if attempt.Waits? then after == c
            else
              && (after.up <==> attempt.ending.record.Completed? && !attempt.ending.locked)
              && (attempt.ending.record.Completed? ==> after.live == Whole(Some(c.manager.disk.value.id)))
              && (!attempt.ending.locked && !attempt.ending.asRestored ==> after.live == c.live)
  {
  }

  // --------------------------------------------------------- a cutover that goes unrecorded

  function Died(): Attempt { Ends(Apply.Ending(Apply.Committing, true, false, false)) }

  function GaveUp(): Attempt { Ends(Apply.Ending(Apply.RolledBack, false, true, false)) }

  ghost predicate Reaches(states: seq<Control>, happenings: seq<Happening>, c: Control) {
    IsRun(states, happenings) && states[|states| - 1] == c
  }

  ghost predicate Reachable(c: Control) {
    exists states, happenings :: Reaches(states, happenings, c)
  }

  lemma StepReaches(c: Control, h: Happening)
    requires Reachable(c) && Fits(c, h)
    ensures Reachable(Step(c, h))
  {
    var states, happenings :| Reaches(states, happenings, c);
    var longer, more := states + [Step(c, h)], happenings + [h];
    forall i: nat | i < |more| ensures Follows(longer, more, i) {
      if i < |happenings| { assert Follows(states, happenings, i); }
    }
    assert Reaches(longer, more, Step(c, h));
  }

  lemma {:induction false} ManagerRunReaches(events: seq<Event>)
    requires forall e <- events :: !e.Restart?
    ensures Reachable(START.(manager := Run(events)))
    decreases |events|
  {
    if events == [] {
      assert Reaches([START], [], START);
    } else {
      var before := START.(manager := Run(events[..|events| - 1]));
      ManagerRunReaches(events[..|events| - 1]);
      assert events[|events| - 1] in events;
      StepReaches(before, Managed(events[|events| - 1]));
    }
  }

  function Smoothly(): CommitPlan { CommitPlan(true, true, true, true, true, Stored) }

  /** The control plane once a job has been staged and committed. */
  lemma CommittedReaches(id: JobId) returns (c: Control)
    ensures Reachable(c) && c.up && !c.begun && c.live == Whole(None)
    ensures Pending(c.manager) && c.manager.disk.value.id == id && c.manager.marker == Some(id)
  {
    var staged := StagedRun(id);
    StagedRunIsReady(id);
    var events := staged + [Leave(id)] + [Commit(id, Smoothly())];
    RunLast(staged, Leave(id));
    RunLast(staged + [Leave(id)], Commit(id, Smoothly()));
    ManagerRunReaches(events);
    c := START.(manager := Run(events));
  }

  /** The process dies while the cutover is under way, past the first rename. The next one finds
      that rename, gives up as if nothing had been done, and removes the marker; the one after
      that comes up and serves the mixture. */
  lemma UnrecordedCutoverReleasesMixture(id: JobId) returns (c: Control)
    ensures Apply.MayEnd(Died().ending) && Apply.GivesUp(GaveUp().ending)
    ensures Reachable(c) && c.up && c.manager.marker.None? && c.live.Mixture?
  {
    c := CommittedReaches(id);
    StepReaches(c, Dies);
    c := Step(c, Dies);
    StepReaches(c, Boots(Died(), true));
    c := Step(c, Boots(Died(), true));
    StepReaches(c, Boots(GaveUp(), true));
    c := Step(c, Boots(GaveUp(), true));
    StepReaches(c, Boots(Waits, true));
    c := Step(c, Boots(Waits, true));
  }
}
