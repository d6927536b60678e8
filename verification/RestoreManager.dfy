/**
 The online restore job manager (`OnlineRestoreManager`).

 Starting, committing and cancelling a job, the staging worker's updates and its
 cleanup run concurrently. Each critical section under the manager's mutex is one
 step; what happens outside the mutex (dropping a database, removing the
 maintenance marker) is a separate, later step. Every write of the job record can
 be lost, and the process can restart.
 */
module RestoreManager {
  import opened Common

  type JobId = nat

  datatype State =
    | Queued | Downloading | Validating | Ready | Committing
    | Completed | Failed | Cancelled | Verified
  {
    predicate Active() {
      Queued? || Downloading? || Validating? || Ready? || Committing?
    }

    predicate Preparing() {
      Queued? || Downloading? || Validating?
    }
  }

  datatype Job = Job(id: JobId, verifyOnly: bool, state: State)

  /** A record write is stored, lost, or stored while the history entry of a
      verification job, which follows it, fails. */
  datatype Write = Stored | Lost | HistoryLost

  predicate Reported(job: Job, w: Write) {
    w.Stored? || (w.HistoryLost? && !job.verifyOnly)
  }

  function OnDisk(disk: Option<Job>, job: Job, w: Write): Option<Job> {
    if w.Lost? then disk else Some(job)
  }

  /** Where a staging worker is. */
  datatype Stage = Launched | Listing | Fetching | Checking | Importing | Imported | Discarded | Leaving

  datatype Worker = Worker(verifyOnly: bool, stage: Stage)

  datatype Manager = Manager(
    job: Option<Job>,               // the job in memory
    cancellable: bool,              // a cancel function is registered
    operationLock: bool,            // the lock file is held
    workers: map<JobId, Worker>,    // staging workers that have not left
    disk: Option<Job>,              // the persisted record
    marker: Option<JobId>,          // the maintenance marker and its owner
    temporaries: set<JobId>,        // jobs whose temporary database exists
    cleanups: set<JobId>,           // drops decided on, not yet carried out
    unlocks: set<JobId>,            // marker removals decided on, not yet carried out
    used: set<JobId>)

  const EMPTY: Manager := Manager(None, false, false, map[], None, None, {}, {}, {}, {})

  datatype Event =
    | Start(newId: JobId, verifyOnly: bool, startWrite: Write)
    | Advance(worker: JobId, write: Write, failureWrite: Write)
    | Trouble(broken: JobId, troubleWrite: Write, partlyImported: bool)
    | Leave(leaving: JobId)
    | CleanUp(dropped: JobId)
    | Commit(committed: JobId, commit: CommitPlan)
    | Cancel(cancelled: JobId, cancelWrite: Write)
    | Unlock(unlocked: JobId, removable: bool)
    | Restart(dropWorks: bool)

  datatype CommitPlan = CommitPlan(
    confirmed: bool, artifactsMatch: bool, markerWritable: bool,
    lockTaken: bool, markerRemovable: bool, write: Write)

  // ------------------------------------------------------------- critical sections

  predicate Owns(m: Manager, id: JobId) {
    m.job.Some? && m.job.value.id == id
  }

  function StartStep(m: Manager, id: JobId, verifyOnly: bool, w: Write): Manager {
    if m.cancellable || (m.job.Some? && m.job.value.state.Active()) || id in m.used then m
    else
      var job := Job(id, verifyOnly, Queued);
      var written := m.(disk := OnDisk(m.disk, job, w), used := m.used + {id});
      if !Reported(job, w) then written
      else written.(job := Some(job), cancellable := true, workers := m.workers[id := Worker(verifyOnly, Launched)])
  }

  datatype Update = Update(manager: Manager, ok: bool)

  /** `updateJob`: the new manager, and whether the worker may go on. */
  function UpdateStep(m: Manager, id: JobId, next: State, w: Write, failureWrite: Write): Update {
    if !Owns(m, id) || m.job.value.state.Cancelled? then Update(m, false)
    else
      var job := m.job.value.(state := next);
      var disk := OnDisk(m.disk, job, w);
      if Reported(job, w) then Update(m.(job := Some(job), disk := disk), true)
      else
        var failed := job.(state := Failed);
        Update(m.(job := Some(failed), disk := OnDisk(disk, failed, failureWrite)), false)
  }

  /** `failJob`: the temporary database is dropped after the mutex is released. */
  function FailStep(m: Manager, id: JobId, w: Write): Manager {
    if !Owns(m, id) || m.job.value.state.Cancelled? then m
    else
      var failed := m.job.value.(state := Failed);
      m.(job := Some(failed), disk := OnDisk(m.disk, failed, w), cleanups := m.cleanups + {id})
  }

  function LeaveStep(m: Manager, id: JobId): Manager {
    var clean := Owns(m, id) && (m.job.value.state.Cancelled? || m.job.value.state.Failed?);
    m.(cancellable := false, workers := m.workers - {id}, cleanups := m.cleanups + if clean then {id} else {})
  }

  function CommitStep(m: Manager, id: JobId, p: CommitPlan): Manager {
    if !Owns(m, id) || !m.job.value.state.Ready? || m.job.value.verifyOnly || !p.confirmed
       || !p.artifactsMatch || id !in m.temporaries || !p.markerWritable || m.marker.Some?
    then m
    else if !p.lockTaken then m.(marker := if p.markerRemovable then None else Some(id))
    else
      var job := m.job.value.(state := Committing);
      var disk := OnDisk(m.disk, job, p.write);
      if Reported(job, p.write) then
        m.(job := Some(job), disk := disk, marker := Some(id), operationLock := true)
      else
        m.(job := Some(job), disk := disk, operationLock := false,
           marker := if p.markerRemovable then None else Some(id))
  }

  function CancelStep(m: Manager, id: JobId, w: Write): Manager {
    if !Owns(m, id) || m.job.value.state in {Committing, Completed, Verified} then m
    else
      var job := m.job.value.(state := Cancelled);
      m.(job := Some(job), disk := OnDisk(m.disk, job, w), unlocks := m.unlocks + {id},
         cleanups := m.cleanups + if m.job.value.state.Preparing() then {} else {id})
  }

  function WorkerAt(m: Manager, id: JobId, stage: Stage): Manager
    requires id in m.workers
  {
    m.(workers := m.workers[id := m.workers[id].(stage := stage)])
  }

  function UpdateThen(m: Manager, id: JobId, next: State, w: Write, fw: Write, stage: Stage): Manager
    requires id in m.workers
  {
    var u := UpdateStep(m, id, next, w, fw);
    WorkerAt(u.manager, id, if u.ok then stage else Leaving)
  }

  /** The staging worker's next step, when nothing but a record write goes wrong. */
  function AdvanceStep(m: Manager, id: JobId, w: Write, fw: Write): Manager {
    if id !in m.workers then m
    else match m.workers[id].stage
      case Launched => UpdateThen(m, id, Downloading, w, fw, Listing)
      case Listing => UpdateThen(m, id, Downloading, w, fw, Fetching)
      case Fetching => UpdateThen(m, id, Validating, w, fw, Checking)
      case Checking => WorkerAt(m.(temporaries := m.temporaries - {id}), id, Importing)
      case Importing => WorkerAt(m.(temporaries := m.temporaries + {id}), id, Imported)
      case Imported =>
        if m.workers[id].verifyOnly then WorkerAt(m.(temporaries := m.temporaries - {id}), id, Discarded)
        else UpdateThen(m, id, Ready, w, fw, Leaving)
      case Discarded => UpdateThen(m, id, Verified, w, fw, Leaving)
      case Leaving => m
  }

  function TroubleStep(m: Manager, id: JobId, w: Write, partlyImported: bool): Manager {
    if id !in m.workers || m.workers[id].stage in {Launched, Leaving} then m
    else
      var imported := m.workers[id].stage.Importing? && partlyImported;
      WorkerAt(FailStep(m.(temporaries := m.temporaries + if imported then {id} else {}), id, w), id, Leaving)
  }

  /** A new process does not come up on a committing record, nor on a failed one while the
      maintenance marker is there. */
  predicate ComesUp(m: Manager) {
    m.disk.Some? ==> !m.disk.value.state.Committing? && (m.disk.value.state.Failed? ==> m.marker.None?)
  }

  /** A new process reads the record back. */
  function RestartStep(m: Manager, dropWorks: bool): Manager {
    if !ComesUp(m) then m
    else
      var idle := m.(cancellable := false, operationLock := false, workers := map[], cleanups := {}, unlocks := {});
      if m.disk.None? then idle.(job := None)
      else if m.disk.value.state.Preparing() then
        var failed := m.disk.value.(state := Failed);
        idle.(job := Some(failed), disk := Some(failed),
              temporaries := m.temporaries - if dropWorks then {failed.id} else {})
      else idle.(job := m.disk, marker := if m.marker == Some(m.disk.value.id) then None else m.marker)
  }

  function Step(m: Manager, e: Event): Manager {
    match e
    case Start(id, verifyOnly, w) => StartStep(m, id, verifyOnly, w)
    case Advance(id, w, fw) => AdvanceStep(m, id, w, fw)
    case Trouble(id, w, partly) => TroubleStep(m, id, w, partly)
    case Leave(id) => if id in m.workers && m.workers[id].stage.Leaving? then LeaveStep(m, id) else m
    case CleanUp(id) =>
      if id in m.cleanups then m.(temporaries := m.temporaries - {id}, cleanups := m.cleanups - {id}) else m
    case Commit(id, plan) => CommitStep(m, id, plan)
    case Cancel(id, w) => CancelStep(m, id, w)
    case Unlock(id, removable) =>
      if id in m.unlocks then
        m.(unlocks := m.unlocks - {id}, marker := if removable && m.marker == Some(id) then None else m.marker)
      else m
    case Restart(dropWorks) => RestartStep(m, dropWorks)
  }

  /** The manager object. Each method is one critical section under its mutex. */
  class OnlineRestoreManager {
    var job: Option<Job>
    var cancellable: bool
    var operationLock: bool
    var workers: map<JobId, Worker>
    var disk: Option<Job>
    var marker: Option<JobId>
    var temporaries: set<JobId>
    var cleanups: set<JobId>
    var unlocks: set<JobId>
    var used: set<JobId>

    function Now(): Manager
      reads this
    {
      Manager(job, cancellable, operationLock, workers, disk, marker, temporaries, cleanups, unlocks, used)
    }

    constructor ()
      ensures Now() == EMPTY
    {
      job, disk, marker, cancellable, operationLock := None, None, None, false, false;
      workers, temporaries, cleanups, unlocks, used := map[], {}, {}, {}, {};
    }

    method WriteRecord(record: Job, w: Write) returns (ok: bool)
      modifies this`disk
      ensures disk == OnDisk(old(disk), record, w) && ok == Reported(record, w)
    {
      if !w.Lost? {
        disk := Some(record);
      }
      ok := w.Stored? || (w.HistoryLost? && !record.verifyOnly);
    }

    method StartJob(id: JobId, verifyOnly: bool, w: Write) returns (started: bool)
      modifies this
      ensures Now() == StartStep(old(Now()), id, verifyOnly, w)
      ensures started ==> Owns(Now(), id) && job.value.state.Queued? && cancellable
      ensures started <==>
                && old(!cancellable && (job.Some? ==> !job.value.state.Active()) && id !in used)
                && (w.Stored? || (w.HistoryLost? && !verifyOnly))
    {
      if cancellable || (job.Some? && job.value.state.Active()) || id in used {
        return false;
      }
      var created := Job(id, verifyOnly, Queued);
      used := used + {id};
      var ok := WriteRecord(created, w);
      if !ok {
        return false;
      }
      job := Some(created);
      cancellable := true;
      workers := workers[id := Worker(verifyOnly, Launched)];
      return true;
    }

    method UpdateJob(id: JobId, next: State, w: Write, failureWrite: Write) returns (ok: bool)
      modifies this`job, this`disk
      ensures ok == UpdateStep(old(Now()), id, next, w, failureWrite).ok
      ensures job == UpdateStep(old(Now()), id, next, w, failureWrite).manager.job
      ensures disk == UpdateStep(old(Now()), id, next, w, failureWrite).manager.disk
    {
      if job.None? || job.value.id != id || job.value.state.Cancelled? {
        return false;
      }
      job := Some(job.value.(state := next));
      ok := WriteRecord(job.value, w);
      if !ok {
        job := Some(job.value.(state := Failed));
        var _ := WriteRecord(job.value, failureWrite);
      }
    }

    method FailJob(id: JobId, w: Write)
      modifies this`job, this`disk, this`cleanups
      ensures Now() == FailStep(old(Now()), id, w)
    {
      if job.None? || job.value.id != id || job.value.state.Cancelled? {
        return;
      }
      job := Some(job.value.(state := Failed));
      var _ := WriteRecord(job.value, w);
      cleanups := cleanups + {id};
    }

    method LeaveStaging(id: JobId)
      modifies this`cancellable, this`workers, this`cleanups
      ensures Now() == LeaveStep(old(Now()), id)
    {
      cancellable := false;
      workers := workers - {id};
      if job.Some? && job.value.id == id && (job.value.state.Cancelled? || job.value.state.Failed?) {
        cleanups := cleanups + {id};
      }
    }

    method CommitJob(id: JobId, p: CommitPlan) returns (committed: bool)
      modifies this`job, this`disk, this`marker, this`operationLock
      ensures Now() == CommitStep(old(Now()), id, p)
      ensures committed ==>
                disk == job && job.Some? && job.value.state.Committing? && marker == Some(id) && operationLock
      ensures committed <==>
                && old(job == Some(Job(id, false, Ready)) && id in temporaries && marker.None?)
                && p.confirmed && p.artifactsMatch && p.markerWritable && p.lockTaken && !p.write.Lost?
    {
      if job.None? || job.value.id != id || !job.value.state.Ready? || job.value.verifyOnly || !p.confirmed
         || !p.artifactsMatch || id !in temporaries || !p.markerWritable || marker.Some?
      {
        return false;
      }
      marker := Some(id);
      if !p.lockTaken {
        if p.markerRemovable {
          marker := None;
        }
        return false;
      }
      operationLock := true;
      job := Some(job.value.(state := Committing));
      committed := WriteRecord(job.value, p.write);
      if !committed {
        operationLock := false;
        if p.markerRemovable {
          marker := None;
        }
      }
    }

    method CancelJob(id: JobId, w: Write) returns (cancelled: bool)
      modifies this`job, this`disk, this`unlocks, this`cleanups
      ensures Now() == CancelStep(old(Now()), id, w)
      ensures cancelled ==> Owns(Now(), id) && job.value.state.Cancelled?
      ensures cancelled <==>
                old(job.Some? && job.value.id == id && job.value.state !in {Committing, Completed, Verified})
    {
      if job.None? || job.value.id != id || job.value.state in {Committing, Completed, Verified} {
        return false;
      }
      var preparing := job.value.state.Preparing();
      job := Some(job.value.(state := Cancelled));
      var _ := WriteRecord(job.value, w);
      unlocks := unlocks + {id};
      if !preparing {
        cleanups := cleanups + {id};
      }
      return true;
    }
  }

  // -------------------------------------------------------------------- invariants

  /** At most one worker stages, and it stages the job in memory. */
  predicate OneWorker(m: Manager) {
    && (m.cancellable ==> m.job.Some? && m.job.value.id in m.workers)
    && (forall id <- m.workers :: m.cancellable && Owns(m, id))
  }

  /** A job is being prepared only while its worker is at it, and what the worker
      does next suits the job. */
  predicate WorkerFits(m: Manager) {
    && (m.job.Some? && m.job.value.state.Preparing() ==>
          m.job.value.id in m.workers && !m.workers[m.job.value.id].stage.Leaving?)
    && (forall id <- m.workers :: Owns(m, id) ==>
          && m.workers[id].verifyOnly == m.job.value.verifyOnly
          && (m.workers[id].stage.Discarded? ==> m.job.value.verifyOnly)
          && (!m.workers[id].stage.Leaving? ==> m.job.value.state.Preparing() || m.job.value.state.Cancelled?))
  }

  /** A verification job replaces nothing, in memory or on disk. */
  predicate VerifyOnlyIsHarmless(m: Manager) {
    && (m.job.Some? && m.job.value.verifyOnly ==> m.job.value.state !in {Ready, Committing, Completed})
    && (m.disk.Some? && m.disk.value.verifyOnly ==> m.disk.value.state !in {Ready, Committing, Completed})
  }

  /** A pending cleanup or unlock belongs to a job that has failed or was cancelled. */
  predicate PendingAreOver(m: Manager) {
    forall id | id in m.cleanups + m.unlocks ::
      id in m.used && (Owns(m, id) ==> m.job.value.state.Failed? || m.job.value.state.Cancelled?)
  }

  /** A committing job still has its database; a committing record is the job in
      memory, its maintenance marker exists and the operation lock is held. */
  predicate CommittingIsGuarded(m: Manager) {
    && (m.job.Some? && m.job.value.state.Committing? ==> m.job.value.id in m.temporaries)
    && (m.disk.Some? && m.disk.value.state.Committing? ==>
          m.job == m.disk && m.marker == Some(m.disk.value.id) && m.operationLock)
  }

  /** Ids are never reused, and the record of a job agrees with it on its kind. */
  predicate Known(m: Manager) {
    && (m.job.Some? ==> m.job.value.id in m.used)
    && (m.disk.Some? ==> m.disk.value.id in m.used)
    && (m.disk.Some? && Owns(m, m.disk.value.id) ==> m.disk.value.verifyOnly == m.job.value.verifyOnly)
  }

  predicate Inv(m: Manager) {
    && OneWorker(m) && WorkerFits(m) && VerifyOnlyIsHarmless(m)
    && PendingAreOver(m) && CommittingIsGuarded(m) && Known(m)
  }

  function Run(events: seq<Event>): Manager {
    if events == [] then EMPTY else Step(Run(events[..|events| - 1]), events[|events| - 1])
  }

  /** The worker of the job in memory goes on, or leaves, with the job changed. */
  lemma WorkerStepKeepsInv(m: Manager, id: JobId, job: Job, disk: Option<Job>, stage: Stage)
    requires Inv(m) && id in m.workers && !m.workers[id].stage.Leaving?
    requires job.id == id && job.verifyOnly == m.job.value.verifyOnly
    requires job.state in {Downloading, Validating, Ready, Verified, Failed} || job == m.job.value
    requires m.job.value.state.Cancelled? ==> job == m.job.value
    requires job.verifyOnly ==> !job.state.Ready?
    requires disk == m.disk || (disk.Some? && disk.value.id == id && disk.value.verifyOnly == job.verifyOnly
                                && disk.value.state in {Downloading, Validating, Ready, Verified, Failed}
                                && (job.verifyOnly ==> !disk.value.state.Ready?))
    requires stage.Leaving? <==> !job.state.Preparing()
    requires stage.Discarded? ==> job.verifyOnly
    ensures Inv(WorkerAt(m.(job := Some(job), disk := disk), id, stage))
  {
  }

  /** What an update leaves in memory and on disk, and where it sends the worker. */
  lemma UpdateOutcome(m: Manager, id: JobId, next: State, w: Write, fw: Write, stage: Stage)
    returns (job: Job, disk: Option<Job>, after: Stage)
    requires Owns(m, id) && id in m.workers
    ensures UpdateThen(m, id, next, w, fw, stage) == WorkerAt(m.(job := Some(job), disk := disk), id, after)
    ensures job.id == id && job.verifyOnly == m.job.value.verifyOnly
    ensures if m.job.value.state.Cancelled? then job == m.job.value && disk == m.disk && after == Leaving
            else job.state in {next, Failed} && after == if job.state.Failed? then Leaving else stage
    ensures disk == m.disk || disk == Some(job) || disk == Some(job.(state := next))
    requires !next.Failed?
  {
    var u := UpdateStep(m, id, next, w, fw);
    job, disk, after := u.manager.job.value, u.manager.disk, if u.ok then stage else Leaving;
  }

  lemma UpdateKeepsInv(m: Manager, id: JobId, next: State, w: Write, fw: Write, stage: Stage)
    requires Inv(m) && id in m.workers && !m.workers[id].stage.Leaving?
    requires next in {Downloading, Validating, Ready, Verified}
    requires stage.Leaving? <==> !next.Preparing()
    requires m.workers[id].verifyOnly ==> !next.Ready?
    requires !stage.Discarded?
    ensures Inv(UpdateThen(m, id, next, w, fw, stage))
  {
    var job, disk, after := UpdateOutcome(m, id, next, w, fw, stage);
    WorkerStepKeepsInv(m, id, job, disk, after);
  }

  /** The temporary database comes or goes while the worker is between updates. */
  lemma DatabaseStepKeepsInv(m: Manager, id: JobId, temporaries: set<JobId>, stage: Stage)
    requires Inv(m) && id in m.workers && !m.workers[id].stage.Leaving? && !stage.Leaving?
    requires m.temporaries - {id} <= temporaries
    requires stage.Discarded? ==> m.workers[id].verifyOnly
    ensures Inv(WorkerAt(m.(temporaries := temporaries), id, stage))
  {
  }

  lemma AdvanceKeepsInv(m: Manager, id: JobId, w: Write, fw: Write)
    requires Inv(m)
    ensures Inv(AdvanceStep(m, id, w, fw))
  {
    if id in m.workers {
      match m.workers[id].stage
      case Launched => UpdateKeepsInv(m, id, Downloading, w, fw, Listing);
      case Listing => UpdateKeepsInv(m, id, Downloading, w, fw, Fetching);
      case Fetching => UpdateKeepsInv(m, id, Validating, w, fw, Checking);
      case Checking => DatabaseStepKeepsInv(m, id, m.temporaries - {id}, Importing);
      case Importing => DatabaseStepKeepsInv(m, id, m.temporaries + {id}, Imported);
      case Imported =>
        if m.workers[id].verifyOnly {
          DatabaseStepKeepsInv(m, id, m.temporaries - {id}, Discarded);
        } else {
          UpdateKeepsInv(m, id, Ready, w, fw, Leaving);
        }
      case Discarded => UpdateKeepsInv(m, id, Verified, w, fw, Leaving);
      case Leaving =>
    }
  }

  lemma TroubleKeepsInv(m: Manager, id: JobId, w: Write, partly: bool)
    requires Inv(m)
    ensures Inv(TroubleStep(m, id, w, partly))
  {
    if id in m.workers {
      assert Owns(m, id);
    }
  }

  lemma StartKeepsInv(m: Manager, id: JobId, verifyOnly: bool, w: Write)
    requires Inv(m)
    ensures Inv(StartStep(m, id, verifyOnly, w))
  {
  }

  lemma CommitKeepsInv(m: Manager, id: JobId, plan: CommitPlan)
    requires Inv(m)
    ensures Inv(CommitStep(m, id, plan))
  {
  }

  lemma CancelKeepsInv(m: Manager, id: JobId, w: Write)
    requires Inv(m)
    ensures Inv(CancelStep(m, id, w))
  {
  }

  lemma RestartKeepsInv(m: Manager, dropWorks: bool)
    requires Inv(m)
    ensures Inv(RestartStep(m, dropWorks))
  {
  }

  lemma StepKeepsInv(m: Manager, e: Event)
    requires Inv(m)
    ensures Inv(Step(m, e))
  {
    match e
    case Start(id, verifyOnly, w) => StartKeepsInv(m, id, verifyOnly, w);
    case Advance(id, w, fw) => AdvanceKeepsInv(m, id, w, fw);
    case Trouble(id, w, partly) => TroubleKeepsInv(m, id, w, partly);
    case Commit(id, plan) => CommitKeepsInv(m, id, plan);
    case Cancel(id, w) => CancelKeepsInv(m, id, w);
    case Restart(dropWorks) => RestartKeepsInv(m, dropWorks);
    case _ =>
  }

  /** Every interleaving keeps every invariant. */
  lemma {:induction false} EveryRunKeepsInv(events: seq<Event>)
    ensures Inv(Run(events))
  {
    if events != [] {
      EveryRunKeepsInv(events[..|events| - 1]);
      StepKeepsInv(Run(events[..|events| - 1]), events[|events| - 1]);
    }
  }

  lemma AtMostOneWorker(events: seq<Event>)
    ensures |Run(events).workers| <= 1
  {
    EveryRunKeepsInv(events);
    var m := Run(events);
    if m.workers != map[] {
      assert m.workers.Keys == {m.job.value.id};
    }
  }

  /** A cleanup drops no database but its own job's, and that job is over. */
  lemma CleanUpSparesLiveJobs(events: seq<Event>, id: JobId)
    ensures var m := Run(events);
            forall other <- m.temporaries - Step(m, CleanUp(id)).temporaries ::
              other == id && (Owns(m, other) ==> m.job.value.state.Failed? || m.job.value.state.Cancelled?)
  {
    EveryRunKeepsInv(events);
  }

  // --------------------------------------------------- a cancelled job stays cancelled

  predicate CancelledInMemory(m: Manager, id: JobId) {
    id in m.used && (Owns(m, id) ==> m.job.value.state.Cancelled?)
  }

  predicate CancelledOnRecord(m: Manager, id: JobId) {
    CancelledInMemory(m, id) && (m.disk.Some? && m.disk.value.id == id ==> m.disk.value.state.Cancelled?)
  }

  lemma UpdateKeepsCancelled(m: Manager, worker: JobId, next: State, w: Write, fw: Write, stage: Stage, id: JobId)
    requires Inv(m) && worker in m.workers && !next.Failed?
    ensures CancelledInMemory(m, id) ==> CancelledInMemory(UpdateThen(m, worker, next, w, fw, stage), id)
    ensures CancelledOnRecord(m, id) ==> CancelledOnRecord(UpdateThen(m, worker, next, w, fw, stage), id)
  {
    var _, _, _ := UpdateOutcome(m, worker, next, w, fw, stage);
  }

  lemma AdvanceKeepsCancelled(m: Manager, worker: JobId, w: Write, fw: Write, id: JobId)
    requires Inv(m)
    ensures CancelledInMemory(m, id) ==> CancelledInMemory(AdvanceStep(m, worker, w, fw), id)
    ensures CancelledOnRecord(m, id) ==> CancelledOnRecord(AdvanceStep(m, worker, w, fw), id)
  {
    if worker in m.workers {
      match m.workers[worker].stage
      case Launched => UpdateKeepsCancelled(m, worker, Downloading, w, fw, Listing, id);
      case Listing => UpdateKeepsCancelled(m, worker, Downloading, w, fw, Fetching, id);
      case Fetching => UpdateKeepsCancelled(m, worker, Validating, w, fw, Checking, id);
      case Imported => UpdateKeepsCancelled(m, worker, Ready, w, fw, Leaving, id);
      case Discarded => UpdateKeepsCancelled(m, worker, Verified, w, fw, Leaving, id);
      case _ =>
    }
  }

  lemma StepKeepsCancelled(m: Manager, e: Event, id: JobId)
    requires Inv(m)
    ensures CancelledInMemory(m, id) && !e.Restart? ==> CancelledInMemory(Step(m, e), id)
    ensures CancelledOnRecord(m, id) ==> CancelledOnRecord(Step(m, e), id)
  {
    match e
    case Advance(worker, w, fw) => AdvanceKeepsCancelled(m, worker, w, fw, id);
    case Trouble(broken, w, partly) =>
      if broken in m.workers {
        assert Owns(m, broken);
      }
    case _ =>
  }

  lemma RunLast(events: seq<Event>, e: Event)
    ensures Run(events + [e]) == Step(Run(events), e)
  {
    assert (events + [e])[..|events|] == events;
  }

  /** Within one process a cancelled job is never revived; once its record says
      cancelled, no number of restarts revives it. */
  lemma {:induction false} CancelledForGood(before: seq<Event>, after: seq<Event>, id: JobId)
    ensures CancelledInMemory(Run(before), id) && (forall e <- after :: !e.Restart?) ==>
              CancelledInMemory(Run(before + after), id)
    ensures CancelledOnRecord(Run(before), id) ==> CancelledOnRecord(Run(before + after), id)
    decreases |after|
  {
    if after == [] {
      assert before + after == before;
    } else {
      var start, e := after[..|after| - 1], after[|after| - 1];
      CancelledForGood(before, start, id);
      EveryRunKeepsInv(before + start);
      StepKeepsCancelled(Run(before + start), e, id);
      RunLast(before + start, e);
      assert before + after == (before + start) + [e];
    }
  }

  // ----------------------------------------------------------- what a transition needs

  predicate InMemory(m: Manager, id: JobId, state: State) {
    m.job.Some? && m.job.value.id == id && m.job.value.state == state
  }

  predicate OnRecord(m: Manager, id: JobId, state: State) {
    m.disk.Some? && m.disk.value.id == id && m.disk.value.state == state
  }

  lemma UpdateNeverCommits(m: Manager, worker: JobId, next: State, w: Write, fw: Write, stage: Stage, id: JobId)
    requires Inv(m) && worker in m.workers && !next.Failed? && !next.Committing?
    ensures InMemory(UpdateThen(m, worker, next, w, fw, stage), id, Committing) ==> InMemory(m, id, Committing)
    ensures OnRecord(UpdateThen(m, worker, next, w, fw, stage), id, Committing) ==> OnRecord(m, id, Committing)
  {
    var _, _, _ := UpdateOutcome(m, worker, next, w, fw, stage);
  }

  lemma AdvanceNeverCommits(m: Manager, worker: JobId, w: Write, fw: Write, id: JobId)
    requires Inv(m)
    ensures InMemory(AdvanceStep(m, worker, w, fw), id, Committing) ==> InMemory(m, id, Committing)
    ensures OnRecord(AdvanceStep(m, worker, w, fw), id, Committing) ==> OnRecord(m, id, Committing)
  {
    if worker in m.workers {
      match m.workers[worker].stage
      case Launched => UpdateNeverCommits(m, worker, Downloading, w, fw, Listing, id);
      case Listing => UpdateNeverCommits(m, worker, Downloading, w, fw, Fetching, id);
      case Fetching => UpdateNeverCommits(m, worker, Validating, w, fw, Checking, id);
      case Imported => UpdateNeverCommits(m, worker, Ready, w, fw, Leaving, id);
      case Discarded => UpdateNeverCommits(m, worker, Verified, w, fw, Leaving, id);
      case _ =>
    }
  }

  lemma TroubleNeverCommits(m: Manager, worker: JobId, w: Write, partly: bool, id: JobId)
    requires Inv(m)
    ensures InMemory(TroubleStep(m, worker, w, partly), id, Committing) ==> InMemory(m, id, Committing)
    ensures OnRecord(TroubleStep(m, worker, w, partly), id, Committing) ==> OnRecord(m, id, Committing)
  {
    if worker in m.workers { assert Owns(m, worker); }
  }

  /** A job becomes committing, in memory or on record, exactly by a confirmed commit of its own id
      whose artifacts still match, whose marker is written and whose operation lock is taken, from
      a ready job that restores, has its database and finds no marker. */
  lemma CommittingIff(m: Manager, e: Event, id: JobId)
    requires Inv(m)
    ensures !InMemory(m, id, Committing) && InMemory(Step(m, e), id, Committing)
       <==> && e.Commit? && e.committed == id
            && e.commit.confirmed && e.commit.artifactsMatch && e.commit.markerWritable && e.commit.lockTaken
            && m.job == Some(Job(id, false, Ready)) && id in m.temporaries && m.marker.None?
    ensures !OnRecord(m, id, Committing) && OnRecord(Step(m, e), id, Committing)
       <==> !InMemory(m, id, Committing) && InMemory(Step(m, e), id, Committing) && !e.commit.write.Lost?
  {
    match e
    case Advance(worker, w, fw) => AdvanceNeverCommits(m, worker, w, fw, id);
    case Trouble(broken, w, partly) => TroubleNeverCommits(m, broken, w, partly, id);
    case _ =>
  }

  /** In every run. */
  lemma EveryCommitWasConfirmed(events: seq<Event>, e: Event, id: JobId)
    requires || (!InMemory(Run(events), id, Committing) && InMemory(Run(events + [e]), id, Committing))
             || (!OnRecord(Run(events), id, Committing) && OnRecord(Run(events + [e]), id, Committing))
    ensures && e.Commit? && e.committed == id
            && e.commit.confirmed && e.commit.artifactsMatch && e.commit.markerWritable && e.commit.lockTaken
            && Run(events).job == Some(Job(id, false, Ready)) && id in Run(events).temporaries
  {
    EveryRunKeepsInv(events);
    RunLast(events, e);
    CommittingIff(Run(events), e, id);
  }

  /** A job becomes ready exactly when its own worker, with the database imported and nothing
      cancelled, says so and that can be recorded; or when a restart finds it ready on record. */
  lemma ReadyIff(m: Manager, e: Event, id: JobId)
    requires Inv(m)
    ensures !InMemory(m, id, Ready) && InMemory(Step(m, e), id, Ready)
       <==> || (&& e.Advance? && e.worker == id && m.workers.Keys == {id} && m.workers[id] == Worker(false, Imported)
                && m.job.value.state.Preparing() && !e.write.Lost?)
            || (e.Restart? && ComesUp(m) && !InMemory(m, id, Ready) && OnRecord(m, id, Ready))
  {
    if e.Advance? && e.worker in m.workers { assert Owns(m, e.worker); }
    if e.Trouble? && e.broken in m.workers { assert Owns(m, e.broken); }
    forall w | w in m.workers ensures w == m.job.value.id { assert Owns(m, w); }
  }

  /** A job is cancelled exactly by a cancellation that names it before its cutover has begun and
      before it is over; its marker is to go, and so is its database once no worker is at it. */
  lemma CancelledIff(m: Manager, e: Event, id: JobId)
    requires Inv(m) && !InMemory(m, id, Cancelled) && !e.Restart?
    ensures InMemory(Step(m, e), id, Cancelled)
       <==> e.Cancel? && e.cancelled == id && Owns(m, id) && m.job.value.state !in {Committing, Completed, Verified}
    ensures InMemory(Step(m, e), id, Cancelled) ==>
              id in Step(m, e).unlocks && (id in Step(m, e).cleanups || id in Step(m, e).workers)
              && (id in Step(m, e).cleanups <==> id in m.cleanups || m.job.value.state in {Ready, Failed})
              && (!e.cancelWrite.Lost? ==> OnRecord(Step(m, e), id, Cancelled))
  {
    if e.Advance? && e.worker in m.workers { assert Owns(m, e.worker); }
    if e.Trouble? && e.broken in m.workers { assert Owns(m, e.broken); }
  }

  /** A job starts exactly when asked for under a new id, with no cancel function registered and
      no job active, and its record is written; then it is queued with a worker of its own. */
  lemma StartedIff(m: Manager, e: Event, id: JobId)
    requires Inv(m) && !Owns(m, id)
    ensures InMemory(Step(m, e), id, Queued)
       <==> && e.Start? && e.newId == id && id !in m.used && !m.cancellable
            && (m.job.Some? ==> m.job.value.state in {Completed, Failed, Cancelled, Verified})
            && (e.startWrite.Stored? || (e.startWrite.HistoryLost? && !e.verifyOnly))
    ensures InMemory(Step(m, e), id, Queued) ==>
              && Step(m, e).job == Some(Job(id, e.verifyOnly, Queued)) && Step(m, e).disk == Step(m, e).job
              && Step(m, e).cancellable && Step(m, e).workers == m.workers[id := Worker(e.verifyOnly, Launched)]
  {
    if e.Advance? && e.worker in m.workers { assert Owns(m, e.worker); }
    if e.Trouble? && e.broken in m.workers { assert Owns(m, e.broken); }
  }

  /** A worker in trouble fails its job, on record too if that can be written, leaves, and has its
      database dropped even if only a part was imported; a cancelled job stays as it is. */
  lemma TroubleFails(m: Manager, id: JobId, w: Write, partly: bool)
    requires Inv(m) && id in m.workers && m.workers[id].stage !in {Launched, Leaving}
    ensures var after := Step(m, Trouble(id, w, partly));
            && after.workers == m.workers[id := m.workers[id].(stage := Leaving)]
            && (id in after.temporaries <==> id in m.temporaries || (partly && m.workers[id].stage.Importing?))
            && if m.job.value.state.Cancelled? then after.job == m.job && after.disk == m.disk
               else
                 && after.job == Some(m.job.value.(state := Failed)) && id in after.cleanups
                 && after.disk == if w.Lost? then m.disk else after.job
  {
    assert Owns(m, id);
  }

  /** A commit whose operation lock is not free leaves the job ready, and one whose record is lost
      leaves the lock free; both take their marker back if it can be removed. */
  lemma FailedCommitReleases(m: Manager, id: JobId, p: CommitPlan)
    requires Inv(m) && m.job == Some(Job(id, false, Ready)) && id in m.temporaries && m.marker.None?
    requires p.confirmed && p.artifactsMatch && p.markerWritable && (!p.lockTaken || p.write.Lost?)
    ensures var after := Step(m, Commit(id, p));
            && after.marker == (if p.markerRemovable then None else Some(id)) && after.disk == m.disk
            && if !p.lockTaken then after.job == m.job && after.operationLock == m.operationLock
               else InMemory(after, id, Committing) && !after.operationLock
  {
  }

  /** A worker that has left lets another job start; a cleanup drops its job's database and no
      other; an unlock removes its job's marker, if it can, and no other. */
  lemma AfterwardsSteps(m: Manager, id: JobId, removable: bool)
    requires Inv(m)
    ensures id in m.workers && m.workers[id].stage.Leaving? ==>
              !Step(m, Leave(id)).cancellable && Step(m, Leave(id)).workers == map[]
    ensures id in m.cleanups ==>
              Step(m, CleanUp(id)) == m.(temporaries := m.temporaries - {id}, cleanups := m.cleanups - {id})
    ensures id in m.unlocks ==>
              && Step(m, Unlock(id, removable)).unlocks == m.unlocks - {id}
              && Step(m, Unlock(id, removable)).marker
                   == if removable && m.marker == Some(id) then None else m.marker
  {
    if id in m.workers {
      forall w | w in m.workers ensures w == id { assert Owns(m, w) && Owns(m, id); }
    }
  }

  /** A process comes up unless a cutover is pending, or has failed and kept its marker. It knows
      what is on record and nothing else: no worker, no lock, nothing still to be done. A job that
      was being prepared has failed, its database goes if it can, and a record that is over or
      ready takes its marker away. */
  lemma RestartReadsBack(m: Manager, dropWorks: bool)
    requires Inv(m)
    ensures var after := Step(m, Restart(dropWorks));
            if m.disk.Some? && (m.disk.value.state == Committing || (m.disk.value.state == Failed && m.marker.Some?))
            then after == m
            else
              && !after.cancellable && !after.operationLock && after.workers == map[]
              && after.cleanups == {} && after.unlocks == {} && after.job == after.disk
              && if m.disk.Some? && m.disk.value.state in {Queued, Downloading, Validating}
                 then
                   && after.disk == Some(m.disk.value.(state := Failed))
                   && after.temporaries == (if dropWorks then m.temporaries - {m.disk.value.id} else m.temporaries)
                 else
                   && after.disk == m.disk && after.temporaries == m.temporaries
                   && (m.disk.Some? && m.marker == Some(m.disk.value.id) ==> after.marker.None?)
  {
  }

  /** The database of a job that is over is still to be dropped, by its worker or a cleanup. */
  predicate WillBeDropped(m: Manager) {
    m.job.Some? && (m.job.value.state.Failed? || m.job.value.state.Cancelled?) && m.job.value.id in m.temporaries ==>
      m.job.value.id in m.cleanups || m.job.value.id in m.workers
  }

  lemma StepKeepsDrop(m: Manager, e: Event)
    requires Inv(m) && WillBeDropped(m) && !e.Restart?
    ensures WillBeDropped(Step(m, e))
  {
    if e.Advance? && e.worker in m.workers { assert Owns(m, e.worker); }
    if e.Trouble? && e.broken in m.workers { assert Owns(m, e.broken); }
    if e.Leave? && e.leaving in m.workers { assert Owns(m, e.leaving); }
    if e.Start? { assert m.workers == map[] || m.cancellable; }
  }

  /** In every run without a restart. A restart forgets what was still to be dropped. */
  lemma {:induction false} EndedJobsAreDropped(events: seq<Event>)
    requires forall e <- events :: !e.Restart?
    ensures WillBeDropped(Run(events))
    decreases |events|
  {
    if events != [] {
      var start := events[..|events| - 1];
      EndedJobsAreDropped(start);
      EveryRunKeepsInv(start);
      assert events[|events| - 1] in events;
      StepKeepsDrop(Run(start), events[|events| - 1]);
    }
  }

  // ------------------------------------------------------------ the one way back

  predicate ReadyOnRecord(m: Manager, id: JobId) {
    m.disk.Some? && m.disk.value.id == id && m.disk.value.state.Ready?
  }

  /** While a job is cancelled in memory, a step that writes the record does not leave it ready. */
  lemma CancelledIsNotRecordedReady(m: Manager, e: Event, id: JobId)
    requires Inv(m) && CancelledInMemory(m, id) && !e.Restart?
    ensures ReadyOnRecord(Step(m, e), id) ==> Step(m, e).disk == m.disk
  {
    match e
    case Advance(worker, w, fw) =>
      if worker in m.workers && worker != id {
        assert Owns(m, worker);
      }
    case Trouble(broken, w, partly) =>
      if broken in m.workers {
        assert Owns(m, broken);
      }
    case _ =>
  }

  /** Every one of these events leaves the record alone. */
  predicate RecordUntouched(before: seq<Event>, after: seq<Event>) {
    after != [] ==>
      && RecordUntouched(before, after[..|after| - 1])
      && Run(before + after).disk == Run(before + after[..|after| - 1]).disk
  }

  lemma {:induction false} StillReadyIff(before: seq<Event>, after: seq<Event>, id: JobId)
    requires CancelledInMemory(Run(before), id) && forall e <- after :: !e.Restart?
    ensures ReadyOnRecord(Run(before + after), id) <==> ReadyOnRecord(Run(before), id) && RecordUntouched(before, after)
    decreases |after|
  {
    if after == [] {
      assert before + after == before;
    } else {
      var start, e := after[..|after| - 1], after[|after| - 1];
      StillReadyIff(before, start, id);
      CancelledForGood(before, start, id);
      EveryRunKeepsInv(before + start);
      RunLast(before + start, e);
      assert before + after == (before + start) + [e];
      CancelledIsNotRecordedReady(Run(before + start), e, id);
    }
  }

  /** Cancelled at any moment, followed by anything but a restart, and then by one: the job comes
      back exactly when its record said ready, the cancellation was not recorded, and nothing
      was recorded after it. */
  lemma RevivedByRestartIff(before: seq<Event>, id: JobId, w: Write, after: seq<Event>, dropWorks: bool)
    requires Owns(Run(before), id) && Run(before).job.value.state !in {Committing, Completed, Verified}
    requires forall e <- after :: !e.Restart?
    ensures var restarted := RestartStep(Run(before + [Cancel(id, w)] + after), dropWorks);
            (Owns(restarted, id) && restarted.job.value.state.Active())
            <==> w.Lost? && ReadyOnRecord(Run(before), id) && RecordUntouched(before + [Cancel(id, w)], after)
  {
    var cancelled := before + [Cancel(id, w)];
    EveryRunKeepsInv(before);
    RunLast(before, Cancel(id, w));
    StillReadyIff(cancelled, after, id);
    CancelledForGood(cancelled, after, id);
    EveryRunKeepsInv(cancelled + after);
    RestartRevivesIff(Run(cancelled + after), id, dropWorks);
    assert ReadyOnRecord(Run(cancelled), id) <==> w.Lost? && ReadyOnRecord(Run(before), id);
  }

  lemma RestartRevivesIff(m: Manager, id: JobId, dropWorks: bool)
    requires Inv(m) && CancelledInMemory(m, id)
    ensures (Owns(RestartStep(m, dropWorks), id) && RestartStep(m, dropWorks).job.value.state.Active())
       <==> ReadyOnRecord(m, id)
  {
  }

  /** A whole history in which it does: staged until ready, cancelled with the write lost, restarted. */
  lemma LostCancellationIsForgotten(id: JobId) returns (events: seq<Event>)
    ensures Owns(Run(events), id) && Run(events).job.value.state.Ready?
    ensures exists k: nat :: k < |events| && events[k] == Cancel(id, Lost) && Owns(Run(events[..k]), id)
                             && Run(events[..k]).job.value.state.Ready?
  {
    var step := Advance(id, Stored, Stored);
    var staged := StagedRun(id);
    StagedRunIsReady(id);
    events := staged + [Leave(id)] + [Cancel(id, Lost)] + [Restart(true)];
    RunLast(staged, Leave(id));
    RunLast(staged + [Leave(id)], Cancel(id, Lost));
    RunLast(staged + [Leave(id)] + [Cancel(id, Lost)], Restart(true));
    assert events[..|staged| + 1] == staged + [Leave(id)];
    assert events[|staged| + 1] == Cancel(id, Lost);
  }

  function StagedRun(id: JobId): seq<Event> {
    var step := Advance(id, Stored, Stored);
    [Start(id, false, Stored)] + [step] + [step] + [step] + [step] + [step] + [step]
  }

  lemma StagedRunIsReady(id: JobId)
    ensures var m := Run(StagedRun(id));
            && m.job == Some(Job(id, false, Ready)) && m.disk == m.job
            && m.workers == map[id := Worker(false, Leaving)]
            && id in m.temporaries && m.marker.None?
  {
    var step := Advance(id, Stored, Stored);
    var e1 := [Start(id, false, Stored)];
    RunLast([], Start(id, false, Stored));
    assert [] + e1 == e1;
    RunLast(e1, step);
    RunLast(e1 + [step], step);
    RunLast(e1 + [step] + [step], step);
    RunLast(e1 + [step] + [step] + [step], step);
    RunLast(e1 + [step] + [step] + [step] + [step], step);
    RunLast(e1 + [step] + [step] + [step] + [step] + [step], step);
  }
}
