/**
 The online restore cutover (`ApplyPendingOnlineRestore`): promote the database,
 swap seven paths, cut the TLS directory over, validate, and either complete or
 undo everything. A maintenance lock stays while the outcome is unclear.
 */
module RestoreApply {
  import opened Common
  import opened RestoreSwap
  import opened RestoreTls
  import opened RestoreDatabases

  datatype JobState = Committing | Completed | RolledBack | RollbackFailed | NotPending

  /** Everything that can go wrong during one run of the cutover. */
  datatype Plan = Plan(
    jobVersionCurrent: bool,
    operationLockTaken: bool,
    prepared: bool,             // server ready, hashes, archives and database verified, content staged
    answers: Answers,
    promotionRecorded: bool,
    demote: RenameFault,
    restore: RenameFault,
    swapFaults: int -> Fault,
    swapUndos: int -> RollbackFault,
    tlsFault: TlsFault,
    tlsStuckLive: set<string>,
    tlsStuckAside: set<string>,
    tlsBackupRemovable: bool,
    promotedValid: bool,
    completionRecorded: bool,
    failureRecorded: bool,
    lockRemovable: bool,
    temporaryDroppable: bool)

  /** The order in which the paths are swapped. */
  datatype Path = WriteAheadLog | SharedMemory | ControlDatabase | Pki | LetsEncrypt | NginxArtifacts | StaticAssets

  const PATHS: seq<Path> :=
    [WriteAheadLog, SharedMemory, ControlDatabase, Pki, LetsEncrypt, NginxArtifacts, StaticAssets]

  /** What the control plane serves from: the database, the live paths, the TLS directory. */
  datatype Surface = Surface(database: Option<Content>, live: seq<Option<Content>>, tls: Tree)

  /** How a run ends: the record, the maintenance lock, and whether what is served is what was
      served before, or what the restore calls for. */
  datatype Ending = Ending(record: JobState, locked: bool, asBefore: bool, asRestored: bool)

  /** What a run on a job no process has begun to apply can end in. */
  predicate MayEnd(e: Ending) {
    && (e.record.Completed? ==> e.asRestored)
    && (!e.locked ==> e.asBefore || e.asRestored)
  }

  /** What a run does that finds one of the renames already made. */
  predicate GivesUp(e: Ending) {
    e.asBefore && (e.record.Committing? || e.record.RolledBack?)
  }

  class OnlineRestore {
    const clickHouse: ClickHouse
    const swaps: seq<RestorePathSwap>
    const tls: RestoreTlsCutover
    var job: JobState           // the persisted record
    var locked: bool            // the maintenance marker

    /** Seven swaps, all distinct. */
    ghost predicate Shape() {
      |swaps| == |PATHS| && forall i, j | 0 <= i < j < |swaps| :: swaps[i] != swaps[j]
    }

    /** A run starts with no memory of what an earlier process did. */
    ghost predicate Valid()
      reads this, swaps, tls
    {
      && Shape()
      && (forall s <- swaps :: s.Remembered() == NOTHING)
      && tls.backedUp == [] && tls.installed == []
    }

    /** A job no process has begun to apply: the restored database waits under its
        own name, and none of this job's backup names is taken. */
    ghost predicate Fresh()
      reads this, clickHouse, swaps, tls
    {
      Temporary in clickHouse.catalog && Previous !in clickHouse.catalog && FreshFiles()
    }

    ghost predicate FreshFiles()
      reads swaps, tls
    {
      && (forall s <- swaps :: s.disk.Untouched())
      && tls.backup.None? && NoCollision(tls.root, tls.stage)
    }

    ghost function LivePaths(): (r: seq<Option<Content>>)
      reads swaps
      ensures |r| == |swaps| && forall i | 0 <= i < |r| :: r[i] == swaps[i].disk.live
    {
      seq(|swaps|, i requires 0 <= i < |swaps| reads swaps => swaps[i].disk.live)
    }

    ghost function StagedPaths(): (r: seq<Option<Content>>)
      reads swaps
      ensures |r| == |swaps| && forall i | 0 <= i < |r| :: r[i] == swaps[i].disk.staged
    {
      seq(|swaps|, i requires 0 <= i < |swaps| reads swaps => swaps[i].disk.staged)
    }

    ghost function Serving(): Surface
      reads this, clickHouse, swaps, tls
    {
      Surface(Lookup(clickHouse.catalog, Current), LivePaths(), tls.root)
    }

    /** What a fresh job would serve once it is applied in full. */
    ghost function Restored(): Surface
      reads this, clickHouse, swaps, tls
    {
      Surface(Lookup(clickHouse.catalog, Temporary), StagedPaths(),
              InstalledTree(tls.root, tls.stage, Movable(tls.root), tls.stage.Keys))
    }

    /** Every swap's memory undoes exactly what the swap has done since `disks`. */
    ghost predicate Undoable(disks: seq<Disk>)
      requires |disks| == |swaps|
      reads swaps
    {
      forall i | 0 <= i < |swaps| ::
        RollbackOutcome(swaps[i].disk, swaps[i].Remembered(), RollbackWorks) == Undoing(disks[i], true)
    }

    /** Each of the first swaps can be rolled back. */
    ghost predicate Reversible(count: nat)
      requires count <= |swaps|
      reads swaps
    {
      forall i | 0 <= i < count :: RollbackOutcome(swaps[i].disk, swaps[i].Remembered(), RollbackWorks).ok
    }

    ghost function Disks(): (r: seq<Disk>)
      reads swaps
      ensures |r| == |swaps| && forall i | 0 <= i < |r| :: r[i] == swaps[i].disk
    {
      seq(|swaps|, i requires 0 <= i < |swaps| reads swaps => swaps[i].disk)
    }

    constructor (c: ClickHouse, paths: seq<RestorePathSwap>, directory: RestoreTlsCutover, state: JobState, lock: bool)
      requires |paths| == |PATHS| && directory.backedUp == [] && directory.installed == []
      requires forall i, j | 0 <= i < j < |paths| :: paths[i] != paths[j]
      requires forall s <- paths :: s.Remembered() == NOTHING
      ensures Valid() && clickHouse == c && swaps == paths && tls == directory && job == state && locked == lock
    {
      clickHouse, swaps, tls := c, paths, directory;
      job, locked := state, lock;
    }

    /** Record a failure. The lock goes only when every undo succeeded. */
    method Fail(plan: Plan, undone: bool)
      modifies this, clickHouse
      ensures job == if plan.failureRecorded then (if undone then RolledBack else RollbackFailed) else old(job)
      ensures locked == (old(locked) && !(undone && plan.lockRemovable))
      ensures clickHouse.catalog ==
              old(clickHouse.catalog) - (if undone && plan.temporaryDroppable then {Temporary} else {})
    {
      if plan.failureRecorded {
        job := if undone then RolledBack else RollbackFailed;
      }
      if undone {
        if plan.lockRemovable {
          locked := false;
        }
        if plan.temporaryDroppable {
          clickHouse.catalog := clickHouse.catalog - {Temporary};
        }
      }
    }

    /** Apply the swaps in order. `completed` counts the swaps that returned success. */
    method ApplySwaps(plan: Plan) returns (completed: nat, verdict: Verdict)
      requires Shape() && forall s <- swaps :: s.Remembered() == NOTHING
      modifies swaps
      ensures completed <= |swaps| && (verdict.Applied? <==> completed == |swaps|)
      ensures verdict.Applied? ==> forall i | 0 <= i < |swaps| ::
                && AppliesTo(old(Disks())[i], plan.swapFaults(i))
                && swaps[i].disk == old(After(swaps[i].disk, plan.swapFaults(i)))
      ensures old(forall s <- swaps :: s.disk.Untouched()) ==>
                && !verdict.ManualRollback?
                && Undoable(old(Disks()))
                && (Flawless(plan) ==> verdict.Applied?)
                && (forall i | completed < i < |swaps| ::
                      swaps[i].disk == old(Disks())[i] && swaps[i].Remembered() == NOTHING)
                && (verdict.Applied? ==> LivePaths() == old(StagedPaths()))
    {
      ghost var disks := Disks();
      ghost var pristine := forall s <- swaps :: s.disk.Untouched();
      completed := 0;
      while completed < |swaps|
        invariant completed <= |swaps|
        invariant forall i | completed <= i < |swaps| :: unchanged(swaps[i])
        invariant forall i | 0 <= i < completed :: AppliesTo(disks[i], plan.swapFaults(i))
        invariant forall i | 0 <= i < completed :: swaps[i].disk == After(disks[i], plan.swapFaults(i))
        invariant pristine ==> Undoable(disks)
        invariant pristine ==> forall i | 0 <= i < completed :: swaps[i].disk.live == disks[i].staged
      {
        var current := swaps[completed];
        verdict := current.Apply(plan.swapFaults(completed));
        if !verdict.Applied? {
          return;
        }
        completed := completed + 1;
      }
      verdict := Applied;
    }

    /** Roll swaps `0..count` back, last first, going on after a failure. */
    method RollbackSwaps(plan: Plan, count: nat) returns (ok: bool)
      requires Shape() && count <= |swaps|
      modifies swaps
      ensures forall i | count <= i < |swaps| :: unchanged(swaps[i])
      ensures ok ==> forall i | 0 <= i < count :: swaps[i].disk == old(Undone(swaps[i].disk, swaps[i].Remembered()))
      ensures UndosWork(plan) && old(Reversible(count)) ==> ok
    {
      ok := true;
      var i := count;
      while i > 0
        invariant 0 <= i <= count
        invariant forall k | 0 <= k < i :: unchanged(swaps[k])
        invariant forall k | count <= k < |swaps| :: unchanged(swaps[k])
        invariant UndosWork(plan) && old(Reversible(count)) ==> ok
        invariant ok ==> forall k | i <= k < count :: swaps[k].disk == old(Undone(swaps[k].disk, swaps[k].Remembered()))
      {
        i := i - 1;
        var current := swaps[i];
        var undone := current.Rollback(plan.swapUndos(i));
        ok := ok && undone;
      }
    }

    /** Undo the TLS cutover and the completed swaps, whatever fails on the way. */
    method RollbackFiles(plan: Plan, completed: nat) returns (ok: bool)
      requires Shape() && completed <= |swaps| && tls.Valid()
      modifies swaps, tls
      ensures forall i | completed <= i < |swaps| :: unchanged(swaps[i])
      ensures ok || old(tls.backedUp == [] && tls.installed == []) ==> tls.root == old(tls.UndoneRoot())
      ensures ok ==> forall i | 0 <= i < completed :: swaps[i].disk == old(Undone(swaps[i].disk, swaps[i].Remembered()))
      ensures UndosWork(plan) && old(Reversible(completed)) ==> ok
    {
      var tlsOk := tls.Rollback(plan.tlsStuckLive, plan.tlsStuckAside, plan.tlsBackupRemovable);
      var swapsOk := RollbackSwaps(plan, completed);
      ok := tlsOk && swapsOk;
    }

    /** Cut the TLS directory over. Its recorded names always undo what was moved. */
    method CutDirectoryOver(plan: Plan) returns (verdict: Verdict)
      requires tls.Valid() && tls.backedUp == [] && tls.installed == []
      modifies tls
      ensures tls.Valid()
      ensures old(tls.backup.None? && NoCollision(tls.root, tls.stage)) ==>
                !verdict.ManualRollback? && tls.UndoneRoot() == old(tls.root)
      ensures old(tls.backup.None?) && verdict.Applied? ==>
                tls.root == old(InstalledTree(tls.root, tls.stage, Movable(tls.root), tls.stage.Keys))
      ensures old(tls.backup.None?) && plan.tlsFault.TlsWorks? ==> verdict.Applied?
    {
      ghost var root, stage := tls.root, tls.stage;
      ghost var course;
      verdict, course := tls.Apply(plan.tlsFault);
      if old(tls.backup.None?) {
        UndoneIsOriginalIff(root, stage, Elements(tls.backedUp), Elements(tls.installed));
      }
    }

    /** Undo the swap that failed, and then everything before it. */
    method RollbackFailedSwap(plan: Plan, failed: nat, ghost disks: seq<Disk>) returns (ok: bool)
      requires Shape() && failed < |swaps| == |disks|
      requires tls.backedUp == [] && tls.installed == []
      modifies swaps, tls
      ensures tls.root == old(tls.root)
      ensures ok && old(Undoable(disks)) && old(forall i | failed < i < |swaps| :: swaps[i].disk == disks[i]) ==>
                Disks() == disks
      ensures UndosWork(plan) && old(Undoable(disks)) ==> ok
    {
      assert tls.UndoneRoot() == tls.root;
      var current := swaps[failed].Rollback(plan.swapUndos(failed));
      assert old(Undoable(disks)) ==> Reversible(failed);
      var files := RollbackFiles(plan, failed);
      ok := current && files;
    }

    /** Move every path and the TLS directory, or undo what was moved. */
    method CutFilesOver(plan: Plan) returns (done: bool, undone: bool)
      requires Valid()
      modifies swaps, tls
      ensures old(FreshFiles()) && done ==>
                && LivePaths() == old(StagedPaths())
                && tls.root == old(InstalledTree(tls.root, tls.stage, Movable(tls.root), tls.stage.Keys))
      ensures old(FreshFiles()) && !done && undone ==> Disks() == old(Disks()) && tls.root == old(tls.root)
      ensures old(FreshFiles()) && !done && UndosWork(plan) ==> undone
      ensures old(FreshFiles()) && Flawless(plan) ==> done
      ensures done ==> plan.promotedValid
      ensures done ==> forall i | 0 <= i < |swaps| :: AppliesTo(old(Disks())[i], plan.swapFaults(i))
    {
      ghost var disks := Disks();
      var completed, verdict := ApplySwaps(plan);
      if !verdict.Applied? {
        undone := RollbackFailedSwap(plan, completed, disks);
        return false, undone && !verdict.ManualRollback?;
      }
      verdict := CutDirectoryOver(plan);
      if verdict.Applied? && plan.promotedValid {
        return true, false;
      }
      var files := RollbackFiles(plan, |swaps|);
      return false, files && !verdict.ManualRollback?;
    }

    /** Undo the database as well, and record the failure. */
    method Abandon(plan: Plan, filesUndone: bool, promoted: bool, oldRenamed: bool)
      modifies this, clickHouse
      ensures !job.Completed? || old(job.Completed?)
      ensures locked ==> old(locked)
      ensures !locked && old(locked) ==>
                && filesUndone
                && SameDatabases(old(Demoted(clickHouse.catalog, promoted, oldRenamed)))
      ensures filesUndone && UndosWork(plan) && old(Undemotable(clickHouse.catalog, promoted, oldRenamed)) ==> !locked
      ensures !promoted && !oldRenamed ==>
                && locked == (old(locked) && !(filesUndone && plan.lockRemovable))
                && SameDatabases(old(clickHouse.catalog))
                && (filesUndone ==> job == if plan.failureRecorded then RolledBack else old(job))
    {
      var demoted := clickHouse.RollbackPromotion(promoted, oldRenamed, plan.demote, plan.restore);
      Fail(plan, filesUndone && demoted);
    }

    /** The files, once the database is promoted; a failure undoes the promotion too. */
    method FinishCutOver(plan: Plan, promoted: bool, oldRenamed: bool) returns (applied: bool)
      requires Valid() && job.Committing?
      modifies this, clickHouse, swaps, tls
      ensures old(FreshFiles()) && (applied || job.Completed?) ==>
                && LivePaths() == old(StagedPaths())
                && tls.root == old(InstalledTree(tls.root, tls.stage, Movable(tls.root), tls.stage.Keys))
                && clickHouse.catalog == old(clickHouse.catalog)
      ensures old(FreshFiles() && locked) && !locked && !applied ==>
                && Disks() == old(Disks()) && tls.root == old(tls.root)
                && SameDatabases(old(Demoted(clickHouse.catalog, promoted, oldRenamed)))
      ensures applied ==> job.Completed? && !locked
      ensures old(FreshFiles() && Undemotable(clickHouse.catalog, promoted, oldRenamed)) ==>
                UndosWork(plan) && plan.completionRecorded ==> !locked
      ensures old(FreshFiles()) && Flawless(plan) ==> applied
      ensures applied || job.Completed? ==>
                && plan.promotedValid && plan.completionRecorded
                && forall i | 0 <= i < |swaps| :: AppliesTo(old(Disks())[i], plan.swapFaults(i))
    {
      applied := false;
      var done, undone := CutFilesOver(plan);
      if !done {
        Abandon(plan, undone, promoted, oldRenamed);
      } else if plan.completionRecorded {
        job := Completed;
        if plan.lockRemovable {
          locked := false;
          applied := true;
        }
      }
    }

    /** A restored database waits, and the name for the present one is free. */
    predicate FreshDatabases()
      reads clickHouse
    {
      Temporary in clickHouse.catalog && Previous !in clickHouse.catalog
    }

    /** Promote the database and record that, or undo the promotion and record the failure. */
    method PromoteOrAbandon(plan: Plan) returns (ok: bool, promoted: bool, oldRenamed: bool)
      requires job.Committing?
      modifies this, clickHouse
      ensures ok ==> job == old(job) && locked == old(locked)
      ensures ok ==> plan.promotionRecorded && plan.answers.inspectable
      ensures ok && old(Temporary in clickHouse.catalog) ==>
                plan.answers.promotedValid && (old(Current in clickHouse.catalog) ==> plan.answers.currentValid)
      ensures ok && old(FreshDatabases()) ==>
                && Undemotable(clickHouse.catalog, promoted, oldRenamed)
                && Demoted(clickHouse.catalog, promoted, oldRenamed) == old(clickHouse.catalog)
                && Lookup(clickHouse.catalog, Current) == old(Lookup(clickHouse.catalog, Temporary))
      ensures !ok ==> !job.Completed?
      ensures !ok && old(locked && FreshDatabases()) && !locked ==> SameDatabases(old(clickHouse.catalog))
      ensures !ok && old(FreshDatabases()) && UndosWork(plan) && Clear(plan) ==> !locked
      ensures old(FreshDatabases()) && Flawless(plan) ==> ok
      ensures old(Previous in clickHouse.catalog && Temporary in clickHouse.catalog) ==>
                && !ok && SameDatabases(old(clickHouse.catalog)) && locked == (old(locked) && !plan.lockRemovable)
                && job == (if plan.failureRecorded then RolledBack else Committing)
    {
      var verdict;
      promoted, oldRenamed, verdict := clickHouse.Promote(plan.answers);
      ok := verdict.Applied? && plan.promotionRecorded;
      if !ok {
        Abandon(plan, !verdict.ManualRollback?, promoted, oldRenamed);
      }
    }

    /** The cutover proper, once everything is staged. */
    method CutOver(plan: Plan) returns (applied: bool)
      requires Valid() && job.Committing?
      modifies this, clickHouse, swaps, tls
      ensures old(locked && Fresh()) && !locked ==>
                if applied then Serving() == old(Restored())
                else Serving() == old(Serving()) && Untraced(old(Disks()))
      ensures old(Fresh()) && job.Completed? ==> Serving() == old(Restored())
      ensures applied ==> job.Completed? && !locked
      ensures old(Fresh()) && UndosWork(plan) && Clear(plan) ==> !locked
      ensures old(Fresh()) && Flawless(plan) ==> applied
      ensures applied || job.Completed? ==>
                && plan.promotionRecorded && plan.promotedValid && plan.completionRecorded && plan.answers.inspectable
                && forall i | 0 <= i < |swaps| :: AppliesTo(old(Disks())[i], plan.swapFaults(i))
      ensures (applied || job.Completed?) && old(Temporary in clickHouse.catalog) ==>
                plan.answers.promotedValid && (old(Current in clickHouse.catalog) ==> plan.answers.currentValid)
      ensures old(Previous in clickHouse.catalog && Temporary in clickHouse.catalog) ==>
                && !applied && Disks() == old(Disks()) && tls.root == old(tls.root)
                && SameDatabases(old(clickHouse.catalog)) && locked == (old(locked) && !plan.lockRemovable)
                && job == (if plan.failureRecorded then RolledBack else Committing)
    {
      var ok, promoted, oldRenamed := PromoteOrAbandon(plan);
      if !ok { return false; }
      applied := FinishCutOver(plan, promoted, oldRenamed);
    }

    /** Nothing is set aside, and every path is as it was. */
    ghost predicate Untraced(disks: seq<Disk>)
      reads clickHouse, swaps
    {
      Lookup(clickHouse.catalog, Previous).None? && Disks() == disks
    }

    /** Every database but the temporary one is as it was. */
    ghost predicate SameDatabases(before: Catalog)
      reads clickHouse
    {
      forall d | d != Temporary :: Lookup(clickHouse.catalog, d) == Lookup(before, d)
    }

    /** Whether the run gets as far as looking at the databases, or gives up before it. */
    predicate Reached(plan: Plan) {
      !plan.jobVersionCurrent || plan.operationLockTaken
    }

    /** With the operation lock held: validate everything, and cut over. */
    method ApplyPrepared(plan: Plan) returns (applied: bool)
      requires Valid() && job.Committing?
      modifies this, clickHouse, swaps, tls
      ensures old(locked && Fresh()) && !locked ==>
                if applied then Serving() == old(Restored())
                else Serving() == old(Serving()) && Untraced(old(Disks()))
      ensures old(Fresh()) && job.Completed? ==> Serving() == old(Restored())
      ensures applied ==> job.Completed? && !locked
      ensures old(Fresh()) && UndosWork(plan) && Clear(plan) ==> !locked
      ensures old(Fresh()) && Flawless(plan) ==> applied
      ensures applied || job.Completed? ==>
                && plan.prepared && plan.promotionRecorded && plan.promotedValid && plan.completionRecorded
                && plan.answers.inspectable && plan.answers.promotedValid
                && (old(Current in clickHouse.catalog) ==> plan.answers.currentValid)
                && forall i | 0 <= i < |swaps| :: AppliesTo(old(Disks())[i], plan.swapFaults(i))
      // What is not fit to be cut over fails, and nothing is touched.
      ensures !plan.prepared || old(Temporary !in clickHouse.catalog || Previous in clickHouse.catalog) ==>
                && !applied && Disks() == old(Disks()) && tls.root == old(tls.root)
                && SameDatabases(old(clickHouse.catalog)) && locked == (old(locked) && !plan.lockRemovable)
                && job == (if plan.failureRecorded then RolledBack else Committing)
    {
      if !plan.prepared || Temporary !in clickHouse.catalog {
        Fail(plan, true);
        return false;
      }
      applied := CutOver(plan);
    }

    method ApplyPending(plan: Plan) returns (applied: bool)
      requires Valid()
      modifies this, clickHouse, swaps, tls
      // All or nothing, or locked.
      ensures old(job.Committing? && locked && Fresh()) && !locked ==>
                if applied then Serving() == old(Restored())
                else Serving() == old(Serving()) && Untraced(old(Disks()))
      ensures old(job.Committing? && locked && Fresh()) ==>
                MayEnd(Ending(job, locked, Serving() == old(Serving()), Serving() == old(Restored())))
      // A completed record is written only over the restored state, unlocked or not.
      ensures old(job.Committing? && Fresh()) && job.Completed? ==> Serving() == old(Restored())
      ensures applied ==> job.Completed? && !locked
      // The lock stays only for a failed undo, an unclear rename, or a record that could not be written.
      ensures old(job.Committing? && Fresh()) && UndosWork(plan) && Clear(plan) ==> !locked
      ensures old(job.Committing? && Fresh()) && Flawless(plan) ==> applied
      // Nothing is cut over, or recorded as such, without every check and every answer it needs.
      ensures old(job.Committing?) && (applied || job.Completed?) ==>
                && plan.jobVersionCurrent && plan.operationLockTaken && plan.prepared
                && plan.promotionRecorded && plan.promotedValid && plan.completionRecorded
                && plan.answers.inspectable && plan.answers.promotedValid
                && (old(Current in clickHouse.catalog) ==> plan.answers.currentValid)
                && forall i | 0 <= i < |swaps| :: AppliesTo(old(Disks())[i], plan.swapFaults(i))
      // A job that may not be cut over is failed, unless another operation holds the lock, and
      // nothing is touched: one of another format, one that fails validation, and one whose
      // cutover crashed with a rename left behind. Whatever mixture that crash left live stays
      // live, and the maintenance lock goes.
      ensures old(job.Committing?)
              && (!plan.jobVersionCurrent || !plan.operationLockTaken || !plan.prepared
                  || old(Temporary !in clickHouse.catalog || Previous in clickHouse.catalog)) ==>
                && !applied && Disks() == old(Disks()) && tls.root == old(tls.root)
                && SameDatabases(old(clickHouse.catalog))
                && locked == (old(locked) && !(Reached(plan) && plan.lockRemovable))
                && job == (if Reached(plan) && plan.failureRecorded then RolledBack else Committing)
                && GivesUp(Ending(job, locked, Serving() == old(Serving()), false))
      ensures old(job.Committing?) && plan.jobVersionCurrent && !plan.operationLockTaken ==>
                job.Committing? && locked == old(locked) && clickHouse.catalog == old(clickHouse.catalog)
      // No pending cutover: nothing is touched but the lock, which an incomplete rollback keeps.
      ensures !old(job.Committing?) ==>
                && !applied && job == old(job) && Serving() == old(Serving())
                && locked == (old(locked) && (old(job) in {RolledBack, RollbackFailed} || !plan.lockRemovable))
    {
      applied := false;
      if !job.Committing? {
        if !(locked && job in {RolledBack, RollbackFailed}) && plan.lockRemovable {
          locked := false;
        }
      } else if !plan.jobVersionCurrent {
        Fail(plan, true);
      } else if plan.operationLockTaken {
        applied := ApplyPrepared(plan);
      }
    }
  }

  /** A path on which the swap succeeds, and what it leaves. */
  predicate AppliesTo(d: Disk, fault: Fault) { ApplyOutcome(d, NOTHING, fault).verdict.Applied? }

  function After(d: Disk, fault: Fault): Disk { ApplyOutcome(d, NOTHING, fault).disk }

  /** Every undoing step works, and so does removing the lock. */
  ghost predicate UndosWork(plan: Plan) {
    && plan.demote.RenameWorks? && plan.restore.RenameWorks?
    && (forall i :: plan.swapUndos(i).RollbackWorks?)
    && plan.tlsStuckLive == {} && plan.tlsStuckAside == {}
    && plan.lockRemovable
  }

  /** No rename has an unreadable outcome, and a run that gets to the end can say so. */
  predicate Clear(plan: Plan) {
    && (plan.answers.setAside.RenameWorks? || plan.answers.setAsideInspectable)
    && (plan.answers.promote.RenameWorks? || plan.answers.promoteInspectable)
    && (plan.operationLockTaken || !plan.jobVersionCurrent)
    && plan.completionRecorded
  }

  /** Nothing fails. */
  ghost predicate Flawless(plan: Plan) {
    && plan.jobVersionCurrent && plan.operationLockTaken && plan.prepared
    && plan.answers.Smooth()
    && plan.promotionRecorded
    && (forall i :: plan.swapFaults(i).NoFault?)
    && plan.tlsFault.TlsWorks?
    && plan.promotedValid && plan.completionRecorded && plan.lockRemovable
  }
}
