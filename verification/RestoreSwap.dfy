/**
 One rename swap of an online restore (`restorePathSwap`).

 A swap owns four names next to each other on one volume: the live path, the
 staged replacement, the backup of what was live, and a marker that records
 "nothing was live". Every step may fail, and a process may die between any
 two steps and start again with an empty memory.
 */
module RestoreSwap {
  import opened Common

  /** A file or a directory tree. Equal digests are taken to mean equal content. */
  type Content = string

  /** `tree` says that the names are directories, which a rename puts over a file but not over
      one that still has entries; a directory emptied of its entries counts as gone. */
  datatype Disk = Disk(
    live: Option<Content>, staged: Option<Content>, backup: Option<Content>, marker: bool, tree: bool)
  {
    /** No swap has begun on these names. */
    predicate Untouched() {
      backup.None? && !marker
    }

    /** Staged entries that a failed removal has left are in the way of a rename. */
    predicate Blocked() {
      tree && staged.Some?
    }
  }

  /** What the process remembers about its own apply. */
  datatype Memory = Memory(hadLive: bool, absent: bool, installed: bool)

  const NOTHING: Memory := Memory(false, false, false)

  /** The step of an apply that fails, if any. A failed recursive removal may
      have removed part of the tree, so it names what is left. */
  datatype Fault =
    | NoFault
    | Inspect
    | Compare
    | RemoveDuplicate(left: Option<Content>)
    | MoveAside
    | CreateMarker
    | CloseMarker
    | Install

  datatype RollbackFault = RollbackWorks | Demote | Return | DropMarker

  datatype Verdict = Applied | Failed | ManualRollback

  datatype Outcome = Outcome(disk: Disk, memory: Memory, verdict: Verdict)

  datatype Undoing = Undoing(disk: Disk, ok: bool)

  // ---------------------------------------------------------------- outcomes

  /** Apply on names that an earlier process had already started to swap. */
  function ResumeOutcome(d: Disk, m: Memory, fault: Fault): Outcome {
    var seen := m.(hadLive := d.backup.Some?, absent := d.marker);
    if d.staged.None? then
      if d.live.None? then Outcome(d, m, ManualRollback)
      else Outcome(d, seen.(installed := true), Applied)
    else if d.live.Some? then
      if fault.Compare? || d.live != d.staged then Outcome(d, m, ManualRollback)
      else if fault.RemoveDuplicate? then
        Outcome(d.(staged := fault.left), seen.(installed := true), ManualRollback)
      else Outcome(d.(staged := None), seen.(installed := true), Applied)
    else if fault.Install? then Outcome(d, seen, Failed)
    else Outcome(d.(live := d.staged, staged := None), seen.(installed := true), Applied)
  }

  /** Put the staged tree in place once the live name is free. */
  function InstallOutcome(d: Disk, m: Memory, fault: Fault): Outcome {
    if d.staged.None? then Outcome(d, m, Applied)
    else if fault.Install? then Outcome(d, m, Failed)
    else Outcome(d.(live := d.staged, staged := None), m.(installed := true), Applied)
  }

  /** Apply on names no swap has touched. */
  function FreshOutcome(d: Disk, m: Memory, fault: Fault): Outcome {
    if d.live.Some? then
      if fault.MoveAside? then Outcome(d, m, Failed)
      else InstallOutcome(d.(live := None, backup := d.live), m.(hadLive := true), fault)
    else if d.staged.Some? then
      if fault.CreateMarker? then Outcome(d, m, Failed)
      else if fault.CloseMarker? then Outcome(d.(marker := true), m.(absent := true), Failed)
      else InstallOutcome(d.(marker := true), m.(absent := true), fault)
    else Outcome(d, m, Applied)
  }

  function ApplyOutcome(d: Disk, m: Memory, fault: Fault): Outcome {
    if fault.Inspect? then Outcome(d, m, Failed)
    else if d.backup.Some? && d.marker then Outcome(d, m, ManualRollback)
    else if d.Untouched() then FreshOutcome(d, m, fault)
    else ResumeOutcome(d, m, fault)
  }

  function RollbackOutcome(d: Disk, m: Memory, fault: RollbackFault): Undoing {
    if m.installed && (fault.Demote? || d.live.None? || d.Blocked()) then Undoing(d, false)
    else
      var e := if m.installed then d.(live := None, staged := d.live) else d;
      if m.hadLive then
        if fault.Return? || e.backup.None? then Undoing(e, false)
        else Undoing(e.(live := e.backup, backup := None), true)
      else if m.absent && fault.DropMarker? then Undoing(e, false)
      else Undoing(e.(marker := e.marker && !m.absent), true)
  }

  /** What a rollback that meets no failure leaves behind. */
  function Undone(d: Disk, m: Memory): Disk {
    RollbackOutcome(d, m, RollbackWorks).disk
  }

  /** What has to work for an apply to report success. On names an earlier process had touched it
      also takes staged and live content that agree, or only one of them. */
  lemma AppliedIff(d: Disk, fault: Fault)
    ensures ApplyOutcome(d, NOTHING, fault).verdict.Applied? <==>
            && !fault.Inspect? && !(d.backup.Some? && d.marker)
            && if d.backup.None? && !d.marker then
                 && (d.live.Some? ==> !fault.MoveAside?)
                 && (d.live.None? && d.staged.Some? ==> !fault.CreateMarker? && !fault.CloseMarker?)
                 && (d.staged.Some? ==> !fault.Install?)
               else if d.staged.None? then d.live.Some?
               else if d.live.None? then !fault.Install?
               else d.live == d.staged && !fault.Compare? && !fault.RemoveDuplicate?
  {
  }

  /** A manual rollback is called for exactly when both a backup and a marker are found, or when an
      earlier process had begun and what is staged cannot be told to be live, or removed. */
  lemma ManualRollbackIff(d: Disk, fault: Fault)
    ensures ApplyOutcome(d, NOTHING, fault).verdict.ManualRollback? <==>
            && !fault.Inspect?
            && (|| (d.backup.Some? && d.marker)
                || ((d.backup.Some? || d.marker)
                    && (|| (d.staged.None? && d.live.None?)
                        || (d.staged.Some? && d.live.Some?
                            && (fault.Compare? || fault.RemoveDuplicate? || d.live != d.staged)))))
    ensures d.backup.Some? && d.marker ==>
              ApplyOutcome(d, NOTHING, fault).disk == d && ApplyOutcome(d, NOTHING, fault).memory == NOTHING
  {
  }

  /** A rollback succeeds exactly when each remembered step can be taken back: what was installed
      is there to go back to the staged name, which no entries block, what was set aside is there to
      come back, and a marker can be removed. It leaves what was installed staged again. */
  lemma RolledBackIff(d: Disk, m: Memory, fault: RollbackFault)
    ensures RollbackOutcome(d, m, fault).ok <==>
            && (m.installed ==> !fault.Demote? && d.live.Some? && (d.tree ==> d.staged.None?))
            && (m.hadLive ==> !fault.Return? && d.backup.Some?)
            && (!m.hadLive && m.absent ==> !fault.DropMarker?)
    ensures RollbackOutcome(d, m, fault).ok ==>
              var after := RollbackOutcome(d, m, fault).disk;
              && after.staged == (if m.installed then d.live else d.staged)
              && after.live == (if m.hadLive then d.backup else if m.installed then None else d.live)
              && after.backup == (if m.hadLive then None else d.backup)
              && after.marker == (d.marker && (m.hadLive || !m.absent))
  {
  }

  // ------------------------------------------------------------ the swap itself

  class RestorePathSwap {
    var disk: Disk
    var hadLive: bool
    var absent: bool
    var installed: bool

    function Remembered(): Memory
      reads this
    {
      Memory(hadLive, absent, installed)
    }

    constructor (names: Disk)
      ensures disk == names && Remembered() == NOTHING
    {
      disk := names;
      hadLive, absent, installed := false, false, false;
    }

    method Apply(fault: Fault) returns (verdict: Verdict)
      modifies this
      ensures Outcome(disk, Remembered(), verdict) == ApplyOutcome(old(disk), old(Remembered()), fault)
      // A failure on untouched names always leaves a memory that undoes exactly what was done.
      ensures old(disk.Untouched()) && old(Remembered()) == NOTHING ==>
                && !verdict.ManualRollback?
                && RollbackOutcome(disk, Remembered(), RollbackWorks) == Undoing(old(disk), true)
      ensures old(disk.Untouched()) && fault.NoFault? ==> verdict.Applied?
      ensures old(disk.Untouched()) && verdict.Applied? ==>
                && disk.live == old(disk.staged)
                && disk.backup == old(disk.live)
                && disk.staged.None?
                && disk.marker == (old(disk.live).None? && old(disk.staged).Some?)
    {
      if fault.Inspect? {
        return Failed;
      }
      var backupExists, liveExists, stagedExists := disk.backup.Some?, disk.live.Some?, disk.staged.Some?;
      var markerExists := disk.marker;
      if backupExists && markerExists {
        return ManualRollback;
      }
      if backupExists || markerExists {
        if !stagedExists {
          if !liveExists {
            return ManualRollback;
          }
          hadLive, absent, installed := backupExists, markerExists, true;
          return Applied;
        }
        if liveExists {
          if fault.Compare? || disk.live != disk.staged {
            return ManualRollback;
          }
          hadLive, absent, installed := backupExists, markerExists, true;
          if fault.RemoveDuplicate? {
            disk := disk.(staged := fault.left);
            return ManualRollback;
          }
          disk := disk.(staged := None);
          return Applied;
        }
        hadLive, absent := backupExists, markerExists;
        if fault.Install? {
          return Failed;
        }
        disk := disk.(live := disk.staged, staged := None);
        installed := true;
        return Applied;
      }
      if liveExists {
        if fault.MoveAside? {
          return Failed;
        }
        disk := disk.(live := None, backup := disk.live);
        hadLive := true;
      } else if stagedExists {
        if fault.CreateMarker? {
          return Failed;
        }
        disk := disk.(marker := true);
        absent := true;
        if fault.CloseMarker? {
          return Failed;
        }
      }
      if stagedExists {
        if fault.Install? {
          return Failed;
        }
        disk := disk.(live := disk.staged, staged := None);
        installed := true;
      }
      return Applied;
    }

    method Rollback(fault: RollbackFault) returns (ok: bool)
      modifies this`disk
      ensures Undoing(disk, ok) == RollbackOutcome(old(disk), Remembered(), fault)
      ensures ok ==> disk == Undone(old(disk), Remembered())
    {
      if installed {
        if fault.Demote? || disk.live.None? || disk.Blocked() {
          return false;
        }
        disk := disk.(live := None, staged := disk.live);
      }
      if hadLive {
        if fault.Return? || disk.backup.None? {
          return false;
        }
        disk := disk.(live := disk.backup, backup := None);
        return true;
      }
      if absent {
        if fault.DropMarker? {
          return false;
        }
        disk := disk.(marker := false);
      }
      return true;
    }
  }

  // ---------------------------------------------------- runs with crashes in them

  /** The names on disk, the memory of an attempt this process has made, and
      whether this process has finished staging. */
  datatype Process = Process(disk: Disk, memory: Option<Memory>, ready: bool)

  datatype Event =
    | PartlyStaged(left: Option<Content>)  // a staging that has not finished
    | Staged                               // the archive's content is in place
    | Attempt(fault: Fault)                // apply, stopped at a step or complete
    | Undo(undoFault: RollbackFault)       // roll back by this process's memory
    | Crash                                // memory is lost

  /** One event of a run that restores `target` (nothing, for a path the archive
      does not hold). Staging precedes an attempt in every process, a process
      attempts once, and it rolls back at most once. A crash before some step is
      an attempt or an undo that fails at that step, followed by `Crash`. */
  function Step(p: Process, target: Option<Content>, e: Event): Process {
    match e
    case PartlyStaged(left) =>
      if p.memory.Some? then p else p.(disk := p.disk.(staged := left), ready := false)
    case Staged =>
      if p.memory.Some? then p else p.(disk := p.disk.(staged := target), ready := true)
    case Attempt(fault) =>
      if p.memory.Some? || !p.ready then p
      else var o := ApplyOutcome(p.disk, NOTHING, fault); Process(o.disk, Some(o.memory), false)
    case Undo(fault) =>
      if p.memory.None? then p
      else Process(RollbackOutcome(p.disk, p.memory.value, fault).disk, None, false)
    case Crash => Process(p.disk, None, false)
  }

  /** Until staging has finished a process does not attempt anything, and what it has staged is
      whatever it was stopped at. */
  lemma PartlyStagedIsNotReady(p: Process, target: Option<Content>, left: Option<Content>, fault: Fault)
    requires p.memory.None?
    ensures var after := Step(p, target, PartlyStaged(left));
            && after.disk == p.disk.(staged := left) && !after.ready
            && Step(after, target, Attempt(fault)) == after
            && Step(after, target, Staged) == Process(p.disk.(staged := target), None, true)
  {
  }

  function Run(p: Process, target: Option<Content>, events: seq<Event>): Process
    decreases |events|
  {
    if events == [] then p
    else Step(Run(p, target, events[..|events| - 1]), target, events[|events| - 1])
  }

  /** The original is never lost: it is live, or it is at the backup name, or it
      was nothing and the marker says so. Only the restored content ever takes
      its place. */
  predicate Recoverable(d: Disk, original: Option<Content>, target: Option<Content>) {
    && !(d.backup.Some? && d.marker)
    && (d.Untouched() ==> d.live == original)
    && (d.backup.Some? ==> d.backup == original)
    && (d.marker ==> original.None?)
    && (!d.Untouched() ==> d.live.None? || d.live == target)
  }

  /** The memory is empty, or it describes the names exactly. */
  predicate Describes(m: Memory, d: Disk) {
    m == NOTHING
    || (m.hadLive == d.backup.Some? && m.absent == d.marker && m.installed == d.live.Some? && !d.Untouched())
  }

  predicate Consistent(p: Process, original: Option<Content>, target: Option<Content>) {
    && Recoverable(p.disk, original, target)
    && (p.ready ==> p.disk.staged == target && p.memory.None?)
    && (p.memory.Some? ==> Describes(p.memory.value, p.disk))
  }

  predicate Starting(p: Process, original: Option<Content>) {
    p.disk.Untouched() && p.disk.live == original && p.memory.None? && !p.ready
  }

  lemma StepKeepsConsistent(p: Process, original: Option<Content>, target: Option<Content>, e: Event)
    requires Consistent(p, original, target)
    ensures Consistent(Step(p, target, e), original, target) && Step(p, target, e).disk.tree == p.disk.tree
  {
  }

  /** Over every run, the original content survives. */
  lemma {:induction false} OriginalSurvives(
    p: Process, original: Option<Content>, target: Option<Content>, events: seq<Event>)
    requires Starting(p, original)
    ensures Consistent(Run(p, target, events), original, target)
    ensures Recoverable(Run(p, target, events).disk, original, target)
    ensures Run(p, target, events).disk.tree == p.disk.tree
    decreases |events|
  {
    if events != [] {
      var before := events[..|events| - 1];
      OriginalSurvives(p, original, target, before);
      StepKeepsConsistent(Run(p, target, before), original, target, events[|events| - 1]);
    }
  }

  /** Whatever went before, an attempt that returns success leaves exactly what
      one uninterrupted apply would have left. */
  lemma FinishedAttemptIsUncrashed(
    p: Process, original: Option<Content>, target: Option<Content>, events: seq<Event>, fault: Fault)
    requires Starting(p, original)
    requires Run(p, target, events).ready
    requires ApplyOutcome(Run(p, target, events).disk, NOTHING, fault).verdict.Applied?
    ensures ApplyOutcome(Run(p, target, events).disk, NOTHING, fault).disk
         == ApplyOutcome(Disk(original, target, None, false, p.disk.tree), NOTHING, NoFault).disk
  {
    OriginalSurvives(p, original, target, events);
  }

  /** The attempt got far enough to remember what an earlier process had done. */
  predicate Remembers(d: Disk, target: Option<Content>, fault: Fault) {
    d.Untouched() || (target.Some? && !fault.Inspect? && !(fault.Compare? && d.live.Some?))
  }

  /** A rollback that reports success restores the original state if and only if
      the attempt before it remembered the earlier process's work. */
  lemma RollbackRestoresIff(
    p: Process, original: Option<Content>, target: Option<Content>, events: seq<Event>,
    fault: Fault, undo: RollbackFault)
    requires Starting(p, original)
    requires Run(p, target, events).ready
    ensures var d := Run(p, target, events).disk;
            var o := ApplyOutcome(d, NOTHING, fault);
            var r := RollbackOutcome(o.disk, o.memory, undo);
            && (undo.RollbackWorks? ==> (r.ok <==> !(o.memory.installed && o.disk.Blocked())))
            && (r.ok ==> ((r.disk.Untouched() && r.disk.live == original) <==> Remembers(d, target, fault)))
  {
    OriginalSurvives(p, original, target, events);
  }

  /** The failing side is real: after a crash with restored data live, a plain
      inspection error makes the next process's rollback succeed without undoing
      anything, and without the error that would keep the lock. */
  lemma InspectionErrorHidesEarlierSwap()
    ensures var crashed := [Staged, Attempt(NoFault), Crash, Staged];
            var p := Run(Process(Disk(Some("old"), None, None, false, false), None, false), Some("new"), crashed);
            var o := ApplyOutcome(p.disk, NOTHING, Inspect);
            && o.verdict.Failed?
            && RollbackOutcome(o.disk, o.memory, RollbackWorks).ok
            && RollbackOutcome(o.disk, o.memory, RollbackWorks).disk.live == Some("new")
  {
    var p0 := Process(Disk(Some("old"), None, None, false, false), None, false);
    var t := Some("new");
    assert Run(p0, t, []) == p0;
    assert [Staged][..0] == [];
    assert Run(p0, t, [Staged]) == Step(p0, t, Staged);
    assert [Staged, Attempt(NoFault)][..1] == [Staged];
    assert [Staged, Attempt(NoFault), Crash][..2] == [Staged, Attempt(NoFault)];
    assert [Staged, Attempt(NoFault), Crash, Staged][..3] == [Staged, Attempt(NoFault), Crash];
  }

  /** Swaps the archive has no content for: once the live data has been moved
      aside, every later attempt asks for a manual rollback, whatever the fault
      beyond inspection. */
  lemma NothingStagedNeedsManualRollback(
    p: Process, original: Option<Content>, events: seq<Event>, fault: Fault)
    requires Starting(p, original)
    requires Run(p, None, events).ready && !fault.Inspect?
    ensures var d := Run(p, None, events).disk;
            ApplyOutcome(d, NOTHING, fault).verdict.ManualRollback? <==> !d.Untouched()
  {
    OriginalSurvives(p, original, None, events);
  }
}
