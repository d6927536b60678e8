/**
 Promotion of the restored ClickHouse database by renames, and its undoing
 (`promoteRestoreClickHouse`, `renameRestoreDatabaseObserved`,
 `rollbackRestoreClickHouse`).

 A rename request may succeed, be refused, or take effect although its response
 is lost. After an error the server is asked what exists, and that may fail too.
 */
module RestoreDatabases {
  import opened Common
  import opened RestoreSwap

  datatype Database = Current | Temporary | Previous

  type Catalog = map<Database, Content>

  datatype RenameFault = RenameWorks | ResponseLost | Refused

  /** How a rename went, as far as the caller can tell. */
  datatype Report = Done | Unchanged | Unclear

  /** Every answer the server gives during one promotion. */
  datatype Answers = Answers(
    inspectable: bool,            // the three existence queries before the first rename
    currentValid: bool,
    setAside: RenameFault,        // current to previous
    setAsideInspectable: bool,
    promote: RenameFault,         // temporary to current
    promoteInspectable: bool,
    promotedValid: bool)
  {
    /** Every query and every rename works. */
    predicate Smooth() {
      inspectable && currentValid && setAside.RenameWorks? && promote.RenameWorks? && promotedValid
    }
  }

  predicate Renameable(c: Catalog, source: Database, target: Database) {
    source in c && target !in c
  }

  function Renamed(c: Catalog, source: Database, target: Database): Catalog {
    if Renameable(c, source, target) then (c - {source})[target := c[source]] else c
  }

  /** The catalog after undoing the renames the two flags report. */
  function Demoted(c: Catalog, promoted: bool, oldRenamed: bool): Catalog {
    var kept := if promoted then Renamed(c, Current, Temporary) else c;
    if oldRenamed then Renamed(kept, Previous, Current) else kept
  }

  /** The renames the flags report can be made backwards. */
  predicate Undemotable(c: Catalog, promoted: bool, oldRenamed: bool) {
    && (promoted ==> Renameable(c, Current, Temporary))
    && (oldRenamed ==> Renameable(Demoted(c, promoted, false), Previous, Current))
  }

  function Lookup(c: Catalog, name: Database): Option<Content> {
    if name in c then Some(c[name]) else None
  }

  /** A possible rename that takes effect, and is seen to. */
  predicate Observed(fault: RenameFault, inspectable: bool) {
    fault.RenameWorks? || (!fault.Refused? && inspectable)
  }

  class ClickHouse {
    var catalog: Catalog

    constructor (initial: Catalog)
      ensures catalog == initial
    {
      catalog := initial;
    }

    /** One rename request. The result says whether the server reported success. */
    method Rename(source: Database, target: Database, fault: RenameFault) returns (ok: bool)
      modifies this
      ensures catalog == if fault.Refused? then old(catalog) else Renamed(old(catalog), source, target)
      ensures ok <==> fault.RenameWorks? && Renameable(old(catalog), source, target)
    {
      ok := fault.RenameWorks? && source in catalog && target !in catalog;
      if !fault.Refused? && source in catalog && target !in catalog {
        catalog := (catalog - {source})[target := catalog[source]];
      }
    }

    method RenameObserved(source: Database, target: Database, fault: RenameFault, inspectable: bool)
      returns (report: Report)
      requires source != target
      modifies this
      ensures catalog == if fault.Refused? then old(catalog) else Renamed(old(catalog), source, target)
      ensures Renameable(old(catalog), source, target) ==>
                && (report.Done? ==> catalog == Renamed(old(catalog), source, target))
                && (report.Unchanged? ==> catalog == old(catalog))
                && (report.Unclear? <==> !inspectable && !fault.RenameWorks?)
                && (report.Done? <==> Observed(fault, inspectable))
      ensures report.Unchanged? <==> Renameable(old(catalog), source, target) && fault.Refused? && inspectable
      // Without a renameable source, "target present, source gone" still reads as done.
      ensures !Renameable(old(catalog), source, target) ==>
                && catalog == old(catalog)
                && (report.Done? <==> inspectable && source !in catalog && target in catalog)
    {
      var ok := Rename(source, target, fault);
      if ok {
        return Done;
      }
      if !inspectable {
        return Unclear;
      }
      var sourceExists, targetExists := source in catalog, target in catalog;
      if !sourceExists && targetExists {
        return Done;
      }
      if sourceExists && !targetExists {
        return Unchanged;
      }
      return Unclear;
    }

    /** Promote the temporary database. The flags tell what a rollback must undo. */
    method Promote(answers: Answers) returns (promoted: bool, oldRenamed: bool, verdict: Verdict)
      modifies this
      // From a catalog with the temporary database present and the rollback name free, the flags
      // are the renames that happened.
      ensures Temporary in old(catalog) && Previous !in old(catalog) && !verdict.ManualRollback? ==>
                && (promoted <==> Temporary !in catalog)
                && (oldRenamed <==> Previous in catalog)
                && Undemotable(catalog, promoted, oldRenamed)
                && Demoted(catalog, promoted, oldRenamed) == old(catalog)
      // From any catalog, undoing by the flags of a failed promotion leaves it as it was.
      ensures verdict.Failed? ==> Demoted(catalog, promoted, oldRenamed) == old(catalog)
      ensures verdict.Applied? && Temporary in old(catalog) ==>
                && promoted && Previous !in old(catalog)
                && (oldRenamed <==> Current in old(catalog))
                && catalog == Renamed(Renamed(old(catalog), Current, Previous), Temporary, Current)
      ensures verdict.Applied? && Temporary !in old(catalog) ==>
                && promoted && oldRenamed && catalog == old(catalog)
                && Current in catalog && Previous in catalog
      ensures Temporary in old(catalog) && Previous in old(catalog) ==>
                verdict.Failed? && !promoted && !oldRenamed && catalog == old(catalog)
      // It takes every answer and every rename it needs, and nothing else.
      ensures verdict.Applied? <==>
                && answers.inspectable
                && if Temporary in old(catalog) then
                     && Previous !in old(catalog)
                     && (Current in old(catalog) ==>
                           answers.currentValid && Observed(answers.setAside, answers.setAsideInspectable))
                     && Observed(answers.promote, answers.promoteInspectable) && answers.promotedValid
                   else
                     Current in old(catalog) && Previous in old(catalog) && answers.currentValid
      // Only an unreadable outcome of a rename asks for a manual rollback.
      ensures verdict.ManualRollback? ==>
                && Temporary in old(catalog) && Previous !in old(catalog)
                && ((!answers.setAside.RenameWorks? && !answers.setAsideInspectable)
                    || (!answers.promote.RenameWorks? && !answers.promoteInspectable))
    {
      promoted, oldRenamed := false, false;
      if !answers.inspectable {
        return false, false, Failed;
      }
      var currentExists := Current in catalog;
      if Temporary !in catalog {
        if currentExists && Previous in catalog {
          if !answers.currentValid {
            return false, true, Failed;
          }
          return true, true, Applied;
        }
        return false, false, Failed;
      }
      if Previous in catalog {
        return false, false, Failed;
      }
      if currentExists {
        if !answers.currentValid {
          return false, false, Failed;
        }
        var aside := RenameObserved(Current, Previous, answers.setAside, answers.setAsideInspectable);
        if !aside.Done? {
          return false, false, if aside.Unclear? then ManualRollback else Failed;
        }
        oldRenamed := true;
      }
      var report := RenameObserved(Temporary, Current, answers.promote, answers.promoteInspectable);
      if !report.Done? {
        return false, oldRenamed, if report.Unclear? then ManualRollback else Failed;
      }
      return true, oldRenamed, if answers.promotedValid then Applied else Failed;
    }

    /** Undo a promotion. Success means that every reported rename was undone. */
    method RollbackPromotion(promoted: bool, oldRenamed: bool, demote: RenameFault, restore: RenameFault)
      returns (ok: bool)
      modifies this
      ensures ok ==> catalog == Demoted(old(catalog), promoted, oldRenamed)
      ensures ok <==>
                && Undemotable(old(catalog), promoted, oldRenamed)
                && (promoted ==> demote.RenameWorks?)
                && (oldRenamed ==> restore.RenameWorks?)
    {
      if promoted {
        ok := Rename(Current, Temporary, demote);
        if !ok {
          return;
        }
      }
      ok := true;
      if oldRenamed {
        ok := Rename(Previous, Current, restore);
      }
    }
  }
}
