/**
 The control TLS directory cutover of an online restore (`restoreTLSCutover`).

 Entries are moved one by one: every live entry into the backup directory, then
 every staged entry into the live directory. Entries whose name starts with
 "before-restore-" are the backups of earlier restores and stay where they are.
 The staging and backup directories of this job are kept apart from `root`.
 */
module RestoreTls {
  import opened Common
  import opened RestoreSwap

  type Tree = map<string, Content>

  datatype TlsFault =
    | TlsWorks
    | StatBackup
    | ReadStage
    | CompareEntries
    | CaptureBackup
    | CaptureLive
    | RemoveEntry(removed: nat)
    | MakeBackup
    | ReadRoot
    | MoveEntryAside(moved: nat)
    | InstallEntry(placed: nat)

  const KEPT_PREFIX := "before-restore-"

  predicate Kept(name: string) {
    KEPT_PREFIX <= name
  }

  /** The names the backups of restores are given. */
  lemma KeptIff(name: string)
    ensures Kept(name) <==> |name| >= 15 && name[..15] == "before-restore-"
  {
  }

  /** The names of a directory that a cutover moves. */
  function Movable(root: Tree): set<string> {
    set name | name in root && !Kept(name)
  }

  /** The live directory after moving `aside` away and installing `placed`. */
  function InstalledTree(root: Tree, stage: Tree, aside: set<string>, placed: set<string>): Tree {
    (root - aside) + Restrict(stage, placed)
  }

  /** The live directory after a rollback by the recorded names. */
  function UndoneTree(root: Tree, backup: Tree, aside: set<string>, placed: set<string>): Tree {
    (root - placed) + Restrict(backup, aside)
  }

  /** No staged entry takes the name of an earlier restore's backup. */
  predicate NoCollision(root: Tree, stage: Tree) {
    forall name <- stage :: name in root ==> !Kept(name)
  }

  /** Live and staged entries agree, and no other movable entry is live. */
  predicate LiveMatchesStage(root: Tree, stage: Tree) {
    && (forall name <- stage :: name in root && root[name] == stage[name])
    && Movable(root) <= stage.Keys
  }

  /** The three directories of a cutover; the backup may not exist. */
  datatype Directory = Directory(root: Tree, stage: Tree, backup: Option<Tree>)
  {
    function Aside(): Tree {
      if backup.Some? then backup.value else map[]
    }

    /** What re-entry asks for: nothing is staged, or live and staged entries agree. */
    predicate Acceptable() {
      stage == map[] || LiveMatchesStage(root, stage)
    }
  }

  /** The entries an attempt remembers having moved. */
  datatype Names = Names(backedUp: set<string>, installed: set<string>)

  const NO_NAMES: Names := Names({}, {})

  /** How an attempt goes, whatever the order of the listings. */
  datatype Course =
    | Complete
    | CannotInspect                                      // the backup directory
    | CannotBegin
    | StopsAt(aside: set<string>, placed: set<string>)   // a fresh cutover, after these entries
    | Refuses                                            // re-entry, before anything is remembered
    | RefusesHalfway                                     // re-entry, with half of it remembered
    | StopsRemoving(removed: set<string>)                // re-entry, after these duplicates

  /** Entries are installed only once every movable one is aside. */
  predicate Fits(d: Directory, course: Course) {
    match course
    case StopsAt(aside, placed) =>
      aside <= Movable(d.root) && placed <= d.stage.Keys && (placed != {} ==> aside == Movable(d.root))
    case _ => true
  }

  datatype TlsOutcome = TlsOutcome(dir: Directory, names: Names, verdict: Verdict)

  function MovedOutcome(d: Directory, aside: set<string>, placed: set<string>, verdict: Verdict): TlsOutcome {
    TlsOutcome(Directory(InstalledTree(d.root, d.stage, aside, placed), d.stage - placed, Some(Restrict(d.root, aside))),
               Names(aside, placed), verdict)
  }

  function ReentryOutcome(d: Directory, course: Course): TlsOutcome {
    var names := Names(d.Aside().Keys, Movable(d.root));
    if course.Refuses? || !d.Acceptable() then TlsOutcome(d, NO_NAMES, ManualRollback)
    else if course.RefusesHalfway? then TlsOutcome(d, Names(d.Aside().Keys, {}), ManualRollback)
    else if course.StopsRemoving? then TlsOutcome(d.(stage := d.stage - course.removed), names, ManualRollback)
    else TlsOutcome(d.(stage := map[]), names, Applied)
  }

  function AttemptOutcome(d: Directory, course: Course): TlsOutcome {
    if course.CannotInspect? then TlsOutcome(d, NO_NAMES, Failed)
    else if d.backup.Some? then ReentryOutcome(d, course)
    else if course.CannotBegin? then TlsOutcome(d, NO_NAMES, Failed)
    else if course.StopsAt? then MovedOutcome(d, course.aside, course.placed, Failed)
    else MovedOutcome(d, Movable(d.root), d.stage.Keys, Applied)
  }

  /** What a rollback that cannot move the stuck entries (a rename onto a tree that is in the
      way is refused) leaves behind. An emptied backup directory goes if it can be removed. */
  function ReturnedDirectory(d: Directory, names: Names, stuckLive: set<string>, stuckAside: set<string>, removable: bool)
    : Directory
  {
    var live, back := names.installed - stuckLive, names.backedUp - stuckAside;
    var left := d.Aside() - back;
    Directory(UndoneTree(d.root, d.Aside(), back, live), d.stage + Restrict(d.root, live),
              if d.backup.None? || (Unstuck(names, stuckLive, stuckAside) && removable && left == map[]) then None
              else Some(left))
  }

  predicate Unstuck(names: Names, stuckLive: set<string>, stuckAside: set<string>) {
    names.installed !! stuckLive && names.backedUp !! stuckAside
  }

  method ReadDir(tree: Tree) returns (names: seq<string>)
    ensures Elements(names) == tree.Keys && NoDuplicates(names)
  {
    names := [];
    var left := tree.Keys;
    while left != {}
      invariant left <= tree.Keys
      invariant forall n :: n in tree.Keys <==> n in left || n in names
      invariant forall n <- left :: n !in names
      invariant NoDuplicates(names)
      decreases |left|
    {
      var name :| name in left;
      names := names + [name];
      left := left - {name};
    }
  }

  /** A listing without the entries a cutover leaves alone. */
  method ReadMovable(tree: Tree) returns (names: seq<string>)
    ensures Elements(names) == Movable(tree) && NoDuplicates(names)
  {
    var entries := ReadDir(tree);
    names := [];
    var i := 0;
    while i < |entries|
      invariant 0 <= i <= |entries|
      invariant forall n :: n in names <==> n in entries[..i] && !Kept(n)
      invariant NoDuplicates(names)
    {
      if !Kept(entries[i]) {
        names := names + [entries[i]];
      }
      i := i + 1;
    }
    assert entries[..i] == entries;
    assert forall n :: n in entries <==> n in tree.Keys by {
      assert forall n :: n in entries <==> n in Elements(entries);
    }
  }

  class RestoreTlsCutover {
    var root: Tree
    var stage: Tree
    var backup: Option<Tree>  // none while the backup directory does not exist
    var backedUp: seq<string>
    var installed: seq<string>

    function Now(): Directory
      reads this
    {
      Directory(root, stage, backup)
    }

    function Aside(): Tree
      reads this
    {
      Now().Aside()
    }

    ghost function Recorded(): Names
      reads this
    {
      Names(Elements(backedUp), Elements(installed))
    }

    /** The recorded names are the entries that have really moved. */
    ghost predicate Valid()
      reads this
    {
      && NoDuplicates(backedUp) && NoDuplicates(installed)
      && Elements(backedUp) <= Aside().Keys
      && Elements(installed) <= root.Keys
    }

    ghost function UndoneRoot(): Tree
      reads this
    {
      UndoneTree(root, Aside(), Elements(backedUp), Elements(installed))
    }

    /** The failing step of a fresh cutover has been reached. */
    ghost predicate StoppedBy(fault: TlsFault, before: Directory)
      reads this
    {
      match fault
      case MakeBackup => true
      case ReadRoot => true
      case ReadStage => true
      case MoveEntryAside(moved) => |backedUp| == moved && Elements(backedUp) != Movable(before.root)
      case InstallEntry(placed) => |installed| == placed && Elements(installed) != before.stage.Keys
      case _ => false
    }

    /** No entry is moved after one that cannot be. */
    ghost predicate NeverPast(fault: TlsFault)
      reads this
    {
      && (fault.MoveEntryAside? ==> |backedUp| <= fault.moved)
      && (fault.InstallEntry? ==> |installed| <= fault.placed)
    }

    constructor (live: Tree, staged: Tree, earlier: Option<Tree>)
      ensures Valid() && root == live && stage == staged && backup == earlier
      ensures backedUp == [] && installed == []
    {
      root, stage, backup := live, staged, earlier;
      backedUp, installed := [], [];
    }

    method Apply(fault: TlsFault) returns (verdict: Verdict, ghost course: Course)
      requires Valid() && backedUp == [] && installed == []
      modifies this
      ensures Valid()
      ensures Fits(old(Now()), course)
      ensures TlsOutcome(Now(), Recorded(), verdict) == AttemptOutcome(old(Now()), course)
      ensures fault.TlsWorks? ==> course.Complete?
      ensures fault.StatBackup? <==> course.CannotInspect?
      ensures old(backup).None? ==> !verdict.ManualRollback?
      // Exactly what has to work, one way in and the other.
      ensures old(backup).None? ==> (verdict.Applied? <==> !fault.StatBackup? && !StoppedBy(fault, old(Now())))
      ensures old(backup).None? ==> NeverPast(fault)
      ensures old(backup).Some? ==>
                (verdict.Applied? <==>
                  && !fault.StatBackup? && !fault.ReadStage? && !fault.CaptureBackup? && !fault.CaptureLive?
                  && (old(stage) == map[] || (!fault.CompareEntries? && LiveMatchesStage(old(root), old(stage))))
                  && !(fault.RemoveEntry? && fault.removed < |old(stage)|))
      ensures old(backup).Some? && !verdict.Applied? && !fault.StatBackup? ==> verdict.ManualRollback?
    {
      if fault.StatBackup? {
        return Failed, CannotInspect;
      }
      if backup.Some? {
        verdict, course := Resume(fault);
        return;
      }
      verdict, course := Begin(fault);
    }

    /** Nothing of this job is there yet: make the backup directory and move entry by entry. */
    method Begin(fault: TlsFault) returns (verdict: Verdict, ghost course: Course)
      requires Valid() && backup.None? && backedUp == [] && installed == []
      modifies this
      ensures Valid()
      ensures Fits(old(Now()), course) && !course.CannotInspect?
      ensures TlsOutcome(Now(), Recorded(), verdict) == AttemptOutcome(old(Now()), course)
      ensures fault.TlsWorks? ==> course.Complete?
      ensures !verdict.ManualRollback?
      ensures verdict.Applied? <==> !StoppedBy(fault, old(Now()))
      ensures NeverPast(fault)
    {
      if fault.MakeBackup? {
        return Failed, CannotBegin;
      }
      backup := Some(map[]);
      if fault.ReadRoot? {
        assert InstalledTree(root, stage, {}, {}) == root;
        return Failed, StopsAt({}, {});
      }
      verdict := MoveAllAside(fault);
      if verdict.Applied? {
        verdict := InstallAll(fault);
      } else {
        PlaceNothing(root, stage);
      }
      course := if verdict.Applied? then Complete else StopsAt(Elements(backedUp), Elements(installed));
    }

    /** An earlier process left the backup directory. Whatever it had moved, this accepts an
        empty stage or live entries that agree with the staged ones, and remembers every entry
        set aside and every movable live one. */
    method Resume(fault: TlsFault) returns (verdict: Verdict, ghost course: Course)
      requires Valid() && backup.Some? && backedUp == [] && installed == []
      modifies this
      ensures Valid() && root == old(root) && backup == old(backup)
      ensures Fits(old(Now()), course) && !course.CannotInspect?
      ensures TlsOutcome(Now(), Recorded(), verdict) == ReentryOutcome(old(Now()), course)
      ensures fault.TlsWorks? ==> course.Complete?
      ensures verdict.Applied? <==>
                && !fault.ReadStage? && !fault.CaptureBackup? && !fault.CaptureLive?
                && (old(stage) == map[] || (!fault.CompareEntries? && LiveMatchesStage(root, old(stage))))
                && !(fault.RemoveEntry? && fault.removed < |old(stage)|)
      ensures !verdict.Applied? ==> verdict.ManualRollback?
    {
      if fault.ReadStage? {
        return ManualRollback, Refuses;
      }
      var staged := ReadDir(stage);
      if stage != map[] {
        if fault.CompareEntries? {
          return ManualRollback, Refuses;
        }
        if !LiveMatchesStage(root, stage) {
          return ManualRollback, Complete;
        }
      }
      if fault.CaptureBackup? {
        return ManualRollback, Refuses;
      }
      backedUp := ReadDir(backup.value);
      if fault.CaptureLive? {
        return ManualRollback, RefusesHalfway;
      }
      installed := ReadMovable(root);
      ghost var removed;
      verdict, removed := RemoveStaged(staged, fault);
      course := if verdict.Applied? then Complete else StopsRemoving(removed);
    }

    method RemoveStaged(staged: seq<string>, fault: TlsFault) returns (verdict: Verdict, ghost removed: set<string>)
      requires Elements(staged) == stage.Keys && NoDuplicates(staged)
      modifies this`stage
      ensures stage == old(stage) - removed
      ensures verdict.Applied? <==> !(fault.RemoveEntry? && fault.removed < |old(stage)|)
      ensures verdict.Applied? ==> stage == map[]
      ensures !verdict.Applied? ==> verdict.ManualRollback?
    {
      CountListing(staged, stage.Keys);
      ghost var before := stage;
      removed := {};
      var i := 0;
      while i < |staged|
        invariant 0 <= i <= |staged|
        invariant stage == before - removed && removed == Elements(staged[..i])
        invariant fault.RemoveEntry? ==> i <= fault.removed
      {
        if fault.RemoveEntry? && fault.removed == i {
          verdict := ManualRollback;
          return;
        }
        ListingStep(staged, i);
        MoveStep(before, removed, staged[i]);
        stage := stage - {staged[i]};
        removed := removed + {staged[i]};
        i := i + 1;
      }
      assert staged[..i] == staged;
      verdict := Applied;
    }

    method MoveAllAside(fault: TlsFault) returns (verdict: Verdict)
      requires backup == Some(map[]) && backedUp == [] && installed == []
      modifies this`root, this`backup, this`backedUp
      ensures !verdict.ManualRollback? && backup.Some? && NoDuplicates(backedUp)
      ensures Elements(backedUp) <= Movable(old(root))
      ensures root == old(root) - Elements(backedUp)
      ensures backup.value == Restrict(old(root), Elements(backedUp))
      ensures verdict.Applied? ==> Elements(backedUp) == Movable(old(root))
      ensures fault.MoveEntryAside? ==> |backedUp| <= fault.moved
      ensures verdict.Failed? ==>
                fault.MoveEntryAside? && |backedUp| == fault.moved && Elements(backedUp) != Movable(old(root))
    {
      ghost var before := root;
      var entries := ReadMovable(root);
      var i := 0;
      while i < |entries|
        invariant 0 <= i <= |entries|
        invariant backedUp == entries[..i] && backup.Some?
        invariant root == before - Elements(backedUp)
        invariant backup.value == Restrict(before, Elements(backedUp))
        invariant fault.MoveEntryAside? ==> i <= fault.moved
      {
        ListingStep(entries, i);
        if fault.MoveEntryAside? && fault.moved == i {
          return Failed;
        }
        var name := entries[i];
        MoveStep(before, Elements(backedUp), name);
        backup := Some(backup.value[name := root[name]]);
        root := root - {name};
        backedUp := backedUp + [name];
        i := i + 1;
      }
      assert entries[..i] == entries;
      return Applied;
    }

    method InstallAll(fault: TlsFault) returns (verdict: Verdict)
      requires installed == []
      modifies this`root, this`stage, this`installed
      ensures !verdict.ManualRollback? && NoDuplicates(installed)
      ensures Elements(installed) <= old(stage).Keys
      ensures root == old(root) + Restrict(old(stage), Elements(installed))
      ensures stage == old(stage) - Elements(installed)
      ensures verdict.Applied? ==> Elements(installed) == old(stage).Keys && !fault.ReadStage?
      ensures fault.InstallEntry? ==> |installed| <= fault.placed
      ensures verdict.Failed? && !fault.ReadStage? ==>
                fault.InstallEntry? && |installed| == fault.placed && Elements(installed) != old(stage).Keys
    {
      PlaceNothing(root, stage);
      if fault.ReadStage? {
        return Failed;
      }
      var staged := ReadDir(stage);
      verdict := InstallListed(staged, fault);
    }

    method InstallListed(staged: seq<string>, fault: TlsFault) returns (verdict: Verdict)
      requires installed == [] && Elements(staged) == stage.Keys && NoDuplicates(staged)
      modifies this`root, this`stage, this`installed
      ensures !verdict.ManualRollback? && NoDuplicates(installed) && installed <= staged
      ensures root == old(root) + Restrict(old(stage), Elements(installed))
      ensures stage == old(stage) - Elements(installed)
      ensures verdict.Applied? ==> installed == staged
      ensures fault.InstallEntry? ==> |installed| <= fault.placed
      ensures verdict.Failed? ==>
                fault.InstallEntry? && |installed| == fault.placed < |staged| && staged[|installed|] !in installed
    {
      ghost var from, before := stage, root;
      PlaceNothing(root, stage);
      var i := 0;
      while i < |staged|
        invariant 0 <= i <= |staged|
        invariant installed == staged[..i]
        invariant stage == from - Elements(installed)
        invariant root == before + Restrict(from, Elements(installed))
        invariant fault.InstallEntry? ==> i <= fault.placed
      {
        ListingStep(staged, i);
        if fault.InstallEntry? && fault.placed == i {
          return Failed;
        }
        var name := staged[i];
        MoveStep(from, Elements(installed), name);
        PlaceStep(before, from, Elements(installed), name);
        root := root[name := stage[name]];
        stage := stage - {name};
        installed := installed + [name];
        i := i + 1;
      }
      return Applied;
    }

    /** Undo by the recorded names. A failed move is reported and the rest goes on. */
    method Rollback(stuckLive: set<string>, stuckAside: set<string>, removable: bool) returns (ok: bool)
      requires Valid()
      modifies this`root, this`stage, this`backup
      ensures Now() == ReturnedDirectory(old(Now()), Recorded(), stuckLive, stuckAside, removable)
      ensures ok <==> Unstuck(Recorded(), stuckLive, stuckAside)
      ensures ok <==> && (forall name <- old(installed) :: name !in stuckLive)
                      && (forall name <- old(backedUp) :: name !in stuckAside)
      ensures ok ==> root == old(UndoneRoot())
      ensures backup.None? <==>
                old(backup).None? || (ok && removable && forall name <- old(Aside()) :: name in old(backedUp))
    {
      var uninstalled := UninstallAll(stuckLive);
      var returned := ReturnAll(stuckAside);
      ok := uninstalled && returned;
      assert uninstalled <==> forall name <- installed :: name !in stuckLive;
      assert returned <==> forall name <- backedUp :: name !in stuckAside;
      if ok {
        assert Elements(backedUp) - stuckAside == Elements(backedUp);
        assert Elements(installed) - stuckLive == Elements(installed);
        EmptiedIff(old(Aside()), backedUp);
        if backup == Some(map[]) && removable {
          backup := None;
        }
      }
    }

    method UninstallAll(stuck: set<string>) returns (ok: bool)
      requires Valid()
      modifies this`root, this`stage
      ensures root == old(root) - (Elements(installed) - stuck)
      ensures stage == old(stage) + Restrict(old(root), Elements(installed) - stuck)
      ensures ok <==> Elements(installed) !! stuck
    {
      ok := true;
      ghost var before, staged := root, stage;
      ghost var done: set<string> := {};
      var i := |installed|;
      while i > 0
        invariant 0 <= i <= |installed|
        invariant done == Elements(installed[i..]) - stuck
        invariant root == before - done && stage == staged + Restrict(before, done)
        invariant ok <==> Elements(installed[i..]) !! stuck
      {
        i := i - 1;
        var name := installed[i];
        ListingStepBack(installed, i);
        if name in stuck {
          ok := false;
        } else {
          MoveStep(before, done, name);
          PlaceStep(staged, before, done, name);
          stage := stage[name := root[name]];
          root := root - {name};
          done := done + {name};
        }
      }
      assert installed[0..] == installed;
    }

    method ReturnAll(stuck: set<string>) returns (ok: bool)
      requires NoDuplicates(backedUp) && Elements(backedUp) <= Aside().Keys
      modifies this`root, this`backup
      ensures root == old(root) + Restrict(old(Aside()), Elements(backedUp) - stuck)
      ensures Aside() == old(Aside()) - (Elements(backedUp) - stuck)
      ensures backup.Some? <==> old(backup).Some?
      ensures ok <==> Elements(backedUp) !! stuck
    {
      ok := true;
      ghost var before, from := root, Aside();
      ghost var done: set<string> := {};
      var i := |backedUp|;
      while i > 0
        invariant 0 <= i <= |backedUp|
        invariant done == Elements(backedUp[i..]) - stuck
        invariant root == before + Restrict(from, done) && Aside() == from - done
        invariant backup.Some? <==> old(backup).Some?
        invariant ok <==> Elements(backedUp[i..]) !! stuck
      {
        i := i - 1;
        var name := backedUp[i];
        ListingStepBack(backedUp, i);
        if name in stuck {
          ok := false;
        } else {
          MoveStep(from, done, name);
          PlaceStep(before, from, done, name);
          root := root[name := Aside()[name]];
          backup := Some(Aside() - {name});
          done := done + {name};
        }
      }
      assert backedUp[0..] == backedUp;
    }
  }

  /** Moving one more entry out of a directory. */
  lemma MoveStep(from: Tree, done: set<string>, name: string)
    requires name in from && name !in done
    ensures (from - done)[name] == from[name]
    ensures (from - done) - {name} == from - (done + {name})
    ensures Restrict(from, done + {name}) == Restrict(from, done)[name := from[name]]
  {
  }

  /** Placing one more entry in a directory. */
  lemma PlaceStep(into: Tree, from: Tree, done: set<string>, name: string)
    requires name in from && name !in done
    ensures (into + Restrict(from, done))[name := from[name]] == into + Restrict(from, done + {name})
  {
    MoveStep(from, done, name);
    var placed, wanted := (into + Restrict(from, done))[name := from[name]], into + Restrict(from, done + {name});
    assert placed.Keys == wanted.Keys;
    assert forall n <- placed :: placed[n] == wanted[n];
  }

  lemma EmptiedIff(from: Tree, names: seq<string>)
    ensures from - Elements(names) == map[] <==> forall name <- from :: name in names
  {
    if forall name <- from :: name in names {
      assert (from - Elements(names)).Keys == {};
    } else {
      var name :| name in from && name !in names;
      assert name in from - Elements(names);
    }
  }

  lemma PlaceNothing(into: Tree, from: Tree)
    ensures into + Restrict(from, {}) == into && from - {} == from
  {
  }

  lemma ListingStep(names: seq<string>, i: nat)
    requires i < |names| && NoDuplicates(names)
    ensures names[..i + 1] == names[..i] + [names[i]]
    ensures Elements(names[..i + 1]) == Elements(names[..i]) + {names[i]}
    ensures names[i] !in Elements(names[..i]) && names[i] in Elements(names)
    ensures Elements(names[..i]) <= Elements(names)
  {
  }

  lemma ListingStepBack(names: seq<string>, i: nat)
    requires i < |names| && NoDuplicates(names)
    ensures Elements(names[i..]) == {names[i]} + Elements(names[i + 1..])
    ensures names[i] !in Elements(names[i + 1..]) && names[i] in Elements(names)
  {
    assert names[i..] == [names[i]] + names[i + 1..];
  }

  lemma {:induction false} CountListing(names: seq<string>, keys: set<string>)
    requires Elements(names) == keys && NoDuplicates(names)
    ensures |names| == |keys|
  {
    if names != [] {
      var rest := names[1..];
      assert Elements(rest) == keys - {names[0]} by {
        assert names == [names[0]] + rest;
        assert forall n :: n in names <==> n == names[0] || n in rest;
      }
      CountListing(rest, keys - {names[0]});
    }
  }

  /** Undoing by the recorded names gives back the original directory exactly when
      no installed entry has overwritten one that was left in place. */
  lemma UndoneIsOriginalIff(root: Tree, stage: Tree, aside: set<string>, placed: set<string>)
    requires aside <= root.Keys && placed <= stage.Keys
    ensures UndoneTree(InstalledTree(root, stage, aside, placed), Restrict(root, aside), aside, placed) == root
       <==> placed !! (root.Keys - aside)
  {
    var undone := UndoneTree(InstalledTree(root, stage, aside, placed), Restrict(root, aside), aside, placed);
    if placed !! (root.Keys - aside) {
      assert forall n :: n in root ==> n in undone && undone[n] == root[n];
      assert undone == root;
    } else {
      var n :| n in placed && n in root.Keys - aside;
      assert n !in undone;
    }
  }

  /** A rollback after any failure restores the directory, for every pattern of
      failures, if and only if the archive holds no entry named like a kept one. */
  lemma EveryRollbackRestoresIff(root: Tree, stage: Tree)
    ensures NoCollision(root, stage) <==>
            forall aside: set<string>, placed: set<string>
              | aside <= Movable(root) && placed <= stage.Keys && (placed != {} ==> aside == Movable(root)) ::
              UndoneTree(InstalledTree(root, stage, aside, placed), Restrict(root, aside), aside, placed) == root
  {
    if NoCollision(root, stage) {
      forall aside: set<string>, placed: set<string>
        | aside <= Movable(root) && placed <= stage.Keys && (placed != {} ==> aside == Movable(root))
        ensures UndoneTree(InstalledTree(root, stage, aside, placed), Restrict(root, aside), aside, placed) == root
      {
        UndoneIsOriginalIff(root, stage, aside, placed);
      }
    } else {
      var aside, placed := Movable(root), stage.Keys;
      var name :| name in stage && name in root && Kept(name);
      assert name in placed && name in root.Keys - aside;
      UndoneIsOriginalIff(root, stage, aside, placed);
    }
  }

  /** Starting again after a complete install with the same staged entries: the
      cutover is accepted, and its rollback restores the original directory if
      and only if every staged entry with a kept name was there all along. */
  lemma ReentryRestoresIff(root: Tree, stage: Tree)
    ensures var live := InstalledTree(root, stage, Movable(root), stage.Keys);
            var aside := Restrict(root, Movable(root));
            && LiveMatchesStage(live, stage)
            && (UndoneTree(live, aside, aside.Keys, Movable(live)) == root
                <==> forall name <- stage :: Kept(name) ==> name in root && root[name] == stage[name])
  {
    var live := InstalledTree(root, stage, Movable(root), stage.Keys);
    var aside := Restrict(root, Movable(root));
    var undone := UndoneTree(live, aside, aside.Keys, Movable(live));
    assert LiveMatchesStage(live, stage);
    if forall name <- stage :: Kept(name) ==> name in root && root[name] == stage[name] {
      assert forall n :: n in root <==> n in undone;
      assert forall n <- root :: undone[n] == root[n];
      assert undone == root;
    } else {
      var name :| name in stage && Kept(name) && (name in root ==> root[name] != stage[name]);
      assert name in undone && undone[name] == stage[name];
    }
  }
}
