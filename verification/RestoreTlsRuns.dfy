/**
 The TLS cutover over whole runs: staging, attempts that stop at any entry, rollbacks that
 leave entries stuck, and crashes that forget what was moved.

 A process that finds the backup directory does not know how far the one before it got. It
 accepts whatever agrees with its staged entries, which a partial cutover can.
 */
module RestoreTlsRuns {
  import opened Common
  import opened RestoreSwap
  import opened RestoreTls

  /** The directories, what the attempt of this process remembers, and whether it has finished staging. */
  datatype Cutover = Cutover(dir: Directory, names: Option<Names>, ready: bool)

  datatype Move =
    | PartlyExtracted(left: Tree)          // a staging that has not finished
    | Extracted                            // the archive's entries are staged
    | Attempted(course: Course)            // apply, stopped anywhere or complete
    | Undoes(stuckLive: set<string>, stuckAside: set<string>, removable: bool)
    | Dies                                 // memory is lost

  /** One move of a run that restores `archive`. Staging precedes an attempt in every process,
      a process attempts once, and it rolls back at most once. A crash at some entry is an
      attempt or a rollback that stops there, followed by `Dies`. */
  function Next(p: Cutover, archive: Tree, m: Move): Cutover {
    match m
    case PartlyExtracted(left) =>
      if p.names.Some? then p else p.(dir := p.dir.(stage := left), ready := false)
    case Extracted =>
      if p.names.Some? then p else p.(dir := p.dir.(stage := archive), ready := true)
    case Attempted(course) =>
      if p.names.Some? || !p.ready || !Fits(p.dir, course) then p
      else var o := AttemptOutcome(p.dir, course); Cutover(o.dir, Some(o.names), false)
    case Undoes(stuckLive, stuckAside, removable) =>
      if p.names.None? then p
      else Cutover(ReturnedDirectory(p.dir, p.names.value, stuckLive, stuckAside, removable), None, false)
    case Dies => Cutover(p.dir, None, false)
  }

  function After(p: Cutover, archive: Tree, moves: seq<Move>): Cutover
    decreases |moves|
  {
    if moves == [] then p else Next(After(p, archive, moves[..|moves| - 1]), archive, moves[|moves| - 1])
  }

  predicate Begins(p: Cutover, original: Tree) {
    p.dir.root == original && p.dir.backup.None? && p.names.None? && !p.ready
  }

  // --------------------------------------------------------------- what every run keeps

  /** Only movable entries are ever set aside, and what a process remembers is there. */
  predicate Sane(p: Cutover, archive: Tree) {
    && (forall name <- p.dir.Aside() :: !Kept(name))
    && (p.ready ==> p.dir.stage == archive && p.names.None?)
    && (p.names.Some? ==> p.names.value.backedUp <= p.dir.Aside().Keys && p.names.value.installed <= p.dir.root.Keys)
  }

  lemma NextIsSane(p: Cutover, archive: Tree, m: Move)
    requires Sane(p, archive)
    ensures Sane(Next(p, archive, m), archive)
  {
  }

  lemma {:induction false} EveryRunIsSane(p: Cutover, original: Tree, archive: Tree, moves: seq<Move>)
    requires Begins(p, original)
    ensures Sane(After(p, archive, moves), archive)
    decreases |moves|
  {
    if moves != [] {
      EveryRunIsSane(p, original, archive, moves[..|moves| - 1]);
      NextIsSane(After(p, archive, moves[..|moves| - 1]), archive, moves[|moves| - 1]);
    }
  }

  // ------------------------------------------------------------------- accepted re-entry

  /** Every movable entry of the original waits in the backup directory, unchanged. */
  predicate EverythingAside(d: Directory, original: Tree) {
    d.Aside() == Restrict(original, Movable(original))
  }

  /** The entries a cutover leaves alone are as they were. */
  ghost predicate KeptIntact(d: Directory, original: Tree) {
    forall name | Kept(name) ::
      (name in d.root <==> name in original) && (name in d.root && name in original ==> d.root[name] == original[name])
  }

  /** After any run whatever: an accepted re-entry, rolled back with success, gives back the
      original directory exactly when every movable entry had been set aside before it and the
      kept ones were intact. */
  lemma AcceptedReentryRestoresIff(p: Cutover, original: Tree, archive: Tree, moves: seq<Move>, course: Course,
                                   removable: bool)
    requires Begins(p, original)
    requires var q := After(p, archive, moves); q.ready && q.dir.backup.Some?
    requires AttemptOutcome(After(p, archive, moves).dir, course).verdict.Applied?
    ensures var d := After(p, archive, moves).dir;
            var o := AttemptOutcome(d, course);
            ReturnedDirectory(o.dir, o.names, {}, {}, removable).root == original
            <==> EverythingAside(d, original) && KeptIntact(d, original)
  {
    EveryRunIsSane(p, original, archive, moves);
    RememberedUndoIff(After(p, archive, moves).dir, original);
    var d := After(p, archive, moves).dir;
    var names := Names(d.Aside().Keys, Movable(d.root));
    assert names.backedUp - {} == names.backedUp && names.installed - {} == names.installed;
  }

  lemma RememberedUndoIff(d: Directory, original: Tree)
    requires forall name <- d.Aside() :: !Kept(name)
    ensures UndoneTree(d.root, d.Aside(), d.Aside().Keys, Movable(d.root)) == original
       <==> EverythingAside(d, original) && KeptIntact(d, original)
  {
    var undone := UndoneTree(d.root, d.Aside(), d.Aside().Keys, Movable(d.root));
    assert forall name :: name in undone <==> name in d.Aside() || (name in d.root && Kept(name));
    if EverythingAside(d, original) && KeptIntact(d, original) {
      assert forall name :: name in undone <==> name in original;
      assert undone == original;
    }
    if undone == original {
      assert d.Aside() == Restrict(original, Movable(original));
    }
  }

  // ----------------------------------------------------------------------- crash points

  /** How far a first attempt got before memory was lost. */
  ghost predicate StoppedAt(d: Directory, original: Tree, archive: Tree, aside: set<string>, placed: set<string>) {
    && aside <= Movable(original) && placed <= archive.Keys && (placed != {} ==> aside == Movable(original))
    && d.root == InstalledTree(original, archive, aside, placed)
    && d.backup == Some(Restrict(original, aside))
  }

  /** Until a rollback, the directories are untouched or stopped at some entry of the first
      attempt: no later attempt moves anything. */
  lemma {:induction false} EveryCrashPoint(p: Cutover, original: Tree, archive: Tree, moves: seq<Move>)
    returns (aside: set<string>, placed: set<string>)
    requires Begins(p, original) && forall m <- moves :: !m.Undoes?
    ensures var d := After(p, archive, moves).dir;
            (d.root == original && d.backup.None?) || StoppedAt(d, original, archive, aside, placed)
    decreases |moves|
  {
    if moves == [] {
      aside, placed := {}, {};
    } else {
      var rest, m := moves[..|moves| - 1], moves[|moves| - 1];
      aside, placed := EveryCrashPoint(p, original, archive, rest);
      var q := After(p, archive, rest);
      EveryRunIsSane(p, original, archive, rest);
      if m.Attempted? && q.names.None? && q.ready && q.dir.backup.None? && Fits(q.dir, m.course) {
        if m.course.StopsAt? {
          aside, placed := m.course.aside, m.course.placed;
        } else {
          aside, placed := Movable(original), archive.Keys;
        }
      }
    }
  }

  /** No installed entry took the place of a kept one with other content. */
  predicate KeptAgrees(original: Tree, archive: Tree, placed: set<string>) {
    forall name <- archive | name in placed && Kept(name) :: name in original && original[name] == archive[name]
  }

  /** For every point at which a first attempt may have stopped: an accepted re-entry followed by
      a successful rollback restores the original exactly when every movable entry had been set
      aside by then and no kept entry had been replaced. */
  lemma EveryCrashPointRestoresIff(d: Directory, original: Tree, archive: Tree, aside: set<string>, placed: set<string>,
                                   course: Course, removable: bool)
    requires StoppedAt(d, original, archive, aside, placed) && AttemptOutcome(d, course).verdict.Applied?
    ensures var o := AttemptOutcome(d, course);
            ReturnedDirectory(o.dir, o.names, {}, {}, removable).root == original
            <==> aside == Movable(original) && KeptAgrees(original, archive, placed)
  {
    RememberedUndoIff(d, original);
    var names := Names(d.Aside().Keys, Movable(d.root));
    assert names.backedUp - {} == names.backedUp && names.installed - {} == names.installed;
    CrashPointKeptIff(d, original, archive, aside, placed);
  }

  lemma CrashPointKeptIff(d: Directory, original: Tree, archive: Tree, aside: set<string>, placed: set<string>)
    requires StoppedAt(d, original, archive, aside, placed)
    ensures KeptIntact(d, original) <==> KeptAgrees(original, archive, placed)
    ensures EverythingAside(d, original) <==> aside == Movable(original)
  {
    if KeptIntact(d, original) {
      forall name | name in archive && name in placed && Kept(name)
        ensures name in original && original[name] == archive[name]
      {
        assert name in d.root && d.root[name] == archive[name];
      }
    }
  }

  /** A partial cutover is accepted exactly when the archive holds no entry, or its entries are
      live already, with the same content, beside no movable one it lacks. */
  lemma PartialCutoverAcceptedIff(d: Directory, original: Tree, archive: Tree, aside: set<string>, placed: set<string>)
    requires StoppedAt(d, original, archive, aside, placed) && d.stage == archive && aside != Movable(original)
    ensures AttemptOutcome(d, Complete).verdict.Applied? <==>
            || archive == map[]
            || ((forall name <- archive :: name in original && name !in aside && original[name] == archive[name])
                && Movable(original) - aside <= archive.Keys)
  {
    assert placed == {};
    assert d.root == original - aside;
    assert Movable(d.root) == Movable(original) - aside;
  }

  // ------------------------------------------------------------- the other attempts

  /** An attempt that cannot inspect the backup directory remembers nothing, so its rollback
      succeeds without a move: it restores the original exactly when nothing had been moved. */
  lemma UninspectableRestoresIff(p: Cutover, original: Tree, archive: Tree, moves: seq<Move>, removable: bool)
    requires Begins(p, original) && After(p, archive, moves).ready
    ensures var d := After(p, archive, moves).dir;
            var o := AttemptOutcome(d, CannotInspect);
            var r := ReturnedDirectory(o.dir, o.names, {}, {}, removable);
            && o.verdict.Failed? && o.names == NO_NAMES && Unstuck(o.names, {}, {})
            && (r.root == original <==> d.root == original)
  {
    var d := After(p, archive, moves).dir;
    assert UndoneTree(d.root, d.Aside(), {}, {}) == d.root;
  }

  /** A fresh attempt, stopped anywhere or complete, is undone exactly unless it has put an entry
      over one that it leaves alone. */
  lemma FreshAttemptIsUndoneIff(d: Directory, course: Course, removable: bool)
    requires d.backup.None? && Fits(d, course) && !course.CannotInspect? && !course.CannotBegin?
    ensures var o := AttemptOutcome(d, course);
            ReturnedDirectory(o.dir, o.names, {}, {}, removable).root == d.root
            <==> forall name <- o.names.installed :: name in d.root ==> !Kept(name)
  {
    var o := AttemptOutcome(d, course);
    assert o.names.backedUp - {} == o.names.backedUp && o.names.installed - {} == o.names.installed;
    UndoneIsOriginalIff(d.root, d.stage, o.names.backedUp, o.names.installed);
    if o.names.installed != {} {
      assert o.names.backedUp == Movable(d.root);
      assert forall name :: name in d.root.Keys - o.names.backedUp <==> name in d.root && Kept(name);
    }
  }

  // ------------------------------------------------------------------- failing inputs

  lemma AfterOneMore(p: Cutover, archive: Tree, moves: seq<Move>, m: Move)
    ensures After(p, archive, moves + [m]) == Next(After(p, archive, moves), archive, m)
  {
    assert (moves + [m])[..|moves|] == moves;
  }

  /** A process that stages, attempts and dies, and another that stages, attempts and rolls back. */
  function TwoProcesses(first: Course, second: Course): seq<Move> {
    [Extracted, Attempted(first), Dies, Extracted, Attempted(second), Undoes({}, {}, true)]
  }

  function SecondStart(p: Cutover, archive: Tree, first: Course): Cutover {
    Next(Next(Next(Next(p, archive, Extracted), archive, Attempted(first)), archive, Dies), archive, Extracted)
  }

  function SecondEnd(q: Cutover, archive: Tree, second: Course): Cutover {
    Next(Next(q, archive, Attempted(second)), archive, Undoes({}, {}, true))
  }

  lemma RunOfTwoProcesses(p: Cutover, archive: Tree, first: Course, second: Course)
    ensures After(p, archive, TwoProcesses(first, second)[..4]) == SecondStart(p, archive, first)
    ensures After(p, archive, TwoProcesses(first, second))
         == SecondEnd(SecondStart(p, archive, first), archive, second)
  {
    AfterOneMore(p, archive, [], Extracted);
    AfterOneMore(p, archive, [Extracted], Attempted(first));
    AfterOneMore(p, archive, [Extracted, Attempted(first)], Dies);
    AfterOneMore(p, archive, [Extracted, Attempted(first), Dies], Extracted);
    AfterOneMore(p, archive, [Extracted, Attempted(first), Dies, Extracted], Attempted(second));
    AfterOneMore(p, archive, [Extracted, Attempted(first), Dies, Extracted, Attempted(second)], Undoes({}, {}, true));
    var moves := TwoProcesses(first, second);
    assert moves[..4] == [] + [Extracted] + [Attempted(first)] + [Dies] + [Extracted];
    assert moves == moves[..4] + [Attempted(second)] + [Undoes({}, {}, true)];
  }

  /** A control plane that has never begun to restore. */
  function Pristine(original: Tree): Cutover {
    Cutover(Directory(original, map[], None), None, false)
  }

  /** Restoring an unchanged entry, with a crash before the first rename: re-entry takes the
      original for its own installation, and the rollback that reports success moves it away. */
  lemma UnchangedEntryIsLost(name: string, content: Content)
    requires !Kept(name)
    ensures var original: Tree := map[name := content];
            var moves := TwoProcesses(StopsAt({}, {}), Complete);
            var d := After(Pristine(original), original, moves[..4]).dir;
            && NoCollision(original, original)
            && AttemptOutcome(d, Complete).verdict.Applied?
            && name !in After(Pristine(original), original, moves).dir.root
  {
    var original: Tree := map[name := content];
    RunOfTwoProcesses(Pristine(original), original, StopsAt({}, {}), Complete);
    var q := SecondStart(Pristine(original), original, StopsAt({}, {}));
    assert InstalledTree(original, original, {}, {}) == original;
    assert q == Cutover(Directory(original, original, Some(map[])), None, true);
    LiveEntryIsMovedAway(q, original, name);
  }

  /** An archive without entries, with a crash between two renames: the entry that was still
      live is gone after the rollback. */
  lemma EmptyArchiveLosesLiveEntry(live: string, aside: string, x: Content, y: Content)
    requires !Kept(live) && !Kept(aside) && live != aside
    ensures var original: Tree := map[live := x, aside := y];
            var moves := TwoProcesses(StopsAt({aside}, {}), Complete);
            var d := After(Pristine(original), map[], moves[..4]).dir;
            && AttemptOutcome(d, Complete).verdict.Applied?
            && live !in After(Pristine(original), map[], moves).dir.root
  {
    var original: Tree := map[live := x, aside := y];
    RunOfTwoProcesses(Pristine(original), map[], StopsAt({aside}, {}), Complete);
    var q := SecondStart(Pristine(original), map[], StopsAt({aside}, {}));
    assert aside in Movable(original);
    assert q.dir.root == InstalledTree(original, map[], {aside}, {});
    assert q.dir.backup == Some(Restrict(original, {aside}));
    LiveEntryIsMovedAway(q, map[], live);
  }

  /** Whatever is live and movable, but not in the backup directory, is gone after an accepted
      re-entry and its rollback. */
  lemma LiveEntryIsMovedAway(q: Cutover, archive: Tree, name: string)
    requires q.ready && q.names.None? && q.dir.backup.Some? && AttemptOutcome(q.dir, Complete).verdict.Applied?
    requires name in Movable(q.dir.root) && name !in q.dir.Aside()
    ensures name !in SecondEnd(q, archive, Complete).dir.root
  {
  }

  /** After a crash with restored entries live, a process that cannot inspect the backup
      directory rolls back with success, and the restored entries stay. */
  lemma InspectionErrorHidesEarlierCutover(name: string, before: Content, restored: Content)
    requires !Kept(name) && before != restored
    ensures var original: Tree, archive: Tree := map[name := before], map[name := restored];
            var moves := TwoProcesses(Complete, CannotInspect);
            var d := After(Pristine(original), archive, moves[..4]).dir;
            && NoCollision(original, archive)
            && AttemptOutcome(d, CannotInspect).verdict.Failed?
            && AttemptOutcome(d, CannotInspect).names == NO_NAMES
            && After(Pristine(original), archive, moves).dir.root == archive != original
  {
    var original: Tree, archive: Tree := map[name := before], map[name := restored];
    RunOfTwoProcesses(Pristine(original), archive, Complete, CannotInspect);
    var q := SecondStart(Pristine(original), archive, Complete);
    assert q.dir.root == InstalledTree(original, archive, Movable(original), archive.Keys);
    OneEntryInstalled(name, before, restored);
    UninspectedStays(q, archive);
    assert original[name] != archive[name];
  }

  lemma OneEntryInstalled(name: string, before: Content, restored: Content)
    requires !Kept(name)
    ensures InstalledTree(map[name := before], map[name := restored], Movable(map[name := before]), {name})
         == map[name := restored]
    ensures map[name := restored].Keys == {name}
  {
    assert Movable(map[name := before]) == {name};
  }

  lemma UninspectedStays(q: Cutover, archive: Tree)
    requires q.ready && q.names.None?
    ensures SecondEnd(q, archive, CannotInspect).dir.root == q.dir.root
  {
    assert UndoneTree(q.dir.root, q.dir.Aside(), {}, {}) == q.dir.root;
  }
}
