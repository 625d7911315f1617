// Installing a new executable and rolling back, step by step through the file system.
module BinaryInstall {

  type Bytes = seq<int>

  // Which bytes each file holds.
  type Files = map<string, Bytes>

  // The paths involved: the executable, its backup, the downloaded file, the rollback's temporary.
  datatype Paths = Paths(exe: string, backup: string, staged: string, tmp: string) {
    predicate Apart() {
      exe != backup && exe != staged && exe != tmp && backup != staged && backup != tmp && staged != tmp
    }
  }

  // Whether each step of an installation or of a rollback succeeds when it can.
  datatype InstallFlags = InstallFlags(removes: bool, backsUp: bool, installs: bool, rollsBack: bool)

  datatype RestoreFlags = RestoreFlags(clears: bool, setsAside: bool, restores: bool, rollsBack: bool, removes: bool)

  function Removed(f: Files, p: string, ok: bool): Files {
    if ok then f - {p} else f
  }

  predicate CanRename(f: Files, a: string, ok: bool) {
    ok && a in f
  }

  function Renamed(f: Files, a: string, b: string, ok: bool): Files {
    if CanRename(f, a, ok) then (f - {a})[b := f[a]] else f
  }

  // The files after each step: a crash leaves one of these states.
  datatype Trace = Trace(states: seq<Files>, ok: bool)

  function Install(f: Files, p: Paths, flags: InstallFlags): Trace {
    var f1 := Removed(f, p.backup, flags.removes);
    if !CanRename(f1, p.exe, flags.backsUp) then Trace([f, f1], false)
    else
      var f2 := Renamed(f1, p.exe, p.backup, true);
      if CanRename(f2, p.staged, flags.installs)
      then Trace([f, f1, f2, Renamed(f2, p.staged, p.exe, true)], true)
      else Trace([f, f1, f2, Renamed(f2, p.backup, p.exe, flags.rollsBack)], false)
  }

  // The states of a rollback once the executable is set aside.
  function SwapStates(f2: Files, p: Paths, flags: RestoreFlags): Trace {
    if CanRename(f2, p.backup, flags.restores) then
      var f3 := Renamed(f2, p.backup, p.exe, true);
      Trace([f3, Removed(f3, p.tmp, flags.removes)], true)
    else Trace([Renamed(f2, p.tmp, p.exe, flags.rollsBack)], false)
  }

  function Restore(f: Files, p: Paths, flags: RestoreFlags): Trace {
    if p.backup !in f then Trace([f], false)
    else
      var f1 := Removed(f, p.tmp, flags.clears);
      if !CanRename(f1, p.exe, flags.setsAside) then Trace([f, f1], false)
      else
        var f2 := Renamed(f1, p.exe, p.tmp, true);
        var swap := SwapStates(f2, p, flags);
        Trace([f, f1, f2] + swap.states, swap.ok)
  }

  function Final(t: Trace): Files
    requires t.states != []
  {
    t.states[|t.states| - 1]
  }

  // ----- the methods over a mutable file system -----

  class FileSystem {
    var files: Files
    // Every state so far.
    ghost var history: seq<Files>

    ghost predicate Valid()
      reads this
    {
      history != [] && history[|history| - 1] == files
    }

    constructor (files: Files)
      ensures Valid() && this.files == files && history == [files]
    {
      this.files := files;
      history := [files];
    }

    method RemoveFile(p: string, ok: bool)
      requires Valid()
      modifies this
      ensures Valid() && files == Removed(old(files), p, ok) && history == old(history) + [files]
    {
      if ok {
        files := files - {p};
      }
      history := history + [files];
    }

    method Rename(a: string, b: string, ok: bool) returns (done: bool)
      requires Valid()
      modifies this
      ensures Valid() && done == CanRename(old(files), a, ok)
      ensures files == Renamed(old(files), a, b, ok) && history == old(history) + [files]
    {
      done := ok && a in files;
      if done {
        files := (files - {a})[b := files[a]];
      }
      history := history + [files];
    }
  }

  // The file system went through these states and no others.
  twostate predicate WentThrough(fs: FileSystem, states: seq<Files>)
    reads fs
  {
    && |old(fs.history)| <= |fs.history|
    && fs.history[..|old(fs.history)|] == old(fs.history)
    && forall i :: |old(fs.history)| <= i < |fs.history| ==> fs.history[i] in states
  }

  method InstallBinary(fs: FileSystem, p: Paths, flags: InstallFlags) returns (ok: bool)
    requires fs.Valid()
    modifies fs
    ensures fs.Valid()
    ensures var t := Install(old(fs.files), p, flags);
            ok == t.ok && fs.files == Final(t) && WentThrough(fs, t.states)
  {
    hide Removed, Renamed, CanRename;
    ghost var t := Install(fs.files, p, flags);
    fs.RemoveFile(p.backup, flags.removes);
    assert fs.files == t.states[1];
    var backedUp := fs.Rename(p.exe, p.backup, flags.backsUp);
    if !backedUp {
      NotRenamed(t.states[1], p.exe, p.backup, flags.backsUp);
      return false;
    }
    AsRenamed(t.states[1], p.exe, p.backup, flags.backsUp);
    assert fs.files == t.states[2];
    ok := PutInPlace(fs, p, flags);
  }

  // The second half of an installation.
  method PutInPlace(fs: FileSystem, p: Paths, flags: InstallFlags) returns (ok: bool)
    requires fs.Valid()
    modifies fs
    ensures fs.Valid()
    ensures ok == CanRename(old(fs.files), p.staged, flags.installs)
    ensures fs.files == (if ok then Renamed(old(fs.files), p.staged, p.exe, true)
                         else Renamed(old(fs.files), p.backup, p.exe, flags.rollsBack))
    ensures WentThrough(fs, [old(fs.files), fs.files])
  {
    hide Removed, Renamed, CanRename;
    ghost var f2 := fs.files;
    var installed := fs.Rename(p.staged, p.exe, flags.installs);
    if !installed {
      NotRenamed(f2, p.staged, p.exe, flags.installs);
      var rolledBack := fs.Rename(p.backup, p.exe, flags.rollsBack);
      return false;
    }
    AsRenamed(f2, p.staged, p.exe, flags.installs);
    ok := true;
  }

  lemma NotRenamed(f: Files, a: string, b: string, ok: bool)
    requires !CanRename(f, a, ok)
    ensures Renamed(f, a, b, ok) == f
  {
  }

  lemma AsRenamed(f: Files, a: string, b: string, ok: bool)
    requires CanRename(f, a, ok)
    ensures Renamed(f, a, b, ok) == Renamed(f, a, b, true)
  {
  }

  method RestoreBackup(fs: FileSystem, p: Paths, flags: RestoreFlags) returns (ok: bool)
    requires fs.Valid()
    modifies fs
    ensures fs.Valid()
    ensures var t := Restore(old(fs.files), p, flags);
            ok == t.ok && fs.files == Final(t) && WentThrough(fs, t.states)
  {
    hide Removed, Renamed, CanRename;
    ghost var t := Restore(fs.files, p, flags);
    if p.backup !in fs.files {
      return false;
    }
    fs.RemoveFile(p.tmp, flags.clears);
    assert fs.files == t.states[1];
    var aside := fs.Rename(p.exe, p.tmp, flags.setsAside);
    if !aside {
      NotRenamed(t.states[1], p.exe, p.tmp, flags.setsAside);
      return false;
    }
    AsRenamed(t.states[1], p.exe, p.tmp, flags.setsAside);
    assert fs.files == t.states[2];
    ok := SwapIn(fs, p, flags);
  }

  // The second half of a rollback.
  method SwapIn(fs: FileSystem, p: Paths, flags: RestoreFlags) returns (ok: bool)
    requires fs.Valid()
    modifies fs
    ensures fs.Valid()
    ensures var t := SwapStates(old(fs.files), p, flags);
            ok == t.ok && fs.files == Final(t) && WentThrough(fs, [old(fs.files)] + t.states)
  {
    hide Removed, Renamed, CanRename;
    ghost var t := SwapStates(fs.files, p, flags);
    ghost var f2 := fs.files;
    var restored := fs.Rename(p.backup, p.exe, flags.restores);
    if !restored {
      NotRenamed(f2, p.backup, p.exe, flags.restores);
      var rolledBack := fs.Rename(p.tmp, p.exe, flags.rollsBack);
      assert fs.files == t.states[0];
      return false;
    }
    AsRenamed(f2, p.backup, p.exe, flags.restores);
    assert fs.files == t.states[0];
    fs.RemoveFile(p.tmp, flags.removes);
    assert fs.files == t.states[1];
    ok := true;
  }

  // ----- installation -----

  predicate At(f: Files, p: string, b: Bytes) {
    p in f && f[p] == b
  }

  // At every crash point of an installation, whatever fails.
  ghost predicate Survives(f: Files, p: Paths, old_: Bytes) {
    forall flags, k :: 0 <= k < |Install(f, p, flags).states| ==>
      At(Install(f, p, flags).states[k], p.exe, old_) || At(Install(f, p, flags).states[k], p.backup, old_)
  }

  // Bytes kept at the executable or its backup survive an installation exactly when they are at the
  // executable when it begins.
  lemma SurvivesIff(f: Files, p: Paths, old_: Bytes)
    requires p.Apart()
    ensures Survives(f, p, old_) <==> At(f, p.exe, old_)
  {
    if At(f, p.exe, old_) {
      forall flags, k | 0 <= k < |Install(f, p, flags).states|
        ensures At(Install(f, p, flags).states[k], p.exe, old_) || At(Install(f, p, flags).states[k], p.backup, old_)
      {
      }
    } else {
      var flags := InstallFlags(true, false, false, false);
      var t := Install(f, p, flags);
      assert t.states[1] == f - {p.backup};
      assert !At(t.states[1], p.exe, old_) && !At(t.states[1], p.backup, old_);
    }
  }

  // How an installation ends. An error leaves the executable as it was unless the roll back failed.
  lemma InstallEnds(f: Files, p: Paths, flags: InstallFlags)
    requires p.Apart() && p.exe in f
    ensures var t := Install(f, p, flags);
            var e := Final(t);
            if t.ok then
              && p.staged in f && At(e, p.exe, f[p.staged]) && At(e, p.backup, f[p.exe]) && p.staged !in e
            else
              && (At(e, p.exe, f[p.exe]) || (!flags.rollsBack && At(e, p.backup, f[p.exe])))
              && (flags.rollsBack ==> At(e, p.exe, f[p.exe]))
              && (p.staged in f ==> At(e, p.staged, f[p.staged]))
  {
  }

  // Other files are never touched.
  lemma InstallFrame(f: Files, p: Paths, flags: InstallFlags, k: nat, q: string)
    requires k < |Install(f, p, flags).states| && q != p.exe && q != p.backup && q != p.staged
    ensures q in Install(f, p, flags).states[k] <==> q in f
    ensures q in f ==> Install(f, p, flags).states[k][q] == f[q]
  {
  }

  // A crash between the two renames and a second installation: the old bytes are gone.
  lemma SecondInstallLoses(f: Files, p: Paths, old_: Bytes, flags: InstallFlags)
    requires p.Apart() && At(f, p.exe, old_) && p.staged in f && f[p.staged] != old_
    requires forall q :: q in f && q != p.exe && q != p.backup ==> f[q] != old_
    requires flags.removes
    ensures var crashed := Install(f, p, InstallFlags(true, true, true, true)).states[2];
            var again := Install(crashed, p, flags);
            && At(crashed, p.backup, old_)
            && !again.ok && forall q :: q in Final(again) ==> Final(again)[q] != old_
  {
    var crashed := Install(f, p, InstallFlags(true, true, true, true)).states[2];
    var again := Install(crashed, p, flags);
    assert p.exe !in crashed;
    assert Final(again) == crashed - {p.backup};
  }

  // ----- rolling back -----

  // At every crash point of a rollback the backup's bytes are at the backup or the executable, and
  // until the last step the executable's bytes are at the executable or the temporary.
  lemma RestoreKeeps(f: Files, p: Paths, flags: RestoreFlags, k: nat)
    requires p.Apart() && k < |Restore(f, p, flags).states| && p.backup in f && p.exe in f
    ensures var s := Restore(f, p, flags).states[k];
            && (At(s, p.backup, f[p.backup]) || At(s, p.exe, f[p.backup]))
            && (k < 4 ==> At(s, p.exe, f[p.exe]) || At(s, p.tmp, f[p.exe]))
  {
  }

  // Installing and then rolling back returns the executable to its original bytes.
  lemma InstallThenRestore(f: Files, p: Paths, flags: InstallFlags, back: RestoreFlags)
    requires p.Apart() && p.exe in f && Install(f, p, flags).ok
    ensures var t := Restore(Final(Install(f, p, flags)), p, back);
            if t.ok then At(Final(t), p.exe, f[p.exe])
            else back.rollsBack ==> At(Final(t), p.exe, f[p.staged]) && At(Final(t), p.backup, f[p.exe])
  {
    InstallEnds(f, p, flags);
    var g := Final(Install(f, p, flags));
    hide Install;
    RestoreEnds(g, p, back);
  }

  lemma RestoreEnds(g: Files, p: Paths, back: RestoreFlags)
    requires p.Apart() && p.exe in g && p.backup in g
    ensures var t := Restore(g, p, back);
            if t.ok then At(Final(t), p.exe, g[p.backup])
            else back.rollsBack ==> At(Final(t), p.exe, g[p.exe]) && At(Final(t), p.backup, g[p.backup])
  {
  }

  // ----- runs without a crash -----

  datatype Operation = Installing(staged: Bytes, installFlags: InstallFlags) | RollingBack(restoreFlags: RestoreFlags)

  // One operation that runs to its end; an installation finds its download at the staged path.
  function Completed(f: Files, p: Paths, op: Operation): Files {
    match op
    case Installing(bytes, flags) => Final(Install(f[p.staged := bytes], p, flags))
    case RollingBack(flags) => Final(Restore(f, p, flags))
  }

  function CompletedAll(f: Files, p: Paths, ops: seq<Operation>): Files {
    if ops == [] then f else Completed(CompletedAll(f, p, ops[..|ops| - 1]), p, ops[|ops| - 1])
  }

  // The rename that undoes a failed step succeeds.
  predicate CanUndo(op: Operation) {
    if op.Installing? then op.installFlags.rollsBack else op.restoreFlags.rollsBack
  }

  // The versions a run ever offered: the first executable, a first backup, and the downloads.
  predicate Known(f: Files, p: Paths, ops: seq<Operation>, b: Bytes) {
    || At(f, p.exe, b) || At(f, p.backup, b)
    || exists i :: 0 <= i < |ops| && ops[i].Installing? && ops[i].staged == b
  }

  lemma KnownMore(f: Files, p: Paths, ops: seq<Operation>, n: nat, b: Bytes)
    requires n <= |ops| && Known(f, p, ops[..n], b)
    ensures Known(f, p, ops, b)
  {
    hide At;
    if !At(f, p.exe, b) && !At(f, p.backup, b) {
      var i :| 0 <= i < n && ops[..n][i].Installing? && ops[..n][i].staged == b;
      assert ops[i] == ops[..n][i];
    }
  }

  // Over every run of completed operations, whichever steps fail, there is an executable, and it and
  // any backup are whole known versions, as long as undoing succeeds.
  lemma {:induction false} RunKeepsExecutable(f: Files, p: Paths, ops: seq<Operation>)
    requires p.Apart() && p.exe in f && forall i :: 0 <= i < |ops| ==> CanUndo(ops[i])
    ensures var e := CompletedAll(f, p, ops);
            && p.exe in e && Known(f, p, ops, e[p.exe])
            && (p.backup in e ==> Known(f, p, ops, e[p.backup]))
  {
    if ops != [] {
      hide Install, Restore, Known, Completed;
      var n := |ops| - 1;
      var before, op := CompletedAll(f, p, ops[..n]), ops[n];
      RunKeepsExecutable(f, p, ops[..n]);
      StepKeeps(before, p, op);
      KnownMore(f, p, ops, n, before[p.exe]);
      if p.backup in before {
        KnownMore(f, p, ops, n, before[p.backup]);
      }
      if op.Installing? {
        NewestKnown(f, p, ops);
      }
    } else {
      FirstKnown(f, p);
    }
  }

  lemma NewestKnown(f: Files, p: Paths, ops: seq<Operation>)
    requires ops != [] && ops[|ops| - 1].Installing?
    ensures Known(f, p, ops, ops[|ops| - 1].staged)
  {
  }

  lemma FirstKnown(f: Files, p: Paths)
    requires p.exe in f
    ensures Known(f, p, [], f[p.exe]) && (p.backup in f ==> Known(f, p, [], f[p.backup]))
  {
  }

  // One operation only moves versions around.
  lemma StepKeeps(f: Files, p: Paths, op: Operation)
    requires p.Apart() && p.exe in f && CanUndo(op)
    ensures var e := Completed(f, p, op);
            && p.exe in e && Among(f, p, op, e[p.exe])
            && (p.backup in e ==> Among(f, p, op, e[p.backup]))
  {
  }

  predicate Among(f: Files, p: Paths, op: Operation, b: Bytes) {
    At(f, p.exe, b) || At(f, p.backup, b) || (op.Installing? && op.staged == b)
  }

  // A rollback succeeds exactly when both files are there and both renames work.
  lemma RestoreSucceedsIff(g: Files, p: Paths, flags: RestoreFlags)
    requires p.Apart()
    ensures Restore(g, p, flags).ok <==> p.backup in g && p.exe in g && flags.setsAside && flags.restores
  {
  }

  // Some rollback can still succeed from these files.
  ghost predicate Restorable(g: Files, p: Paths) {
    exists flags :: Restore(g, p, flags).ok
  }

  // After a rollback that crashed at point k, another can succeed exactly when it crashed before its
  // first rename, or failed at its second and undid the first.
  lemma RestorableAfterCrashIff(f: Files, p: Paths, flags: RestoreFlags, k: nat)
    requires p.Apart() && k < |Restore(f, p, flags).states|
    ensures Restorable(Restore(f, p, flags).states[k], p)
        <==> p.exe in f && p.backup in f && (k <= 1 || (k == 3 && !flags.restores && flags.rollsBack))
  {
    var g := Restore(f, p, flags).states[k];
    RestorableIff(g, p);
    hide Restorable;
  }

  lemma RestorableIff(g: Files, p: Paths)
    requires p.Apart()
    ensures Restorable(g, p) <==> p.backup in g && p.exe in g
  {
    hide Restore;
    RestoreSucceedsIff(g, p, RestoreFlags(true, true, true, true, true));
    forall flags ensures Restore(g, p, flags).ok ==> p.backup in g && p.exe in g {
      RestoreSucceedsIff(g, p, flags);
    }
  }

  // A crash between the rollback's renames leaves no executable; no later rollback succeeds, and an
  // installation then removes the backup.
  lemma CrashedRestoreIsStuck(f: Files, p: Paths, back: RestoreFlags, flags: InstallFlags)
    requires p.Apart() && p.exe in f && p.backup in f
    ensures var crashed := Restore(f, p, RestoreFlags(true, true, true, true, true)).states[2];
            && p.exe !in crashed && !Restore(crashed, p, back).ok && !Install(crashed, p, flags).ok
            && (flags.removes ==> p.backup !in Final(Install(crashed, p, flags)))
  {
  }
}
