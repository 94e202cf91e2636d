/** `ensure_vllm_runtime` as it runs: an object that changes the cache directory in place.
  *
  * What the commands and the file system do to a call is its `Luck`. Every method leaves the directory
  * where a run of the steps of RuntimeInstall takes it, so what holds over whole runs holds here.
  */
module RuntimeCaching {

  import opened Wrappers
  import opened RuntimeInstall
  import opened RuntimeRuns

  datatype Error =
    WheelMismatch | CopyFailed | CommandFailed | Refused | RenameFailed | NotInstalled | MarkerFailed | RemovalFailed

  /** The digest of the bundled wheel, the stage's random suffix, what the commands make and whether they
    * succeed, whether the rename does, whether the marker gets written whole, the directories `rmtree` fails
    * on, the parts it then leaves, and whether the marker is still there.
    */
  datatype Luck = Luck(wheelSha: string, suffix: string, copies: bool, synced: set<Part>, syncOk: bool,
                       renames: bool, installed: set<Part>, pipOk: bool, markerOk: bool, stuck: set<string>,
                       leaves: set<Part>, leavesMarker: bool)
  {
    predicate Valid() {
      && synced <= {Dependencies, VenvConfig} && (syncOk ==> synced == {Dependencies, VenvConfig})
      && installed <= {Package, Server} && (pipOk ==> Package in installed)
    }
  }

  /** Everything that an install does itself goes well. */
  predicate Installs(call: Call, luck: Luck) {
    && luck.wheelSha == call.wheelSha && luck.copies && luck.syncOk && luck.renames
    && luck.pipOk && Server in luck.installed && luck.markerOk
  }

  /** A cleanup after this call would remove this directory. */
  predicate IsOld(root: string, call: Call, name: string, e: Entry) {
    name != call.hash && IsManaged(root, name, e)
  }

  /** No directory that a cleanup would remove is stuck. */
  predicate Cleans(root: string, fs: map<string, Entry>, call: Call, luck: Luck) {
    call.keepOld || forall n :: n in fs && IsOld(root, call, n, fs[n]) ==> n !in luck.stuck
  }

  function Cleaned(root: string, fs: map<string, Entry>, call: Call): map<string, Entry> {
    if call.keepOld then fs else map n | n in fs && !IsOld(root, call, n, fs[n]) :: fs[n]
  }

  /** A cleanup that has dealt with all but `todo`: what it should remove is gone, and none of that was stuck. */
  ghost predicate Swept(root: string, before: map<string, Entry>, fs: map<string, Entry>, todo: set<string>,
                        call: Call, luck: Luck) {
    && todo <= fs.Keys
    && (forall n :: n in fs <==> n in before && (n in todo || !IsOld(root, call, n, before[n])))
    && (forall n :: n in fs ==> fs[n] == before[n])
    && (forall n :: n in before && n !in todo && IsOld(root, call, n, before[n]) ==> n !in luck.stuck)
  }

  lemma SweepStarts(root: string, fs: map<string, Entry>, call: Call, luck: Luck)
    ensures Swept(root, fs, fs, fs.Keys, call, luck)
  {
    hide IsOld;
  }

  lemma SweepOn(root: string, before: map<string, Entry>, fs: map<string, Entry>, todo: set<string>,
                call: Call, luck: Luck, child: string)
    requires Swept(root, before, fs, todo, call, luck) && child in todo
    ensures child in fs && child in before && fs[child] == before[child]
    ensures !IsOld(root, call, child, fs[child]) ==> Swept(root, before, fs, todo - {child}, call, luck)
    ensures IsOld(root, call, child, fs[child]) && child !in luck.stuck ==>
      Swept(root, before, Without(fs, child), todo - {child}, call, luck)
    ensures IsOld(root, call, child, fs[child]) && child in luck.stuck ==>
      call.keepOld || !Cleans(root, before, call, luck)
  {
    hide IsOld;
  }

  lemma SweepEnds(root: string, before: map<string, Entry>, fs: map<string, Entry>, call: Call, luck: Luck)
    requires if call.keepOld then fs == before else Swept(root, before, fs, {}, call, luck)
    ensures fs == Cleaned(root, before, call) && Cleans(root, before, call, luck)
  {
    hide IsOld;
  }

  /** Whether a cleanup works does not depend on the directory to keep. */
  lemma KeptIsNoMatter(root: string, fs: map<string, Entry>, call: Call, luck: Luck, e: Entry)
    ensures Cleans(root, fs[call.hash := e], call, luck) == Cleans(root, fs, call, luck)
  {
    hide IsManaged;
    var more := fs[call.hash := e];
    if Cleans(root, more, call, luck) && !call.keepOld {
      forall n | n in fs && IsOld(root, call, n, fs[n])
        ensures n !in luck.stuck
      {
        assert n in more && more[n] == fs[n];
      }
    }
  }

  class RuntimeCache {
    const root: string
    var fs: map<string, Entry>

    constructor (root: string, fs: map<string, Entry>)
      ensures this.root == root && this.fs == fs
    {
      this.root, this.fs := root, fs;
    }

    /** The directory as the steps see it, with the lock held at `pc`. */
    ghost function At(call: Call, pc: Pc): State
      reads this
    {
      State(root, fs, Some(Holder(call, pc)))
    }

    /** About to clean up: the listing of the directory has been read, unless old runtimes are to be kept. */
    ghost function AtCleanup(call: Call, installed: bool): State
      reads this
    {
      At(call, Cleaning(if call.keepOld then {} else fs.Keys, installed))
    }

    ghost function Free(): State
      reads this
    {
      State(root, fs, None)
    }

    lemma ItemGoes(call: Call, pc: Pc, f: map<string, Entry>, name: string, marker: Marker, kept: set<Part>,
                   rest: set<Part>, p: Part)
      requires Doomed(pc) == Some(name) && p in rest && rest !! kept
      ensures var s := State(root, f[name := Directory(kept + rest, marker)], Some(Holder(call, pc)));
        && Next(s, Delete(name, APart(p))) == Some(s.(fs := f[name := Directory(kept + (rest - {p}), marker)]))
        && Next(s, Delete(name, APart(p))) == Some(s.(fs := s.fs[name := s.fs[name].(parts := s.fs[name].parts - {p})]))
    {
      assert kept + rest - {p} == kept + (rest - {p});
      assert f[name := Directory(kept + rest, marker)][name := Directory(kept + (rest - {p}), marker)]
          == f[name := Directory(kept + (rest - {p}), marker)];
    }

    /** `shutil.rmtree`: it fails on a stuck directory, leaving some of its parts, with the marker or without. */
    method RemoveTree(call: Call, ghost pc: Pc, name: string, luck: Luck) returns (ok: bool, ghost steps: seq<Step>)
      requires name in fs && fs[name].Directory? && Doomed(pc) == Some(name)
      modifies this
      ensures ok == (name !in luck.stuck)
      ensures After(old(At(call, pc)), steps).Some?
      ensures ok ==> fs == Without(old(fs), name)
      ensures ok ==> After(old(At(call, pc)), steps)
                     == Some(if pc.Removing? then At(call, Cleaning(pc.todo, pc.installed)) else Free())
      ensures !ok ==> fs == old(fs)[name :=
        Directory(old(fs)[name].parts * luck.leaves, if luck.leavesMarker then old(fs)[name].marker else NoMarker)]
      ensures !ok ==> After(old(At(call, pc)), steps) == Some(At(call, pc))
    {
      hide After, IsHash, IsManaged, CopyFile, RunCommand, Promote, Finish, PickChild, Validates, Thrown, StageName;
      ghost var s := At(call, pc);
      ghost var t := s;
      After0(s);
      steps := [];
      ok := name !in luck.stuck;
      if !fs[name].marker.NoMarker? && (ok || !luck.leavesMarker) {
        t, steps := Do(s, steps, t, Delete(name, TheMarker));
        fs := fs[name := fs[name].(marker := NoMarker)];
      }
      ghost var marker := fs[name].marker;
      var kept := if ok then {} else fs[name].parts * luck.leaves;
      var rest := fs[name].parts - kept;
      assert fs[name].parts == kept + rest;
      while rest != {}
        invariant After(s, steps) == Some(t) && t == At(call, pc)
        invariant fs == old(fs)[name := Directory(kept + rest, marker)] && rest !! kept
        decreases rest
      {
        var p :| p in rest;
        ItemGoes(call, pc, old(fs), name, marker, kept, rest, p);
        t, steps := Do(s, steps, t, Delete(name, APart(p)));
        fs := fs[name := fs[name].(parts := fs[name].parts - {p})];
        rest := rest - {p};
      }
      assert kept + rest == kept;
      if ok {
        t, steps := Do(s, steps, t, RemoveDir(name));
        fs := Without(fs, name);
        assert fs == Without(old(fs), name);
      }
    }

    /** Every managed directory goes, except the one to keep; nothing else does. */
    method CleanupOldManagedRuntimes(call: Call, ghost installed: bool, luck: Luck)
      returns (ok: bool, ghost steps: seq<Step>)
      requires call.hash in fs
      modifies this
      ensures ok == Cleans(root, old(fs), call, luck)
      ensures ok ==> fs == Cleaned(root, old(fs), call)
      ensures call.hash in fs && fs[call.hash] == old(fs)[call.hash]
      ensures After(old(AtCleanup(call, installed)), steps).Some?
      ensures ok ==> After(old(AtCleanup(call, installed)), steps) == Some(At(call, Cleaning({}, installed)))
      ensures !ok ==> var t := After(old(AtCleanup(call, installed)), steps).value;
        t.holder.Some? && t.holder.value.pc.Removing? && t.holder.value.pc.installed == installed
        && t.holder.value.call == call && t.fs == fs && t.root == root
    {
      hide After, IsHash, IsManaged, CopyFile, RunCommand, Promote, Finish, Validates, Thrown, StageName, DeleteItem,
        Swept, Cleans, Cleaned;
      var todo := if call.keepOld then {} else fs.Keys;
      ghost var s := At(call, Cleaning(todo, installed));
      ghost var t := s;
      After0(s);
      ok, steps := true, [];
      SweepStarts(root, fs, call, luck);
      while todo != {}
        invariant ok && (call.keepOld ==> todo == {})
        invariant After(s, steps) == Some(t) && t == At(call, Cleaning(todo, installed))
        invariant call.hash in fs && fs[call.hash] == old(fs)[call.hash]
        invariant call.keepOld ==> fs == old(fs)
        invariant !call.keepOld ==> Swept(root, old(fs), fs, todo, call, luck)
        decreases todo
      {
        var child :| child in todo;
        SweepOn(root, old(fs), fs, todo, call, luck, child);
        t, steps := Do(s, steps, t, Pick(child));
        todo := todo - {child};
        if child != call.hash && IsManaged(root, child, fs[child]) {
          IsManagedDirectory(root, child, fs[child]);
          ghost var more;
          ok, more := RemoveTree(call, t.holder.value.pc, child, luck);
          AfterRuns(s, steps, more);
          steps := steps + more;
          if !ok {
            return;
          }
          t := After(s, steps).value;
        }
      }
      SweepEnds(root, old(fs), fs, call, luck);
    }

    /** The lock held at `pc`, with a directory `name` of these parts put into `f`. */
    ghost function With(f: map<string, Entry>, name: string, parts: set<Part>, call: Call, pc: Pc): State {
      State(root, f[name := Directory(parts, NoMarker)], Some(Holder(call, pc)))
    }

    lemma StagingSteps(f: map<string, Entry>, stage: string, call: Call, luck: Luck)
      requires luck.Valid()
      ensures Next(With(f, stage, {}, call, CopyingProject(stage)), Copy)
           == Some(With(f, stage, {Pyproject}, call, CopyingLock(stage)))
      ensures Next(With(f, stage, {Pyproject}, call, CopyingLock(stage)), Copy)
           == Some(With(f, stage, {Pyproject, Lockfile}, call, Syncing(stage)))
      ensures luck.syncOk ==>
        Next(With(f, stage, {Pyproject, Lockfile}, call, Syncing(stage)), Run(luck.synced, true))
           == Some(With(f, stage, STAGED, call, Inspecting(stage)))
      ensures !luck.syncOk ==>
        Next(With(f, stage, {Pyproject, Lockfile}, call, Syncing(stage)), Run(luck.synced, false))
           == Some(With(f, stage, {Pyproject, Lockfile} + luck.synced, call, Unwinding(stage)))
    {
      hide IsHash, IsManaged, PickChild, DeleteItem, RemoveEmpty, Finish, Promote, Validates;
      assert {} + {Pyproject} == {Pyproject};
      assert {Pyproject} + {Lockfile} == {Pyproject, Lockfile};
      if luck.syncOk {
        assert {Pyproject, Lockfile} + luck.synced == STAGED;
      }
      forall a: set<Part>, b: set<Part>
        ensures f[stage := Directory(a, NoMarker)][stage := Directory(b, NoMarker)]
             == f[stage := Directory(b, NoMarker)]
      {
      }
    }

    lemma PromotionSteps(s: State, stage: string, call: Call)
      requires s.holder == Some(Holder(call, Inspecting(stage))) && !Validates(s, call)
      requires stage in s.fs && s.fs[stage] == Directory(STAGED, NoMarker)
      ensures call.hash in s.fs ==> Next(s, Inspect) == Some(Goto(s, Unwinding(stage)))
      ensures call.hash !in s.fs ==>
        && Next(s, Inspect) == Some(Goto(s, Renaming(stage)))
        && Next(Goto(s, Renaming(stage)), Raise) == Some(Goto(s, Unwinding(stage)))
        && Next(Goto(s, Renaming(stage)), Rename)
             == Some(With(Without(s.fs, stage), call.hash, STAGED, call, Installing))
      requires s.root == root
    {
      hide IsHash, IsManaged, PickChild, DeleteItem, RemoveEmpty, Finish, Validates;
    }

    /** The `try` block up to the rename: the stage filled, the final name looked for and taken. */
    method FillStage(call: Call, stage: string, luck: Luck) returns (error: Option<Error>, ghost steps: seq<Step>)
      requires luck.Valid() && stage in fs && fs[stage] == Directory({}, NoMarker) && stage != call.hash
      requires !Validates(Free(), call)
      modifies this
      ensures error.None? <==> luck.copies && luck.syncOk && luck.renames && call.hash !in old(fs)
      ensures error.None? ==>
        && call.hash !in old(fs)
        && fs == Without(old(fs), stage)[call.hash := Directory(STAGED, NoMarker)]
        && After(old(At(call, CopyingProject(stage))), steps) == Some(At(call, Installing))
      ensures error.Some? ==>
        && stage in fs && fs[stage].Directory? && Without(fs, stage) == Without(old(fs), stage)
        && (call.hash in old(fs) && luck.copies && luck.syncOk ==> error.value == Refused)
        && After(old(At(call, CopyingProject(stage))), steps) == Some(At(call, Unwinding(stage)))
    {
      hide After, IsHash, Next;
      ghost var s := At(call, CopyingProject(stage));
      ghost var t := s;
      After0(s);
      steps := [];
      if !luck.copies {
        RaiseThrows(t);
        t, steps := Do(s, steps, t, Raise);
        return Some(CopyFailed), steps;
      }
      StagingSteps(fs, stage, call, luck);
      assert fs[stage := Directory({}, NoMarker)] == fs;
      t, steps := Do(s, steps, t, Copy);
      t, steps := Do(s, steps, t, Copy);
      t, steps := Do(s, steps, t, Run(luck.synced, luck.syncOk));
      fs := fs[stage := Directory({Pyproject, Lockfile} + luck.synced, NoMarker)];
      if !luck.syncOk {
        return Some(CommandFailed), steps;
      }
      assert {Pyproject, Lockfile} + luck.synced == STAGED;
      PromotionSteps(t, stage, call);
      t, steps := Do(s, steps, t, Inspect);
      if call.hash in fs {
        return Some(Refused), steps;
      }
      if !luck.renames {
        t, steps := Do(s, steps, t, Raise);
        return Some(RenameFailed), steps;
      }
      t, steps := Do(s, steps, t, Rename);
      fs := Without(fs, stage)[call.hash := fs[stage]];
      StageIsGone(old(fs), stage, Directory(STAGED, NoMarker));
      return None, steps;
    }

    lemma FillingSteps(f: map<string, Entry>, call: Call, luck: Luck)
      requires luck.Valid()
      ensures Next(With(f, call.hash, STAGED, call, Installing), Run(luck.installed, luck.pipOk))
           == Some(With(f, call.hash, STAGED + luck.installed, call,
                        if luck.pipOk then Probing else Unwinding(call.hash)))
      ensures Next(With(f, call.hash, STAGED + luck.installed, call, Probing), Probe)
           == Some(With(f, call.hash, STAGED + luck.installed, call,
                        if Server in luck.installed then OpeningMarker else Unwinding(call.hash)))
    {
      hide IsHash, IsManaged, PickChild, DeleteItem, RemoveEmpty, Promote, CopyFile, Validates;
      assert f[call.hash := Directory(STAGED, NoMarker)][call.hash := Directory(STAGED + luck.installed, NoMarker)]
          == f[call.hash := Directory(STAGED + luck.installed, NoMarker)];
    }

    lemma MarkerSteps(s: State, call: Call)
      requires s.holder == Some(Holder(call, OpeningMarker)) && call.hash in s.fs && s.fs[call.hash].Directory?
      ensures var torn := Goto(Mark(s, call.hash, Unreadable), WritingMarker);
        var marked := Mark(s, call.hash, MarkerOf(s.root, call));
        && Next(s, OpenMarker) == Some(torn)
        && Next(torn, Raise) == Some(Goto(torn, Unwinding(call.hash)))
        && Next(torn, CloseMarker)
             == Some(Goto(marked, Cleaning(if call.keepOld then {} else marked.fs.Keys, true)))
    {
      hide IsHash, IsManaged, PickChild, DeleteItem, RemoveEmpty, Promote, CopyFile, Validates;
      var torn := Goto(Mark(s, call.hash, Unreadable), WritingMarker);
      assert Mark(torn, call.hash, MarkerOf(s.root, call)).fs == Mark(s, call.hash, MarkerOf(s.root, call)).fs;
    }

    /** The `try` block from the rename on: the package and the probe. */
    method InstallPackage(call: Call, luck: Luck) returns (error: Option<Error>, ghost steps: seq<Step>)
      requires luck.Valid() && call.hash in fs && fs[call.hash] == Directory(STAGED, NoMarker)
      modifies this
      ensures fs == old(fs)[call.hash := Directory(STAGED + luck.installed, NoMarker)]
      ensures error.None? <==> luck.pipOk && Server in luck.installed
      ensures After(old(At(call, Installing)), steps)
           == Some(At(call, if error.None? then OpeningMarker else Unwinding(call.hash)))
    {
      hide After, IsHash, IsManaged, Next;
      ghost var s := At(call, Installing);
      ghost var t := s;
      After0(s);
      steps := [];
      FillingSteps(fs, call, luck);
      assert fs[call.hash := Directory(STAGED, NoMarker)] == fs;
      t, steps := Do(s, steps, t, Run(luck.installed, luck.pipOk));
      fs := fs[call.hash := Directory(STAGED + luck.installed, NoMarker)];
      if !luck.pipOk {
        return Some(CommandFailed), steps;
      }
      t, steps := Do(s, steps, t, Probe);
      error := if Server in luck.installed then None else Some(NotInstalled);
    }

    /** The end of the `try` block: the marker, then the cleanup of the other runtimes. */
    method MarkAndClean(call: Call, luck: Luck) returns (error: Option<Error>, ghost steps: seq<Step>)
      requires call.hash in fs && fs[call.hash] == Directory(ALL, NoMarker)
      modifies this
      ensures call.hash in fs && fs[call.hash].Directory?
      ensures error.None? <==> luck.markerOk && Cleans(root, old(fs), call, luck)
      ensures error.None? ==>
        && fs == Cleaned(root, old(fs)[call.hash := Directory(ALL, MarkerOf(root, call))], call)
        && fs[call.hash] == Directory(ALL, MarkerOf(root, call))
      ensures error == Some(MarkerFailed) ==> Without(fs, call.hash) == Without(old(fs), call.hash)
      ensures error.Some? ==> error == Some(MarkerFailed) || error == Some(RemovalFailed)
      ensures After(old(At(call, OpeningMarker)), steps)
           == Some(At(call, if error.None? then Cleaning({}, true) else Unwinding(call.hash)))
    {
      hide After, IsHash, IsManaged, Next;
      ghost var s := At(call, OpeningMarker);
      ghost var t := s;
      After0(s);
      steps := [];
      MarkerSteps(s, call);
      KeptIsNoMatter(root, fs, call, luck, Directory(ALL, MarkerOf(root, call)));
      t, steps := Do(s, steps, t, OpenMarker);
      if !luck.markerOk {
        fs := fs[call.hash := Directory(ALL, Unreadable)];
        t, steps := Do(s, steps, t, Raise);
        return Some(MarkerFailed), steps;
      }
      t, steps := Do(s, steps, t, CloseMarker);
      fs := fs[call.hash := Directory(ALL, MarkerOf(root, call))];
      assert t == At(call, Cleaning(if call.keepOld then {} else fs.Keys, true));
      ghost var more;
      var ok;
      ok, more := CleanupOldManagedRuntimes(call, true, luck);
      AfterRuns(s, steps, more);
      steps := steps + more;
      if !ok {
        t := After(s, steps).value;
        RaiseThrows(t);
        t, steps := Do(s, steps, t, Raise);
        return Some(RemovalFailed), steps;
      }
      return None, steps;
    }

    /** The `except` branch: `rmtree` with `ignore_errors`, then out of the lock. */
    method Unwind(call: Call, target: string, luck: Luck) returns (ghost steps: seq<Step>)
      requires target in fs && fs[target].Directory?
      modifies this
      ensures After(old(At(call, Unwinding(target))), steps) == Some(Free())
      ensures Without(fs, target) == Without(old(fs), target)
      ensures target !in luck.stuck ==> target !in fs
    {
      hide After, IsHash, IsManaged, Next;
      ghost var s := At(call, Unwinding(target));
      var ok;
      ok, steps := RemoveTree(call, Unwinding(target), target, luck);
      if !ok {
        ghost var t := After(s, steps).value;
        RaiseThrows(t);
        t, steps := Do(s, steps, t, Raise);
      }
    }

    /** The `try` block. On an exception, `target` is the directory that the handler takes down. */
    method TryInstall(call: Call, stage: string, luck: Luck)
      returns (error: Option<Error>, target: string, ghost steps: seq<Step>)
      requires luck.Valid() && stage in fs && fs[stage] == Directory({}, NoMarker) && stage != call.hash
      requires !Validates(Free(), call)
      modifies this
      ensures var rest := old(Without(fs, stage));
        error.None? <==>
          (luck.copies && luck.syncOk && luck.renames && luck.pipOk && Server in luck.installed && luck.markerOk
           && call.hash !in old(fs) && Cleans(root, rest, call, luck))
      ensures error.None? ==>
        && fs == Cleaned(root, old(Without(fs, stage))[call.hash := Directory(ALL, MarkerOf(root, call))], call)
        && call.hash in fs && fs[call.hash] == Directory(ALL, MarkerOf(root, call))
        && After(old(At(call, CopyingProject(stage))), steps) == Some(At(call, Cleaning({}, true)))
      ensures error.Some? ==>
        && (target == stage || (target == call.hash && call.hash !in old(fs)))
        && target in fs && fs[target].Directory?
        && (error.value != RemovalFailed ==> Without(fs, target) == old(Without(fs, stage)))
        && (call.hash in old(fs) && luck.copies && luck.syncOk ==> error.value == Refused)
        && After(old(At(call, CopyingProject(stage))), steps) == Some(At(call, Unwinding(target)))
    {
      hide After, IsHash, IsManaged, Next, Cleans, Cleaned, Validates;
      ghost var s, rest := At(call, CopyingProject(stage)), Without(fs, stage);
      ghost var more;
      error, steps := FillStage(call, stage, luck);
      if error.Some? {
        return error, stage, steps;
      }
      target := call.hash;
      StageIsGone(rest, call.hash, Directory(STAGED, NoMarker));
      error, more := InstallPackage(call, luck);
      AfterRuns(s, steps, more);
      steps := steps + more;
      PutTwice(rest, call.hash, Directory(STAGED, NoMarker), Directory(STAGED + luck.installed, NoMarker));
      StageIsGone(rest, call.hash, Directory(STAGED + luck.installed, NoMarker));
      if error.Some? {
        return error, target, steps;
      }
      assert STAGED + luck.installed == ALL;
      KeptIsNoMatter(root, rest, call, luck, Directory(ALL, NoMarker));
      PutTwice(rest, call.hash, Directory(ALL, NoMarker), Directory(ALL, MarkerOf(root, call)));
      error, more := MarkAndClean(call, luck);
      AfterRuns(s, steps, more);
      steps := steps + more;
    }

    /** `_install_managed_runtime`, with its `except` branch. */
    method InstallManagedRuntime(call: Call, luck: Luck) returns (r: Result<string, Error>, ghost steps: seq<Step>)
      requires luck.Valid() && IsHash(call.hash) && StageName(call.hash, luck.suffix) !in fs
      requires !Validates(Free(), call)
      modifies this
      ensures After(old(At(call, Verifying)), steps) == Some(Free())
      ensures r.Ok? ==> r.value == call.hash && call.hash in fs && fs[call.hash] == Directory(ALL, MarkerOf(root, call))
      ensures r.Ok? <==> Installs(call, luck) && call.hash !in old(fs) && Cleans(root, old(fs), call, luck)
      ensures r.Ok? ==> fs == Cleaned(root, old(fs)[call.hash := Directory(ALL, MarkerOf(root, call))], call)
      ensures r.Err? && r.error != RemovalFailed ==> forall n :: n in old(fs) ==> n in fs && fs[n] == old(fs)[n]
      ensures call.hash in old(fs) && luck.wheelSha == call.wheelSha && luck.copies && luck.syncOk ==> r == Err(Refused)
    {
      hide After, IsHash, IsManaged, Next;
      ghost var s := At(call, Verifying);
      ghost var t := s;
      After0(s);
      steps := [];
      if luck.wheelSha != call.wheelSha {
        RaiseThrows(t);
        t, steps := Do(s, steps, t, Raise);
        return Err(WheelMismatch), steps;
      }
      var stage := StageName(call.hash, luck.suffix);
      StageStarts(s, call, luck.suffix);
      t, steps := Do(s, steps, t, MakeStage(luck.suffix));
      fs := fs[stage := Directory({}, NoMarker)];
      StageIsGone(old(fs), stage, Directory({}, NoMarker));
      ghost var more;
      var error, target;
      error, target, more := TryInstall(call, stage, luck);
      AfterRuns(s, steps, more);
      steps := steps + more;
      if error.Some? {
        ghost var failed := fs;
        more := Unwind(call, target, luck);
        AfterRuns(s, steps, more);
        if error.value != RemovalFailed {
          OthersStay(old(fs), failed, fs, target);
        }
        return Err(error.value), steps + more;
      }
      t := After(s, steps).value;
      ReturnReleases(t);
      t, steps := Do(s, steps, t, Return);
      return Ok(call.hash), steps;
    }

    /** `ensure_vllm_runtime`: a run of steps from one free lock to the next. It returns only a runtime that
      * validates, and returns whenever there is one and the cleanup works, or there is nothing under its hash
      * and the install and the cleanup work. It never returns over a directory that does not validate.
      */
    method EnsureVllmRuntime(call: Call, luck: Luck) returns (r: Result<string, Error>, ghost steps: seq<Step>)
      requires luck.Valid() && IsHash(call.hash) && StageName(call.hash, luck.suffix) !in fs
      modifies this
      ensures After(old(Free()), steps) == Some(Free())
      ensures r.Ok? ==> r.value == call.hash && Validates(Free(), call)
      ensures old(Validates(Free(), call)) ==> (r.Ok? || r == Err(RemovalFailed)) && Validates(Free(), call)
      ensures r.Ok? <==>
        && Cleans(root, old(fs), call, luck)
        && (old(Validates(Free(), call)) || (call.hash !in old(fs) && Installs(call, luck)))
      ensures r.Ok? ==> fs == Cleaned(root,
        if call.hash in old(fs) then old(fs) else old(fs)[call.hash := Directory(ALL, MarkerOf(root, call))], call)
    {
      hide After, IsHash, IsManaged, Next;
      ghost var s := Free();
      ghost var t := s;
      After0(s);
      LockAndLook(s, call);
      t, steps := Do(s, [], t, Begin(call));
      t, steps := Do(s, steps, t, Look);
      ghost var more;
      if Validates(State(root, fs, None), call) {
        var ok;
        ok, more := CleanupOldManagedRuntimes(call, false, luck);
        AfterRuns(s, steps, more);
        steps := steps + more;
        t := After(s, steps).value;
        if ok {
          ReturnReleases(t);
          t, steps := Do(s, steps, t, Return);
          return Ok(call.hash), steps;
        }
        RaiseThrows(t);
        t, steps := Do(s, steps, t, Raise);
        return Err(RemovalFailed), steps;
      }
      r, more := InstallManagedRuntime(call, luck);
      AfterRuns(s, steps, more);
      steps := steps + more;
      assert r.Ok? ==> IsManaged(root, call.hash, fs[call.hash]) by { MarkedIsManaged(root, call); }
    }

    lemma StageStarts(s: State, call: Call, suffix: string)
      requires s.holder == Some(Holder(call, Verifying)) && StageName(call.hash, suffix) !in s.fs && IsHash(call.hash)
      ensures var stage := StageName(call.hash, suffix);
        && stage != call.hash
        && Next(s, MakeStage(suffix)) == Some(With(s.fs, stage, {}, call, CopyingProject(stage)))
      requires s.root == root
    {
      StageIsNoHash(Holder(call, Verifying), StageName(call.hash, suffix))
        by { assert IsStage(Holder(call, Verifying), StageName(call.hash, suffix)); }
    }
  }

  lemma StageIsGone(f: map<string, Entry>, stage: string, e: Entry)
    ensures Without(f[stage := e], stage) == Without(f, stage)
    ensures stage !in f ==> Without(f, stage) == f
  {
  }

  lemma PutTwice(f: map<string, Entry>, name: string, d: Entry, e: Entry)
    ensures f[name := d][name := e] == f[name := e]
  {
  }

  /** Where only `target` was touched on the way, and it was not there before, everything is as before. */
  lemma OthersStay(before: map<string, Entry>, failed: map<string, Entry>, after: map<string, Entry>, target: string)
    requires target !in before && Without(failed, target) == before && Without(after, target) == Without(failed, target)
    ensures forall n :: n in before ==> n in after && after[n] == before[n]
  {
    forall n | n in before
      ensures n in after && after[n] == before[n]
    {
      assert n in Without(after, target);
    }
  }

  lemma LockAndLook(s: State, call: Call)
    requires s.holder.None? && IsHash(call.hash)
    ensures var locked := State(s.root, s.fs, Some(Holder(call, Checking)));
      && Next(s, Begin(call)) == Some(locked)
      && Next(locked, Look) == Some(Goto(locked,
           if Validates(s, call) then Cleaning(if call.keepOld then {} else s.fs.Keys, false) else Verifying))
  {
    hide IsHash, IsManaged;
  }

  lemma MarkedIsManaged(root: string, call: Call)
    requires IsHash(call.hash)
    ensures IsManaged(root, call.hash, Directory(ALL, MarkerOf(root, call)))
  {
  }

  lemma RaiseThrows(s: State)
    requires s.holder.Some?
    ensures Next(s, Raise) == Some(Thrown(s))
  {
  }

  lemma ReturnReleases(s: State)
    requires s.holder.Some? && s.holder.value.pc.Cleaning? && s.holder.value.pc.todo == {}
    ensures Next(s, Return) == Some(Released(s))
  {
  }

  lemma IsManagedDirectory(root: string, name: string, e: Entry)
    requires IsManaged(root, name, e)
    ensures e.Directory?
  {
  }
}
