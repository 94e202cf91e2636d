/** What holds over whole runs of the managed install: any calls, failures and kills, in any order. */
module RuntimeRuns {

  import opened Wrappers
  import opened RuntimeInstall

  // ---------- What a call leaves alone ----------

  /** The lock's holder is filling this directory, or taking it apart. */
  predicate Busy(s: State, name: string) {
    && s.holder.Some?
    && (Owned(s.holder.value) == Some(name) || Doomed(s.holder.value.pc) == Some(name))
  }

  predicate Same(s: State, t: State, name: string) {
    name in s.fs && name in t.fs && s.fs[name] == t.fs[name]
  }

  /** A directory that the holder is not busy with keeps its contents, and only a cleanup that finds it
    * managed, under another name than the one to keep, becomes busy with it.
    */
  lemma StepSpares(s: State, step: Step, name: string)
    requires Next(s, step).Some?
    requires name in s.fs && !Busy(s, name)
    ensures Same(s, Next(s, step).value, name)
    ensures Busy(Next(s, step).value, name) ==>
              step == Pick(name) && Managed(s, name) && name != s.holder.value.call.hash
  {
    hide IsManaged, IsHash, StageName, MarkerOf, Validates;
  }

  lemma StepIntroduces(s: State, step: Step, name: string)
    requires Next(s, step).Some? && name !in s.fs && name in Next(s, step).value.fs
    ensures s.holder.Some? && (name == s.holder.value.call.hash || IsStage(s.holder.value, name))
  {
    hide IsManaged, IsHash, MarkerOf, Validates;
    if step.MakeStage? {
      assert name == StageName(s.holder.value.call.hash, step.suffix);
    }
  }

  lemma StepKeepsCall(s: State, step: Step)
    requires Next(s, step).Some?
    ensures Next(s, step).value.root == s.root
    ensures s.holder.Some? && Next(s, step).value.holder.Some? ==>
              Next(s, step).value.holder.value.call == s.holder.value.call
  {
    hide IsManaged, IsHash, StageName, MarkerOf, Validates;
  }

  /** What a call with this run may have done to `name` by the time it is in state `t`. */
  ghost predicate WithinBounds(s: State, call: Call, steps: seq<Step>, t: State, name: string) {
    && t.root == s.root
    && (t.holder.Some? ==> t.holder.value.call == call)
    && (name in s.fs && (Busy(t, name) || !Same(s, t, name)) ==>
          Managed(s, name) && name != call.hash && Pick(name) in steps)
    && (name !in s.fs && name in t.fs ==> name == call.hash || IsStage(Holder(call, Checking), name))
  }

  lemma StepWithinBounds(s: State, call: Call, steps: seq<Step>, t: State, step: Step, name: string)
    requires WithinBounds(s, call, steps, t, name)
    requires Inv(t) && Next(t, step).Some? && !step.Begin?
    ensures WithinBounds(s, call, steps + [step], Next(t, step).value, name)
  {
    hide Next, Inv, Busy, IsManaged, IsStage;
    StepKeepsCall(t, step);
    StepNeedsHolder(t, step);
    if name in s.fs && Same(s, t, name) && !Busy(t, name) {
      StepSpares(t, step, name);
    }
    if name !in s.fs && name !in t.fs && name in Next(t, step).value.fs {
      StepIntroduces(t, step, name);
      SameStages(t.holder.value, Holder(call, Checking), name);
    }
  }

  lemma StepNeedsHolder(s: State, step: Step)
    requires Next(s, step).Some? && !step.Begin?
    ensures s.holder.Some?
  {
  }

  lemma SameStages(h: Holder, k: Holder, name: string)
    requires h.call == k.call
    ensures IsStage(h, name) == IsStage(k, name)
  {
  }

  /** Until its own cleanup picks it, what a call found in the cache keeps its contents; and what the call
    * adds is its stage or its hash's directory. So a call that fails before its cleanup removes nothing
    * that it did not make, and no call touches an unmanaged directory, or the directory of its own hash
    * when there was one.
    */
  lemma {:induction false} CallTouchesOnlyPicked(s: State, call: Call, steps: seq<Step>, name: string)
    requires Inv(s) && s.holder == Some(Holder(call, Checking))
    requires After(s, steps).Some? && (forall x :: x in steps ==> !x.Begin?)
    ensures WithinBounds(s, call, steps, After(s, steps).value, name)
  {
    hide Next, Inv, IsManaged, IsStage;
    if steps == [] {
    } else {
      var init, last := steps[..|steps| - 1], steps[|steps| - 1];
      assert steps == init + [last];
      CallTouchesOnlyPicked(s, call, init, name);
      RunKeepsInv(s, init);
      StepWithinBounds(s, call, init, After(s, init).value, last, name);
    }
  }

  /** Whatever is in the cache without being managed stays there, as it is, for good. */
  lemma {:induction false} UnmanagedIsForever(s: State, steps: seq<Step>, name: string)
    requires Inv(s) && After(s, steps).Some?
    requires name in s.fs && !Managed(s, name) && !Busy(s, name)
    ensures var t := After(s, steps).value;
      t.root == s.root && Same(s, t, name) && !Busy(t, name)
  {
    hide Next, Inv, Busy, IsManaged;
    if steps == [] {
    } else {
      var init, last := steps[..|steps| - 1], steps[|steps| - 1];
      UnmanagedIsForever(s, init, name);
      RunKeepsInv(s, init);
      StepKeepsCall(After(s, init).value, last);
      StepSpares(After(s, init).value, last, name);
    }
  }

  /** The directory has its final name and no marker that can be read. */
  predicate HalfInstalled(s: State) {
    && s.holder.Some?
    && var pc := s.holder.value.pc;
       pc.Installing? || pc.Probing? || pc.OpeningMarker? || pc.WritingMarker?
  }

  /** A call killed after the rename and before its marker can be read blocks its hash: whatever happens
    * later, the directory stays as it was and no call for that hash ever gets to return.
    */
  lemma HalfInstallRefuses(s: State, steps: seq<Step>)
    requires Inv(s) && HalfInstalled(s)
    requires After(s, [Kill] + steps).Some?
    ensures var hash, t := s.holder.value.call.hash, After(s, [Kill] + steps).value;
      && Same(s, t, hash)
      && (t.holder.Some? && t.holder.value.call.hash == hash ==> Next(t, Return).None?)
  {
    var hash := s.holder.value.call.hash;
    var k := Released(s);
    assert After(s, [Kill]) == Some(k) by {
      assert [Kill][..0] == [];
      assert After(s, []) == Some(s);
    }
    AfterRuns(s, [Kill], steps);
    UnmanagedIsForever(k, steps, hash);
    RunKeepsInv(k, steps);
    var t := After(k, steps).value;
    assert !Managed(t, hash);
  }

  // ---------- What a runtime that validates contains ----------

  /** The parts deleted from a directory of this name since there last was none. */
  ghost function Deleted(steps: seq<Step>, name: string): set<Part> {
    if steps == [] then {} else NextDeleted(Deleted(steps[..|steps| - 1], name), steps[|steps| - 1], name)
  }

  ghost function NextDeleted(d: set<Part>, step: Step, name: string): set<Part> {
    match step
    case Delete(n, APart(p)) => if n == name then d + {p} else d
    case RemoveDir(n) => if n == name then {} else d
    case _ => d
  }

  /** The lock is free, and every managed runtime in the cache is whole. */
  ghost predicate Sound(s: State) {
    && s.holder.None?
    && forall name :: Managed(s, name) ==> s.fs[name].parts == ALL
  }

  ghost predicate Accounted(s: State, d: set<Part>, name: string) {
    && (name !in s.fs ==> d == {})
    && (Managed(s, name) ==> s.fs[name].parts == ALL - d)
    && (HalfInstalled(s) && s.holder.value.call.hash == name ==> d == {})
  }

  lemma EveryPart(parts: set<Part>)
    ensures parts <= ALL
  {
    forall p | p in parts
      ensures p in ALL
    {
      match p {
        case Pyproject | Lockfile | Dependencies =>
        case VenvConfig | Package | Server =>
      }
    }
  }

  lemma DeletionKeepsAccounts(s: State, d: set<Part>, step: Step, name: string)
    requires Inv(s) && Next(s, step).Some? && IsHash(name) && Accounted(s, d, name)
    requires step.Delete? || step.RemoveDir?
    ensures Accounted(Next(s, step).value, NextDeleted(d, step, name), name)
  {
    if step.Delete? && step.item.APart? && name == step.name && Managed(s, name) {
      assert (ALL - d) - {step.item.part} == ALL - (d + {step.item.part});
    }
  }

  lemma StepKeepsAccounts(s: State, d: set<Part>, step: Step, name: string)
    requires Inv(s) && Next(s, step).Some? && IsHash(name) && Accounted(s, d, name)
    requires !(step.Delete? || step.RemoveDir?)
    ensures Accounted(Next(s, step).value, NextDeleted(d, step, name), name)
  {
    hide Next, Inv, Accounted, NextDeleted;
    if step.Rename? || step.Inspect? || step.MakeStage? {
      RenamingKeepsAccounts(s, d, step, name);
    } else if step.Copy? || step.Run? {
      FillingKeepsAccounts(s, d, step, name);
    } else if step.Probe? || step.OpenMarker? || step.CloseMarker? {
      MarkingKeepsAccounts(s, d, step, name);
    } else {
      OtherKeepsAccounts(s, d, step, name);
    }
  }

  lemma RenamingKeepsAccounts(s: State, d: set<Part>, step: Step, name: string)
    requires Inv(s) && Next(s, step).Some? && IsHash(name) && Accounted(s, d, name)
    requires step.Rename? || step.Inspect? || step.MakeStage?
    ensures Accounted(Next(s, step).value, NextDeleted(d, step, name), name)
  {
    hide IsHash, DeleteItem, RemoveEmpty, PickChild, Finish, CopyFile, RunCommand;
    var h := s.holder.value;
    forall stage | IsStage(h, stage)
      ensures stage != name
    {
      StageIsNoHash(h, stage);
    }
    if step.MakeStage? {
      assert IsStage(h, StageName(h.call.hash, step.suffix));
    }
  }

  lemma FillingKeepsAccounts(s: State, d: set<Part>, step: Step, name: string)
    requires Inv(s) && Next(s, step).Some? && IsHash(name) && Accounted(s, d, name)
    requires step.Copy? || step.Run?
    ensures Accounted(Next(s, step).value, NextDeleted(d, step, name), name)
  {
    hide IsHash, DeleteItem, RemoveEmpty, PickChild, Finish, Promote, StageName;
  }

  lemma MarkingKeepsAccounts(s: State, d: set<Part>, step: Step, name: string)
    requires Inv(s) && Next(s, step).Some? && IsHash(name) && Accounted(s, d, name)
    requires step.Probe? || step.OpenMarker? || step.CloseMarker?
    ensures Accounted(Next(s, step).value, NextDeleted(d, step, name), name)
  {
    hide IsHash, DeleteItem, RemoveEmpty, PickChild, Promote, CopyFile, RunCommand, StageName;
    EveryPart(s.fs[s.holder.value.call.hash].parts);
  }

  lemma OtherKeepsAccounts(s: State, d: set<Part>, step: Step, name: string)
    requires Inv(s) && Next(s, step).Some? && IsHash(name) && Accounted(s, d, name)
    requires step.Begin? || step.Look? || step.Pick? || step.Return? || step.Raise? || step.Kill?
    ensures Accounted(Next(s, step).value, NextDeleted(d, step, name), name)
  {
    hide IsHash, DeleteItem, RemoveEmpty, Promote, CopyFile, RunCommand, Finish, StageName;
  }

  lemma {:induction false} RunKeepsAccounts(s: State, steps: seq<Step>, name: string)
    requires Sound(s) && After(s, steps).Some? && IsHash(name)
    ensures Accounted(After(s, steps).value, Deleted(steps, name), name)
  {
    hide Next, Accounted, NextDeleted;
    if steps == [] {
      EmptyIsAccounted(s, name);
    } else {
      var init, last := steps[..|steps| - 1], steps[|steps| - 1];
      RunKeepsAccounts(s, init, name);
      RunKeepsInv(s, init);
      if last.Delete? || last.RemoveDir? {
        DeletionKeepsAccounts(After(s, init).value, Deleted(init, name), last, name);
      } else {
        StepKeepsAccounts(After(s, init).value, Deleted(init, name), last, name);
      }
    }
  }

  lemma EmptyIsAccounted(s: State, name: string)
    requires Sound(s)
    ensures Accounted(s, {}, name)
  {
  }

  /** A runtime that validates is a completed install less what `rmtree` has taken out of it: complete
    * exactly when nothing was deleted since its directory was made.
    */
  lemma ValidatingIsComplete(s: State, steps: seq<Step>, call: Call)
    requires Sound(s) && After(s, steps).Some? && Validates(After(s, steps).value, call)
    ensures After(s, steps).value.fs[call.hash].parts == ALL - Deleted(steps, call.hash)
    ensures After(s, steps).value.fs[call.hash].parts == ALL <==> Deleted(steps, call.hash) == {}
  {
    RunKeepsAccounts(s, steps, call.hash);
    if Deleted(steps, call.hash) != {} {
      var p :| p in Deleted(steps, call.hash);
      EveryPart({p});
      assert p in ALL;
    }
  }

  // ---------- Removals that run to their end ----------

  /** A kill, or an exception, in the middle of a `rmtree`. */
  predicate CutsShort(s: State, step: Step) {
    (step.Kill? || step.Raise?) && s.holder.Some? && Doomed(s.holder.value.pc).Some?
  }

  ghost predicate RemovalsFinish(s: State, steps: seq<Step>)
    requires After(s, steps).Some?
  {
    steps == [] ||
    (RemovalsFinish(s, steps[..|steps| - 1])
     && !CutsShort(After(s, steps[..|steps| - 1]).value, steps[|steps| - 1]))
  }

  /** Only the directory that is being removed has lost anything. */
  ghost predicate Intact(s: State, d: set<Part>, name: string) {
    d == {} || (s.holder.Some? && Doomed(s.holder.value.pc) == Some(name))
  }

  lemma StepKeepsIntact(s: State, d: set<Part>, step: Step, name: string)
    requires Inv(s) && Next(s, step).Some? && !CutsShort(s, step) && Intact(s, d, name)
    ensures Intact(Next(s, step).value, NextDeleted(d, step, name), name)
  {
    hide IsManaged, IsHash, StageName, MarkerOf, Validates;
  }

  lemma {:induction false} RunKeepsIntact(s: State, steps: seq<Step>, name: string)
    requires Sound(s) && After(s, steps).Some? && RemovalsFinish(s, steps)
    ensures Intact(After(s, steps).value, Deleted(steps, name), name)
  {
    hide Next, Intact, NextDeleted, CutsShort;
    if steps == [] {
      assert Intact(s, {}, name) by { NothingLost(s, name); }
    } else {
      var init, last := steps[..|steps| - 1], steps[|steps| - 1];
      RunKeepsIntact(s, init, name);
      RunKeepsInv(s, init);
      StepKeepsIntact(After(s, init).value, Deleted(init, name), last, name);
    }
  }

  lemma NothingLost(s: State, name: string)
    ensures Intact(s, {}, name)
  {
  }

  /** When no `rmtree` was cut short, a runtime that validates while the lock is free is complete. */
  lemma FinishedRemovalsAreSafe(s: State, steps: seq<Step>, call: Call)
    requires Sound(s) && After(s, steps).Some? && RemovalsFinish(s, steps)
    requires After(s, steps).value.holder.None? && Validates(After(s, steps).value, call)
    ensures After(s, steps).value.fs[call.hash].parts == ALL
  {
    RunKeepsIntact(s, steps, call.hash);
    ValidatingIsComplete(s, steps, call);
  }

  // ---------- Runs that exist ----------

  lemma Do(s: State, steps: seq<Step>, t: State, step: Step) returns (u: State, longer: seq<Step>)
    requires After(s, steps) == Some(t) && Next(t, step).Some?
    ensures longer == steps + [step] && u == Next(t, step).value && After(s, longer) == Some(u)
  {
    u, longer := Next(t, step).value, steps + [step];
    assert longer[..|longer| - 1] == steps;
  }

  lemma After0(s: State)
    ensures After(s, []) == Some(s)
  {
  }

  lemma StageCanSucceed(s: State, call: Call, suffix: string) returns (steps: seq<Step>)
    requires s.holder.None? && IsHash(call.hash) && call.hash !in s.fs
    requires StageName(call.hash, suffix) !in s.fs
    ensures var stage := StageName(call.hash, suffix);
      After(s, steps) == Some(State(s.root, s.fs[stage := Directory(STAGED, NoMarker)],
                                    Some(Holder(call, Renaming(stage)))))
  {
    hide After, IsHash, IsManaged, Thrown, MarkerOf;
    var stage := StageName(call.hash, suffix);
    assert stage[0] == '.';
    StageIsNoHash(Holder(call, Verifying), stage) by { assert IsStage(Holder(call, Verifying), stage); }
    After0(s);
    var t := s;
    steps := [];
    t, steps := Do(s, steps, t, Begin(call));
    t, steps := Do(s, steps, t, Look);
    t, steps := Do(s, steps, t, MakeStage(suffix));
    t, steps := Do(s, steps, t, Copy);
    t, steps := Do(s, steps, t, Copy);
    t, steps := Do(s, steps, t, Run({Dependencies, VenvConfig}, true));
    t, steps := Do(s, steps, t, Inspect);
    assert t.fs[stage].parts == STAGED;
    assert t.fs == s.fs[stage := Directory(STAGED, NoMarker)];
  }

  lemma PromotionCanSucceed(s: State, call: Call, stage: string) returns (steps: seq<Step>)
    requires s.holder == Some(Holder(call, Renaming(stage))) && call.hash !in s.fs
    requires stage in s.fs && s.fs[stage] == Directory(STAGED, NoMarker)
    ensures After(s, steps) ==
      Some(State(s.root, Without(s.fs, stage)[call.hash := Directory(ALL, NoMarker)], Some(Holder(call, Probing))))
  {
    hide After, IsHash, IsManaged, Thrown, CopyFile, PickChild, DeleteItem, RemoveEmpty, Finish;
    After0(s);
    var t;
    steps := [];
    t, steps := Do(s, steps, s, Rename);
    assert STAGED + {Package, Server} == ALL;
    t, steps := Do(s, steps, t, Run({Package, Server}, true));
    assert t.fs == Without(s.fs, stage)[call.hash := Directory(ALL, NoMarker)];
  }

  lemma MarkingCanSucceed(s: State, call: Call) returns (steps: seq<Step>)
    requires s.holder == Some(Holder(call, Probing)) && call.hash in s.fs
    requires s.fs[call.hash] == Directory(ALL, NoMarker)
    ensures var fs := s.fs[call.hash := Directory(ALL, MarkerOf(s.root, call))];
      After(s, steps) ==
        Some(State(s.root, fs, Some(Holder(call, Cleaning(if call.keepOld then {} else fs.Keys, true)))))
  {
    hide After, IsHash, IsManaged, Thrown, CopyFile, PickChild, DeleteItem, RemoveEmpty, RunCommand, Promote;
    After0(s);
    var t;
    steps := [];
    t, steps := Do(s, steps, s, Probe);
    t, steps := Do(s, steps, t, OpenMarker);
    t, steps := Do(s, steps, t, CloseMarker);
    assert t.fs == s.fs[call.hash := Directory(ALL, MarkerOf(s.root, call))];
  }

  /** From a free lock and no directory for its hash, a call can stage, promote and mark a whole runtime. */
  lemma InstallCanSucceed(s: State, call: Call, suffix: string) returns (steps: seq<Step>)
    requires s.holder.None? && IsHash(call.hash) && call.hash !in s.fs
    requires StageName(call.hash, suffix) !in s.fs
    ensures var fs := s.fs[call.hash := Directory(ALL, MarkerOf(s.root, call))];
      After(s, steps) ==
        Some(State(s.root, fs, Some(Holder(call, Cleaning(if call.keepOld then {} else fs.Keys, true)))))
  {
    hide After, IsHash, Next;
    var stage := StageName(call.hash, suffix);
    var staging := StageCanSucceed(s, call, suffix);
    var t := After(s, staging).value;
    StageIsNoHash(Holder(call, Verifying), stage) by { assert IsStage(Holder(call, Verifying), stage); }
    var promotion := PromotionCanSucceed(t, call, stage);
    AfterRuns(s, staging, promotion);
    var u := After(t, promotion).value;
    assert Without(t.fs, stage) == s.fs;
    var marking := MarkingCanSucceed(u, call);
    AfterRuns(s, staging + promotion, marking);
    steps := staging + promotion + marking;
    assert u.fs[call.hash := Directory(ALL, MarkerOf(s.root, call))]
        == s.fs[call.hash := Directory(ALL, MarkerOf(s.root, call))];
  }

  /** The converse of FinishedRemovalsAreSafe: a call killed while its cleanup takes an old runtime apart
    * can leave one that still validates and is not complete, with the lock free.
    */
  lemma CutShortRemovalValidates(root: string, prior: Call, call: Call) returns (steps: seq<Step>)
    requires IsHash(prior.hash) && IsHash(call.hash) && prior.hash != call.hash && prior.keepOld && !call.keepOld
    ensures Sound(State(root, map[], None)) && After(State(root, map[], None), steps).Some?
    ensures var t := After(State(root, map[], None), steps).value;
      && t.holder.None?
      && Validates(t, prior)
      && t.fs[prior.hash].parts == ALL - {Dependencies}
  {
    hide After, IsHash, Validates, IsManaged;
    var s := State(root, map[], None);
    StageIsNoHash(Holder(call, Verifying), StageName(call.hash, ""))
      by { assert IsStage(Holder(call, Verifying), StageName(call.hash, "")); }
    steps := InstallCanSucceed(s, prior, "");
    var t := After(s, steps).value;
    t, steps := Do(s, steps, t, Return);
    var second := InstallCanSucceed(t, call, "");
    AfterRuns(s, steps, second);
    t, steps := After(t, second).value, steps + second;
    var last := RemovalCanBeKilled(t, prior);
    AfterRuns(s, steps, last);
    steps := steps + last;
  }

  /** A cleanup that has just picked a whole runtime deletes one part of it, and is killed. */
  lemma RemovalCanBeKilled(t: State, prior: Call) returns (steps: seq<Step>)
    requires t.holder.Some? && t.holder.value.pc.Cleaning? && prior.hash in t.holder.value.pc.todo
    requires prior.hash != t.holder.value.call.hash && IsHash(prior.hash)
    requires prior.hash in t.fs && t.fs[prior.hash] == Directory(ALL, MarkerOf(t.root, prior))
    ensures After(t, steps).Some?
    ensures var u := After(t, steps).value;
      u.holder.None? && Validates(u, prior) && u.fs[prior.hash].parts == ALL - {Dependencies}
  {
    hide After, IsHash;
    After0(t);
    var u;
    steps := [];
    u, steps := Do(t, steps, t, Pick(prior.hash));
    u, steps := Do(t, steps, u, Delete(prior.hash, APart(Dependencies)));
    u, steps := Do(t, steps, u, Kill);
  }

  /** A removal in progress can always be brought to its end, and takes nothing but its own directory. */
  lemma RemovalCanFinish(s: State, name: string) returns (steps: seq<Step>)
    requires s.holder.Some? && Doomed(s.holder.value.pc) == Some(name) && name in s.fs && s.fs[name].Directory?
    ensures After(s, steps).Some? && After(s, steps).value.fs == Without(s.fs, name)
    ensures s.holder.value.pc.Unwinding? ==> After(s, steps).value.holder.None?
  {
    hide After, IsHash, IsManaged;
    After0(s);
    var t := s;
    steps := [];
    if !t.fs[name].marker.NoMarker? {
      t, steps := Do(s, steps, t, Delete(name, TheMarker));
    }
    while t.fs[name].parts != {}
      invariant After(s, steps) == Some(t) && t.holder == s.holder
      invariant name in t.fs && t.fs[name].Directory? && t.fs[name].marker.NoMarker?
      invariant Without(t.fs, name) == Without(s.fs, name)
      decreases t.fs[name].parts
    {
      var p :| p in t.fs[name].parts;
      t, steps := Do(s, steps, t, Delete(name, APart(p)));
    }
    t, steps := Do(s, steps, t, RemoveDir(name));
  }

  /** When the cleanup after an install raises, the `except` branch can take down the very runtime that the
    * call has just completed, and that validated.
    */
  lemma FailedCleanupUndoesTheInstall(s: State) returns (steps: seq<Step>)
    requires Inv(s) && s.holder.Some? && s.holder.value.pc.Removing? && s.holder.value.pc.installed
    ensures Validates(s, s.holder.value.call)
    ensures After(s, [Raise] + steps).Some?
    ensures var t := After(s, [Raise] + steps).value;
      t.holder.None? && t.fs == Without(s.fs, s.holder.value.call.hash)
  {
    hide IsHash;
    After0(s);
    var t, raised := Do(s, [], s, Raise);
    steps := RemovalCanFinish(t, s.holder.value.call.hash);
    AfterRuns(s, [Raise], steps);
  }
}
