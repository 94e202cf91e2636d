/** The managed vLLM runtime: a cache directory changed step by step by callers that hold one lock.
  *
  * A caller may raise or be killed between any two steps; killing it frees the lock and runs no
  * handler. A step is one effect on the directory, or one decision read from it.
  */
module RuntimeInstall {

  import opened Wrappers

  const RUNTIME_PACKAGE := "art-vllm-runtime"
  const RUNTIME_INSTALL_MARKER := "openpipe-art-vllm-runtime"
  const HEX_DIGITS := "0123456789abcdef"

  /** What an install puts into a runtime directory, besides `install.json`. */
  datatype Part = Pyproject | Lockfile | Dependencies | VenvConfig | Package | Server

  const STAGED: set<Part> := {Pyproject, Lockfile, Dependencies, VenvConfig}
  const ALL: set<Part> := {Pyproject, Lockfile, Dependencies, VenvConfig, Package, Server}

  /** `install.json`: absent, there but not parseable, or read back. */
  datatype Marker =
    | NoMarker
    | Unreadable
    | Readable(managedBy: string, runtimePackage: string, runtimeVersion: string, protocolVersion: int,
               manifestHash: string, wheelSha: string, cacheRoot: string)

  /** A child of the cache directory: a directory of its own, or anything else (a file, a link). */
  datatype Entry = NotOwnDirectory | Directory(parts: set<Part>, marker: Marker)

  /** One call of `ensure_vllm_runtime`: its manifest, the manifest's hash, ART_VLLM_RUNTIME_KEEP_OLD. */
  datatype Call = Call(hash: string, runtimeVersion: string, protocolVersion: int, wheelSha: string, keepOld: bool)

  /** Where the lock's holder is. */
  datatype Pc =
    | Checking
    | Verifying
    | CopyingProject(stage: string)
    | CopyingLock(stage: string)
    | Syncing(stage: string)
    | Inspecting(stage: string)
    | Discarding(stage: string)
    | Renaming(stage: string)
    | Installing
    | Probing
    | OpeningMarker
    | WritingMarker
    | Cleaning(todo: set<string>, installed: bool)
    | Removing(victim: string, todo: set<string>, installed: bool)
    | Unwinding(target: string)

  datatype Holder = Holder(call: Call, pc: Pc)

  datatype State = State(root: string, fs: map<string, Entry>, holder: Option<Holder>)

  datatype Item = APart(part: Part) | TheMarker

  datatype Step =
    | Begin(call: Call)
    | Look
    | MakeStage(suffix: string)
    | Copy
    | Run(made: set<Part>, ok: bool)
    | Inspect
    | Rename
    | Probe
    | OpenMarker
    | CloseMarker
    | Pick(name: string)
    | Delete(name: string, item: Item)
    | RemoveDir(name: string)
    | Return
    | Raise
    | Kill

  // ---------- What the checks read ----------

  predicate IsHash(name: string) {
    |name| == 64 && forall i :: 0 <= i < 64 ==> name[i] in HEX_DIGITS
  }

  /** `mkdtemp(prefix=f".{hash}.tmp-")`. */
  function StageName(hash: string, suffix: string): string {
    "." + hash + ".tmp-" + suffix
  }

  predicate IsManaged(root: string, name: string, e: Entry) {
    && e.Directory?
    && IsHash(name)
    && e.marker.Readable?
    && e.marker.managedBy == RUNTIME_INSTALL_MARKER
    && e.marker.runtimePackage == RUNTIME_PACKAGE
    && e.marker.manifestHash == name
    && e.marker.cacheRoot == root
    && VenvConfig in e.parts
  }

  predicate Managed(s: State, name: string) {
    name in s.fs && IsManaged(s.root, name, s.fs[name])
  }

  predicate Validates(s: State, call: Call) {
    && Managed(s, call.hash)
    && s.fs[call.hash].marker.runtimeVersion == call.runtimeVersion
    && s.fs[call.hash].marker.protocolVersion == call.protocolVersion
    && s.fs[call.hash].marker.wheelSha == call.wheelSha
    && Server in s.fs[call.hash].parts
  }

  predicate IsHexDigit(c: char) {
    '0' <= c <= '9' || 'a' <= c <= 'f'
  }

  lemma HexDigits(c: char)
    ensures c in HEX_DIGITS <==> IsHexDigit(c)
  {
    assert HEX_DIGITS[0] == '0' && HEX_DIGITS[1] == '1' && HEX_DIGITS[2] == '2' && HEX_DIGITS[3] == '3';
    assert HEX_DIGITS[4] == '4' && HEX_DIGITS[5] == '5' && HEX_DIGITS[6] == '6' && HEX_DIGITS[7] == '7';
    assert HEX_DIGITS[8] == '8' && HEX_DIGITS[9] == '9' && HEX_DIGITS[10] == 'a' && HEX_DIGITS[11] == 'b';
    assert HEX_DIGITS[12] == 'c' && HEX_DIGITS[13] == 'd' && HEX_DIGITS[14] == 'e' && HEX_DIGITS[15] == 'f';
  }

  lemma HashIff(name: string)
    ensures IsHash(name) <==> |name| == 64 && forall i :: 0 <= i < 64 ==> IsHexDigit(name[i])
  {
    hide IsHexDigit;
    forall c
      ensures c in HEX_DIGITS <==> IsHexDigit(c)
    {
      HexDigits(c);
    }
  }

  /** A directory is managed when its marker can be read and names ART, the runtime's package, the directory's own
    * name and this cache, and its virtual environment has a config; whatever versions the marker names.
    */
  lemma ManagedIff(root: string, name: string, e: Entry)
    ensures IsManaged(root, name, e) <==>
      && e.Directory? && IsHash(name) && VenvConfig in e.parts
      && exists version, protocol, wheel ::
           e.marker == Readable("openpipe-art-vllm-runtime", "art-vllm-runtime", version, protocol, name, wheel, root)
  {
    if e.Directory? && e.marker.Readable? {
      var m := e.marker;
      assert m == Readable(m.managedBy, m.runtimePackage, m.runtimeVersion, m.protocolVersion, m.manifestHash,
                           m.wheelSha, m.cacheRoot);
    }
  }

  /** A runtime validates when its marker is the very one that an install by this call writes, and both the virtual
    * environment's config and the server are there.
    */
  lemma ValidatesIff(s: State, call: Call)
    ensures Validates(s, call) <==>
      && IsHash(call.hash) && call.hash in s.fs && s.fs[call.hash].Directory?
      && s.fs[call.hash].marker ==
           Readable("openpipe-art-vllm-runtime", "art-vllm-runtime", call.runtimeVersion, call.protocolVersion,
                    call.hash, call.wheelSha, s.root)
      && VenvConfig in s.fs[call.hash].parts && Server in s.fs[call.hash].parts
  {
  }

  function MarkerOf(root: string, call: Call): Marker {
    Readable(RUNTIME_INSTALL_MARKER, RUNTIME_PACKAGE, call.runtimeVersion, call.protocolVersion, call.hash,
             call.wheelSha, root)
  }

  // ---------- Steps ----------

  function Goto(s: State, pc: Pc): State
    requires s.holder.Some?
  {
    s.(holder := Some(Holder(s.holder.value.call, pc)))
  }

  function Released(s: State): State {
    s.(holder := None)
  }

  function Add(s: State, name: string, made: set<Part>): State
    requires name in s.fs && s.fs[name].Directory?
  {
    s.(fs := s.fs[name := s.fs[name].(parts := s.fs[name].parts + made)])
  }

  function Mark(s: State, name: string, m: Marker): State
    requires name in s.fs && s.fs[name].Directory?
  {
    s.(fs := s.fs[name := s.fs[name].(marker := m)])
  }

  function Without(fs: map<string, Entry>, name: string): map<string, Entry> {
    map n | n in fs && n != name :: fs[n]
  }

  /** The directory that a `rmtree` in progress is taking apart. */
  function Doomed(pc: Pc): Option<string> {
    match pc
    case Discarding(stage) => Some(stage)
    case Removing(victim, _, _) => Some(victim)
    case Unwinding(target) => Some(target)
    case _ => None
  }

  /** The directory that this call is filling, which its `except` branch takes down. */
  function Owned(h: Holder): Option<string> {
    match h.pc
    case Checking | Verifying => None
    case CopyingProject(stage) => Some(stage)
    case CopyingLock(stage) => Some(stage)
    case Syncing(stage) => Some(stage)
    case Inspecting(stage) => Some(stage)
    case Discarding(stage) => Some(stage)
    case Renaming(stage) => Some(stage)
    case Installing | Probing | OpeningMarker | WritingMarker => Some(h.call.hash)
    case Cleaning(_, installed) => if installed then Some(h.call.hash) else None
    case Removing(_, _, installed) => if installed then Some(h.call.hash) else None
    case Unwinding(_) => None
  }

  /** A stage's name tells its hash and its suffix, and begins as the source has it. */
  lemma StageTells(hash: string, suffix: string, other: string, another: string)
    ensures var name := StageName(hash, suffix);
      |name| == |hash| + |suffix| + 6 && name[0] == '.' && name[1..1 + |hash|] == hash
      && name[1 + |hash|..6 + |hash|] == ".tmp-" && name[6 + |hash|..] == suffix
    ensures |hash| == |other| && StageName(hash, suffix) == StageName(other, another) ==>
      hash == other && suffix == another
  {
    var name, second := StageName(hash, suffix), StageName(other, another);
    assert name == "." + hash + ".tmp-" + suffix && second == "." + other + ".tmp-" + another;
    assert name[1..1 + |hash|] == hash && name[6 + |hash|..] == suffix;
    assert second[1..1 + |other|] == other && second[6 + |other|..] == another;
  }

  /** What an exception leads to: the `except` branch of the install, or straight out of the lock. */
  function Thrown(s: State): State
    requires s.holder.Some?
  {
    match Owned(s.holder.value)
    case Some(target) => Goto(s, Unwinding(target))
    case None => Released(s)
  }

  /** `uv sync` and `uv pip install`: they make some parts, all that matter when they succeed. */
  function RunCommand(s: State, made: set<Part>, ok: bool): Option<State>
    requires s.holder.Some?
  {
    var h := s.holder.value;
    match h.pc
    case Syncing(stage) =>
      if stage in s.fs && s.fs[stage].Directory? && made <= {Dependencies, VenvConfig}
         && (ok ==> made == {Dependencies, VenvConfig}) then
        var t := Add(s, stage, made);
        Some(if ok then Goto(t, Inspecting(stage)) else Thrown(t))
      else
        None
    case Installing =>
      if h.call.hash in s.fs && s.fs[h.call.hash].Directory? && made <= {Package, Server}
         && (ok ==> Package in made) then
        var t := Add(s, h.call.hash, made);
        Some(if ok then Goto(t, Probing) else Thrown(t))
      else
        None
    case _ => None
  }

  function CopyFile(s: State): Option<State>
    requires s.holder.Some?
  {
    match s.holder.value.pc
    case CopyingProject(stage) =>
      if stage in s.fs && s.fs[stage].Directory?
      then Some(Goto(Add(s, stage, {Pyproject}), CopyingLock(stage)))
      else None
    case CopyingLock(stage) =>
      if stage in s.fs && s.fs[stage].Directory?
      then Some(Goto(Add(s, stage, {Lockfile}), Syncing(stage)))
      else None
    case _ => None
  }

  /** Lines 585-599: look for the final directory, then rename the stage onto it. */
  function Promote(s: State, rename: bool): Option<State>
    requires s.holder.Some?
  {
    var h := s.holder.value;
    match h.pc
    case Inspecting(stage) =>
      if rename then None
      else if h.call.hash !in s.fs then Some(Goto(s, Renaming(stage)))
      else if Validates(s, h.call) then Some(Goto(s, Discarding(stage)))
      else Some(Thrown(s))
    case Renaming(stage) =>
      if !rename || stage !in s.fs then None
      else if h.call.hash in s.fs then Some(Thrown(s))
      else Some(Goto(s.(fs := Without(s.fs, stage)[h.call.hash := s.fs[stage]]), Installing))
    case _ => None
  }

  function Finish(s: State, step: Step): Option<State>
    requires s.holder.Some?
  {
    var h := s.holder.value;
    if h.call.hash !in s.fs || !s.fs[h.call.hash].Directory? then
      None
    else if step.Probe? && h.pc.Probing? then
      Some(if Server in s.fs[h.call.hash].parts then Goto(s, OpeningMarker) else Thrown(s))
    else if step.OpenMarker? && h.pc.OpeningMarker? then
      Some(Goto(Mark(s, h.call.hash, Unreadable), WritingMarker))
    else if step.CloseMarker? && h.pc.WritingMarker? then
      var t := Mark(s, h.call.hash, MarkerOf(s.root, h.call));
      Some(Goto(t, Cleaning(if h.call.keepOld then {} else t.fs.Keys, true)))
    else
      None
  }

  /** The next child of `iterdir`: passed over, or handed to `rmtree`. */
  function PickChild(s: State, name: string): Option<State>
    requires s.holder.Some?
  {
    var h := s.holder.value;
    match h.pc
    case Cleaning(todo, installed) =>
      if name !in todo then None
      else if name == h.call.hash || !Managed(s, name) then Some(Goto(s, Cleaning(todo - {name}, installed)))
      else Some(Goto(s, Removing(name, todo - {name}, installed)))
    case _ => None
  }

  function DeleteItem(s: State, name: string, item: Item): Option<State>
    requires s.holder.Some?
  {
    if Doomed(s.holder.value.pc) != Some(name) || name !in s.fs || !s.fs[name].Directory? then
      None
    else match item
      case TheMarker => if s.fs[name].marker.NoMarker? then None else Some(Mark(s, name, NoMarker))
      case APart(p) =>
        if p !in s.fs[name].parts then None
        else Some(s.(fs := s.fs[name := s.fs[name].(parts := s.fs[name].parts - {p})]))
  }

  function RemoveEmpty(s: State, name: string): Option<State>
    requires s.holder.Some?
  {
    if Doomed(s.holder.value.pc) != Some(name) || name !in s.fs || s.fs[name] != Directory({}, NoMarker) then
      None
    else
      var t := s.(fs := Without(s.fs, name));
      match s.holder.value.pc
      case Removing(_, todo, installed) => Some(Goto(t, Cleaning(todo, installed)))
      case _ => Some(Released(t))
  }

  /** The state after a step, or None where the step is not possible. */
  function Next(s: State, step: Step): Option<State> {
    if step.Begin? then
      if s.holder.None? && IsHash(step.call.hash) then Some(s.(holder := Some(Holder(step.call, Checking)))) else None
    else if s.holder.None? then
      None
    else
      var h := s.holder.value;
      match step
      case Look =>
        if !h.pc.Checking? then None
        else if Validates(s, h.call) then
          Some(Goto(s, Cleaning(if h.call.keepOld then {} else s.fs.Keys, false)))
        else Some(Goto(s, Verifying))
      case MakeStage(suffix) =>
        var stage := StageName(h.call.hash, suffix);
        if !h.pc.Verifying? || stage in s.fs then None
        else Some(Goto(s.(fs := s.fs[stage := Directory({}, NoMarker)]), CopyingProject(stage)))
      case Copy => CopyFile(s)
      case Run(made, ok) => RunCommand(s, made, ok)
      case Inspect => Promote(s, false)
      case Rename => Promote(s, true)
      case Pick(name) => PickChild(s, name)
      case Delete(name, item) => DeleteItem(s, name, item)
      case RemoveDir(name) => RemoveEmpty(s, name)
      case Return => if h.pc.Cleaning? && h.pc.todo == {} then Some(Released(s)) else None
      case Raise => Some(Thrown(s))
      case Kill => Some(Released(s))
      case _ => Finish(s, step)
  }

  /** The state after a run of steps from `s`, or None where some step was not possible. */
  ghost function After(s: State, steps: seq<Step>): Option<State> {
    if steps == [] then Some(s)
    else
      match After(s, steps[..|steps| - 1])
      case None => None
      case Some(t) => Next(t, steps[|steps| - 1])
  }

  lemma {:induction false} AfterRuns(s: State, a: seq<Step>, b: seq<Step>)
    requires After(s, a).Some?
    ensures After(s, a + b) == After(After(s, a).value, b)
  {
    if b == [] {
      assert a + b == a;
    } else {
      AfterRuns(s, a, b[..|b| - 1]);
      assert (a + b)[..|a + b| - 1] == a + b[..|b| - 1];
    }
  }

  // ---------- What every reachable state keeps ----------

  ghost predicate IsStage(h: Holder, name: string) {
    exists suffix :: name == StageName(h.call.hash, suffix)
  }

  lemma StageIsNoHash(h: Holder, name: string)
    requires IsStage(h, name)
    ensures !IsHash(name)
  {
    var suffix :| name == StageName(h.call.hash, suffix);
    assert name[0] == '.';
  }

  /** The parts that the call's own directory certainly has, when the call is at `pc`. */
  function Certain(pc: Pc): set<Part> {
    match pc
    case CopyingLock(_) => {Pyproject}
    case Syncing(_) => {Pyproject, Lockfile}
    case Inspecting(_) => STAGED
    case Discarding(_) => {}
    case Renaming(_) => STAGED
    case Installing => STAGED
    case Probing => STAGED + {Package}
    case OpeningMarker => ALL
    case WritingMarker => ALL
    case _ => {}
  }

  ghost predicate Fills(s: State, pc: Pc, name: string, marker: Marker) {
    && name in s.fs
    && s.fs[name].Directory?
    && s.fs[name].marker == marker
    && Certain(pc) <= s.fs[name].parts
  }

  ghost predicate HolderOk(s: State, h: Holder)
    requires s.holder == Some(h)
  {
    && IsHash(h.call.hash)
    && match h.pc
       case Checking => true
       case Verifying => !Validates(s, h.call)
       case CopyingProject(stage) => IsStage(h, stage) && Fills(s, h.pc, stage, NoMarker) && !Validates(s, h.call)
       case CopyingLock(stage) => IsStage(h, stage) && Fills(s, h.pc, stage, NoMarker) && !Validates(s, h.call)
       case Syncing(stage) => IsStage(h, stage) && Fills(s, h.pc, stage, NoMarker) && !Validates(s, h.call)
       case Inspecting(stage) => IsStage(h, stage) && Fills(s, h.pc, stage, NoMarker) && !Validates(s, h.call)
       case Discarding(_) => false
       case Renaming(stage) => IsStage(h, stage) && Fills(s, h.pc, stage, NoMarker) && h.call.hash !in s.fs
       case Installing => Fills(s, h.pc, h.call.hash, NoMarker)
       case Probing => Fills(s, h.pc, h.call.hash, NoMarker)
       case OpeningMarker => Fills(s, h.pc, h.call.hash, NoMarker)
       case WritingMarker => Fills(s, h.pc, h.call.hash, Unreadable)
       case Cleaning(todo, installed) => Validates(s, h.call)
       case Removing(victim, todo, installed) =>
         && Validates(s, h.call)
         && victim != h.call.hash && victim in s.fs && s.fs[victim].Directory? && IsHash(victim)
       case Unwinding(target) =>
         && target in s.fs && s.fs[target].Directory?
         && (target == h.call.hash || IsStage(h, target))
  }

  ghost predicate Inv(s: State) {
    s.holder.Some? ==> HolderOk(s, s.holder.value)
  }

  /** No call is ever stuck: wherever its holder is, it can take a step that is no exception and no kill, given a
    * name for its stage that is free. A cleanup passes over what it should keep, and removes the rest.
    */
  lemma HolderGoesOn(s: State, suffix: string) returns (step: Step)
    requires Inv(s) && s.holder.Some? && StageName(s.holder.value.call.hash, suffix) !in s.fs
    ensures Next(s, step).Some? && !step.Raise? && !step.Kill? && !step.Begin?
  {
    hide IsHash, IsManaged, Validates;
    match s.holder.value.pc
    case Checking => step := Look;
    case Verifying => step := MakeStage(suffix);
    case CopyingProject(_) => step := Copy;
    case CopyingLock(_) => step := Copy;
    case Syncing(_) => step := Run({Dependencies, VenvConfig}, true);
    case Inspecting(_) => step := Inspect;
    case Renaming(_) => step := Rename;
    case Installing => step := Run({Package}, true);
    case Probing => step := Probe;
    case OpeningMarker => step := OpenMarker;
    case WritingMarker => step := CloseMarker;
    case Cleaning(todo, _) =>
      if todo == {} {
        step := Return;
      } else {
        var name :| name in todo;
        step := Pick(name);
        PickingMeans(s, name);
      }
    case Removing(victim, _, _) => step := RemovalGoesOn(s, victim);
    case Unwinding(target) => step := RemovalGoesOn(s, target);
  }

  lemma RemovalGoesOn(s: State, name: string) returns (step: Step)
    requires s.holder.Some? && Doomed(s.holder.value.pc) == Some(name) && name in s.fs && s.fs[name].Directory?
    ensures Next(s, step).Some? && (step.Delete? || step.RemoveDir?)
  {
    if s.fs[name].marker != NoMarker {
      step := Delete(name, TheMarker);
    } else if s.fs[name].parts != {} {
      var p :| p in s.fs[name].parts;
      step := Delete(name, APart(p));
    } else {
      step := RemoveDir(name);
    }
  }

  /** A cleanup removes a child exactly when it is managed and not the one to keep. */
  lemma PickingMeans(s: State, name: string)
    requires s.holder.Some? && s.holder.value.pc.Cleaning? && name in s.holder.value.pc.todo
    ensures var h, left := s.holder.value, s.holder.value.pc.todo - {name};
      var goes := name != h.call.hash && name in s.fs && IsManaged(s.root, name, s.fs[name]);
      Next(s, Pick(name)) ==
        Some(State(s.root, s.fs, Some(Holder(h.call,
          if goes then Removing(name, left, h.pc.installed) else Cleaning(left, h.pc.installed)))))
  {
    hide IsManaged;
  }

  lemma StagingKeepsInv(s: State, step: Step)
    requires Inv(s) && Next(s, step).Some?
    requires step.MakeStage? || step.Copy? || step.Run? || step.Inspect? || step.Rename?
    ensures Inv(Next(s, step).value)
  {
    var h := s.holder.value;
    forall name | IsStage(h, name)
      ensures !IsHash(name)
    {
      StageIsNoHash(h, name);
    }
    if step.MakeStage? {
      assert IsStage(h, StageName(h.call.hash, step.suffix));
    }
  }

  lemma RemovalKeepsInv(s: State, step: Step)
    requires Inv(s) && Next(s, step).Some?
    requires step.Pick? || step.Delete? || step.RemoveDir?
    ensures Inv(Next(s, step).value)
  {
    hide CopyFile, RunCommand, Promote, Finish, Thrown;
    var h := s.holder.value;
    forall name | IsStage(h, name)
      ensures name != h.call.hash
    {
      StageIsNoHash(h, name);
    }
  }

  lemma OtherStepKeepsInv(s: State, step: Step)
    requires Inv(s) && Next(s, step).Some?
    requires !(step.MakeStage? || step.Copy? || step.Run? || step.Inspect? || step.Rename?)
    requires !(step.Pick? || step.Delete? || step.RemoveDir?)
    ensures Inv(Next(s, step).value)
  {
    hide CopyFile, RunCommand, Promote, PickChild, DeleteItem, RemoveEmpty;
  }

  /** The branch at lines 585-594 that finds a valid runtime after the lock was taken is never entered. */
  lemma StepKeepsInv(s: State, step: Step)
    requires Inv(s) && Next(s, step).Some?
    ensures Inv(Next(s, step).value)
  {
    hide Next, Inv;
    if step.MakeStage? || step.Copy? || step.Run? || step.Inspect? || step.Rename? {
      StagingKeepsInv(s, step);
    } else if step.Pick? || step.Delete? || step.RemoveDir? {
      RemovalKeepsInv(s, step);
    } else {
      OtherStepKeepsInv(s, step);
    }
  }

  lemma {:induction false} RunKeepsInv(s: State, steps: seq<Step>)
    requires Inv(s) && After(s, steps).Some?
    ensures Inv(After(s, steps).value)
  {
    hide Next, Inv;
    if steps == [] {
    } else {
      RunKeepsInv(s, steps[..|steps| - 1]);
      StepKeepsInv(After(s, steps[..|steps| - 1]).value, steps[|steps| - 1]);
    }
  }

  /** No call ever reaches the branch (lines 585-594) where the runtime appeared after the lock was taken,
    * and a call that returns does so with a runtime that validates.
    */
  lemma ExistingBranchUnreachable(s: State, steps: seq<Step>)
    requires s.holder.None? && After(s, steps).Some?
    ensures var t := After(s, steps).value;
      && (t.holder.Some? ==> !t.holder.value.pc.Discarding?)
      && (Next(t, Return).Some? ==> Validates(t, t.holder.value.call))
  {
    RunKeepsInv(s, steps);
  }
}
