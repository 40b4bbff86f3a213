/** The self-update protocol: one manifest file shared by an installed Agent and staged Agents.
  *
  * A run is any interleaving of boots, the update handler, the health confirmation of a new
  * connection, and crashes. Every file write may succeed, leave the old manifest, or lose both. */
module SelfUpdate {
  import opened Options
  import opened Version

  type Path = string

  datatype Progress = Pending | Attempting | Healthy
  datatype Manifest = Manifest(version: string, binary: Path, progress: Progress)
  datatype File = Absent | Unreadable | Present(manifest: Manifest)

  /** A replaced file is new, or still the old one, or gone: it is removed before a second rename. */
  datatype Write = Wrote | Kept | Lost

  /** A running executable: its built-in version, and its path when it is a staged one. */
  datatype Exe = Exe(version: string, path: Option<Path>)

  datatype Updater = Idle | Storing(update: Manifest) | Stored(path: Path)
    | Marking(update: Manifest) | Replacing(update: Manifest) | Undoing(update: Manifest)
  datatype Confirmer = Resting | Confirming(read: Manifest)
  datatype Process = Down
    | Booting(exe: Exe) | BootMarking(exe: Exe, target: Manifest)
    | BootReplacing(exe: Exe, target: Manifest) | BootUndoing(exe: Exe, target: Manifest)
    | Serving(exe: Exe, updater: Updater, confirmer: Confirmer)

  /** `unconfirmed[b]` counts the launches of `b` since it was last staged or confirmed healthy. */
  datatype State = State(base: string, file: File, process: Process, unconfirmed: map<Path, nat>)

  function Unconfirmed(s: State, b: Path): nat {
    if b in s.unconfirmed then s.unconfirmed[b] else 0
  }

  function Written(before: File, m: Manifest, w: Write): File {
    match w case Wrote => Present(m) case Kept => before case Lost => Absent
  }

  function Serve(exe: Exe): Process { Serving(exe, Idle, Resting) }

  // What the surroundings answer while a manifest is read.
  datatype Probe = Probe(hashMatches: bool, knowsItself: bool, removes: bool)

  predicate Own(exe: Exe, m: Manifest, p: Probe) { p.knowsItself && exe.path == Some(m.binary) }

  datatype Verdict = CarryOn | Discard | Launch(m: Manifest)

  /** The branches of a boot, in the order the program takes them. */
  ghost function Decide(file: File, exe: Exe, p: Probe): Verdict {
    match file
    case Absent => CarryOn
    case Unreadable => Discard
    case Present(m) =>
      if !p.hashMatches then Discard
      else if Own(exe, m, p) then CarryOn
      else if !Newer(exe.version, m.version) then Discard
      else if m.progress == Attempting then Discard
      else Launch(m)
  }

  datatype Step =
    | Boot
    | Install(version: string)
    | Crash
    | BootRead(probe: Probe)
    | BootMark(write: Write)
    | BootReplace(done: bool)
    | BootUndo(write: Write)
    | Stage(offer: Manifest, probe: Probe)
    | Store(write: Write)
    | Reread(probe: Probe)
    | Mark(write: Write)
    | Replace(done: bool)
    | Undo(write: Write)
    | ConfirmRead(probe: Probe)
    | Confirm(write: Write)

  function Renewed(s: State, b: Path, w: Write): map<Path, nat> {
    if w == Wrote then s.unconfirmed[b := 0] else s.unconfirmed
  }

  /** The process image becomes the staged binary, which starts from its own boot. */
  function Replaced(built: Path -> string, s: State, b: Path): State {
    s.(process := Booting(Exe(built(b), Some(b))), unconfirmed := s.unconfirmed[b := Unconfirmed(s, b) + 1])
  }

  ghost function BootStep(built: Path -> string, s: State, step: Step): State {
    match (s.process, step)
    case (Booting(exe), BootRead(p)) =>
      (match Decide(s.file, exe, p)
       case CarryOn => s.(process := Serve(exe))
       case Discard => s.(process := Serve(exe), file := if p.removes then Absent else s.file)
       case Launch(m) => s.(process := BootMarking(exe, m.(progress := Attempting))))
    case (BootMarking(exe, m), BootMark(w)) =>
      s.(file := Written(s.file, m, w), process := if w == Wrote then BootReplacing(exe, m) else Serve(exe))
    case (BootReplacing(exe, m), BootReplace(done)) =>
      if done then Replaced(built, s, m.binary)
      else s.(process := BootUndoing(exe, m.(progress := Pending)))
    case (BootUndoing(exe, m), BootUndo(w)) =>
      s.(file := Written(s.file, m, w), process := Serve(exe))
    case _ => s
  }

  ghost function UpdaterStep(built: Path -> string, s: State, step: Step): State
    requires s.process.Serving?
  {
    var exe := s.process.exe;
    match (s.process.updater, step)
    case (Idle, Stage(m, p)) =>
      if Newer(exe.version, m.version) && m.progress == Pending && !(p.hashMatches && Own(exe, m, p))
      then s.(process := s.process.(updater := Storing(m))) else s
    case (Storing(m), Store(w)) =>
      s.(file := Written(s.file, m, w), unconfirmed := Renewed(s, m.binary, w),
         process := s.process.(updater := if w == Wrote then Stored(m.binary) else Idle))
    case (Stored(path), Reread(p)) =>
      s.(process := s.process.(updater :=
        if s.file.Present? && s.file.manifest.binary == path && p.hashMatches
        then Marking(s.file.manifest.(progress := Attempting)) else Idle))
    case (Marking(m), Mark(w)) =>
      s.(file := Written(s.file, m, w), process := s.process.(updater := if w == Wrote then Replacing(m) else Idle))
    case (Replacing(m), Replace(done)) =>
      if done then Replaced(built, s, m.binary)
      else s.(process := s.process.(updater := Undoing(m.(progress := Pending))))
    case (Undoing(m), Undo(w)) =>
      s.(file := Written(s.file, m, w), process := s.process.(updater := Idle))
    case _ => s
  }

  ghost function ConfirmerStep(s: State, step: Step): State
    requires s.process.Serving?
  {
    match (s.process.confirmer, step)
    case (Resting, ConfirmRead(p)) =>
      if s.file.Present? && Own(s.process.exe, s.file.manifest, p) && s.file.manifest.progress != Healthy
      then s.(process := s.process.(confirmer := Confirming(s.file.manifest.(progress := Healthy)))) else s
    case (Confirming(m), Confirm(w)) =>
      s.(file := Written(s.file, m, w), unconfirmed := Renewed(s, m.binary, w),
         process := s.process.(confirmer := Resting))
    case _ => s
  }

  ghost function Apply(built: Path -> string, s: State, step: Step): State {
    match step
    case Boot => if s.process.Down? then s.(process := Booting(Exe(s.base, None))) else s
    case Install(version) => s.(base := version)
    case Crash => s.(process := Down)
    case ConfirmRead(_) => if s.process.Serving? then ConfirmerStep(s, step) else s
    case Confirm(_) => if s.process.Serving? then ConfirmerStep(s, step) else s
    case _ => if s.process.Serving? then UpdaterStep(built, s, step) else BootStep(built, s, step)
  }

  predicate Initial(s: State) { s.file == Absent && s.process == Down && s.unconfirmed == map[] }

  /** Every offered package carries the version that is built into its binary. */
  predicate Honest(built: Path -> string, step: Step) {
    step.Stage? ==> step.offer.version == built(step.offer.binary)
  }

  /** The update handler accepts an offer for the very file it is running from: the target is its own
    * path, and either the file no longer has its hash or the process cannot tell its own path. */
  ghost predicate StagesItself(s: State, step: Step) {
    && s.process.Serving? && s.process.updater.Idle? && step.Stage?
    && s.process.exe.path == Some(step.offer.binary)
    && Newer(s.process.exe.version, step.offer.version) && step.offer.progress == Pending
    && !(step.probe.hashMatches && Own(s.process.exe, step.offer, step.probe))
  }

  /** A run: each state follows from the one before by its step. */
  ghost predicate Behaviour(built: Path -> string, states: seq<State>, steps: seq<Step>) {
    Follows(built, states, steps) && Initial(states[0])
  }

  ghost predicate Follows(built: Path -> string, states: seq<State>, steps: seq<Step>) {
    |states| == |steps| + 1 && forall i | 0 <= i < |steps| :: states[i + 1] == Apply(built, states[i], steps[i])
  }

  // The launch bound, whatever the labels say.

  /** A manifest is about to be launched by another executable, which has not launched it yet. */
  predicate Fresh(s: State, m: Manifest) { Unconfirmed(s, m.binary) == 0 }

  predicate Foreign(s: State, b: Path)
    requires !s.process.Down?
  {
    s.process.exe.path != Some(b)
  }

  predicate UpdaterSound(s: State)
    requires s.process.Serving?
  {
    match s.process.updater
    case Idle => true
    case Storing(m) => Foreign(s, m.binary) && m.progress == Pending
    case Stored(path) => Foreign(s, path) && Unconfirmed(s, path) == 0
    case Marking(m) => Foreign(s, m.binary) && Fresh(s, m) && m.progress == Attempting
    case Replacing(m) => Foreign(s, m.binary) && Fresh(s, m)
      && (s.file.Present? && s.file.manifest.binary == m.binary ==> s.file.manifest.progress == Attempting)
    case Undoing(m) => Foreign(s, m.binary) && Fresh(s, m) && m.progress == Pending
  }

  predicate ProcessSound(s: State) {
    match s.process
    case Down => true
    case Booting(_) => true
    case BootMarking(_, m) => Fresh(s, m) && m.progress == Attempting
    case BootReplacing(_, m) => Fresh(s, m) && s.file == Present(m) && m.progress == Attempting
    case BootUndoing(_, m) => Fresh(s, m) && m.progress == Pending
    case Serving(exe, _, confirmer) =>
      && UpdaterSound(s)
      && (confirmer.Confirming? ==> exe.path == Some(confirmer.read.binary) && confirmer.read.progress == Healthy)
  }

  /** A manifest that may still be launched names a binary not launched since it was renewed. */
  predicate Inv(s: State) {
    && (s.file.Present? && s.file.manifest.progress != Attempting ==> Fresh(s, s.file.manifest))
    && (forall b | b in s.unconfirmed :: s.unconfirmed[b] <= 1)
    && ProcessSound(s)
  }

  lemma BootStepKeepsInv(built: Path -> string, s: State, step: Step)
    requires Inv(s) && !s.process.Serving?
    ensures Inv(BootStep(built, s, step))
  {
    hide Newer;
  }

  /** A late confirmation writes the running executable's own manifest, so it cannot hide the attempt
    * that the update handler is about to make. */
  lemma UpdaterStepKeepsInv(built: Path -> string, s: State, step: Step)
    requires Inv(s) && s.process.Serving? && !StagesItself(s, step)
    ensures Inv(UpdaterStep(built, s, step))
  {
    hide Newer;
  }

  lemma ConfirmerStepKeepsInv(s: State, step: Step)
    requires Inv(s) && s.process.Serving?
    ensures Inv(ConfirmerStep(s, step))
  {
    hide Newer;
  }

  lemma StepKeepsInv(built: Path -> string, s: State, step: Step)
    requires Inv(s) && !StagesItself(s, step)
    ensures Inv(Apply(built, s, step))
  {
    hide UpdaterStep, BootStep, ConfirmerStep, StagesItself;
    if s.process.Serving? {
      ConfirmerStepKeepsInv(s, step);
      UpdaterStepKeepsInv(built, s, step);
    } else {
      BootStepKeepsInv(built, s, step);
    }
  }

  lemma {:induction false} StateKeepsInv(built: Path -> string, states: seq<State>, steps: seq<Step>, k: nat)
    requires Behaviour(built, states, steps) && k < |states|
    requires forall i | 0 <= i < k :: !StagesItself(states[i], steps[i])
    ensures Inv(states[k])
  {
    if k > 0 {
      StateKeepsInv(built, states, steps, k - 1);
      StepKeepsInv(built, states[k - 1], steps[k - 1]);
    }
  }

  // The order of versions, when the labels are honest.

  predicate Labelled(built: Path -> string, m: Manifest) { m.version == built(m.binary) }

  ghost predicate Ahead(built: Path -> string, exe: Exe, m: Manifest) {
    Labelled(built, m) && Newer(exe.version, m.version)
  }

  ghost predicate Ordered(built: Path -> string, s: State) {
    && (s.file.Present? ==> Labelled(built, s.file.manifest))
    && (s.process.Down? || s.process.exe.path.None? || s.process.exe.version == built(s.process.exe.path.value))
    && match s.process
       case Down => true
       case Booting(_) => true
       case BootMarking(exe, m) => Ahead(built, exe, m)
       case BootReplacing(exe, m) => Ahead(built, exe, m)
       case BootUndoing(exe, m) => Ahead(built, exe, m)
       case Serving(exe, updater, confirmer) =>
         && (updater.Storing? || updater.Marking? || updater.Replacing? || updater.Undoing?
             ==> Ahead(built, exe, updater.update))
         && (updater.Stored? ==> Newer(exe.version, built(updater.path)))
         && (confirmer.Confirming? ==> Labelled(built, confirmer.read))
  }

  lemma StepKeepsOrder(built: Path -> string, s: State, step: Step)
    requires Ordered(built, s) && Honest(built, step)
    ensures Ordered(built, Apply(built, s, step))
  {
    hide Newer;
  }

  lemma {:induction false} StateKeepsOrder(built: Path -> string, states: seq<State>, steps: seq<Step>, k: nat)
    requires Behaviour(built, states, steps) && k < |states|
    requires forall i | 0 <= i < |steps| :: Honest(built, steps[i])
    ensures Ordered(built, states[k])
  {
    if k > 0 {
      StateKeepsOrder(built, states, steps, k - 1);
      StepKeepsOrder(built, states[k - 1], steps[k - 1]);
    }
  }

  /** With honest labels the order of versions rules out staging the running executable. */
  lemma HonestNeverStagesItself(built: Path -> string, states: seq<State>, steps: seq<Step>, k: nat)
    requires Behaviour(built, states, steps) && k < |steps|
    requires forall i | 0 <= i < |steps| :: Honest(built, steps[i])
    ensures !StagesItself(states[k], steps[k])
  {
    StateKeepsOrder(built, states, steps, k);
    if steps[k].Stage? { NewerIsStrictOrder(steps[k].offer.version, steps[k].offer.version, steps[k].offer.version); }
  }

  /** The step replaces the process image with the staged binary `b`. */
  predicate Launches(s: State, step: Step, b: Path) {
    || (s.process.BootReplacing? && step == BootReplace(true) && s.process.target.binary == b)
    || (s.process.Serving? && s.process.updater.Replacing? && step == Replace(true)
        && s.process.updater.update.binary == b)
  }

  /** The step stages `b`, or records that it is healthy. */
  predicate Renews(s: State, step: Step, b: Path) {
    && s.process.Serving?
    && ((s.process.updater.Storing? && step == Store(Wrote) && s.process.updater.update.binary == b)
        || (s.process.confirmer.Confirming? && step == Confirm(Wrote) && s.process.confirmer.read.binary == b))
  }

  lemma CountFollowsSteps(built: Path -> string, s: State, step: Step, b: Path)
    ensures Launches(s, step, b) ==> Unconfirmed(Apply(built, s, step), b) == Unconfirmed(s, b) + 1
    ensures !Renews(s, step, b) ==> Unconfirmed(Apply(built, s, step), b) >= Unconfirmed(s, b)
  {
  }

  lemma {:induction false} CountGrowsWithoutRenewal(built: Path -> string, states: seq<State>, steps: seq<Step>, i: nat,
      j: nat, b: Path)
    requires Behaviour(built, states, steps) && i < j < |states| && Launches(states[i], steps[i], b)
    requires forall k | i < k < j :: !Renews(states[k], steps[k], b)
    ensures Unconfirmed(states[j], b) >= 1
  {
    if i + 1 < j { CountGrowsWithoutRenewal(built, states, steps, i, j - 1, b); }
    CountFollowsSteps(built, states[j - 1], steps[j - 1], b);
  }

  lemma LaunchGoesToNewer(built: Path -> string, s: State, step: Step, b: Path)
    requires Ordered(built, s) && Launches(s, step, b)
    ensures Newer(s.process.exe.version, built(b))
  {
    hide Newer;
  }

  lemma LaunchIsFirst(built: Path -> string, s: State, step: Step, b: Path)
    requires Inv(s) && Launches(s, step, b)
    ensures Unconfirmed(s, b) == 0
    ensures Apply(built, s, step).process == Booting(Exe(built(b), Some(b)))
  {
    hide Newer;
  }

  /** Over every run in which the update handler does not stage the running executable, whatever the
    * packages are labelled and whatever crashes or fails: between two launches of one staged binary
    * it was staged again or confirmed healthy. */
  lemma AtMostOneLaunchPerConfirmation(built: Path -> string, states: seq<State>, steps: seq<Step>, i: nat, j: nat,
      b: Path)
    requires Behaviour(built, states, steps) && i < j < |steps|
    requires forall n | 0 <= n < j :: !StagesItself(states[n], steps[n])
    requires Launches(states[i], steps[i], b) && Launches(states[j], steps[j], b)
    ensures exists k | i < k < j :: Renews(states[k], steps[k], b)
    ensures states[j + 1].process == Booting(Exe(built(b), Some(b)))
  {
    StateKeepsInv(built, states, steps, j);
    LaunchIsFirst(built, states[j], steps[j], b);
    if forall k | i < k < j :: !Renews(states[k], steps[k], b) {
      CountGrowsWithoutRenewal(built, states, steps, i, j, b);
    }
  }

  /** Every manifest on its way to a launch is labelled newer than the executable that carries it. */
  ghost predicate Rising(s: State) {
    match s.process
    case Down => true
    case Booting(_) => true
    case BootMarking(exe, m) => Newer(exe.version, m.version)
    case BootReplacing(exe, m) => Newer(exe.version, m.version)
    case BootUndoing(exe, m) => Newer(exe.version, m.version)
    case Serving(exe, updater, _) =>
      && (updater.Storing? || updater.Marking? || updater.Replacing? || updater.Undoing?
          ==> Newer(exe.version, updater.update.version))
      && (updater.Stored? && s.file.Present? && s.file.manifest.binary == updater.path
          ==> Newer(exe.version, s.file.manifest.version))
  }

  lemma StepKeepsRising(built: Path -> string, s: State, step: Step)
    requires Inv(s) && Rising(s)
    ensures Rising(Apply(built, s, step))
  {
    hide Newer;
  }

  lemma {:induction false} StateIsRising(built: Path -> string, states: seq<State>, steps: seq<Step>, k: nat)
    requires Behaviour(built, states, steps) && k < |states|
    requires forall n | 0 <= n < k :: !StagesItself(states[n], steps[n])
    ensures Rising(states[k])
  {
    if k > 0 {
      StateIsRising(built, states, steps, k - 1);
      StateKeepsInv(built, states, steps, k - 1);
      StepKeepsRising(built, states[k - 1], steps[k - 1]);
    }
  }

  /** The manifest that a launch follows. */
  function Launched(s: State, step: Step, b: Path): (m: Manifest)
    requires Launches(s, step, b)
    ensures m.binary == b
  {
    if s.process.BootReplacing? then s.process.target else s.process.updater.update
  }

  /** Without honest labels, and in every run that does not stage the running executable: each launch
    * follows a manifest labelled strictly newer than the version that launches it. */
  lemma LaunchesFollowNewerLabels(built: Path -> string, states: seq<State>, steps: seq<Step>, k: nat, b: Path)
    requires Behaviour(built, states, steps) && k < |steps|
    requires forall n | 0 <= n < k :: !StagesItself(states[n], steps[n])
    requires Launches(states[k], steps[k], b)
    ensures Newer(states[k].process.exe.version, Launched(states[k], steps[k], b).version)
  {
    hide Newer;
    StateIsRising(built, states, steps, k);
  }

  /** With honest labels the bound holds in every run, and each launch goes to a newer version. */
  lemma HonestLaunchesAreBoundedAndNewer(built: Path -> string, states: seq<State>, steps: seq<Step>, i: nat, j: nat,
      b: Path)
    requires Behaviour(built, states, steps) && i < j < |steps|
    requires forall n | 0 <= n < |steps| :: Honest(built, steps[n])
    requires Launches(states[j], steps[j], b)
    ensures Newer(states[j].process.exe.version, built(b))
    ensures Launches(states[i], steps[i], b) ==> exists k | i < k < j :: Renews(states[k], steps[k], b)
  {
    StateKeepsOrder(built, states, steps, j);
    LaunchGoesToNewer(built, states[j], steps[j], b);
    forall n | 0 <= n < j ensures !StagesItself(states[n], steps[n]) {
      HonestNeverStagesItself(built, states, steps, n);
    }
    if Launches(states[i], steps[i], b) { AtMostOneLaunchPerConfirmation(built, states, steps, i, j, b); }
  }

  /** A launched binary that died before it was confirmed is not tried again: the installed one
    * drops its manifest and serves. */
  lemma UnconfirmedBinaryIsRolledBack(built: Path -> string, states: seq<State>, steps: seq<Step>, k: nat, probe: Probe)
    requires Behaviour(built, states, steps) && k < |states|
    requires forall n | 0 <= n < k :: !StagesItself(states[n], steps[n])
    requires states[k].process.Booting? && states[k].file.Present?
    requires Unconfirmed(states[k], states[k].file.manifest.binary) > 0
    requires states[k].process.exe.path != Some(states[k].file.manifest.binary)
    ensures var next := Apply(built, states[k], BootRead(probe));
      && next.process == Serve(states[k].process.exe)
      && next.file == if probe.removes then Absent else states[k].file
  {
    StateKeepsInv(built, states, steps, k);
  }

  lemma StepClimbs(built: Path -> string, s: State, step: Step)
    requires Ordered(built, s) && !s.process.Down? && !step.Crash?
    ensures var next := Apply(built, s, step);
      && !next.process.Down?
      && (next.process.exe == s.process.exe || Newer(s.process.exe.version, next.process.exe.version))
  {
    hide Newer;
    if s.process.BootReplacing? {
      if step == BootReplace(true) { LaunchGoesToNewer(built, s, step, s.process.target.binary); }
    } else if s.process.Serving? && s.process.updater.Replacing? {
      if step == Replace(true) { LaunchGoesToNewer(built, s, step, s.process.updater.update.binary); }
    }
  }

  /** Without a crash the process only ever moves to strictly newer executables, so launching ends. */
  lemma {:induction false} VersionsOnlyClimb(built: Path -> string, states: seq<State>, steps: seq<Step>, i: nat, j: nat)
    requires Behaviour(built, states, steps) && i <= j < |states| && !states[i].process.Down?
    requires forall n | 0 <= n < |steps| :: Honest(built, steps[n])
    requires forall n | i <= n < j :: !steps[n].Crash?
    ensures !states[j].process.Down?
    ensures states[j].process.exe == states[i].process.exe
      || Newer(states[i].process.exe.version, states[j].process.exe.version)
  {
    if i < j {
      VersionsOnlyClimb(built, states, steps, i, j - 1);
      StateKeepsOrder(built, states, steps, j - 1);
      StepClimbs(built, states[j - 1], steps[j - 1]);
      NewerIsStrictOrder(states[i].process.exe.version, states[j - 1].process.exe.version,
        states[j].process.exe.version);
    }
  }

  /** What marking, replacing and undoing leave in the file, and whether the image was replaced. */
  function Activation(before: File, m: Manifest, mark: Write, done: bool, undo: Write): (File, bool) {
    var trial := m.(progress := Attempting);
    if mark != Wrote then (Written(before, trial, mark), false)
    else if done then (Present(trial), true)
    else (Written(Present(trial), m.(progress := Pending), undo), false)
  }

  ghost function BootEffect(before: File, exe: Exe, p: Probe, mark: Write, done: bool, undo: Write): (File, bool) {
    match Decide(before, exe, p)
    case CarryOn => (before, false)
    case Discard => (if p.removes then Absent else before, false)
    case Launch(m) => Activation(before, m, mark, done, undo)
  }

  function StagedEffect(before: File, expected: Path, p: Probe, mark: Write, done: bool, undo: Write): (File, bool) {
    if before.Present? && before.manifest.binary == expected && p.hashMatches
    then Activation(before, before.manifest, mark, done, undo) else (before, false)
  }

  /** A boot that nothing interrupts is its four steps in a row. */
  lemma BootIsItsSteps(built: Path -> string, s: State, p: Probe, mark: Write, done: bool, undo: Write)
    requires s.process.Booting?
    ensures var end := BootStep(built, BootStep(built, BootStep(built, BootStep(built, s, BootRead(p)), BootMark(mark)),
        BootReplace(done)), BootUndo(undo));
      && (end.file, end.process.Booting?) == BootEffect(s.file, s.process.exe, p, mark, done, undo)
      && (end.process.Booting? || end.process == Serve(s.process.exe))
  {
    hide Newer;
    var read := BootStep(built, s, BootRead(p));
    if Decide(s.file, s.process.exe, p).Launch? {
      var marked := BootStep(built, read, BootMark(mark));
      if mark != Wrote { assert marked.process == Serve(s.process.exe); }
    } else {
      assert read.process == Serve(s.process.exe);
    }
  }

  lemma ActivationIsItsSteps(built: Path -> string, s: State, p: Probe, mark: Write, done: bool, undo: Write)
    requires s.process.Serving? && s.process.updater.Stored?
    ensures var marked := UpdaterStep(built, UpdaterStep(built, s, Reread(p)), Mark(mark));
      var replaced := UpdaterStep(built, marked, Replace(done));
      var end := if replaced.process.Serving? then UpdaterStep(built, replaced, Undo(undo)) else replaced;
      && (end.file, end.process.Booting?) == StagedEffect(s.file, s.process.updater.path, p, mark, done, undo)
      && (end.process.Booting? || end.process == s.process.(updater := Idle))
  {
    hide Newer;
  }

  /** The manifest file, as the three callers read and rewrite it. */
  class Updates {
    var file: File

    constructor ()
      ensures file == Absent
    {
      file := Absent;
    }

    method Write(m: Manifest, outcome: Write) returns (ok: bool)
      modifies this
      ensures ok == (outcome == Wrote) && file == Written(old(file), m, outcome)
    {
      match outcome
      case Wrote => file := Present(m); ok := true;
      case Kept => ok := false;
      case Lost => file := Absent; ok := false;
    }

    method Remove(works: bool)
      modifies this
      ensures file == if works then Absent else old(file)
    {
      if works { file := Absent; }
    }

    /** `launched` says that the process image was replaced and this call did not return. */
    method ActivateCurrentUpdate(exe: Exe, p: Probe, mark: Write, done: bool, undo: Write) returns (launched: bool)
      modifies this
      ensures (file, launched) == BootEffect(old(file), exe, p, mark, done, undo)
      ensures launched <==>
        old(file).Present? && p.hashMatches && !Own(exe, old(file).manifest, p)
        && Newer(exe.version, old(file).manifest.version) && old(file).manifest.progress != Attempting && mark == Wrote && done
      ensures old(file).Present? && !p.hashMatches ==> file == if p.removes then Absent else old(file)
    {
      hide Newer;
      launched := false;
      if file == Absent { return; }
      if file == Unreadable { Remove(p.removes); return; }
      var m := file.manifest;
      if !p.hashMatches { Remove(p.removes); return; }
      if Own(exe, m, p) { return; }
      var available := UpdateAvailable(exe.version, m.version);
      if !available { Remove(p.removes); return; }
      if m.progress == Attempting { Remove(p.removes); return; }
      m := m.(progress := Attempting);
      var ok := Write(m, mark);
      if !ok { return; }
      if !done {
        m := m.(progress := Pending);
        ok := Write(m, undo);
        return;
      }
      launched := true;
    }

    method ActivateStagedUpdate(expected: Path, p: Probe, mark: Write, done: bool, undo: Write) returns (launched: bool)
      modifies this
      ensures (file, launched) == StagedEffect(old(file), expected, p, mark, done, undo)
      ensures launched <==>
        old(file).Present? && old(file).manifest.binary == expected && p.hashMatches && mark == Wrote && done
    {
      launched := false;
      if !file.Present? { return; }
      var m := file.manifest;
      if m.binary != expected || !p.hashMatches { return; }
      m := m.(progress := Attempting);
      var ok := Write(m, mark);
      if !ok { return; }
      if !done {
        m := m.(progress := Pending);
        ok := Write(m, undo);
        return;
      }
      launched := true;
    }

    method ConfirmCurrentUpdate(exe: Exe, p: Probe, write: Write) returns (confirmed: bool)
      modifies this
      ensures var start := State("", old(file), Serve(exe), map[]);
        var read := ConfirmerStep(start, ConfirmRead(p));
        file == ConfirmerStep(read, Confirm(write)).file
        && (confirmed <==> read.process.confirmer.Confirming? && write == Wrote)
    {
      confirmed := false;
      if !file.Present? { return; }
      var m := file.manifest;
      if !Own(exe, m, p) || m.progress == Healthy { return; }
      m := m.(progress := Healthy);
      confirmed := Write(m, write);
    }
  }

  lemma Join(built: Path -> string, a: seq<State>, first: seq<Step>, b: seq<State>, second: seq<Step>)
    requires Follows(built, a, first) && Follows(built, b, second) && a[|first|] == b[0]
    ensures Follows(built, a + b[1..], first + second)
  {
  }

  lemma StagedAndLaunched(built: Path -> string, v0: string, b: Path) returns (states: seq<State>, steps: seq<Step>)
    requires Newer(v0, built(b))
    ensures Follows(built, states, steps) && |steps| == 7 && states[0] == State(v0, Absent, Down, map[])
    ensures var trial := Manifest(built(b), b, Attempting);
      && states[7].base == v0 && states[7].file == Present(trial)
      && states[7].process == Booting(Exe(built(b), Some(b)))
  {
    hide Newer;
    var p, q := Probe(true, true, true), Probe(false, true, true);
    var installed, offer := Exe(v0, None), Manifest(built(b), b, Pending);
    var trial := offer.(progress := Attempting);
    steps := [Boot, BootRead(p), Stage(offer, q), Store(Wrote), Reread(p), Mark(Wrote), Replace(true)];
    var zero := map[][b := 0];
    var marked := State(v0, Present(trial), Serving(installed, Replacing(trial), Resting), zero);
    states := [
      State(v0, Absent, Down, map[]), State(v0, Absent, Booting(installed), map[]),
      State(v0, Absent, Serve(installed), map[]), State(v0, Absent, Serving(installed, Storing(offer), Resting), map[]),
      State(v0, Present(offer), Serving(installed, Stored(b), Resting), zero),
      State(v0, Present(offer), Serving(installed, Marking(trial), Resting), zero), marked, Replaced(built, marked, b)];
  }

  lemma RestagedUnderItself(built: Path -> string, v0: string, v2: string, b: Path, s: State)
    returns (states: seq<State>, steps: seq<Step>)
    requires Newer(built(b), v2)
    requires s.base == v0 && s.file == Present(Manifest(built(b), b, Attempting))
    requires s.process == Booting(Exe(built(b), Some(b)))
    ensures Follows(built, states, steps) && |steps| == 7 && states[0] == s
    ensures StagesItself(states[2], steps[2]) && steps[2].offer.version == v2 && !steps[2].probe.hashMatches
    ensures var staged, m := Exe(built(b), Some(b)), Manifest(v2, b, Attempting);
      && states[7].base == v0 && states[7].file == Present(Manifest(built(b), b, Healthy))
      && states[7].process == Serving(staged, Replacing(m), Resting)
  {
    hide Newer;
    var p, q := Probe(true, true, true), Probe(false, true, true);
    var staged, again := Exe(built(b), Some(b)), Manifest(v2, b, Pending);
    var trial, retrial := s.file.manifest, again.(progress := Attempting);
    var well := trial.(progress := Healthy);
    var one, zero := s.unconfirmed, s.unconfirmed[b := 0];
    steps := [BootRead(p), ConfirmRead(p), Stage(again, q), Store(Wrote), Reread(p), Mark(Wrote), Confirm(Wrote)];
    states := [
      s, State(v0, Present(trial), Serve(staged), one),
      State(v0, Present(trial), Serving(staged, Idle, Confirming(well)), one),
      State(v0, Present(trial), Serving(staged, Storing(again), Confirming(well)), one),
      State(v0, Present(again), Serving(staged, Stored(b), Confirming(well)), zero),
      State(v0, Present(again), Serving(staged, Marking(retrial), Confirming(well)), zero),
      State(v0, Present(retrial), Serving(staged, Replacing(retrial), Confirming(well)), zero),
      State(v0, Present(well), Serving(staged, Replacing(retrial), Resting), zero[b := 0])];
  }

  lemma LaunchedTwice(built: Path -> string, v0: string, b: Path, s: State) returns (states: seq<State>, steps: seq<Step>)
    requires Newer(v0, built(b)) && s.base == v0 && s.file == Present(Manifest(built(b), b, Healthy))
    requires s.process.Serving? && s.process.updater.Replacing? && s.process.updater.update.binary == b
    ensures Follows(built, states, steps) && |steps| == 6 && states[0] == s
    ensures Launches(states[0], steps[0], b) && Launches(states[5], steps[5], b)
    ensures forall k | 0 < k < 5 :: !Renews(states[k], steps[k], b)
  {
    hide Newer;
    var installed, p := Exe(v0, None), Probe(true, true, true);
    var m := s.file.manifest;
    var trial := m.(progress := Attempting);
    steps := [Replace(true), Crash, Boot, BootRead(p), BootMark(Wrote), BootReplace(true)];
    var one := Replaced(built, s, b).unconfirmed;
    var last := State(v0, Present(trial), BootReplacing(installed, trial), one);
    states := [
      s, Replaced(built, s, b), State(v0, Present(m), Down, one),
      State(v0, Present(m), Booting(installed), one),
      State(v0, Present(m), BootMarking(installed, trial), one),
      last, Replaced(built, last, b)];
  }

  /** The condition is needed, for every installed version and every offer the handler accepts over
    * the running binary: when that binary's own file no longer has its hash, it is staged over itself,
    * a late confirmation hides the attempt, and it is launched twice after its last renewal. */
  lemma SelfStagedBinaryLaunchesTwice(built: Path -> string, v0: string, v2: string, b: Path)
    returns (states: seq<State>, steps: seq<Step>)
    requires Newer(v0, built(b)) && Newer(built(b), v2)
    ensures Behaviour(built, states, steps) && |steps| == 20
    ensures Launches(states[14], steps[14], b) && Launches(states[19], steps[19], b)
    ensures forall k | 14 < k < 19 :: !Renews(states[k], steps[k], b)
    ensures StagesItself(states[9], steps[9]) && steps[9].offer.version == v2 && !steps[9].probe.hashMatches
  {
    hide StagesItself, Renews, Newer, Apply;
    var s0, t0 := StagedAndLaunched(built, v0, b);
    var s1, t1 := RestagedUnderItself(built, v0, v2, b, s0[7]);
    var s2, t2 := LaunchedTwice(built, v0, b, s1[7]);
    Join(built, s0, t0, s1, t1);
    Join(built, s0 + s1[1..], t0 + t1, s2, t2);
    states, steps := s0 + s1[1..] + s2[1..], t0 + t1 + t2;
    assert states[9] == s1[2] && steps[9] == t1[2];
    forall k | 14 < k < 19 ensures !Renews(states[k], steps[k], b) {
      assert states[k] == s2[k - 14] && steps[k] == t2[k - 14];
    }
  }
}
