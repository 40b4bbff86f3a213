/** What has to be checked before a staged binary is launched, and that an update which passes every
  * check is launched, confirmed and launched again. */
module UpdateChecks {
  import opened Options
  import opened Version
  import opened SelfUpdate

  /** The step reads the manifest of `b` and finds that the binary matches its hash. */
  predicate Checks(s: State, step: Step, b: Path) {
    && ((s.process.Booting? && step.BootRead?) || (s.process.Serving? && step.Reread?))
    && step.probe.hashMatches && s.file.Present? && s.file.manifest.binary == b
  }

  /** From `j` to `k` one process has been running: no crash, and no other image. */
  ghost predicate OneProcess(states: seq<State>, steps: seq<Step>, j: nat, k: nat)
    requires j <= k < |states| && k <= |steps|
  {
    && !states[j].process.Down?
    && (forall n | j <= n <= k :: !states[n].process.Down? && states[n].process.exe == states[j].process.exe)
    && (forall n | j <= n < k :: !steps[n].Crash? && forall b :: !Launches(states[n], steps[n], b))
  }

  /** The binary is being marked or is about to replace the process image. */
  predicate OnItsWay(s: State, b: Path) {
    match s.process
    case BootMarking(_, m) => m.binary == b
    case BootReplacing(_, m) => m.binary == b
    case Serving(_, updater, _) => (updater.Marking? || updater.Replacing?) && updater.update.binary == b
    case _ => false
  }

  lemma OnItsWayOrigin(built: Path -> string, s: State, step: Step, b: Path)
    requires OnItsWay(Apply(built, s, step), b)
    ensures !step.Crash? && !s.process.Down? && Apply(built, s, step).process.exe == s.process.exe
    ensures forall c :: !Launches(s, step, c)
    ensures OnItsWay(s, b) || Checks(s, step, b)
  {
    hide Newer;
  }

  lemma {:induction false} CheckedOnItsWay(built: Path -> string, states: seq<State>, steps: seq<Step>, k: nat, b: Path)
    returns (j: nat)
    requires Behaviour(built, states, steps) && k < |states| && OnItsWay(states[k], b)
    ensures j < k && Checks(states[j], steps[j], b) && OneProcess(states, steps, j, k)
  {
    OnItsWayOrigin(built, states[k - 1], steps[k - 1], b);
    if Checks(states[k - 1], steps[k - 1], b) {
      j := k - 1;
    } else {
      j := CheckedOnItsWay(built, states, steps, k - 1, b);
    }
  }

  /** In every run, whatever is labelled, fails or crashes: before each launch of a binary the same
    * process has read its manifest and found that the binary matches its hash. */
  lemma LaunchesAreChecked(built: Path -> string, states: seq<State>, steps: seq<Step>, k: nat, b: Path) returns (j: nat)
    requires Behaviour(built, states, steps) && k < |steps| && Launches(states[k], steps[k], b)
    ensures j < k && Checks(states[j], steps[j], b) && OneProcess(states, steps, j, k)
  {
    j := CheckedOnItsWay(built, states, steps, k, b);
  }

  /** A boot goes on to a launch exactly when the manifest can be read, its binary matches its hash and
    * is not the running one, it is labelled newer, and no launch of it was left unconfirmed. */
  lemma BootLaunchesExactly(built: Path -> string, s: State, p: Probe)
    requires s.process.Booting?
    ensures var exe, next := s.process.exe, Apply(built, s, BootRead(p));
      && (next.process.BootMarking? <==>
            s.file.Present? && p.hashMatches && !(p.knowsItself && exe.path == Some(s.file.manifest.binary))
            && Newer(exe.version, s.file.manifest.version) && s.file.manifest.progress != Attempting)
      && (next.process.BootMarking? ==>
            next.file == s.file && next.process == BootMarking(exe, Manifest(s.file.manifest.version, s.file.manifest.binary, Attempting)))
      && (!next.process.BootMarking? ==> next.process == Serving(exe, Updater.Idle, Resting))
  {
  }

  predicate RunsFrom(exe: Exe, m: Manifest, p: Probe) { p.knowsItself && exe.path == Some(m.binary) }

  /** A boot drops the manifest exactly when it is unreadable, its binary does not match its hash, or it
    * names another executable that is not newer or was tried before; it then serves. */
  lemma BootDropsExactly(built: Path -> string, s: State, p: Probe)
    requires s.process.Booting? && !s.file.Absent?
    ensures var exe, next := s.process.exe, Apply(built, s, BootRead(p));
      var drops := s.file.Unreadable? || !p.hashMatches
        || (!RunsFrom(exe, s.file.manifest, p)
            && (!Newer(exe.version, s.file.manifest.version) || s.file.manifest.progress == Attempting));
      && next.file == (if drops && p.removes then Absent else s.file)
      && (drops ==> next.process == Serving(exe, Updater.Idle, Resting))
  {
  }

  /** A boot that can launch a manifest, and does so without a fault, ends in the new image. */
  lemma AcceptedUpdateBoots(built: Path -> string, s: State, p: Probe)
    requires s.process.Booting? && Apply(built, s, BootRead(p)).process.BootMarking?
    ensures var m := s.file.manifest;
      var marked := Apply(built, Apply(built, s, BootRead(p)), BootMark(Wrote));
      var launched := Apply(built, marked, BootReplace(true));
      && Launches(marked, BootReplace(true), m.binary)
      && launched.process == Booting(Exe(built(m.binary), Some(m.binary)))
      && launched.file == Present(Manifest(m.version, m.binary, Attempting))
      && launched.base == s.base
  {
    hide Newer;
  }

  /** If the image cannot be replaced the manifest is pending again, so a later boot tries once more. */
  lemma FailedReplacementIsPending(built: Path -> string, s: State, p: Probe)
    requires s.process.Booting? && Apply(built, s, BootRead(p)).process.BootMarking?
    ensures var m := s.file.manifest;
      var marked := Apply(built, Apply(built, s, BootRead(p)), BootMark(Wrote));
      var undone := Apply(built, Apply(built, marked, BootReplace(false)), BootUndo(Wrote));
      && undone.process == Serving(s.process.exe, Updater.Idle, Resting)
      && undone.file == Present(Manifest(m.version, m.binary, Pending))
  {
    hide Newer;
  }

  /** An offer that is newer, pending and not the running binary is staged, checked and launched. */
  lemma AcceptedOfferIsLaunched(built: Path -> string, s: State, offer: Manifest, p: Probe)
    requires s.process.Serving? && s.process.updater.Idle? && Newer(s.process.exe.version, offer.version)
    requires offer.progress == Pending && s.process.exe.path != Some(offer.binary) && p.hashMatches
    ensures var storing := Apply(built, s, Stage(offer, p));
      var stored := Apply(built, storing, Store(Wrote));
      var marked := Apply(built, Apply(built, stored, Reread(p)), Mark(Wrote));
      var launched := Apply(built, marked, Replace(true));
      && stored.file == Present(offer) && Launches(marked, Replace(true), offer.binary)
      && launched.process == Booting(Exe(built(offer.binary), Some(offer.binary)))
      && launched.file == Present(Manifest(offer.version, offer.binary, Attempting))
  {
    hide Newer;
  }

  /** An offer is turned down exactly when it is not newer, not pending, or the running binary itself with
    * its hash; a stored one that does not match its hash any more is not launched. */
  lemma OfferIsRefusedExactly(built: Path -> string, s: State, offer: Manifest, p: Probe)
    requires s.process.Serving? && s.process.updater.Idle?
    ensures Apply(built, s, Stage(offer, p)) == s <==>
      !Newer(s.process.exe.version, offer.version) || offer.progress != Pending
      || (p.hashMatches && p.knowsItself && s.process.exe.path == Some(offer.binary))
  {
  }

  /** The launched image boots into service, and its confirmation makes the manifest healthy. */
  lemma LaunchedUpdateIsConfirmed(built: Path -> string, s: State, version: string, b: Path, p: Probe)
    requires s.process == Booting(Exe(built(b), Some(b))) && s.file == Present(Manifest(version, b, Attempting))
    requires p.hashMatches && p.knowsItself
    ensures var serving := Apply(built, s, BootRead(p));
      var confirmed := Apply(built, Apply(built, serving, ConfirmRead(p)), Confirm(Wrote));
      && serving.process == Serving(Exe(built(b), Some(b)), Updater.Idle, Resting)
      && confirmed == serving.(file := Present(Manifest(version, b, Healthy)), unconfirmed := s.unconfirmed[b := 0])
  {
  }

  /** Only the executable that a manifest names can confirm it. */
  lemma ConfirmsOwnManifestOnly(built: Path -> string, s: State, p: Probe)
    requires s.process.Serving? && s.process.confirmer.Resting?
    ensures Apply(built, s, ConfirmRead(p)) != s <==>
      s.file.Present? && p.knowsItself && s.process.exe.path == Some(s.file.manifest.binary)
      && s.file.manifest.progress != Healthy
  {
  }

  /** After a restart a confirmed update is launched again by every older installed version. */
  lemma ConfirmedUpdateIsRelaunched(built: Path -> string, s: State, version: string, b: Path, p: Probe)
    requires s.process.Down? && s.file == Present(Manifest(version, b, Healthy)) && Newer(s.base, version) && p.hashMatches
    ensures var read := Apply(built, Apply(built, s, Boot), BootRead(p));
      var launched := Apply(built, Apply(built, read, BootMark(Wrote)), BootReplace(true));
      launched.process == Booting(Exe(built(b), Some(b))) && launched.base == s.base
  {
    hide Newer;
    var booting := Apply(built, s, Boot);
    BootLaunchesExactly(built, booting, p);
    AcceptedUpdateBoots(built, booting, p);
  }
}
