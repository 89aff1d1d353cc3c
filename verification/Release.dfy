// Releasing a staged build to the fleet: file operations in a directory that
// phones read at any moment, with a crash possible between any two of them. An
// APK stands for its own SHA-256.
module Release {
  import opened Options

  datatype Apk = Apk(versionCode: int, sha256: string)

  datatype Manifest = Manifest(versionCode: int, sha256: string, announcedAt: Option<int>)

  // The directory: the two names the fleet reads, the staged manifest, the staged
  // APKs by version code, and the temporary file of an atomic write.
  datatype Dir = Dir(
    liveManifest: Option<Manifest>, liveApk: Option<Apk>,
    stagedManifest: Option<Manifest>, stagedApks: map<int, Apk>, temp: Option<Manifest>)

  // What a phone reads is what it would download.
  predicate Honest(d: Dir) {
    d.liveManifest.Some? ==> d.liveApk.Some? && d.liveApk.value.sha256 == d.liveManifest.value.sha256
  }

  // ---------------------------------------------------------------------------
  // The steps of one announce
  // ---------------------------------------------------------------------------

  const STEPS := 5

  // The k-th operation for the stamped manifest `m`. Renaming an APK that is not
  // there throws, and ends the announce.
  predicate Throws(d: Dir, m: Manifest, k: nat) { k == 2 && m.versionCode !in d.stagedApks }

  function FileStep(d: Dir, m: Manifest, k: nat): Dir {
    if Throws(d, m, k) then d
    else match k
      case 1 => d.(liveManifest := None)
      case 2 => d.(liveApk := Some(d.stagedApks[m.versionCode]), stagedApks := d.stagedApks - {m.versionCode})
      case 3 => d.(temp := Some(m))
      case 4 => d.(liveManifest := d.temp, temp := None)
      case 5 => d.(stagedManifest := None)
      case _ => d
  }

  // The directory after the first n operations, or as many as happen before one throws.
  function Steps(d: Dir, m: Manifest, n: nat): Dir {
    if n == 0 then d
    else if n >= 2 && Throws(Steps(d, m, 1), m, 2) then Steps(d, m, 1)
    else FileStep(Steps(d, m, n - 1), m, n)
  }

  function Stamped(m: Manifest, now: int): Manifest { m.(announcedAt := Some(now)) }

  datatype Answer = NothingStaged | Failed | Announced(manifest: Manifest)

  class ReleaseService {
    var dir: Dir
    var cachedVersionCode: Option<int>

    constructor (dir: Dir)
      ensures this.dir == dir && cachedVersionCode == None
    {
      this.dir := dir;
      cachedVersionCode := None;
    }

    // Announce, up to a crash after `survives` operations; five and more means none.
    method Announce(now: int, survives: nat) returns (r: Answer)
      modifies this
      ensures old(dir.stagedManifest).None? ==> r == NothingStaged && dir == old(dir)
      ensures old(dir.stagedManifest).Some? ==>
        var m := Stamped(old(dir.stagedManifest).value, now);
        && dir == Steps(old(dir), m, if survives < STEPS then survives else STEPS)
        && (r == Announced(m) <==> survives >= STEPS && m.versionCode in old(dir.stagedApks))
        && (r.Announced? ==> cachedVersionCode == Some(m.versionCode))
      ensures !r.Announced? ==> cachedVersionCode == old(cachedVersionCode)
      // A whole announce shows the fleet the staged build and empties the staging
      // area of it; without the APK it only hides what was shown.
      ensures old(dir.stagedManifest).Some? && survives >= 5 ==>
        var was, code := old(dir), old(dir.stagedManifest).value.versionCode;
        if code in was.stagedApks then
          && dir.liveManifest == Some(Manifest(code, was.stagedManifest.value.sha256, Some(now)))
          && dir.liveApk == Some(was.stagedApks[code])
          && dir.stagedManifest == None && dir.stagedApks == was.stagedApks - {code} && dir.temp == None
        else
          dir == Dir(None, was.liveApk, was.stagedManifest, was.stagedApks, was.temp)
    {
      if dir.stagedManifest.None? {
        return NothingStaged;
      }
      var stamped := Stamped(dir.stagedManifest.value, now);
      UnfoldSteps(dir, stamped);
      r := Failed;
      if survives < 1 { return; }
      dir := dir.(liveManifest := None);
      if survives < 2 { return; }
      if stamped.versionCode !in dir.stagedApks { return; }
      dir := dir.(liveApk := Some(dir.stagedApks[stamped.versionCode]), stagedApks := dir.stagedApks - {stamped.versionCode});
      if survives < 3 { return; }
      dir := dir.(temp := Some(stamped));
      if survives < 4 { return; }
      dir := dir.(liveManifest := dir.temp, temp := None);
      if survives < 5 { return; }
      dir := dir.(stagedManifest := None);
      cachedVersionCode := Some(stamped.versionCode);
      r := Announced(stamped);
    }
  }

  // ---- one announce on its own ---------------------------------------------------------

  // Wherever it stops, what the fleet can see is honest exactly when the staged
  // APK is the one the staged manifest describes, or it stopped before showing it.
  lemma AnnounceIsHonestExactlyWhen(d: Dir, now: int, n: nat)
    requires Honest(d) && d.stagedManifest.Some? && n <= STEPS
    ensures var staged := d.stagedManifest.value;
      Honest(Steps(d, Stamped(staged, now), n)) <==>
        n < 4 || staged.versionCode !in d.stagedApks || d.stagedApks[staged.versionCode].sha256 == staged.sha256
  {
    UnfoldSteps(d, Stamped(d.stagedManifest.value, now));
  }

  lemma UnfoldSteps(d: Dir, m: Manifest)
    ensures var hidden := d.(liveManifest := None);
      && Steps(d, m, 0) == d && Steps(d, m, 1) == hidden
      && if m.versionCode !in d.stagedApks then forall n :: 2 <= n ==> Steps(d, m, n) == hidden
         else
           var moved := hidden.(liveApk := Some(d.stagedApks[m.versionCode]), stagedApks := d.stagedApks - {m.versionCode});
           && Steps(d, m, 2) == moved && Steps(d, m, 3) == moved.(temp := Some(m))
           && Steps(d, m, 4) == moved.(liveManifest := Some(m), temp := None)
           && Steps(d, m, 5) == moved.(liveManifest := Some(m), temp := None, stagedManifest := None)
  {
    var hidden := d.(liveManifest := None);
    assert Steps(d, m, 1) == FileStep(Steps(d, m, 0), m, 1) == hidden;
    if m.versionCode in d.stagedApks {
      assert Steps(d, m, 2) == FileStep(hidden, m, 2);
      assert Steps(d, m, 3) == FileStep(Steps(d, m, 2), m, 3);
      assert Steps(d, m, 4) == FileStep(Steps(d, m, 3), m, 4);
      assert Steps(d, m, 5) == FileStep(Steps(d, m, 4), m, 5);
    }
  }

  // Pressing the button again after a crash: before the APK moved it completes;
  // between that and the end it finds the manifest but no APK, and leaves the
  // fleet with no manifest at all; after the end there is nothing to release.
  lemma RetryAfterCrash(d: Dir, now: int, n: nat, later: int)
    requires d.stagedManifest.Some? && d.stagedManifest.value.versionCode in d.stagedApks && n <= STEPS
    ensures var m := d.stagedManifest.value;
      var crashed := Steps(d, Stamped(m, now), n);
      if n < 2 then
        crashed.stagedManifest == Some(m) && Steps(crashed, Stamped(m, later), STEPS).liveManifest == Some(Stamped(m, later))
      else if n < STEPS then
        crashed.stagedManifest == Some(m) && Steps(crashed, Stamped(m, later), STEPS).liveManifest == None
      else crashed.stagedManifest == None && crashed.liveManifest == Some(Stamped(m, now))
  {
    var m := d.stagedManifest.value;
    UnfoldSteps(d, Stamped(m, now));
    UnfoldSteps(Steps(d, Stamped(m, now), n), Stamped(m, later));
  }

  // ---------------------------------------------------------------------------
  // Staging and announcing, interleaved, with crashes, over many builds
  // ---------------------------------------------------------------------------

  // `announcing` is the announce under way and how far it is; `staging` an APK
  // already in place whose manifest is not. `builds` is every build ever staged.
  datatype World = World(dir: Dir, announcing: Option<(Manifest, nat)>, staging: Option<Apk>, builds: map<int, string>)

  datatype Event =
    | StageApk(apk: Apk)
    | StageManifest
    | StagingDies
    | Begin(now: int)
    | Continue
    | AnnounceDies

  function Next(w: World, e: Event): World {
    match e
    case StageApk(apk) =>
      w.(dir := w.dir.(stagedApks := w.dir.stagedApks[apk.versionCode := apk]), staging := Some(apk),
         builds := w.builds[apk.versionCode := apk.sha256])
    case StageManifest =>
      if w.staging.None? then w
      else w.(dir := w.dir.(stagedManifest := Some(Manifest(w.staging.value.versionCode, w.staging.value.sha256, None))), staging := None)
    case StagingDies => w.(staging := None)
    case Begin(now) =>
      if w.dir.stagedManifest.None? then w else w.(announcing := Some((Stamped(w.dir.stagedManifest.value, now), 0)))
    case Continue =>
      if w.announcing.None? then w
      else
        var (m, done) := w.announcing.value;
        w.(dir := FileStep(w.dir, m, done + 1),
           announcing := if Throws(w.dir, m, done + 1) || done + 1 == STEPS then None else Some((m, done + 1)))
    case AnnounceDies => w.(announcing := None)
  }

  // One staging and one announce at a time.
  predicate Enabled(w: World, e: Event) {
    match e
    case StageApk(_) => w.staging == None
    case Begin(_) => w.announcing == None
    case _ => true
  }

  // A version code already staged comes back only with the same bytes.
  predicate CodeIsNotReused(w: World, e: Event) {
    e.StageApk? && e.apk.versionCode in w.builds ==> w.builds[e.apk.versionCode] == e.apk.sha256
  }

  predicate Known(m: Manifest, builds: map<int, string>) {
    m.versionCode in builds && builds[m.versionCode] == m.sha256
  }

  predicate Inv(w: World) {
    && Honest(w.dir)
    && (forall c :: c in w.dir.stagedApks ==>
      w.dir.stagedApks[c].versionCode == c && c in w.builds && w.builds[c] == w.dir.stagedApks[c].sha256)
    && (w.dir.stagedManifest.Some? ==> Known(w.dir.stagedManifest.value, w.builds))
    && (w.staging.Some? ==> Known(Manifest(w.staging.value.versionCode, w.staging.value.sha256, None), w.builds))
    && (w.announcing.Some? ==>
      var (m, done) := w.announcing.value;
      && Known(m, w.builds) && done < STEPS
      && (1 <= done <= 3 ==> w.dir.liveManifest == None)
      && (2 <= done ==> w.dir.liveApk.Some? && w.dir.liveApk.value.sha256 == m.sha256)
      && (done == 3 ==> w.dir.temp == Some(m)))
  }

  lemma StepKeepsInv(w: World, e: Event)
    requires Inv(w) && Enabled(w, e) && CodeIsNotReused(w, e)
    ensures Inv(Next(w, e))
  {
  }

  ghost function After(w: World, run: seq<Event>): World {
    if run == [] then w else Next(After(w, run[..|run| - 1]), run[|run| - 1])
  }

  // Over any number of builds, with staging and announcing interleaved and either
  // dying anywhere, a manifest the fleet can see carries the hash of the APK it
  // would download, as long as no version code is staged again with other bytes.
  lemma {:induction false} FleetSeesTheTruth(w: World, run: seq<Event>)
    requires Inv(w)
    requires forall i :: 0 <= i < |run| ==> Enabled(After(w, run[..i]), run[i]) && CodeIsNotReused(After(w, run[..i]), run[i])
    ensures Inv(After(w, run)) && Honest(After(w, run).dir)
  {
    if run != [] {
      var n := |run| - 1;
      assert forall i :: 0 <= i < n ==> run[..n][..i] == run[..i];
      FleetSeesTheTruth(w, run[..n]);
      StepKeepsInv(After(w, run[..n]), run[n]);
    }
  }

  function NothingYet(): World { World(Dir(None, None, None, map[], None), None, None, map[]) }

  lemma NothingYetIsFine()
    ensures Inv(NothingYet())
  {
  }

  // Staging checks a code only against the one that is live. Stage build 7, stage
  // other bytes as 7 again and die before the manifest follows: releasing shows
  // the first build's hash over the second build's APK.
  lemma ReusedCodeIsShownWithTheWrongHash()
    ensures var w1 := Next(Next(NothingYet(), StageApk(Apk(7, "first"))), StageManifest);
      var w2 := Next(Next(w1, StageApk(Apk(7, "second"))), StagingDies);
      var w3 := Next(Next(Next(Next(Next(w2, Begin(0)), Continue), Continue), Continue), Continue);
      && Enabled(w1, StageApk(Apk(7, "second"))) && !CodeIsNotReused(w1, StageApk(Apk(7, "second"))) && Enabled(w2, Begin(0))
      && w3.dir.liveManifest == Some(Manifest(7, "first", Some(0))) && w3.dir.liveApk == Some(Apk(7, "second"))
      && !Honest(w3.dir)
  {
    var w2 := Next(Next(Next(Next(NothingYet(), StageApk(Apk(7, "first"))), StageManifest), StageApk(Apk(7, "second"))), StagingDies);
    assert w2.dir == Dir(None, None, Some(Manifest(7, "first", None)), map[7 := Apk(7, "second")], None);
    var m := Manifest(7, "first", Some(0));
    var w3 := Next(Next(w2, Begin(0)), Continue);
    assert w3.announcing == Some((m, 1));
    var w4 := Next(w3, Continue);
    assert w4.announcing == Some((m, 2)) && w4.dir.liveApk == Some(Apk(7, "second"));
  }
}
