/** Building and caching artifact sets (src/solfleet/builder.py). */
module Builder {
  import opened Text
  import opened Config
  import opened Safety
  import opened Audit
  import opened Remote

  /** `sha` is the digest the build host reported, None when it could not. */
  datatype Artifact = Artifact(key: CacheKey, sha: Option<string>)

  datatype BuildResult = BuildResult(artifacts: seq<Artifact>, cached: bool, ok: bool)

  /** The git tag of a version: exactly one leading `v` is supplied if missing. */
  function Tag(version: string): string {
    if version != "" && version[0] == 'v' then version else "v" + version
  }

  /** The tag of a version told by its letters. */
  ghost predicate IsTagOf(version: string, tag: string) {
    && tag != "" && tag[0] == 'v' && (tag == version || tag == "v" + version)
    && (version != "" && version[0] == 'v' ==> tag == version)
  }

  lemma TagIs(version: string)
    ensures IsTagOf(version, Tag(version))
  {}

  /** A version with and without its leading `v` has one tag. */
  lemma TagForgetsV(version: string, one: string, other: string)
    requires version == "" || version[0] != 'v'
    ensures IsTagOf(version, one) && IsTagOf("v" + version, other) ==> one == other
  {}

  function ArtifactNames(install: Install): seq<string> {
    AGAVE_BINS + if BuildsGeyser(install) then [GEYSER_LIB] else []
  }

  function GeyserRepo(install: Install): string {
    if install.geyserRepo.Some? then install.geyserRepo.value else ""
  }

  function GeyserSteps(install: Install, version: string): seq<BuildStep> {
    [CloneGeyser(GeyserRepo(install)), FetchGeyser]
    + (if Truthy(install.geyserRef) then [CheckoutGeyser(install.geyserRef.value)] else [])
    + [BuildGeyser, CopyGeyser(version)]
  }

  function AgaveSteps(install: Install, version: string): seq<BuildStep> {
    [MakeDirs, CloneAgave(install.agaveRepo), FetchAgave, CheckoutAgave(Tag(version)), InstallAgave(version),
     CopyBin(version, AGAVE_BINS[0]), CopyBin(version, AGAVE_BINS[1]), CopyBin(version, AGAVE_BINS[2])]
  }

  /** The ordered build steps of a version. */
  function BuildCommands(install: Install, version: string): seq<BuildStep> {
    AgaveSteps(install, version)
    + if BuildsGeyser(install) then GeyserSteps(install, version) else []
  }

  /** The agave part of the commands: a clone of the configured repository, a fetch, the
      one checkout, at the tag of the version, the install, and after it the copies. */
  lemma AgaveStepsInOrder(install: Install, version: string)
    returns (tag: string, clone: nat, fetch: nat, checkout: nat, installed: nat)
    ensures IsTagOf(version, tag)
    ensures var steps := BuildCommands(install, version);
      && clone < fetch < checkout < installed < |steps|
      && steps[0] == MakeDirs && steps[clone] == CloneAgave(install.agaveRepo) && steps[fetch] == FetchAgave
      && steps[checkout] == CheckoutAgave(tag) && steps[installed] == InstallAgave(version)
      && (forall j | 0 <= j < |steps| :: steps[j].CheckoutAgave? <==> j == checkout)
      && (forall j | 0 <= j < |steps| && steps[j].CopyBin? :: j > installed && steps[j].version == version)
      && (forall n | n in AGAVE_BINS :: CopyBin(version, n) in steps)
  {
    tag, clone, fetch, checkout, installed := Tag(version), 1, 2, 3, 4;
    var steps, agave := BuildCommands(install, version), AgaveSteps(install, version);
    forall j | 0 <= j < |steps|
      ensures j < 8 ==> steps[j] == agave[j]
      ensures j >= 8 ==> !steps[j].CheckoutAgave? && !steps[j].CopyBin?
    {
      StepAt(install, version, j);
    }
    assert forall i | 0 <= i < 3 :: steps[5 + i] == CopyBin(version, AGAVE_BINS[i]);
  }

  /** The plugin part, there exactly when a plugin repository is configured: a clone of it,
      a fetch, the configured ref checked out if there is one, the build, and the copy
      last of all. */
  lemma GeyserStepsInOrder(install: Install, version: string)
    returns (clone: nat, fetch: nat, built: nat)
    ensures var steps := BuildCommands(install, version);
      var pinned := install.geyserRef.Some? && install.geyserRef.value != "";
      if install.geyserRepo.None? || install.geyserRepo.value == "" then
        forall s | s in steps :: !s.CloneGeyser? && !s.BuildGeyser? && !s.CopyGeyser?
      else
        && clone < fetch < built < |steps| - 1
        && steps[clone] == CloneGeyser(install.geyserRepo.value) && steps[fetch] == FetchGeyser
        && steps[built] == BuildGeyser && steps[|steps| - 1] == CopyGeyser(version)
        && (forall j | 0 <= j < |steps| && steps[j].CheckoutGeyser? ::
              fetch < j < built && pinned && steps[j].gref == install.geyserRef.value)
        && (pinned ==> CheckoutGeyser(install.geyserRef.value) in steps)
  {
    var steps, agave := BuildCommands(install, version), AgaveSteps(install, version);
    var n := |steps|;
    clone, fetch, built := 8, 9, n - 2;
    forall j | 0 <= j < n
      ensures j < 8 ==> steps[j] == agave[j]
      ensures j >= 8 ==> BuildsGeyser(install) && steps[j] == GeyserSteps(install, version)[j - 8]
    {
      StepAt(install, version, j);
    }
    if BuildsGeyser(install) && Truthy(install.geyserRef) {
      assert steps[10] == CheckoutGeyser(install.geyserRef.value);
    }
  }

  /** The artifact set, by name. */
  lemma ArtifactNamesAre(install: Install)
    ensures forall n :: n in ArtifactNames(install) <==>
      || n in ["agave-validator", "agave-ledger-tool", "solana"]
      || (install.geyserRepo.Some? && install.geyserRepo.value != "" && n == "libyellowstone_grpc_geyser.so")
    ensures |ArtifactNames(install)| == if install.geyserRepo.Some? && install.geyserRepo.value != "" then 4 else 3
  {}

  // ---- runs of steps as values --------------------------------------------

  /** One step under one outcome: the new build host and whether it exited 0. */
  function StepRun(t: Toolchain, b: BuildHost, s: BuildStep, o: Outcome): (BuildHost, bool) {
    if o.done && StepFeasible(b, s) then (StepEffect(t, b, s), o.clean) else (StepDebris(b, s, o), false)
  }

  lemma StepRunIsExec(t: Toolchain, w: World, s: BuildStep, o: Outcome)
    ensures var (after, r) := Exec(t, w, Build(s), o);
      && after == w.(build := StepRun(t, w.build, s, o).0)
      && (Ok(r) <==> StepRun(t, w.build, s, o).1)
  {}

  /** Where a run of steps gets to: it stops at the first step that fails. */
  datatype Progress = Progress(host: BuildHost, completed: nat)

  function RunSteps(t: Toolchain, b: BuildHost, steps: seq<BuildStep>, n: nat, oracle: nat -> Outcome,
                    tick: nat): Progress
    requires n <= |steps|
  {
    if n == 0 then Progress(b, 0)
    else
      var p := RunSteps(t, b, steps, n - 1, oracle, tick);
      if p.completed < n - 1 then p
      else
        var (host, ok) := StepRun(t, p.host, steps[n - 1], oracle(tick + n - 1));
        Progress(host, if ok then n else n - 1)
  }

  // ---- what the cache holds -----------------------------------------------

  /** The checkouts a build of this configuration is meant to work on. */
  function AgaveHead(install: Install, version: string): Checkout {
    Checkout(install.agaveRepo, Tag(version))
  }

  function PluginHead(t: Toolchain, install: Install): Checkout {
    var repo := GeyserRepo(install);
    Checkout(repo, if Truthy(install.geyserRef) then install.geyserRef.value else t.defaultRef(repo))
  }

  /** The bytes a build of this configuration and version is meant to produce. */
  function Fresh(t: Toolchain, install: Install, k: CacheKey): Bytes {
    if k.name == GEYSER_LIB then t.lib(PluginHead(t, install)) else t.bin(AgaveHead(install, k.version), k.name)
  }

  ghost predicate HoldsFresh(t: Toolchain, install: Install, b: BuildHost, k: CacheKey) {
    k in b.cache && b.cache[k] == Fresh(t, install, k)
  }

  /** The last file a full build puts into the cache. */
  function LastName(install: Install): string {
    if BuildsGeyser(install) then GEYSER_LIB else AGAVE_BINS[2]
  }

  /** The clones on the host, if any, are those of the configuration; and where no ref
      is configured the plugin's is still at its default. */
  predicate HeadsFit(t: Toolchain, install: Install, b: BuildHost) {
    && (b.agaveHead.Some? ==> b.agaveHead.value.repo == install.agaveRepo)
    && (BuildsGeyser(install) && b.geyserHead.Some? ==>
          && b.geyserHead.value.repo == GeyserRepo(install)
          && (!Truthy(install.geyserRef) ==> b.geyserHead.value == PluginHead(t, install)))
  }

  /** Every cached file is what a build would produce, and the last file of a version
      is only there when some run went through all its steps; without a plugin
      repository there is no trace of the plugin. */
  ghost predicate Sound(t: Toolchain, install: Install, b: BuildHost, finished: set<string>) {
    && (forall k | k in b.cache :: b.cache[k] == Fresh(t, install, k))
    && (forall v :: CacheKey(v, LastName(install)) in b.cache ==> v in finished)
    && HeadsFit(t, install, b)
    && (!BuildsGeyser(install) ==> b.geyserHead.None? && forall k | k in b.cache :: k.name != GEYSER_LIB)
  }

  /** The host after k steps of a build have succeeded, as far as the agave part
      goes: steps 0-3 prepare the checkout, 4 installs, 5-7 copy the binaries. */
  ghost predicate AgaveStage(t: Toolchain, install: Install, version: string, b: BuildHost, k: nat) {
    && (k >= 2 ==> b.agaveHead.Some?)
    && (k >= 4 ==> b.agaveHead == Some(AgaveHead(install, version)))
    && (k >= 5 ==> version in b.installed && b.installed[version] == InstalledBins(t, AgaveHead(install, version)))
    && (k >= 6 ==> HoldsFresh(t, install, b, CacheKey(version, AGAVE_BINS[0])))
    && (k >= 7 ==> HoldsFresh(t, install, b, CacheKey(version, AGAVE_BINS[1])))
    && (k >= 8 ==> HoldsFresh(t, install, b, CacheKey(version, AGAVE_BINS[2])))
  }

  /** The same for j steps of the plugin part, counted back from its end so that
      the optional checkout does not matter. */
  ghost predicate GeyserStage(t: Toolchain, install: Install, version: string, b: BuildHost, j: nat) {
    var n := |GeyserSteps(install, version)|;
    && (j >= 1 ==> b.geyserHead.Some?)
    && (j >= n - 2 ==> b.geyserHead == Some(PluginHead(t, install)))
    && (j >= n - 1 ==> b.geyserLib == Some(t.lib(PluginHead(t, install))))
    && (j >= n ==> HoldsFresh(t, install, b, CacheKey(version, GEYSER_LIB)))
  }

  ghost predicate Stage(t: Toolchain, install: Install, version: string, b: BuildHost, k: nat) {
    && AgaveStage(t, install, version, b, k)
    && (k > 8 ==> GeyserStage(t, install, version, b, k - 8))
  }

  lemma StepAt(install: Install, version: string, k: nat)
    requires k < |BuildCommands(install, version)|
    ensures k < 8 ==> BuildCommands(install, version)[k] == AgaveSteps(install, version)[k]
    ensures k >= 8 ==> BuildsGeyser(install) && k - 8 < |GeyserSteps(install, version)|
    ensures k >= 8 ==> BuildCommands(install, version)[k] == GeyserSteps(install, version)[k - 8]
    ensures |BuildCommands(install, version)| ==
      8 + if BuildsGeyser(install) then |GeyserSteps(install, version)| else 0
  {}

  lemma SoundMonotone(t: Toolchain, install: Install, b: BuildHost, small: set<string>, large: set<string>)
    requires Sound(t, install, b, small) && small <= large
    ensures Sound(t, install, b, large)
  {}

  /** Putting the right bytes into the cache keeps it sound; only the last file of
      a version says more about the builds there have been. */
  lemma PutKeepsSound(t: Toolchain, install: Install, b: BuildHost, key: CacheKey, finished: set<string>)
    requires Sound(t, install, b, finished) && (key.name == GEYSER_LIB ==> BuildsGeyser(install))
    ensures var after := b.(cache := b.cache[key := Fresh(t, install, key)]);
      && Sound(t, install, after, finished + {key.version})
      && (key.name != LastName(install) ==> Sound(t, install, after, finished))
  {}

  /** What a step must find for its effect to be right. */
  ghost predicate Legit(t: Toolchain, install: Install, b: BuildHost, s: BuildStep) {
    match s
    case CloneAgave(repo) => repo == install.agaveRepo
    case CopyBin(v, n) =>
      n in AgaveBinSet() && v in b.installed && b.installed[v] == InstalledBins(t, AgaveHead(install, v))
    case CloneGeyser(repo) => BuildsGeyser(install) && repo == GeyserRepo(install)
    case CopyGeyser(_) => BuildsGeyser(install) && b.geyserLib == Some(t.lib(PluginHead(t, install)))
    case CheckoutGeyser(gref) => BuildsGeyser(install) && install.geyserRef == Some(gref) && gref != ""
    case _ => true
  }

  function Completed(install: Install, s: BuildStep, o: Outcome): set<string> {
    match s
    case CopyBin(v, n) => if o.done && n == LastName(install) then {v} else {}
    case CopyGeyser(v) => if o.done then {v} else {}
    case _ => {}
  }

  lemma LegitStepKeepsHeads(t: Toolchain, install: Install, b: BuildHost, s: BuildStep, o: Outcome)
    requires HeadsFit(t, install, b) && Legit(t, install, b, s)
    ensures HeadsFit(t, install, StepRun(t, b, s, o).0)
    ensures b.geyserHead.None? && !BuildsGeyser(install) ==> StepRun(t, b, s, o).0.geyserHead.None?
  {}

  lemma LegitStepKeepsSound(t: Toolchain, install: Install, b: BuildHost, s: BuildStep, o: Outcome,
                            finished: set<string>)
    requires Sound(t, install, b, finished) && Legit(t, install, b, s)
    ensures Sound(t, install, StepRun(t, b, s, o).0, finished + Completed(install, s, o))
  {
    LegitStepKeepsHeads(t, install, b, s, o);
    match s
    case CopyBin(v, n) => PutKeepsSound(t, install, b, CacheKey(v, n), finished);
    case CopyGeyser(v) => PutKeepsSound(t, install, b, CacheKey(v, GEYSER_LIB), finished);
    case _ =>
  }

  lemma AgaveStageAdvances(t: Toolchain, install: Install, version: string, b: BuildHost, k: nat, o: Outcome)
    requires k < 8 && HeadsFit(t, install, b) && AgaveStage(t, install, version, b, k)
    ensures var s := AgaveSteps(install, version)[k];
      && Legit(t, install, b, s) && StepFeasible(b, s)
      && Completed(install, s, o) <= {version}
      && (k < 7 || !o.done || BuildsGeyser(install) ==> Completed(install, s, o) == {})
      && (StepRun(t, b, s, o).1 ==> AgaveStage(t, install, version, StepRun(t, b, s, o).0, k + 1))
  {}

  lemma GeyserStageAdvances(t: Toolchain, install: Install, version: string, b: BuildHost, j: nat, o: Outcome)
    requires BuildsGeyser(install) && j < |GeyserSteps(install, version)|
    requires HeadsFit(t, install, b) && GeyserStage(t, install, version, b, j)
    ensures var s := GeyserSteps(install, version)[j];
      var after := StepRun(t, b, s, o).0;
      && Legit(t, install, b, s) && StepFeasible(b, s)
      && Completed(install, s, o) <= {version}
      && (j + 1 < |GeyserSteps(install, version)| || !o.done ==> Completed(install, s, o) == {})
      && after.agaveHead == b.agaveHead && after.installed == b.installed
      && (forall k | k in b.cache && k.name != GEYSER_LIB :: k in after.cache && after.cache[k] == b.cache[k])
      && (StepRun(t, b, s, o).1 ==> GeyserStage(t, install, version, after, j + 1))
  {}

  /** On a host whose clones fit, any step of a build finds what it needs, keeps the
      clones, and a success moves the build one stage on. */
  lemma StageAdvances(t: Toolchain, install: Install, version: string, b: BuildHost, k: nat, o: Outcome)
    requires k < |BuildCommands(install, version)|
    requires HeadsFit(t, install, b) && Stage(t, install, version, b, k)
    ensures var s := BuildCommands(install, version)[k];
      var (after, ok) := StepRun(t, b, s, o);
      && Legit(t, install, b, s) && StepFeasible(b, s)
      && Completed(install, s, o) <= {version}
      && (k + 1 < |BuildCommands(install, version)| || !o.done ==> Completed(install, s, o) == {})
      && HeadsFit(t, install, after)
      && (ok ==> Stage(t, install, version, after, k + 1))
  {
    StepAt(install, version, k);
    if k < 8 {
      AgaveStageAdvances(t, install, version, b, k, o);
    } else {
      GeyserStageAdvances(t, install, version, b, k - 8, o);
    }
    LegitStepKeepsHeads(t, install, b, BuildCommands(install, version)[k], o);
  }

  /** A run on such a host keeps the clones and stands at the stage it got to; without a
      mishap it gets through. */
  lemma {:induction false} RunStages(t: Toolchain, install: Install, version: string, b: BuildHost, n: nat,
                                     oracle: nat -> Outcome, tick: nat)
    requires n <= |BuildCommands(install, version)| && HeadsFit(t, install, b)
    ensures var p := RunSteps(t, b, BuildCommands(install, version), n, oracle, tick);
      && p.completed <= n && HeadsFit(t, install, p.host)
      && (p.completed == n ==> Stage(t, install, version, p.host, n))
      && ((forall i: nat :: Smooth(oracle(i))) ==> p.completed == n)
  {
    if n > 0 {
      RunStages(t, install, version, b, n - 1, oracle, tick);
      var steps := BuildCommands(install, version);
      var p := RunSteps(t, b, steps, n - 1, oracle, tick);
      if p.completed == n - 1 {
        RunOneMore(t, b, steps, n, oracle, tick);
        StageAdvances(t, install, version, p.host, n - 1, oracle(tick + n - 1));
      }
    }
  }

  /** Every artifact of the version is in the cache, as the cache test asks. */
  ghost predicate Hit(install: Install, version: string, b: BuildHost) {
    forall n | n in ArtifactNames(install) :: CacheKey(version, n) in b.cache
  }

  /** Every artifact of the version is in the cache and as a build would produce it. */
  ghost predicate FreshHit(t: Toolchain, install: Install, version: string, b: BuildHost) {
    forall n | n in ArtifactNames(install) :: HoldsFresh(t, install, b, CacheKey(version, n))
  }

  /** A build whose steps all succeed leaves every artifact fresh, whatever the cache
      held before. */
  lemma CompletedRunHits(t: Toolchain, install: Install, version: string, b: BuildHost, oracle: nat -> Outcome,
                         tick: nat)
    requires HeadsFit(t, install, b)
    requires var steps := BuildCommands(install, version);
      RunSteps(t, b, steps, |steps|, oracle, tick).completed == |steps|
    ensures var steps := BuildCommands(install, version);
      FreshHit(t, install, version, RunSteps(t, b, steps, |steps|, oracle, tick).host)
  {
    var n := |BuildCommands(install, version)|;
    RunStages(t, install, version, b, n, oracle, tick);
    FullStageIsFresh(t, install, version, RunSteps(t, b, BuildCommands(install, version), n, oracle, tick).host);
  }

  lemma FullStageIsFresh(t: Toolchain, install: Install, version: string, b: BuildHost)
    requires Stage(t, install, version, b, |BuildCommands(install, version)|)
    ensures FreshHit(t, install, version, b)
  {
    assert |BuildCommands(install, version)| ==
      8 + if BuildsGeyser(install) then |GeyserSteps(install, version)| else 0;
  }

  /** Every step took effect; at worst the last one still reported a failure. */
  predicate CarriedOut(p: Progress, n: nat, oracle: nat -> Outcome, tick: nat) {
    p.completed == n || (p.completed + 1 == n && oracle(tick + p.completed).done)
  }

  /** What is known of the cache after a run that meant n steps and got as far as p. */
  ghost predicate SoundAfter(t: Toolchain, install: Install, version: string, p: Progress, n: nat, all: nat,
                             oracle: nat -> Outcome, tick: nat, finished: set<string>)
  {
    && (n < all || !CarriedOut(p, n, oracle, tick) ==> Sound(t, install, p.host, finished))
    && Sound(t, install, p.host, finished + {version})
  }

  /** Any run of steps, wherever it stops, keeps the cache sound. */
  lemma {:induction false} RunKeepsSound(t: Toolchain, install: Install, version: string, b: BuildHost,
                                         steps: seq<BuildStep>, n: nat, oracle: nat -> Outcome, tick: nat,
                                         finished: set<string>)
    requires steps == BuildCommands(install, version) && n <= |steps| && Sound(t, install, b, finished)
    ensures SoundAfter(t, install, version, RunSteps(t, b, steps, n, oracle, tick), n, |steps|, oracle, tick, finished)
  {
    if n == 0 {
      SoundMonotone(t, install, b, finished, finished + {version});
    } else {
      RunKeepsSound(t, install, version, b, steps, n - 1, oracle, tick, finished);
      RunStages(t, install, version, b, n - 1, oracle, tick);
      var p := RunSteps(t, b, steps, n - 1, oracle, tick);
      if p.completed == n - 1 {
        SoundRunGoesOn(t, install, version, b, steps, p, n, oracle, tick, finished);
      } else {
        StayedBehind(t, install, version, p, n, |steps|, oracle, tick, finished);
      }
    }
  }

  lemma SoundRunGoesOn(t: Toolchain, install: Install, version: string, b: BuildHost, steps: seq<BuildStep>,
                       p: Progress, n: nat, oracle: nat -> Outcome, tick: nat, finished: set<string>)
    requires steps == BuildCommands(install, version) && 0 < n <= |steps|
    requires p == RunSteps(t, b, steps, n - 1, oracle, tick) && p.completed == n - 1
    requires SoundAfter(t, install, version, p, n - 1, |steps|, oracle, tick, finished)
    requires Stage(t, install, version, p.host, n - 1)
    ensures SoundAfter(t, install, version, RunSteps(t, b, steps, n, oracle, tick), n, |steps|, oracle, tick, finished)
  {
    RunOneMore(t, b, steps, n, oracle, tick);
    WentOn(t, install, version, p, steps, n, oracle, tick, finished);
  }

  lemma StayedBehind(t: Toolchain, install: Install, version: string, p: Progress, n: nat, all: nat,
                     oracle: nat -> Outcome, tick: nat, finished: set<string>)
    requires 0 < n <= all && p.completed < n - 1
    requires SoundAfter(t, install, version, p, n - 1, all, oracle, tick, finished)
    ensures SoundAfter(t, install, version, p, n, all, oracle, tick, finished)
  {}

  lemma WentOn(t: Toolchain, install: Install, version: string, p: Progress, steps: seq<BuildStep>, n: nat,
               oracle: nat -> Outcome, tick: nat, finished: set<string>)
    requires steps == BuildCommands(install, version) && 0 < n <= |steps| && p.completed == n - 1
    requires SoundAfter(t, install, version, p, n - 1, |steps|, oracle, tick, finished)
    requires Stage(t, install, version, p.host, n - 1)
    ensures var (host, ok) := StepRun(t, p.host, steps[n - 1], oracle(tick + n - 1));
      SoundAfter(t, install, version, Progress(host, if ok then n else n - 1), n, |steps|, oracle, tick, finished)
  {
    NextStepKeepsSound(t, install, version, p.host, steps, n - 1, oracle(tick + n - 1), finished);
  }

  lemma RunOneMore(t: Toolchain, b: BuildHost, steps: seq<BuildStep>, n: nat, oracle: nat -> Outcome, tick: nat)
    requires 0 < n <= |steps| && RunSteps(t, b, steps, n - 1, oracle, tick).completed == n - 1
    ensures var (host, ok) := StepRun(t, RunSteps(t, b, steps, n - 1, oracle, tick).host, steps[n - 1],
                                      oracle(tick + n - 1));
      RunSteps(t, b, steps, n, oracle, tick) == Progress(host, if ok then n else n - 1)
  {}

  lemma NextStepKeepsSound(t: Toolchain, install: Install, version: string, b: BuildHost, steps: seq<BuildStep>, k: nat,
                           o: Outcome, finished: set<string>)
    requires steps == BuildCommands(install, version) && k < |steps|
    requires Sound(t, install, b, finished) && Stage(t, install, version, b, k)
    ensures var after := StepRun(t, b, steps[k], o).0;
      && (k + 1 < |steps| || !o.done ==> Sound(t, install, after, finished))
      && Sound(t, install, after, finished + {version})
  {
    StageAdvances(t, install, version, b, k, o);
    LegitStepKeepsSound(t, install, b, steps[k], o, finished);
    var more := finished + Completed(install, steps[k], o);
    SoundMonotone(t, install, StepRun(t, b, steps[k], o).0, more, finished + {version});
    assert Completed(install, steps[k], o) == {} ==> more == finished;
  }

  // ---- any sequence of builds ---------------------------------------------

  /** One call of build_artifacts: whether the cache test is skipped, and every
      outcome the build host comes up with, from position `tick` on. */
  datatype Request = Request(version: string, force: bool, oracle: nat -> Outcome, tick: nat)

  /** Where the outcomes of the build steps start. */
  function StepsFrom(r: Request): nat {
    if r.force then r.tick else r.tick + 1
  }

  /** The steps are run unless an honest cache test hits. */
  ghost predicate Rebuilds(install: Install, b: BuildHost, r: Request) {
    r.force || !r.oracle(r.tick).done || !Hit(install, r.version, b)
  }

  ghost function BuildRun(t: Toolchain, install: Install, b: BuildHost, r: Request): Progress {
    var steps := BuildCommands(install, r.version);
    if Rebuilds(install, b, r) then RunSteps(t, b, steps, |steps|, r.oracle, StepsFrom(r)) else Progress(b, 0)
  }

  ghost function AfterBuilds(t: Toolchain, install: Install, b: BuildHost, rs: seq<Request>): BuildHost {
    if rs == [] then b
    else BuildRun(t, install, AfterBuilds(t, install, b, rs[..|rs| - 1]), rs[|rs| - 1]).host
  }

  /** The i-th request ran the steps of its version, and all of them took effect. */
  ghost predicate RanThrough(t: Toolchain, install: Install, b: BuildHost, rs: seq<Request>, i: nat)
    requires i < |rs|
  {
    var before := AfterBuilds(t, install, b, rs[..i]);
    && Rebuilds(install, before, rs[i])
    && CarriedOut(BuildRun(t, install, before, rs[i]), |BuildCommands(install, rs[i].version)|,
      rs[i].oracle, StepsFrom(rs[i]))
  }

  /** Some run of the version went through all its steps. */
  ghost predicate GotThrough(t: Toolchain, install: Install, b: BuildHost, rs: seq<Request>, version: string) {
    exists i: nat | i < |rs| :: rs[i].version == version && RanThrough(t, install, b, rs, i)
  }

  ghost function Finished(t: Toolchain, install: Install, b: BuildHost, rs: seq<Request>): set<string> {
    set i | 0 <= i < |rs| && GotThrough(t, install, b, rs, rs[i].version) :: rs[i].version
  }

  const EMPTY_HOST := BuildHost(None, None, map[], None, map[])

  lemma GotThroughLater(t: Toolchain, install: Install, b: BuildHost, rs: seq<Request>, version: string)
    requires rs != [] && GotThrough(t, install, b, rs[..|rs| - 1], version)
    ensures GotThrough(t, install, b, rs, version)
  {
    var front := rs[..|rs| - 1];
    var i: nat :| i < |front| && front[i].version == version && RanThrough(t, install, b, front, i);
    assert front[..i] == rs[..i] && front[i] == rs[i];
    assert RanThrough(t, install, b, rs, i);
  }

  /** From an empty build host, any sequence of builds - failing, forced or cut
      short anywhere - leaves a sound cache. */
  lemma {:induction false} BuildsKeepSound(t: Toolchain, install: Install, rs: seq<Request>, finished: set<string>)
    requires forall v :: v in finished <==> GotThrough(t, install, EMPTY_HOST, rs, v)
    ensures Sound(t, install, AfterBuilds(t, install, EMPTY_HOST, rs), finished)
  {
    if rs != [] {
      var n := |rs| - 1;
      var front, r := rs[..n], rs[n];
      var before := Finished(t, install, EMPTY_HOST, front);
      FinishedIs(t, install, front);
      BuildsKeepSound(t, install, front, before);
      forall v | v in before ensures v in finished {
        GotThroughLater(t, install, EMPTY_HOST, rs, v);
      }
      var b := AfterBuilds(t, install, EMPTY_HOST, front);
      if Rebuilds(install, b, r) {
        var steps := BuildCommands(install, r.version);
        RunKeepsSound(t, install, r.version, b, steps, |steps|, r.oracle, StepsFrom(r), before);
        var p := BuildRun(t, install, b, r);
        if CarriedOut(p, |steps|, r.oracle, StepsFrom(r)) {
          assert RanThrough(t, install, EMPTY_HOST, rs, n);
          assert GotThrough(t, install, EMPTY_HOST, rs, r.version);
          SoundMonotone(t, install, p.host, before + {r.version}, finished);
        } else {
          SoundMonotone(t, install, p.host, before, finished);
        }
      } else {
        SoundMonotone(t, install, b, before, finished);
      }
    }
  }

  const LUCKY := Outcome(true, true, 0, [], [], None, map[], "", true, true)

  /** A build in which nothing goes wrong. */
  function Rebuild(t: Toolchain, install: Install, b: BuildHost, version: string): BuildHost {
    RunSteps(t, b, BuildCommands(install, version), |BuildCommands(install, version)|, _ => LUCKY, 0).host
  }

  lemma RebuildIsFresh(t: Toolchain, install: Install, b: BuildHost, version: string)
    requires HeadsFit(t, install, b)
    ensures FreshHit(t, install, version, Rebuild(t, install, b, version))
  {
    var n := |BuildCommands(install, version)|;
    RunStages(t, install, version, b, n, _ => LUCKY, 0);
    CompletedRunHits(t, install, version, b, _ => LUCKY, 0);
  }

  lemma FinishedIs(t: Toolchain, install: Install, rs: seq<Request>)
    ensures forall v :: v in Finished(t, install, EMPTY_HOST, rs) <==> GotThrough(t, install, EMPTY_HOST, rs, v)
  {
    forall v ensures v in Finished(t, install, EMPTY_HOST, rs) <==> GotThrough(t, install, EMPTY_HOST, rs, v) {
      if GotThrough(t, install, EMPTY_HOST, rs, v) {
        var i: nat :| i < |rs| && rs[i].version == v && RanThrough(t, install, EMPTY_HOST, rs, i);
        assert rs[i].version in Finished(t, install, EMPTY_HOST, rs);
      }
    }
  }

  /** A version the cache test accepts was built by some earlier run that went
      through every step, and each of its files is what a fresh rebuild on any
      host with fitting clones would put there. */
  lemma HitAgreesWithRebuild(t: Toolchain, install: Install, rs: seq<Request>, version: string, other: BuildHost)
    requires Hit(install, version, AfterBuilds(t, install, EMPTY_HOST, rs))
    requires HeadsFit(t, install, other)
    ensures GotThrough(t, install, EMPTY_HOST, rs, version)
    ensures FreshHit(t, install, version, AfterBuilds(t, install, EMPTY_HOST, rs))
    ensures Hit(install, version, Rebuild(t, install, other, version))
    ensures forall n | n in ArtifactNames(install) ::
      AfterBuilds(t, install, EMPTY_HOST, rs).cache[CacheKey(version, n)]
        == Rebuild(t, install, other, version).cache[CacheKey(version, n)]
  {
    FinishedIs(t, install, rs);
    BuildsKeepSound(t, install, rs, Finished(t, install, EMPTY_HOST, rs));
    LastNameIsAnArtifact(install);
    RebuildIsFresh(t, install, other, version);
  }

  lemma LastNameIsAnArtifact(install: Install)
    ensures LastName(install) in ArtifactNames(install)
  {}

  // ---- on the runner ------------------------------------------------------

  /** From entry n on, the build host is all that is worked on. */
  ghost predicate OnBuildHost(trace: seq<Entry>, n: nat, w: World) {
    forall i | n <= i < |trace| ::
      && (ReadOnly(trace[i].cmd) || trace[i].cmd.Build?)
      && trace[i].after.target == w.target && trace[i].after.staging == w.staging
  }

  /** The recorded digest, if there is one, is that of the cached file. */
  predicate Recorded(t: Toolchain, b: BuildHost, a: Artifact) {
    a.sha.Some? ==> a.key in b.cache && a.sha.value == t.sha(b.cache[a.key])
  }

  /** From entry m on, one digest was asked for per name and recorded as answered. */
  ghost predicate CollectTold(trace: seq<Entry>, m: nat, arts: seq<Artifact>) {
    && m + |arts| <= |trace|
    && forall i | m <= i < m + |arts| ::
         trace[i].cmd == BuilderSha(arts[i - m].key) && arts[i - m].sha == ShaOf(trace[i].result)
  }

  /** Digests of the named files, in order. */
  method Collect(r: Runner, version: string, names: seq<string>) returns (arts: seq<Artifact>)
    modifies r
    ensures old(r.trace) <= r.trace && Quiet(r.trace, |old(r.trace)|, old(r.world))
    ensures r.world == old(r.world)
    ensures |arts| == |names| && |r.trace| == |old(r.trace)| + |names| && CollectTold(r.trace, |old(r.trace)|, arts)
    ensures forall i | 0 <= i < |names| ::
      && arts[i].key == CacheKey(version, names[i])
      && Recorded(r.tools, r.world.build, arts[i])
      && (AllSmooth(r) && arts[i].key in r.world.build.cache ==> arts[i].sha.Some?)
  {
    arts := [];
    for n := 0 to |names|
      invariant old(r.trace) <= r.trace && Quiet(r.trace, |old(r.trace)|, old(r.world))
      invariant r.world == old(r.world)
      invariant |arts| == n && |r.trace| == |old(r.trace)| + n && CollectTold(r.trace, |old(r.trace)|, arts)
      invariant forall i | 0 <= i < n ::
        && arts[i].key == CacheKey(version, names[i])
        && Recorded(r.tools, r.world.build, arts[i])
        && (AllSmooth(r) && arts[i].key in r.world.build.cache ==> arts[i].sha.Some?)
    {
      var a := CollectOne(r, CacheKey(version, names[n]));
      arts := arts + [a];
    }
  }

  method CollectOne(r: Runner, key: CacheKey) returns (a: Artifact)
    modifies r
    ensures r.world == old(r.world)
    ensures |r.trace| == |old(r.trace)| + 1 && old(r.trace) <= r.trace
    ensures var e := r.trace[|old(r.trace)|];
      e.cmd == BuilderSha(key) && e.after == r.world && a == Artifact(key, ShaOf(e.result))
    ensures Recorded(r.tools, r.world.build, a)
    ensures AllSmooth(r) && key in r.world.build.cache ==> a.sha.Some?
  {
    assert AllSmooth(r) ==> Smooth(r.oracle(r.tick));
    var res := r.Run(BuilderSha(key));
    a := Artifact(key, ShaOf(res));
  }

  method IsCached(r: Runner, version: string, names: seq<string>) returns (hit: bool)
    modifies r
    ensures old(r.trace) <= r.trace && Quiet(r.trace, |old(r.trace)|, old(r.world))
    ensures r.world == old(r.world)
    ensures r.tick == old(r.tick) + 1
    ensures |r.trace| == |old(r.trace)| + 1
    ensures var e := r.trace[|old(r.trace)|]; e.cmd == TestCached(version, names) && (hit <==> Ok(e.result))
    ensures hit <==> r.oracle(old(r.tick)).done && forall n | n in names :: CacheKey(version, n) in r.world.build.cache
  {
    var res := r.Run(TestCached(version, names));
    hit := Ok(res);
  }

  /** The next step of a build that has gone well so far. */
  method RunStep(r: Runner, steps: seq<BuildStep>, n: nat, ghost host: BuildHost, ghost tick: nat) returns (ok: bool)
    requires n < |steps| && r.tick == tick + n
    requires RunSteps(r.tools, host, steps, n, r.oracle, tick) == Progress(r.world.build, n)
    modifies r
    ensures r.tick == tick + n + 1
    ensures RunSteps(r.tools, host, steps, n + 1, r.oracle, tick) == Progress(r.world.build, if ok then n + 1 else n)
    ensures r.world == old(r.world).(build := r.world.build)
    ensures |r.trace| == |old(r.trace)| + 1 && old(r.trace) <= r.trace
    ensures var e := r.trace[|old(r.trace)|];
      e.cmd == Build(steps[n]) && e.after == r.world && (ok <==> Ok(e.result))
  {
    StepRunIsExec(r.tools, r.world, steps[n], r.oracle(r.tick));
    var res := r.Run(Build(steps[n]));
    ok := Ok(res);
  }

  /** The steps as issued from entry m to the end of the trace: all of them with
      exit 0, or up to the first that failed. */
  ghost predicate StepsTold(trace: seq<Entry>, m: nat, steps: seq<BuildStep>, ok: bool) {
    && m <= |trace| <= m + |steps|
    && (forall i | m <= i < |trace| :: trace[i].cmd == Build(steps[i - m]))
    && if ok then |trace| == m + |steps| && forall i | m <= i < |trace| :: Ok(trace[i].result)
       else m < |trace| && !Ok(trace[|trace| - 1].result) && forall i | m <= i < |trace| - 1 :: Ok(trace[i].result)
  }

  lemma StepsToldNext(t0: seq<Entry>, t1: seq<Entry>, m: nat, steps: seq<BuildStep>, n: nat, ok: bool)
    requires n < |steps| && |t0| == m + n && |t1| == |t0| + 1 && t0 <= t1
    requires StepsTold(t0, m, steps[..n], true)
    requires t1[|t0|].cmd == Build(steps[n]) && (ok <==> Ok(t1[|t0|].result))
    ensures if ok then StepsTold(t1, m, steps[..n + 1], true) else StepsTold(t1, m, steps, false)
  {
    forall i | m <= i < |t1| ensures t1[i].cmd == Build(steps[i - m]) && (i < |t0| ==> Ok(t1[i].result)) {
      if i < |t0| {
        assert t1[i] == t0[i] && steps[..n][i - m] == steps[i - m];
      }
    }
  }

  /** A build that has gone well over the first n steps. */
  ghost predicate BuiltSoFar(r: Runner, steps: seq<BuildStep>, n: nat, was: World, tick: nat, m: nat)
    requires n <= |steps|
    reads r
  {
    && RunSteps(r.tools, was.build, steps, n, r.oracle, tick) == Progress(r.world.build, n)
    && r.world == was.(build := r.world.build)
    && r.tick == tick + n && |r.trace| == m + n
    && OnBuildHost(r.trace, m, was)
    && StepsTold(r.trace, m, steps[..n], true)
  }

  /** One round of the loop below. */
  method BuildNext(r: Runner, steps: seq<BuildStep>, n: nat, ghost was: World, ghost tick: nat, ghost m: nat)
    returns (ok: bool)
    requires n < |steps| && BuiltSoFar(r, steps, n, was, tick, m)
    modifies r
    ensures old(r.trace) <= r.trace
    ensures ok ==> BuiltSoFar(r, steps, n + 1, was, tick, m)
    ensures !ok ==>
      && RunSteps(r.tools, was.build, steps, |steps|, r.oracle, tick) == Progress(r.world.build, n)
      && r.world == was.(build := r.world.build)
      && OnBuildHost(r.trace, m, was) && StepsTold(r.trace, m, steps, false)
  {
    ghost var before := r.trace;
    ok := RunStep(r, steps, n, was.build, tick);
    StepsToldNext(before, r.trace, m, steps, n, ok);
    if !ok {
      StoppedStays(r.tools, was.build, steps, n + 1, |steps|, r.oracle, tick);
    }
  }

  /** The loop over the build steps, with its early exit. */
  method RunBuild(r: Runner, steps: seq<BuildStep>) returns (ok: bool)
    modifies r
    ensures var p := RunSteps(r.tools, old(r.world.build), steps, |steps|, r.oracle, old(r.tick));
      && r.world == old(r.world).(build := p.host)
      && (ok <==> p.completed == |steps|)
    ensures old(r.trace) <= r.trace && OnBuildHost(r.trace, |old(r.trace)|, old(r.world))
    ensures StepsTold(r.trace, |old(r.trace)|, steps, ok)
  {
    ghost var was, tick, m := r.world, r.tick, |r.trace|;
    for n := 0 to |steps|
      invariant old(r.trace) <= r.trace
      invariant BuiltSoFar(r, steps, n, was, tick, m)
    {
      ok := BuildNext(r, steps, n, was, tick, m);
      if !ok {
        return;
      }
    }
    assert steps[..|steps|] == steps;
    ok := true;
  }

  /** After a failed step nothing more happens. */
  lemma {:induction false} StoppedStays(t: Toolchain, b: BuildHost, steps: seq<BuildStep>, m: nat, n: nat,
                                        oracle: nat -> Outcome, tick: nat)
    requires m <= n <= |steps|
    requires RunSteps(t, b, steps, m, oracle, tick).completed < m
    ensures RunSteps(t, b, steps, n, oracle, tick) == RunSteps(t, b, steps, m, oracle, tick)
  {
    if m < n {
      StoppedStays(t, b, steps, m, n - 1, oracle, tick);
    }
  }

  /** A build as its commands tell it, from entry n to the end of the trace: the
      cache test unless forced, then the steps unless it hit, then the digests. */
  ghost predicate BuildTold(trace: seq<Entry>, n: nat, install: Install, version: string, force: bool,
                            res: BuildResult)
  {
    var m := if force then n else n + 1;
    && m <= |trace|
    && (!force ==> trace[n].cmd == TestCached(version, ArtifactNames(install)))
    && (res.cached <==> !force && Ok(trace[n].result))
    && (if res.cached then res.ok && |trace| == m + |res.artifacts| && CollectTold(trace, m, res.artifacts)
        else NewTold(trace, m, BuildCommands(install, version), res))
  }

  ghost predicate NewTold(trace: seq<Entry>, m: nat, steps: seq<BuildStep>, res: BuildResult) {
    if !res.ok then res.artifacts == [] && StepsTold(trace, m, steps, false)
    else
      && |trace| == m + |steps| + |res.artifacts|
      && StepsTold(trace[..m + |steps|], m, steps, true)
      && CollectTold(trace, m + |steps|, res.artifacts)
  }

  /** The artifacts of a good build are those of the version, in order. */
  ghost predicate ArtifactsOf(t: Toolchain, b: BuildHost, install: Install, version: string, arts: seq<Artifact>) {
    && |arts| == |ArtifactNames(install)|
    && forall i | 0 <= i < |arts| ::
         arts[i].key == CacheKey(version, ArtifactNames(install)[i]) && Recorded(t, b, arts[i])
  }

  lemma BuildStaysSound(t: Toolchain, install: Install, version: string, host: BuildHost, oracle: nat -> Outcome,
                        tick: nat, finished: set<string>)
    requires Sound(t, install, host, finished)
    ensures var steps := BuildCommands(install, version);
      var p := RunSteps(t, host, steps, |steps|, oracle, tick);
      && Sound(t, install, p.host, finished + {version})
      && (p.completed == |steps| ==> Hit(install, version, p.host))
      && ((forall i: nat :: Smooth(oracle(i))) ==> p.completed == |steps|)
  {
    var n := |BuildCommands(install, version)|;
    RunKeepsSound(t, install, version, host, BuildCommands(install, version), n, oracle, tick, finished);
    RunStages(t, install, version, host, n, oracle, tick);
    if RunSteps(t, host, BuildCommands(install, version), n, oracle, tick).completed == n {
      CompletedRunHits(t, install, version, host, oracle, tick);
    }
  }

  /** What a build does for a cache that is sound. */
  ghost predicate SoundBuild(t: Toolchain, install: Install, version: string, smooth: bool, was: BuildHost,
                             now: BuildHost, res: BuildResult)
  {
    forall finished | Sound(t, install, was, finished) ::
      && Sound(t, install, now, finished + {version})
      && (res.ok ==> Hit(install, version, now))
      && (smooth ==> res.ok && forall a | a in res.artifacts :: a.sha.Some?)
  }

  lemma CollectedIsArtifacts(t: Toolchain, b: BuildHost, install: Install, version: string, smooth: bool,
                             arts: seq<Artifact>)
    requires |arts| == |ArtifactNames(install)|
    requires forall i | 0 <= i < |arts| ::
      && arts[i].key == CacheKey(version, ArtifactNames(install)[i]) && Recorded(t, b, arts[i])
      && (smooth && arts[i].key in b.cache ==> arts[i].sha.Some?)
    ensures ArtifactsOf(t, b, install, version, arts)
    ensures smooth && Hit(install, version, b) ==> forall a | a in arts :: a.sha.Some?
  {
    if smooth && Hit(install, version, b) {
      forall a | a in arts ensures a.sha.Some? {
        var i :| 0 <= i < |arts| && arts[i] == a;
        assert ArtifactNames(install)[i] in ArtifactNames(install);
      }
    }
  }

  /** Builds the artifact set of a version or takes it from the cache. */
  method BuildArtifacts(r: Runner, install: Install, version: string, force: bool) returns (res: BuildResult)
    modifies r
    ensures old(r.trace) <= r.trace && OnBuildHost(r.trace, |old(r.trace)|, old(r.world))
    // as the outcomes decide it ...
    ensures BuildDecided(r.tools, install, Request(version, force, r.oracle, old(r.tick)), old(r.world), r.world, res)
    // ... and as the commands tell it
    ensures BuildTold(r.trace, |old(r.trace)|, install, version, force, res)
    ensures res.cached ==> Hit(install, version, r.world.build) && r.world == old(r.world)
    ensures res.ok ==> ArtifactsOf(r.tools, r.world.build, install, version, res.artifacts)
    // the cache stays sound, success puts every file of the version there, and
    // with no mishap success is certain
    ensures SoundBuild(r.tools, install, version, AllSmooth(r), old(r.world.build), r.world.build, res)
  {
    ghost var w0, req := r.world, Request(version, force, r.oracle, r.tick);
    if !force {
      var hit := IsCached(r, version, ArtifactNames(install));
      if hit {
        var arts := CollectArtifacts(r, install, version);
        res := BuildResult(arts, true, true);
        CachedStaysSound(r.tools, install, version, AllSmooth(r), r.world.build, res);
        return;
      }
    }
    res := BuildAnew(r, install, version, BuildCommands(install, version));
    AnewIsDecided(r.tools, install, req, w0, r.world, BuildCommands(install, version), res);
  }

  /** The outcomes decide whether the steps are run and how far they get. */
  ghost predicate BuildDecided(t: Toolchain, install: Install, req: Request, was: World, now: World, res: BuildResult) {
    var p := BuildRun(t, install, was.build, req);
    && now == was.(build := p.host)
    && (res.cached <==> !Rebuilds(install, was.build, req))
    && (res.ok <==> res.cached || p.completed == |BuildCommands(install, req.version)|)
  }

  lemma AnewIsDecided(t: Toolchain, install: Install, req: Request, was: World, now: World, steps: seq<BuildStep>,
                      res: BuildResult)
    requires steps == BuildCommands(install, req.version) && Rebuilds(install, was.build, req) && !res.cached
    requires var p := RunSteps(t, was.build, steps, |steps|, req.oracle, StepsFrom(req));
      now == was.(build := p.host) && (res.ok <==> p.completed == |steps|)
    ensures BuildDecided(t, install, req, was, now, res)
  {}

  /** The steps and, after a success, the digests. */
  method BuildAnew(r: Runner, install: Install, version: string, steps: seq<BuildStep>) returns (res: BuildResult)
    requires steps == BuildCommands(install, version)
    modifies r
    ensures old(r.trace) <= r.trace && OnBuildHost(r.trace, |old(r.trace)|, old(r.world))
    ensures var p := RunSteps(r.tools, old(r.world.build), steps, |steps|, r.oracle, old(r.tick));
      && r.world == old(r.world).(build := p.host)
      && (res.ok <==> p.completed == |steps|)
    ensures !res.cached && NewTold(r.trace, |old(r.trace)|, steps, res)
    ensures res.ok ==> ArtifactsOf(r.tools, r.world.build, install, version, res.artifacts)
    ensures SoundBuild(r.tools, install, version, AllSmooth(r), old(r.world.build), r.world.build, res)
  {
    ghost var w0, n, host, tick := r.world, |r.trace|, r.world.build, r.tick;
    var ok := RunBuild(r, steps);
    if !ok {
      res := BuildResult([], false, false);
    } else {
      ghost var w1, built := r.world, r.trace;
      var arts := CollectArtifacts(r, install, version);
      res := BuildResult(arts, false, true);
      BuildThenCollect(built, r.trace, n, w0, w1, steps, res);
    }
    RebuiltStaysSound(r.tools, install, version, steps, AllSmooth(r), host, r.oracle, tick, res);
  }

  lemma BuildThenCollect(t1: seq<Entry>, t2: seq<Entry>, n: nat, w0: World, w1: World, steps: seq<BuildStep>,
                         res: BuildResult)
    requires n <= |t1| && t1 <= t2 && res.ok
    requires OnBuildHost(t1, n, w0) && OnBuildHost(t2, |t1|, w1) && w1.target == w0.target && w1.staging == w0.staging
    requires StepsTold(t1, n, steps, true)
    requires |t2| == |t1| + |res.artifacts| && CollectTold(t2, |t1|, res.artifacts)
    ensures OnBuildHost(t2, n, w0) && NewTold(t2, n, steps, res)
  {
    assert t2[..|t1|] == t1;
    forall i | n <= i < |t1| ensures t2[i] == t1[i] {
    }
  }

  /** Collecting the artifact set of a version. */
  method CollectArtifacts(r: Runner, install: Install, version: string) returns (arts: seq<Artifact>)
    modifies r
    ensures old(r.trace) <= r.trace && OnBuildHost(r.trace, |old(r.trace)|, old(r.world))
    ensures r.world == old(r.world)
    ensures |r.trace| == |old(r.trace)| + |arts| && CollectTold(r.trace, |old(r.trace)|, arts)
    ensures ArtifactsOf(r.tools, r.world.build, install, version, arts)
    ensures AllSmooth(r) && Hit(install, version, r.world.build) ==> forall a | a in arts :: a.sha.Some?
  {
    arts := Collect(r, version, ArtifactNames(install));
    CollectedIsArtifacts(r.tools, r.world.build, install, version, AllSmooth(r), arts);
  }

  lemma CachedStaysSound(t: Toolchain, install: Install, version: string, smooth: bool, b: BuildHost, res: BuildResult)
    requires res.ok && Hit(install, version, b)
    requires smooth ==> forall a | a in res.artifacts :: a.sha.Some?
    ensures SoundBuild(t, install, version, smooth, b, b, res)
  {
    forall finished | Sound(t, install, b, finished) ensures Sound(t, install, b, finished + {version}) {
      SoundMonotone(t, install, b, finished, finished + {version});
    }
  }

  lemma RebuiltStaysSound(t: Toolchain, install: Install, version: string, steps: seq<BuildStep>, smooth: bool,
                          host: BuildHost, oracle: nat -> Outcome, tick: nat, res: BuildResult)
    requires steps == BuildCommands(install, version)
    requires smooth ==> forall i: nat :: Smooth(oracle(i))
    requires var p := RunSteps(t, host, steps, |steps|, oracle, tick);
      && (res.ok <==> p.completed == |steps|)
      && (res.ok && smooth && Hit(install, version, p.host) ==> forall a | a in res.artifacts :: a.sha.Some?)
    ensures SoundBuild(t, install, version, smooth, host, RunSteps(t, host, steps, |steps|, oracle, tick).host, res)
  {
    var p := RunSteps(t, host, steps, |steps|, oracle, tick);
    forall finished | Sound(t, install, host, finished)
      ensures Sound(t, install, p.host, finished + {version}) && (res.ok ==> Hit(install, version, p.host))
      ensures smooth ==> res.ok && forall a | a in res.artifacts :: a.sha.Some?
    {
      BuildStaysSound(t, install, version, host, oracle, tick, finished);
    }
  }

  // ---- preparing a build host ---------------------------------------------

  datatype BootstrapResult = UnknownBuilder | Refused(decision: Decision) | Bootstrapped(ok: bool)

  function BootstrapDecision(confirm: bool, reachable: bool): Decision {
    Gate(confirm, [Check(reachable, Unreachable)])
  }

  lemma AllowedBootstrap(confirm: bool, reachable: bool)
    ensures BootstrapDecision(confirm, reachable).allowed <==> reachable
    ensures InMode(BootstrapDecision(confirm, reachable), confirm)
    ensures Unreachable in BootstrapDecision(confirm, reachable).reasons <==> !reachable
  {
    var checks := [Check(reachable, Unreachable)];
    GateTruthful(confirm, checks);
    assert checks[0] in checks;
  }

  ghost function BootstrapRows(name: string, res: BootstrapResult): seq<Row> {
    match res
    case UnknownBuilder => []
    case Refused(d) => [GatedRow("bootstrap_builder", "builders", name, Some(d))]
    case Bootstrapped(_) => [GatedRow("bootstrap_builder", "builders", name, None)]
  }

  method Reachable(r: Runner) returns (ok: bool)
    modifies r
    ensures r.world == old(r.world)
    ensures |r.trace| == |old(r.trace)| + 1 && old(r.trace) <= r.trace
    ensures var e := r.trace[|old(r.trace)|]; e.cmd == Reach && e.after == r.world && (ok <==> Ok(e.result))
  {
    var reach := r.Run(Reach);
    ok := Ok(reach);
  }

  /** The script ran through to its last line. */
  predicate ScriptDone(res: CommandResult) {
    Ok(res) && "BOOTSTRAP_OK" in res.words
  }

  method InstallToolchain(r: Runner) returns (ok: bool)
    modifies r
    ensures |r.trace| == |old(r.trace)| + 1 && old(r.trace) <= r.trace
    ensures var e := r.trace[|old(r.trace)|]; e.cmd == Bootstrap && (ok <==> ScriptDone(e.result))
  {
    var done := r.Run(Bootstrap);
    ok := ScriptDone(done);
  }

  /** Confirmed and reachable: exactly one more command. Otherwise only the reach
      test, and nothing is changed. */
  ghost predicate BootstrapKept(trace: seq<Entry>, n: nat, was: World, now: World, confirm: bool,
                                res: BootstrapResult)
  {
    && |trace| == n + (if res.Bootstrapped? then 2 else 1)
    && trace[n].cmd == Reach && trace[n].after == was
    && (res.Bootstrapped? <==> confirm && Ok(trace[n].result))
    && (res.Bootstrapped? ==>
          && trace[n + 1].cmd == Bootstrap
          && (res.ok <==> trace[n + 1].result.exitCode == 0 && "BOOTSTRAP_OK" in trace[n + 1].result.words))
    && (res.Refused? ==> now == was && InMode(res.decision, confirm))
    && (res.Refused? ==> (res.decision.allowed <==> trace[n].result.exitCode == 0))
  }

  method BootstrapBuilder(f: Fleet, r: Runner, name: string, confirm: bool, audit: AuditLog?)
    returns (res: BootstrapResult)
    modifies r, audit
    ensures old(r.trace) <= r.trace
    ensures res.UnknownBuilder? <==> name == "" || name !in f.builders
    ensures res.UnknownBuilder? ==> r.trace == old(r.trace) && r.world == old(r.world)
    ensures !res.UnknownBuilder? ==> BootstrapKept(r.trace, |old(r.trace)|, old(r.world), r.world, confirm, res)
    ensures audit != null ==> audit.rows == old(audit.rows) + BootstrapRows(name, res)
  {
    if FindBuilder(f, Some(name)).None? {
      return UnknownBuilder;
    }
    var reachable := Reachable(r);
    AllowedBootstrap(confirm, reachable);
    var decision := BootstrapDecision(confirm, reachable);
    if !confirm || !decision.allowed {
      res := Refused(decision);
      RecordGated(audit, "bootstrap_builder", "builders", name, Some(decision));
    } else {
      var ok := InstallToolchain(r);
      res := Bootstrapped(ok);
      RecordGated(audit, "bootstrap_builder", "builders", name, None);
    }
  }
}
