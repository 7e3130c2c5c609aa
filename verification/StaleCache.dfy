/** A changed configuration and what the build host still keeps from the old one
    (src/solfleet/builder.py): the cache is keyed by version alone, and a clone is only
    made where there is none. */
module StaleCache {
  import opened Text
  import opened Config
  import opened Remote
  import opened Builder

  predicate SameRef(a: Install, b: Install) {
    if Truthy(a.geyserRef) then b.geyserRef == a.geyserRef else !Truthy(b.geyserRef)
  }

  // ---- cache hits ---------------------------------------------------------

  /** After any builds under `was`, a version the cache test accepts under `now` is,
      file by file, what a build under `now` is meant to produce. */
  ghost predicate HitsAreRight(t: Toolchain, was: Install, now: Install, version: string) {
    forall rs: seq<Request> ::
      var b := AfterBuilds(t, was, EMPTY_HOST, rs);
      Hit(now, version, b) ==> FreshHit(t, now, version, b)
  }

  /** No build under `was` leaves the plugin that `now` asks for. */
  predicate NeverHits(was: Install, now: Install) {
    BuildsGeyser(now) && !BuildsGeyser(was)
  }

  predicate SameSources(was: Install, now: Install) {
    && was.agaveRepo == now.agaveRepo
    && (BuildsGeyser(now) ==> was.geyserRepo == now.geyserRepo && SameRef(was, now))
  }

  /** Hits stay right over a change of configuration, whatever the tools compute, exactly
      when the change starts building the plugin or keeps every repository and ref that
      the artifacts come from. */
  lemma ChangedConfigIff(was: Install, now: Install, version: string)
    ensures (forall t :: HitsAreRight(t, was, now, version)) <==> NeverHits(was, now) || SameSources(was, now)
  {
    if NeverHits(was, now) || SameSources(was, now) {
      forall t ensures HitsAreRight(t, was, now, version) {
        KeptConfigHitsRight(t, was, now, version);
      }
    } else if forall t :: HitsAreRight(t, was, now, version) {
      var t := Telling(was, now, version);
      OneBuild(t, was, version);
      assert HitsAreRight(t, was, now, version);
      NamesKept(was, now);
      TellsApart(t, was, now, version, AfterBuilds(t, was, EMPTY_HOST, OneRequest(version)));
    }
  }

  lemma NamesKept(was: Install, now: Install)
    requires !NeverHits(was, now)
    ensures forall n | n in ArtifactNames(now) :: n in ArtifactNames(was)
  {}

  lemma NoPluginHit(t: Toolchain, was: Install, now: Install, version: string, b: BuildHost, finished: set<string>)
    requires Sound(t, was, b, finished) && NeverHits(was, now)
    ensures !Hit(now, version, b)
  {
    var key := CacheKey(version, GEYSER_LIB);
    assert key !in b.cache;
    assert key.name in ArtifactNames(now);
  }

  lemma SoundHitIsRight(t: Toolchain, was: Install, now: Install, version: string, b: BuildHost, finished: set<string>)
    requires Sound(t, was, b, finished) && SameSources(was, now) && Hit(now, version, b)
    ensures FreshHit(t, now, version, b)
  {
    forall n | n in ArtifactNames(now) ensures HoldsFresh(t, now, b, CacheKey(version, n)) {
      assert n == GEYSER_LIB ==> BuildsGeyser(now);
      assert CacheKey(version, n) in b.cache;
    }
  }

  lemma KeptConfigHitsRight(t: Toolchain, was: Install, now: Install, version: string)
    requires NeverHits(was, now) || SameSources(was, now)
    ensures HitsAreRight(t, was, now, version)
  {
    forall rs: seq<Request> | Hit(now, version, AfterBuilds(t, was, EMPTY_HOST, rs))
      ensures FreshHit(t, now, version, AfterBuilds(t, was, EMPTY_HOST, rs))
    {
      FinishedIs(t, was, rs);
      BuildsKeepSound(t, was, rs, Finished(t, was, EMPTY_HOST, rs));
      if NeverHits(was, now) {
        NoPluginHit(t, was, now, version, AfterBuilds(t, was, EMPTY_HOST, rs), Finished(t, was, EMPTY_HOST, rs));
      } else {
        SoundHitIsRight(t, was, now, version, AfterBuilds(t, was, EMPTY_HOST, rs), Finished(t, was, EMPTY_HOST, rs));
      }
    }
  }

  /** Tools whose output shows whether the checkout is the one `now` asks for. */
  function Telling(was: Install, now: Install, version: string): Toolchain {
    var other := Longer(was.geyserRef, now.geyserRef);
    Toolchain(
      (c: Checkout, n: string) => if c == AgaveHead(now, version) then "asked for" else "other",
      (c: Checkout) =>
        if c == Checkout(GeyserRepo(now), if Truthy(now.geyserRef) then now.geyserRef.value else other) then "asked for"
        else "other",
      (b: Bytes) => b,
      (repo: string) => other)
  }

  /** A ref that is neither of the two. */
  function Longer(a: Option<string>, b: Option<string>): (r: string)
    ensures a != Some(r) && b != Some(r) && r != ""
  {
    var r := (if a.Some? then a.value else "") + (if b.Some? then b.value else "") + "+";
    assert a.Some? ==> |r| > |a.value|;
    assert b.Some? ==> |r| > |b.value|;
    r
  }

  function OneRequest(version: string): seq<Request> {
    [Request(version, true, _ => LUCKY, 0)]
  }

  lemma OneBuild(t: Toolchain, install: Install, version: string)
    ensures var b := AfterBuilds(t, install, EMPTY_HOST, OneRequest(version));
      && FreshHit(t, install, version, b) && HeadsFit(t, install, b)
      && b.agaveHead == Some(AgaveHead(install, version))
      && b.geyserHead == if BuildsGeyser(install) then Some(PluginHead(t, install)) else None
  {
    var rs := OneRequest(version);
    assert rs[..0] == [];
    assert AfterBuilds(t, install, EMPTY_HOST, rs[..0]) == EMPTY_HOST;
    var steps := BuildCommands(install, version);
    var b := AfterBuilds(t, install, EMPTY_HOST, rs);
    assert b == RunSteps(t, EMPTY_HOST, steps, |steps|, rs[0].oracle, 0).host;
    RunStages(t, install, version, EMPTY_HOST, |steps|, rs[0].oracle, 0);
    CompletedRunHits(t, install, version, EMPTY_HOST, rs[0].oracle, 0);
    FinishedIs(t, install, rs);
    BuildsKeepSound(t, install, rs, Finished(t, install, EMPTY_HOST, rs));
    FullStageHeads(t, install, version, b);
  }

  lemma FullStageHeads(t: Toolchain, install: Install, version: string, b: BuildHost)
    requires Stage(t, install, version, b, |BuildCommands(install, version)|)
    ensures b.agaveHead == Some(AgaveHead(install, version))
    ensures BuildsGeyser(install) ==> b.geyserHead == Some(PluginHead(t, install))
  {
    assert |BuildCommands(install, version)| ==
      8 + if BuildsGeyser(install) then |GeyserSteps(install, version)| else 0;
  }

  /** With the telling tools, equal files mean equal checkouts. */
  lemma TellsApart(t: Toolchain, was: Install, now: Install, version: string, b: BuildHost)
    requires t == Telling(was, now, version) && !NeverHits(was, now)
    requires FreshHit(t, was, version, b) && FreshHit(t, now, version, b)
    ensures SameSources(was, now)
  {
    var k := CacheKey(version, AGAVE_BINS[0]);
    assert HoldsFresh(t, was, b, k) && HoldsFresh(t, now, b, k);
    if BuildsGeyser(now) {
      var g := CacheKey(version, GEYSER_LIB);
      assert HoldsFresh(t, was, b, g) && HoldsFresh(t, now, b, g);
      assert PluginHead(t, was) == PluginHead(t, now);
    }
  }

  /** The smallest such run: one build, another plugin repository, the same ref. */
  lemma StaleHit(version: string)
    ensures var was := Install(BuildFromSource, Some("b1"), "https://a/agave", Some("https://a/geyser"), Some("v1"));
      var now := was.(geyserRepo := Some("https://b/fork"));
      exists t, rs: seq<Request> ::
        var b := AfterBuilds(t, was, EMPTY_HOST, rs);
        |rs| == 1 && SameRef(was, now) && Hit(now, version, b) && !HoldsFresh(t, now, b, CacheKey(version, GEYSER_LIB))
  {
    var was := Install(BuildFromSource, Some("b1"), "https://a/agave", Some("https://a/geyser"), Some("v1"));
    var now := was.(geyserRepo := Some("https://b/fork"));
    assert "https://a/geyser"[8] == 'a' && "https://b/fork"[8] == 'b';
    var t, rs := Telling(was, now, version), OneRequest(version);
    OneBuild(t, was, version);
    var b := AfterBuilds(t, was, EMPTY_HOST, rs);
    NamesKept(was, now);
    assert HoldsFresh(t, was, b, CacheKey(version, GEYSER_LIB));
    assert Hit(now, version, b);
  }

  // ---- new builds on old clones -------------------------------------------

  /** The configuration a build on this host follows in fact: a clone that is there
      keeps its repository. */
  function WorksOn(install: Install, b: BuildHost): Install {
    install.(agaveRepo := if b.agaveHead.Some? then b.agaveHead.value.repo else install.agaveRepo,
             geyserRepo := if BuildsGeyser(install) && b.geyserHead.Some? then Some(b.geyserHead.value.repo)
             else install.geyserRepo)
  }

  /** And without a configured ref, a plugin clone that is there keeps its own. */
  function ToolsOn(t: Toolchain, b: BuildHost): Toolchain {
    if b.geyserHead.Some? then t.(defaultRef := (repo: string) => b.geyserHead.value.gref) else t
  }

  /** The plugin is only ever cloned on a host that has agave, and from some repository. */
  predicate ClonedInOrder(b: BuildHost) {
    b.geyserHead.Some? ==> b.agaveHead.Some? && b.geyserHead.value.repo != ""
  }

  /** A run sees nothing of the repositories it is configured with where clones exist. */
  lemma {:induction false} OldClonesStay(t: Toolchain, install: Install, version: string, b: BuildHost, n: nat,
                                         oracle: nat -> Outcome, tick: nat)
    requires ClonedInOrder(b) && n <= |BuildCommands(install, version)|
    ensures |BuildCommands(WorksOn(install, b), version)| == |BuildCommands(install, version)|
    ensures var p := RunSteps(t, b, BuildCommands(install, version), n, oracle, tick);
      && p == RunSteps(ToolsOn(t, b), b, BuildCommands(WorksOn(install, b), version), n, oracle, tick)
      && (b.agaveHead.Some? ==> p.host.agaveHead.Some?)
      && (b.geyserHead.Some? ==> p.host.geyserHead.Some?)
  {
    assert |BuildCommands(WorksOn(install, b), version)| == |BuildCommands(install, version)|;
    if n > 0 {
      OldClonesStay(t, install, version, b, n - 1, oracle, tick);
      var p := RunSteps(t, b, BuildCommands(install, version), n - 1, oracle, tick);
      StepOnOldClones(t, install, version, b, p.host, n - 1, oracle(tick + n - 1));
    }
  }

  lemma StepOnOldClones(t: Toolchain, install: Install, version: string, b: BuildHost, h: BuildHost, k: nat, o: Outcome)
    requires ClonedInOrder(b) && k < |BuildCommands(install, version)|
    requires b.agaveHead.Some? ==> h.agaveHead.Some?
    requires b.geyserHead.Some? ==> h.geyserHead.Some?
    ensures k < |BuildCommands(WorksOn(install, b), version)|
    ensures SameStep(t, b, h, BuildCommands(install, version)[k], BuildCommands(WorksOn(install, b), version)[k], o)
  {
    StepAt(install, version, k);
    StepAt(WorksOn(install, b), version, k);
    if k < 8 {
      AgaveStepOnOldClones(t, install, version, b, h, k, o);
    } else {
      GeyserStepOnOldClones(t, install, version, b, h, k - 8, o);
    }
  }

  lemma AgaveStepOnOldClones(t: Toolchain, install: Install, version: string, b: BuildHost, h: BuildHost, k: nat,
                             o: Outcome)
    requires ClonedInOrder(b) && k < 8
    requires b.agaveHead.Some? ==> h.agaveHead.Some?
    requires b.geyserHead.Some? ==> h.geyserHead.Some?
    ensures SameStep(t, b, h, AgaveSteps(install, version)[k], AgaveSteps(WorksOn(install, b), version)[k], o)
  {
    if k != 1 {
      assert AgaveSteps(install, version)[k] == AgaveSteps(WorksOn(install, b), version)[k];
    }
  }

  lemma GeyserStepOnOldClones(t: Toolchain, install: Install, version: string, b: BuildHost, h: BuildHost, j: nat,
                              o: Outcome)
    requires ClonedInOrder(b) && BuildsGeyser(install) && j < |GeyserSteps(install, version)|
    requires b.agaveHead.Some? ==> h.agaveHead.Some?
    requires b.geyserHead.Some? ==> h.geyserHead.Some?
    ensures |GeyserSteps(WorksOn(install, b), version)| == |GeyserSteps(install, version)|
    ensures SameStep(t, b, h, GeyserSteps(install, version)[j], GeyserSteps(WorksOn(install, b), version)[j], o)
  {
    if j != 0 {
      assert GeyserSteps(install, version)[j] == GeyserSteps(WorksOn(install, b), version)[j];
    }
  }

  /** Two steps, the second with the host's own tools, do the same and keep the clones. */
  predicate SameStep(t: Toolchain, b: BuildHost, h: BuildHost, s: BuildStep, own: BuildStep, o: Outcome) {
    var after := StepRun(t, h, s, o);
    && after == StepRun(ToolsOn(t, b), h, own, o)
    && (b.agaveHead.Some? ==> after.0.agaveHead.Some?)
    && (b.geyserHead.Some? ==> after.0.geyserHead.Some?)
  }

  /** What a completed build puts into the cache, on any host: files from the clones
      that are there. */
  lemma CompletedRunUsesClones(t: Toolchain, install: Install, version: string, b: BuildHost, oracle: nat -> Outcome,
                               tick: nat)
    requires ClonedInOrder(b)
    requires var steps := BuildCommands(install, version);
      RunSteps(t, b, steps, |steps|, oracle, tick).completed == |steps|
    ensures var steps := BuildCommands(install, version);
      FreshHit(ToolsOn(t, b), WorksOn(install, b), version, RunSteps(t, b, steps, |steps|, oracle, tick).host)
    ensures ArtifactNames(WorksOn(install, b)) == ArtifactNames(install)
  {
    var n := |BuildCommands(install, version)|;
    OldClonesStay(t, install, version, b, n, oracle, tick);
    CompletedRunHits(ToolsOn(t, b), WorksOn(install, b), version, b, oracle, tick);
  }

  /** After any builds under `was`, every completed run under `now` leaves the files a
      build under `now` is meant to produce. */
  ghost predicate RunsAreRight(t: Toolchain, was: Install, now: Install, version: string) {
    forall rs: seq<Request>, r: Request ::
      var p := BuildRun(t, now, AfterBuilds(t, was, EMPTY_HOST, rs), r);
      r.version == version && p.completed == |BuildCommands(now, version)| ==> FreshHit(t, now, version, p.host)
  }

  /** A checkout of the ref can undo an old ref, nothing undoes an old repository. */
  predicate ClonesServe(was: Install, now: Install) {
    && was.agaveRepo == now.agaveRepo
    && (BuildsGeyser(was) && BuildsGeyser(now) ==>
          && was.geyserRepo == now.geyserRepo
          && (Truthy(now.geyserRef) || !Truthy(was.geyserRef)))
  }

  /** Running the steps again - forced, say - is right over a change of configuration
      exactly when the old clones serve the new one. */
  lemma ForcedRebuildIff(was: Install, now: Install, version: string)
    ensures (forall t :: RunsAreRight(t, was, now, version)) <==> ClonesServe(was, now)
  {
    if ClonesServe(was, now) {
      forall t ensures RunsAreRight(t, was, now, version) {
        ServingClonesAreRight(t, was, now, version);
      }
    } else if forall t :: RunsAreRight(t, was, now, version) {
      var t := Telling(was, now, version);
      assert RunsAreRight(t, was, now, version);
      OneBuild(t, was, version);
      var b := AfterBuilds(t, was, EMPTY_HOST, OneRequest(version));
      var r := OneRequest(version)[0];
      RebuildGetsThrough(t, now, version, b, r);
      CompletedRunUsesClones(t, now, version, b, r.oracle, r.tick);
      BothFreshServe(t, was, now, version, b, BuildRun(t, now, b, r).host);
    }
  }

  lemma RebuildGetsThrough(t: Toolchain, install: Install, version: string, b: BuildHost, r: Request)
    requires ClonedInOrder(b) && r == OneRequest(version)[0]
    ensures BuildRun(t, install, b, r).completed == |BuildCommands(install, version)|
  {
    var n := |BuildCommands(install, version)|;
    OldClonesStay(t, install, version, b, n, r.oracle, r.tick);
    RunStages(ToolsOn(t, b), WorksOn(install, b), version, b, n, r.oracle, r.tick);
  }

  lemma BothFreshServe(t: Toolchain, was: Install, now: Install, version: string, b: BuildHost, after: BuildHost)
    requires t == Telling(was, now, version)
    requires b.agaveHead == Some(AgaveHead(was, version))
    requires b.geyserHead == if BuildsGeyser(was) then Some(PluginHead(t, was)) else None
    requires FreshHit(ToolsOn(t, b), WorksOn(now, b), version, after) && FreshHit(t, now, version, after)
    requires ArtifactNames(WorksOn(now, b)) == ArtifactNames(now)
    ensures ClonesServe(was, now)
  {
    var k := CacheKey(version, AGAVE_BINS[0]);
    assert HoldsFresh(t, now, after, k) && HoldsFresh(ToolsOn(t, b), WorksOn(now, b), after, k);
    if BuildsGeyser(was) && BuildsGeyser(now) {
      var g := CacheKey(version, GEYSER_LIB);
      assert g.name in ArtifactNames(now);
      assert HoldsFresh(t, now, after, g) && HoldsFresh(ToolsOn(t, b), WorksOn(now, b), after, g);
      assert PluginHead(ToolsOn(t, b), WorksOn(now, b)) == PluginHead(t, now);
    }
  }

  lemma ServingClonesAreRight(t: Toolchain, was: Install, now: Install, version: string)
    requires ClonesServe(was, now)
    ensures RunsAreRight(t, was, now, version)
  {
    forall rs: seq<Request>, r: Request |
      var p := BuildRun(t, now, AfterBuilds(t, was, EMPTY_HOST, rs), r);
      r.version == version && p.completed == |BuildCommands(now, version)|
      ensures FreshHit(t, now, version, BuildRun(t, now, AfterBuilds(t, was, EMPTY_HOST, rs), r).host)
    {
      var b := AfterBuilds(t, was, EMPTY_HOST, rs);
      FinishedIs(t, was, rs);
      BuildsKeepSound(t, was, rs, Finished(t, was, EMPTY_HOST, rs));
      assert |BuildCommands(now, version)| >= 8;
      assert Rebuilds(now, b, r);
      CompletedRunHits(t, now, version, b, r.oracle, StepsFrom(r));
    }
  }
}
