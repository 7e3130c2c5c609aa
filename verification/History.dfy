/** Any history of upgrades and provisioning runs on one node: what is ever live there
    (src/solfleet/operations.py, src/solfleet/provision.py over src/solfleet/builder.py). */
module History {
  import opened Text
  import opened Config
  import opened Safety
  import opened Audit
  import opened Catchup
  import opened Remote
  import opened Builder
  import opened Layout
  import opened Executor
  import opened Distribution
  import opened Operations
  import opened Provision

  /** One call on the node, with whatever confirmation and acknowledgements. */
  datatype Job =
    | ToUpgrade(version: string, confirm: bool, force: bool, polls: Polls)
    | ToProvision(version: string, text: string, confirm: bool, allowFormat: set<string>, sampler: nat -> Sample)

  function Versions(jobs: seq<Job>): set<string> {
    set i | 0 <= i < |jobs| :: jobs[i].version
  }

  /** The file has the digest of a fresh build of some requested version. */
  ghost predicate BuiltFor(t: Toolchain, install: Install, versions: set<string>, name: string, bytes: Bytes) {
    exists v | v in versions :: t.sha(bytes) == t.sha(Fresh(t, install, CacheKey(v, name)))
  }

  /** Every live destination holds what it first held or bytes built for a version asked for. */
  ghost predicate EachLive(t: Toolchain, node: Node, install: Install, versions: set<string>, first: map<string, Bytes>,
                           now: map<string, Bytes>)
  {
    forall name | name in ArtifactNames(install) && DestFor(node, name).Some? ::
      var dest := DestFor(node, name).value;
      SameAt(now, first, dest) || (dest in now && BuiltFor(t, install, versions, name, now[dest]))
  }

  ghost predicate AlwaysEachLive(trace: seq<Entry>, n: nat, t: Toolchain, node: Node, install: Install,
                                 versions: set<string>, first: map<string, Bytes>)
  {
    forall i | n <= i < |trace| :: EachLive(t, node, install, versions, first, trace[i].after.target.files)
  }

  lemma MoreVersions(t: Toolchain, node: Node, install: Install, small: set<string>, large: set<string>,
                     first: map<string, Bytes>, now: map<string, Bytes>)
    requires small <= large && EachLive(t, node, install, small, first, now)
    ensures EachLive(t, node, install, large, first, now)
  {
    forall name | name in ArtifactNames(install) && DestFor(node, name).Some?
      ensures var dest := DestFor(node, name).value;
        SameAt(now, first, dest) || (dest in now && BuiltFor(t, install, large, name, now[dest]))
    {
      var dest := DestFor(node, name).value;
      if !SameAt(now, first, dest) {
        var v :| v in small && t.sha(now[dest]) == t.sha(Fresh(t, install, CacheKey(v, name)));
        assert v in large;
      }
    }
  }

  /** Bytes that carry a digest on record from a sound cache are those of a fresh build. */
  lemma TrustedIsBuilt(t: Toolchain, node: Node, install: Install, version: string, b: BuildHost, arts: seq<Artifact>,
                       name: string, bytes: Bytes)
    requires OnRecord(t, b, install, version, arts) && CacheSound(t, install, b)
    requires PathsDistinct(node, ArtifactNames(install)) && name in ArtifactNames(install) && DestFor(node, name).Some?
    requires Trusted(t, node, arts, DestFor(node, name).value, bytes)
    ensures t.sha(bytes) == t.sha(Fresh(t, install, CacheKey(version, name)))
  {
    var names := ArtifactNames(install);
    var a :| a in arts && DestFor(node, a.key.name) == DestFor(node, name) && a.sha == Some(t.sha(bytes));
    var i :| 0 <= i < |arts| && arts[i] == a;
    assert names[i] == a.key.name;
    var j :| 0 <= j < |names| && names[j] == name;
    assert i == j;
    assert a.key == CacheKey(version, name);
  }

  /** Files that are live by one call's measure are live by the history's. */
  lemma CallKeepsEachLive(t: Toolchain, node: Node, install: Install, version: string, versions: set<string>,
                          b: BuildHost, arts: seq<Artifact>, first: map<string, Bytes>, was: map<string, Bytes>,
                          now: map<string, Bytes>)
    requires PathsDistinct(node, ArtifactNames(install)) && version in versions
    requires OnRecord(t, b, install, version, arts) && CacheSound(t, install, b)
    requires EachLive(t, node, install, versions, first, was) && LiveOk(t, node, arts, was, now)
    ensures EachLive(t, node, install, versions, first, now)
  {
    forall name | name in ArtifactNames(install) && DestFor(node, name).Some?
      ensures var dest := DestFor(node, name).value;
        SameAt(now, first, dest) || (dest in now && BuiltFor(t, install, versions, name, now[dest]))
    {
      var dest := DestFor(node, name).value;
      if arts != [] {
        NotStaged(node, NamesIn(arts), dest);
      }
      assert !IsStaged(node, NamesIn(arts), dest) && Marker(node) != Some(dest);
      if !SameAt(now, was, dest) {
        TrustedIsBuilt(t, node, install, version, b, arts, name, now[dest]);
      }
    }
  }

  /** One call, told from the entry it starts at. */
  lemma CallKeepsHistory(t: Toolchain, trace: seq<Entry>, n: nat, m: nat, node: Node, install: Install, version: string,
                         versions: set<string>, b: BuildHost, arts: seq<Artifact>, first: map<string, Bytes>,
                         was: Target, now: Target)
    requires n <= m <= |trace| && AlwaysEachLive(trace[..m], n, t, node, install, versions, first)
    requires PathsDistinct(node, ArtifactNames(install)) && version in versions
    requires OnRecord(t, b, install, version, arts) && CacheSound(t, install, b)
    requires EachLive(t, node, install, versions, first, was.files)
    requires AlwaysLive(trace, m, t, node, arts, was) && LiveOk(t, node, arts, was.files, now.files)
    ensures AlwaysEachLive(trace, n, t, node, install, versions, first)
    ensures EachLive(t, node, install, versions, first, now.files)
  {
    CallKeepsEachLive(t, node, install, version, versions, b, arts, first, was.files, now.files);
    forall i | n <= i < |trace| ensures EachLive(t, node, install, versions, first, trace[i].after.target.files) {
      if i < m {
        assert trace[..m][i] == trace[i];
      } else {
        CallKeepsEachLive(t, node, install, version, versions, b, arts, first, was.files, trace[i].after.target.files);
      }
    }
  }

  lemma QuietKeepsHistory(t: Toolchain, trace: seq<Entry>, n: nat, m: nat, node: Node, install: Install,
                          versions: set<string>, first: map<string, Bytes>, w: World)
    requires n <= m <= |trace| && AlwaysEachLive(trace[..m], n, t, node, install, versions, first)
    requires EachLive(t, node, install, versions, first, w.target.files)
    requires forall i | m <= i < |trace| :: trace[i].after == w
    ensures AlwaysEachLive(trace, n, t, node, install, versions, first)
  {
    forall i | n <= i < m ensures trace[..m][i] == trace[i] {
    }
  }

  /** An abandoned deployment is live like one that has made no move. */
  lemma DeploymentIsLive(t: Toolchain, trace: seq<Entry>, n: nat, was: Target, now: World, node: Node, install: Install,
                         version: string, minIdle: int, d: Deployment, setup: seq<Command>, moves: seq<Command>,
                         moved: nat)
    requires DeployKept(t, trace, n, was, now, node, install, version, minIdle, d, setup, moves, moved)
    requires PathsDistinct(node, ArtifactNames(install))
    ensures AlwaysLive(trace, n, t, node, d.build.artifacts, was)
    ensures LiveOk(t, node, d.build.artifacts, was.files, now.target.files)
  {
    if !d.Deployed? {
      StagedIsLive(trace, n, t, node, d.build.artifacts, was, now.target);
      NoNamesAreDistinct(node, install, d.build.artifacts);
    }
  }

  lemma NoNamesAreDistinct(node: Node, install: Install, arts: seq<Artifact>)
    requires PathsDistinct(node, ArtifactNames(install)) && (arts == [] || NamesIn(arts) == ArtifactNames(install))
    ensures PathsDistinct(node, NamesIn(arts))
  {}

  /** Where the loop below stands. */
  ghost predicate HistoryLive(r: Runner, n: nat, node: Node, install: Install, versions: set<string>,
                              first: map<string, Bytes>)
    reads r
  {
    && n <= |r.trace|
    && CacheSound(r.tools, install, r.world.build)
    && AlwaysEachLive(r.trace, n, r.tools, node, install, versions, first)
    && EachLive(r.tools, node, install, versions, first, r.world.target.files)
  }

  method RunUpgrade(f: Fleet, r: Runner, name: string, job: Job, policy: Policy, audit: AuditLog?, ghost found: Found,
                    ghost n: nat, ghost versions: set<string>, ghost first: map<string, Bytes>)
    requires job.ToUpgrade? && job.version in versions && FindNode(f.clusters, name) == Some(found)
    requires found.cluster.install.Some? && ConfiguredPathsApart(found.node, found.cluster.install.value)
    requires HistoryLive(r, n, found.node, found.cluster.install.value, versions, first)
    modifies r, audit
    ensures old(r.trace) <= r.trace
    ensures HistoryLive(r, n, found.node, found.cluster.install.value, versions, first)
  {
    ghost var t0, w0 := r.trace, r.world;
    ghost var setup, moves, moved;
    var res;
    res, setup, moves, moved := ExecuteUpgrade(f, r, name, job.version, job.confirm, policy, audit, job.polls,
                                               job.force);
    UpgradeKeepsHistory(r.tools, t0, r.trace, n, w0, r.world, f, found, job, policy, AllSmooth(r), res, setup, moves,
                        moved, versions, first);
  }

  lemma UpgradeKeepsHistory(t: Toolchain, t0: seq<Entry>, trace: seq<Entry>, n: nat, was: World, now: World, f: Fleet,
                            found: Found, job: Job, policy: Policy, smooth: bool, res: UpgradeResult,
                            setup: seq<Command>, moves: seq<Command>, moved: nat, versions: set<string>,
                            first: map<string, Bytes>)
    requires job.ToUpgrade? && job.version in versions
    requires found.cluster.install.Some? && ConfiguredPathsApart(found.node, found.cluster.install.value)
    requires n <= |t0| && t0 <= trace && CacheSound(t, found.cluster.install.value, was.build)
    requires AlwaysEachLive(t0, n, t, found.node, found.cluster.install.value, versions, first)
    requires EachLive(t, found.node, found.cluster.install.value, versions, first, was.target.files)
    requires UpgradeCall(t, trace, |t0|, was, now, f, found, job.version, job.confirm, policy, job.polls, job.force,
                         smooth, res, setup, moves, moved)
    ensures CacheSound(t, found.cluster.install.value, now.build)
    ensures AlwaysEachLive(trace, n, t, found.node, found.cluster.install.value, versions, first)
    ensures EachLive(t, found.node, found.cluster.install.value, versions, first, now.target.files)
  {
    var node, install := found.node, found.cluster.install.value;
    assert trace[..|t0|] == t0;
    if res.Held? {
      QuietKeepsHistory(t, trace, n, |t0|, node, install, versions, first, was);
    } else {
      PathsDistinctIff(node, install);
      DeploymentIsLive(t, trace, |t0|, was.target, now, node, install, job.version,
                       ForCluster(policy, found.clusterName).requireLeaderWindowMinutes, res.d, setup, moves, moved);
      CallKeepsHistory(t, trace, n, |t0|, node, install, job.version, versions, now.build, res.d.build.artifacts, first,
                       was.target, now.target);
    }
  }

  method RunProvision(f: Fleet, r: Runner, name: string, job: Job, audit: AuditLog?, limits: Limits, ghost found: Found,
                      ghost n: nat, ghost versions: set<string>, ghost first: map<string, Bytes>)
    requires job.ToProvision? && job.version in versions && FindNode(f.clusters, name) == Some(found)
    requires found.cluster.install.Some? && ConfiguredPathsApart(found.node, found.cluster.install.value)
    requires HistoryLive(r, n, found.node, found.cluster.install.value, versions, first)
    modifies r, audit
    ensures old(r.trace) <= r.trace
    ensures HistoryLive(r, n, found.node, found.cluster.install.value, versions, first)
  {
    ghost var t0, w0 := r.trace, r.world;
    ghost var head, setup, moves, moved;
    var res;
    res, head, setup, moves, moved :=
      ProvisionNode(f, r, name, job.version, job.text, job.confirm, job.allowFormat, audit, limits, job.sampler);
    ProvisionKeepsHistory(r.tools, t0, r.trace, n, w0, r.world, f, found, job, limits, Reliable(r), AllSmooth(r), res,
                          head, setup, moves, moved, versions, first);
  }

  lemma ProvisionKeepsHistory(t: Toolchain, t0: seq<Entry>, trace: seq<Entry>, n: nat, was: World, now: World, f: Fleet,
                              found: Found, job: Job, limits: Limits, reliable: bool, smooth: bool,
                              res: ProvisionResult, head: seq<Command>, setup: seq<Command>, moves: seq<Command>,
                              moved: nat, versions: set<string>, first: map<string, Bytes>)
    requires job.ToProvision? && job.version in versions
    requires found.cluster.install.Some? && ConfiguredPathsApart(found.node, found.cluster.install.value)
    requires n <= |t0| && t0 <= trace && CacheSound(t, found.cluster.install.value, was.build)
    requires AlwaysEachLive(t0, n, t, found.node, found.cluster.install.value, versions, first)
    requires EachLive(t, found.node, found.cluster.install.value, versions, first, was.target.files)
    requires ProvisionCall(t, trace, |t0|, was, now, f, found, job.version, job.text, job.confirm, job.allowFormat,
                           limits, reliable, smooth, job.sampler, res, head, setup, moves, moved)
    ensures CacheSound(t, found.cluster.install.value, now.build)
    ensures AlwaysEachLive(trace, n, t, found.node, found.cluster.install.value, versions, first)
    ensures EachLive(t, found.node, found.cluster.install.value, versions, first, now.target.files)
  {
    var node, install := found.node, found.cluster.install.value;
    var m := |t0| + 1;
    assert trace[..m][..|t0|] == t0;
    QuietKeepsHistory(t, trace[..m], n, |t0|, node, install, versions, first, was);
    if res.Blocked? {
      assert trace[..m] == trace;
    } else {
      PathsDistinctIff(node, install);
      NoNamesAreDistinct(node, install, ArtsOf(res.software));
      CallKeepsHistory(t, trace, n, m, node, install, job.version, versions, now.build, ArtsOf(res.software), first,
                       was.target, now.target);
    }
  }

  /** From an empty build host on, through any sequence of upgrades and provisioning runs
      of the node, confirmed or not and however they break off: at every command every
      live destination holds what it held at first or what a fresh build of some
      requested version has. */
  method RunJobs(f: Fleet, r: Runner, name: string, jobs: seq<Job>, policy: Policy, audit: AuditLog?, limits: Limits,
                 ghost found: Found)
    requires FindNode(f.clusters, name) == Some(found)
    requires found.cluster.install.Some? && ConfiguredPathsApart(found.node, found.cluster.install.value)
    requires r.world.build == EMPTY_HOST
    modifies r, audit
    ensures old(r.trace) <= r.trace
    ensures HistoryLive(r, |old(r.trace)|, found.node, found.cluster.install.value, Versions(jobs),
                        old(r.world.target.files))
  {
    ghost var n, first, install := |r.trace|, r.world.target.files, found.cluster.install.value;
    assert Sound(r.tools, install, r.world.build, {});
    for k := 0 to |jobs|
      invariant old(r.trace) <= r.trace
      invariant HistoryLive(r, n, found.node, install, Versions(jobs), first)
    {
      var job := jobs[k];
      assert job.version in Versions(jobs);
      if job.ToUpgrade? {
        RunUpgrade(f, r, name, job, policy, audit, found, n, Versions(jobs), first);
      } else {
        RunProvision(f, r, name, job, audit, limits, found, n, Versions(jobs), first);
      }
    }
  }
}
