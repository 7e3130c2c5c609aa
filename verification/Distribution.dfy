/** Copying artifacts beside their destinations (`distribute` of
    src/solfleet/operations.py) and what the later swap may rely on. */
module Distribution {
  import opened Text
  import opened Config
  import opened Remote
  import opened Builder
  import opened Layout
  import opened Executor

  /** Detail of one artifact; `dest` is None when it was skipped. */
  datatype Placed = Placed(art: Artifact, dest: Option<string>, pulled: bool, pushed: bool, got: Option<string>)

  predicate Verified(p: Placed) {
    p.dest.Some? && p.got.Some? && p.art.sha.Some? && p.got.value == p.art.sha.value
  }

  predicate Good(p: Placed) {
    p.dest.None? || (p.pulled && p.pushed && Verified(p))
  }

  function NamesIn(arts: seq<Artifact>): (names: seq<string>)
    ensures |names| == |arts| && forall i | 0 <= i < |arts| :: names[i] == arts[i].key.name
  {
    seq(|arts|, i requires 0 <= i < |arts| => arts[i].key.name)
  }

  /** Building and copying, as opposed to working on the service. */
  ghost predicate IsPrep(c: Command) {
    c.Build? || c.Pull? || c.Push?
  }

  ghost predicate AllPrep(cs: seq<Command>) {
    forall c | c in cs :: IsPrep(c)
  }

  /** The node differs at most in files that p admits; the build host not at all. */
  ghost predicate OnlyAt(was: World, now: World, path: string) {
    && now.build == was.build
    && now.target == was.target.(files := now.target.files)
    && forall q | q != path :: SameAt(now.target.files, was.target.files, q)
  }

  /** The live node: everything but the staged names is as it was. */
  ghost predicate StagedOnly(was: Target, now: Target, node: Node, names: seq<string>) {
    && now == was.(files := now.files)
    && forall q | !IsStaged(node, names, q) :: SameAt(now.files, was.files, q)
  }

  ghost predicate OnlyStaged(was: World, now: World, node: Node, names: seq<string>) {
    now.build == was.build && StagedOnly(was.target, now.target, node, names)
  }

  ghost predicate AlwaysOnlyAt(trace: seq<Entry>, n: nat, was: World, path: string) {
    forall i | n <= i < |trace| :: OnlyAt(was, trace[i].after, path)
  }

  ghost predicate AlwaysOnlyStaged(trace: seq<Entry>, n: nat, was: World, node: Node, names: seq<string>) {
    forall i | n <= i < |trace| :: OnlyStaged(was, trace[i].after, node, names)
  }

  /** What is staged for a verified artifact has the digest the builder recorded. */
  ghost predicate Arrived(t: Toolchain, files: map<string, Bytes>, p: Placed) {
    Verified(p) ==> Staged(p.dest.value) in files && p.art.sha == Some(t.sha(files[Staged(p.dest.value)]))
  }

  method RemoteSha(r: Runner, path: string) returns (sha: Option<string>)
    modifies r
    ensures r.world == old(r.world) && old(r.trace) <= r.trace && Quiet(r.trace, |old(r.trace)|, r.world)
    ensures |r.trace| == |old(r.trace)| + 1
    ensures var e := r.trace[|old(r.trace)|]; e.cmd == TargetSha(path) && sha == ShaOf(e.result)
    ensures sha.Some? ==> path in r.world.target.files && sha.value == r.tools.sha(r.world.target.files[path])
    ensures AllSmooth(r) && path in r.world.target.files ==> sha.Some?
  {
    assert AllSmooth(r) ==> Smooth(r.oracle(r.tick));
    var res := r.Run(TargetSha(path));
    sha := ShaOf(res);
  }

  method PullOne(r: Runner, key: CacheKey) returns (ok: bool)
    modifies r
    ensures r.world.build == old(r.world.build) && r.world.target == old(r.world.target)
    ensures |r.trace| == |old(r.trace)| + 1 && old(r.trace) <= r.trace
    ensures var e := r.trace[|old(r.trace)|];
      e.cmd == Pull(key, key.name) && e.after == r.world && (ok <==> Ok(e.result))
    ensures Acts(r.trace, |old(r.trace)|) == [Pull(key, key.name)]
    ensures ok ==>
      && key in r.world.build.cache && key.name in r.world.staging
      && r.world.staging[key.name] == r.world.build.cache[key]
    ensures AllSmooth(r) && key in r.world.build.cache ==> ok
  {
    assert AllSmooth(r) ==> Smooth(r.oracle(r.tick));
    ok := RunAct(r, Pull(key, key.name));
  }

  method PushOne(r: Runner, name: string, path: string) returns (ok: bool)
    modifies r
    ensures OnlyAt(old(r.world), r.world, path)
    ensures |r.trace| == |old(r.trace)| + 1 && old(r.trace) <= r.trace
    ensures var e := r.trace[|old(r.trace)|]; e.cmd == Push(name, path) && e.after == r.world && (ok <==> Ok(e.result))
    ensures Acts(r.trace, |old(r.trace)|) == [Push(name, path)]
    ensures ok ==> name in old(r.world.staging) && FileAt(r.world.target, path) == Some(old(r.world.staging)[name])
    ensures AllSmooth(r) && name in old(r.world.staging) ==> ok
  {
    assert AllSmooth(r) ==> Smooth(r.oracle(r.tick));
    ok := RunAct(r, Push(name, path));
  }

  /** Pull to the operator's scratch directory, then push; the push is tried even
      when the pull has failed. */
  method CopyOver(r: Runner, key: CacheKey, path: string) returns (pulled: bool, pushed: bool)
    modifies r
    ensures OnlyAt(old(r.world), r.world, path)
    ensures old(r.trace) <= r.trace && AlwaysOnlyAt(r.trace, |old(r.trace)|, old(r.world), path)
    ensures Acts(r.trace, |old(r.trace)|) == [Pull(key, key.name), Push(key.name, path)]
    ensures |r.trace| == |old(r.trace)| + 2
    ensures var n := |old(r.trace)|;
      && r.trace[n].cmd == Pull(key, key.name) && (pulled <==> Ok(r.trace[n].result))
      && r.trace[n + 1].cmd == Push(key.name, path) && (pushed <==> Ok(r.trace[n + 1].result))
    ensures pulled && pushed ==>
      key in r.world.build.cache && FileAt(r.world.target, path) == Some(r.world.build.cache[key])
    ensures AllSmooth(r) && key in r.world.build.cache ==> pulled && pushed
  {
    pulled := PullOne(r, key);
    ghost var mid := r.trace;
    pushed := PushOne(r, key.name, path);
    ActsSplit(mid, r.trace, |old(r.trace)|);
  }

  /** The three commands of one artifact, from entry k on, and what they answered. */
  ghost predicate PlacedBy(trace: seq<Entry>, k: nat, p: Placed)
    requires p.dest.Some?
  {
    var staged := Staged(p.dest.value);
    && k + 3 <= |trace|
    && staged == p.dest.value + ".solfleet-new"
    && trace[k].cmd == Pull(p.art.key, p.art.key.name) && (p.pulled <==> Ok(trace[k].result))
    && trace[k + 1].cmd == Push(p.art.key.name, staged) && (p.pushed <==> Ok(trace[k + 1].result))
    && trace[k + 2].cmd == TargetSha(staged) && p.got == ShaOf(trace[k + 2].result)
  }

  /** An entry is good exactly when all three commands exited with 0 and the digest the
      node printed is the one on record. */
  lemma GoodIff(trace: seq<Entry>, k: nat, p: Placed)
    requires p.dest.Some? && PlacedBy(trace, k, p)
    ensures Good(p) <==>
      && trace[k].result.exitCode == 0 && trace[k + 1].result.exitCode == 0 && trace[k + 2].result.exitCode == 0
      && trace[k + 2].result.words != [] && p.art.sha == Some(trace[k + 2].result.words[0])
  {}

  method PlaceOne(r: Runner, a: Artifact, dest: string) returns (p: Placed)
    modifies r
    ensures p.art == a && p.dest == Some(dest) && Arrived(r.tools, r.world.target.files, p)
    // pull, push, digest: as the three commands answered
    ensures |r.trace| == |old(r.trace)| + 3 && PlacedBy(r.trace, |old(r.trace)|, p)
    ensures Acts(r.trace, |old(r.trace)|) == [Pull(a.key, a.key.name), Push(a.key.name, Staged(dest))]
    ensures OnlyAt(old(r.world), r.world, Staged(dest))
    ensures old(r.trace) <= r.trace && AlwaysOnlyAt(r.trace, |old(r.trace)|, old(r.world), Staged(dest))
    // a recorded artifact arrives when nothing goes wrong
    ensures AllSmooth(r) && a.sha.Some? && Recorded(r.tools, r.world.build, a) ==> Good(p)
  {
    var pulled, pushed := CopyOver(r, a.key, Staged(dest));
    ghost var mid := r.trace;
    var got := RemoteSha(r, Staged(dest));
    QuietHasNoActs(r.trace, |mid|, r.world);
    ActsSplit(mid, r.trace, |old(r.trace)|);
    p := Placed(a, Some(dest), pulled, pushed, got);
  }

  /** How many of the first i artifacts have a place on the node. */
  function PlacesBefore(node: Node, arts: seq<Artifact>, i: nat): nat
    requires i <= |arts|
  {
    if i == 0 then 0
    else PlacesBefore(node, arts, i - 1) + if DestFor(node, arts[i - 1].key.name).Some? then 1 else 0
  }

  /** The entries so far as their commands tell them: from entry m on, three commands
      for each artifact that has a place, in order, whatever became of the others. */
  ghost predicate CopiesTold(trace: seq<Entry>, m: nat, node: Node, arts: seq<Artifact>, entries: seq<Placed>) {
    && |entries| <= |arts|
    && m + 3 * PlacesBefore(node, arts, |entries|) <= |trace|
    && forall i | 0 <= i < |entries| :: EntryTold(trace, m, node, arts, entries[i], i)
  }

  ghost predicate EntryTold(trace: seq<Entry>, m: nat, node: Node, arts: seq<Artifact>, p: Placed, i: nat)
    requires i < |arts|
  {
    && p.art == arts[i] && p.dest == DestFor(node, arts[i].key.name)
    && (p.dest.Some? ==> PlacedBy(trace, m + 3 * PlacesBefore(node, arts, i), p))
  }

  /** A later trace tells the same. */
  lemma CopiesToldLater(t1: seq<Entry>, t2: seq<Entry>, m: nat, node: Node, arts: seq<Artifact>, entries: seq<Placed>)
    requires t1 <= t2 && CopiesTold(t1, m, node, arts, entries)
    ensures CopiesTold(t2, m, node, arts, entries)
  {
    forall i | 0 <= i < |entries| ensures EntryTold(t2, m, node, arts, entries[i], i) {
      assert EntryTold(t1, m, node, arts, entries[i], i);
    }
  }

  lemma CopiesToldNext(t1: seq<Entry>, t2: seq<Entry>, m: nat, node: Node, arts: seq<Artifact>, entries: seq<Placed>,
                       p: Placed)
    requires t1 <= t2 && CopiesTold(t1, m, node, arts, entries) && |entries| < |arts|
    requires |t1| == m + 3 * PlacesBefore(node, arts, |entries|)
    requires p.art == arts[|entries|] && p.dest == DestFor(node, p.art.key.name)
    requires if p.dest.Some? then |t2| == |t1| + 3 && PlacedBy(t2, |t1|, p) else t2 == t1
    ensures CopiesTold(t2, m, node, arts, entries + [p])
    ensures |t2| == m + 3 * PlacesBefore(node, arts, |entries| + 1)
  {
    CopiesToldLater(t1, t2, m, node, arts, entries);
    PlacesNext(node, arts, |entries|);
    assert EntryTold(t2, m, node, arts, p, |entries|);
    EntriesToldSnoc(t2, m, node, arts, entries, p);
  }

  lemma PlacesNext(node: Node, arts: seq<Artifact>, i: nat)
    requires i < |arts|
    ensures PlacesBefore(node, arts, i + 1) ==
      PlacesBefore(node, arts, i) + if DestFor(node, arts[i].key.name).Some? then 1 else 0
  {}

  lemma EntriesToldSnoc(trace: seq<Entry>, m: nat, node: Node, arts: seq<Artifact>, entries: seq<Placed>, p: Placed)
    requires CopiesTold(trace, m, node, arts, entries) && |entries| < |arts|
    requires EntryTold(trace, m, node, arts, p, |entries|)
    requires m + 3 * PlacesBefore(node, arts, |entries| + 1) <= |trace|
    ensures CopiesTold(trace, m, node, arts, entries + [p])
  {
    var more := entries + [p];
    forall i | 0 <= i < |more| ensures EntryTold(trace, m, node, arts, more[i], i) {
      if i < |entries| {
        assert EntryTold(trace, m, node, arts, entries[i], i);
      }
    }
  }

  /** Where the loop below stands after i artifacts. */
  ghost predicate PlacedSoFar(t: Toolchain, node: Node, arts: seq<Artifact>, entries: seq<Placed>,
                              files: map<string, Bytes>)
  {
    && |entries| <= |arts|
    && (forall j | 0 <= j < |entries| ::
          entries[j].art == arts[j] && entries[j].dest == DestFor(node, arts[j].key.name))
    && (PathsDistinct(node, NamesIn(arts)) ==> forall p | p in entries :: Arrived(t, files, p))
  }

  lemma PlacedMore(t: Toolchain, node: Node, arts: seq<Artifact>, entries: seq<Placed>, was: World, now: World,
                   p: Placed)
    requires PlacedSoFar(t, node, arts, entries, was.target.files) && |entries| < |arts|
    requires p.art == arts[|entries|] && p.dest == DestFor(node, p.art.key.name) && p.dest.Some?
    requires OnlyAt(was, now, Staged(p.dest.value)) && Arrived(t, now.target.files, p)
    ensures PlacedSoFar(t, node, arts, entries + [p], now.target.files)
  {
    if PathsDistinct(node, NamesIn(arts)) {
      forall q | q in entries && Verified(q) ensures Arrived(t, now.target.files, q) {
        var j :| 0 <= j < |entries| && entries[j] == q;
        assert DestFor(node, NamesIn(arts)[j]) != DestFor(node, NamesIn(arts)[|entries|]);
        StagedInjective(q.dest.value, p.dest.value);
        assert Arrived(t, was.target.files, q);
        assert SameAt(now.target.files, was.target.files, Staged(q.dest.value));
      }
    }
  }

  lemma StillOnlyStaged(was: World, mid: World, now: World, node: Node, names: seq<string>, name: string)
    requires OnlyStaged(was, mid, node, names)
    requires name in names && DestFor(node, name).Some? && OnlyAt(mid, now, Staged(DestFor(node, name).value))
    ensures OnlyStaged(was, now, node, names)
  {
    forall q | !IsStaged(node, names, q) ensures SameAt(now.target.files, was.target.files, q) {
      assert q != Staged(DestFor(node, name).value);
      assert SameAt(mid.target.files, was.target.files, q) && SameAt(now.target.files, mid.target.files, q);
    }
  }

  /** What the loop below keeps, from entry n and world `was` on. */
  ghost predicate Distributing(t: Toolchain, trace: seq<Entry>, n: nat, was: World, now: World, node: Node,
                               arts: seq<Artifact>, entries: seq<Placed>)
  {
    && PlacedSoFar(t, node, arts, entries, now.target.files)
    && OnlyStaged(was, now, node, NamesIn(arts))
    && n <= |trace| && AlwaysOnlyStaged(trace, n, was, node, NamesIn(arts))
    && AllPrep(Acts(trace, n))
    && |trace| == n + 3 * PlacesBefore(node, arts, |entries|)
    && CopiesTold(trace, n, node, arts, entries)
  }

  lemma DistributingNext(t: Toolchain, t1: seq<Entry>, t2: seq<Entry>, n: nat, was: World, mid: World, now: World,
                         node: Node, arts: seq<Artifact>, entries: seq<Placed>, p: Placed)
    requires Distributing(t, t1, n, was, mid, node, arts, entries) && |entries| < |arts|
    requires p.art == arts[|entries|] && p.dest == DestFor(node, p.art.key.name) && p.dest.Some?
    requires t1 <= t2 && |t2| == |t1| + 3 && PlacedBy(t2, |t1|, p) && Arrived(t, now.target.files, p)
    requires AllPrep(Acts(t2, |t1|))
    requires OnlyAt(mid, now, Staged(p.dest.value)) && AlwaysOnlyAt(t2, |t1|, mid, Staged(p.dest.value))
    ensures Distributing(t, t2, n, was, now, node, arts, entries + [p])
  {
    var name := p.art.key.name;
    assert NamesIn(arts)[|entries|] == name;
    PlacedMore(t, node, arts, entries, mid, now, p);
    StillOnlyStaged(was, mid, now, node, NamesIn(arts), name);
    ActsSplit(t1, t2, n);
    CopiesToldNext(t1, t2, n, node, arts, entries, p);
    forall i | n <= i < |t2| ensures OnlyStaged(was, t2[i].after, node, NamesIn(arts)) {
      if i >= |t1| {
        StillOnlyStaged(was, mid, t2[i].after, node, NamesIn(arts), name);
      } else {
        assert t2[i] == t1[i];
      }
    }
  }

  lemma DistributingSkip(t: Toolchain, trace: seq<Entry>, n: nat, was: World, now: World, node: Node,
                         arts: seq<Artifact>, entries: seq<Placed>, p: Placed)
    requires Distributing(t, trace, n, was, now, node, arts, entries) && |entries| < |arts|
    requires p == Placed(arts[|entries|], None, false, false, None) && DestFor(node, p.art.key.name).None?
    ensures Distributing(t, trace, n, was, now, node, arts, entries + [p])
  {
    CopiesToldNext(trace, trace, n, node, arts, entries, p);
  }

  /** One round of the loop below. */
  method PlaceNext(r: Runner, node: Node, arts: seq<Artifact>, entries: seq<Placed>, ghost was: World, ghost n: nat)
    returns (p: Placed)
    requires |entries| < |arts| && Distributing(r.tools, r.trace, n, was, r.world, node, arts, entries)
    modifies r
    ensures old(r.trace) <= r.trace
    ensures Distributing(r.tools, r.trace, n, was, r.world, node, arts, entries + [p])
    ensures AllSmooth(r) && arts[|entries|].sha.Some? && Recorded(r.tools, was.build, arts[|entries|]) ==> Good(p)
  {
    var a := arts[|entries|];
    var dest := DestFor(node, a.key.name);
    ghost var mid, before := r.world, r.trace;
    if dest.None? {
      p := Placed(a, None, false, false, None);
      DistributingSkip(r.tools, before, n, was, mid, node, arts, entries, p);
    } else {
      p := PlaceOne(r, a, dest.value);
      DistributingNext(r.tools, before, r.trace, n, was, mid, r.world, node, arts, entries, p);
    }
  }

  /** Every artifact has a digest on record. */
  ghost predicate AllRecorded(t: Toolchain, b: BuildHost, arts: seq<Artifact>) {
    forall i | 0 <= i < |arts| :: arts[i].sha.Some? && Recorded(t, b, arts[i])
  }

  /** Copies every artifact that has a destination beside it and compares digests. */
  method Distribute(r: Runner, node: Node, arts: seq<Artifact>) returns (ok: bool, entries: seq<Placed>)
    modifies r
    // nothing but staged names on the node is written, at any moment
    ensures OnlyStaged(old(r.world), r.world, node, NamesIn(arts))
    ensures old(r.trace) <= r.trace
    ensures AlwaysOnlyStaged(r.trace, |old(r.trace)|, old(r.world), node, NamesIn(arts))
    ensures AllPrep(Acts(r.trace, |old(r.trace)|))
    // every artifact is reported, in order, as its commands answered; skipped exactly
    // without a destination
    ensures |entries| == |arts| && PlacedSoFar(r.tools, node, arts, entries, r.world.target.files)
    ensures CopiesTold(r.trace, |old(r.trace)|, node, arts, entries)
    ensures ok <==> forall p | p in entries :: Good(p)
    // with every digest on record, nothing but a mishap makes it fail
    ensures AllSmooth(r) && AllRecorded(r.tools, r.world.build, arts) ==> ok
  {
    r.world := r.world.(staging := map[]);
    ghost var was := r.world;
    entries, ok := [], true;
    for i := 0 to |arts|
      invariant old(r.trace) <= r.trace
      invariant |entries| == i && Distributing(r.tools, r.trace, |old(r.trace)|, was, r.world, node, arts, entries)
      invariant ok <==> forall p | p in entries :: Good(p)
      invariant AllSmooth(r) && AllRecorded(r.tools, was.build, arts) ==> ok
    {
      var p := PlaceNext(r, node, arts, entries, was, |old(r.trace)|);
      entries := entries + [p];
      ok := ok && Good(p);
    }
  }

  // ---- the swap list ------------------------------------------------------

  function SwapTo(name: string, dest: string): Swap {
    Swap(Staged(dest), dest, name in AGAVE_BINS)
  }

  /** The verified entries as moves, in order. */
  function SwapsOf(entries: seq<Placed>): seq<Swap> {
    if entries == [] then []
    else
      var p := entries[|entries| - 1];
      SwapsOf(entries[..|entries| - 1]) + if Verified(p) then [SwapTo(p.art.key.name, p.dest.value)] else []
  }

  /** Every name that has a destination, in order. */
  function SwapsFor(node: Node, names: seq<string>): seq<Swap> {
    if names == [] then []
    else
      var name := names[|names| - 1];
      SwapsFor(node, names[..|names| - 1])
      + if DestFor(node, name).Some? then [SwapTo(name, DestFor(node, name).value)] else []
  }

  lemma {:induction false} GoodSwapsAreAll(node: Node, names: seq<string>, entries: seq<Placed>)
    requires |entries| == |names|
    requires forall j | 0 <= j < |names| ::
      entries[j].art.key.name == names[j] && entries[j].dest == DestFor(node, names[j]) && Good(entries[j])
    ensures SwapsOf(entries) == SwapsFor(node, names)
  {
    if names != [] {
      GoodSwapsAreAll(node, names[..|names| - 1], entries[..|entries| - 1]);
    }
  }

  /** A name is skipped exactly when the node has no place for it. */
  lemma {:induction false} SwapForIff(node: Node, names: seq<string>, s: Swap)
    ensures s in SwapsFor(node, names) <==>
      exists n | n in names :: DestFor(node, n).Some? && s == SwapTo(n, DestFor(node, n).value)
  {
    if names != [] {
      var front, name := names[..|names| - 1], names[|names| - 1];
      SwapForIff(node, front, s);
      assert names == front + [name];
    }
  }

  /** The move of a name: from beside its destination, made executable for a binary. */
  ghost predicate IsMoveOf(node: Node, name: string, s: Swap) {
    && DestFor(node, name) == Some(s.dest)
    && s.staged == s.dest + ".solfleet-new"
    && (s.exec <==> name != "libyellowstone_grpc_geyser.so")
  }

  /** Every move is the move of some artifact. */
  lemma SwapsAre(node: Node, install: Install)
    ensures forall s | s in SwapsFor(node, ArtifactNames(install)) ::
      exists n | n in ArtifactNames(install) :: IsMoveOf(node, n, s)
  {
    var names := ArtifactNames(install);
    forall s | s in SwapsFor(node, names)
      ensures exists n | n in names :: IsMoveOf(node, n, s)
    {
      SwapForIff(node, names, s);
      var n :| n in names && DestFor(node, n).Some? && s == SwapTo(n, DestFor(node, n).value);
      assert GEYSER_LIB[0] == 'l' && AGAVE_BINS[0][0] == 'a' && AGAVE_BINS[1][0] == 'a' && AGAVE_BINS[2][0] == 's';
      assert IsMoveOf(node, n, s);
    }
  }

  lemma SomethingToSwap(node: Node, names: seq<string>, n: string)
    requires n in names && DestFor(node, n).Some?
    ensures SwapsFor(node, names) != []
  {
    SwapForIff(node, names, SwapTo(n, DestFor(node, n).value));
  }

  /** When every name has a place, the k-th move is the k-th name's. */
  lemma {:induction false} SwapsForAll(node: Node, names: seq<string>)
    requires forall n | n in names :: DestFor(node, n).Some?
    ensures |SwapsFor(node, names)| == |names|
    ensures forall k | 0 <= k < |names| :: SwapsFor(node, names)[k] == SwapTo(names[k], DestFor(node, names[k]).value)
  {
    if names != [] {
      assert names[|names| - 1] in names;
      SwapsForAll(node, names[..|names| - 1]);
    }
  }

  lemma {:induction false} SwapsForPrefix(node: Node, names: seq<string>, i: nat)
    requires i <= |names|
    ensures SwapsFor(node, names[..i]) <= SwapsFor(node, names)
  {
    if i < |names| {
      var front := names[..|names| - 1];
      SwapsForPrefix(node, front, i);
      assert front[..i] == names[..i];
    } else {
      assert names[..i] == names;
    }
  }

  lemma {:induction false} PlacesAreSwaps(node: Node, arts: seq<Artifact>, i: nat)
    requires i <= |arts|
    ensures PlacesBefore(node, arts, i) == |SwapsFor(node, NamesIn(arts)[..i])|
  {
    if i > 0 {
      PlacesAreSwaps(node, arts, i - 1);
      assert NamesIn(arts)[..i][..i - 1] == NamesIn(arts)[..i - 1];
    }
  }

  /** The move of an artifact stands where the places before it are counted. */
  lemma SwapOfPlace(node: Node, arts: seq<Artifact>, k: nat)
    requires k < |arts| && DestFor(node, arts[k].key.name).Some?
    ensures var swaps, i := SwapsFor(node, NamesIn(arts)), PlacesBefore(node, arts, k);
      i < |swaps| && swaps[i] == SwapTo(arts[k].key.name, DestFor(node, arts[k].key.name).value)
  {
    var names := NamesIn(arts);
    PlacesAreSwaps(node, arts, k);
    SwapsForPrefix(node, names, k + 1);
    assert names[..k + 1][..k] == names[..k];
  }

  /** And every move is some artifact's. */
  lemma {:induction false} PlaceOfSwap(node: Node, arts: seq<Artifact>, m: nat, i: nat) returns (k: nat)
    requires m <= |arts| && i < PlacesBefore(node, arts, m)
    ensures k < m && DestFor(node, arts[k].key.name).Some? && PlacesBefore(node, arts, k) == i
  {
    if i < PlacesBefore(node, arts, m - 1) {
      k := PlaceOfSwap(node, arts, m - 1, i);
    } else {
      k := m - 1;
    }
  }

  lemma {:induction false} SwapsForDistinct(node: Node, names: seq<string>)
    requires PathsDistinct(node, names)
    ensures SwapsDistinct(SwapsFor(node, names))
  {
    if names != [] {
      var m := |names| - 1;
      var front, name := names[..m], names[m];
      FrontDistinct(node, names);
      SwapsForDistinct(node, front);
      if DestFor(node, name).Some? {
        var last := SwapTo(name, DestFor(node, name).value);
        forall s | s in SwapsFor(node, front)
          ensures s.dest != last.dest && s.staged != last.staged && s.dest != last.staged && s.staged != last.dest
        {
          SwapForIff(node, front, s);
          var n :| n in front && DestFor(node, n).Some? && s == SwapTo(n, DestFor(node, n).value);
          var i :| 0 <= i < m && front[i] == n;
          assert DestFor(node, names[i]) != DestFor(node, names[m]);
          StagedInjective(s.dest, last.dest);
        }
        assert last.dest != last.staged by {
          assert |last.staged| > |last.dest|;
        }
      }
    }
  }

  lemma FrontDistinct(node: Node, names: seq<string>)
    requires names != [] && PathsDistinct(node, names)
    ensures PathsDistinct(node, names[..|names| - 1])
  {}

  // ---- what goes live -----------------------------------------------------

  /** The bytes carry the digest recorded for an artifact that belongs at p. */
  ghost predicate Trusted(t: Toolchain, node: Node, arts: seq<Artifact>, p: string, bytes: Bytes) {
    exists a | a in arts :: DestFor(node, a.key.name) == Some(p) && a.sha == Some(t.sha(bytes))
  }

  /** Everything the swap list would move is there and trusted at its destination. */
  ghost predicate Vouched(t: Toolchain, node: Node, arts: seq<Artifact>, files: map<string, Bytes>, swaps: seq<Swap>) {
    forall s | s in swaps :: s.staged in files && Trusted(t, node, arts, s.dest, files[s.staged])
  }

  lemma {:induction false} DistributedIsVouched(t: Toolchain, node: Node, arts: seq<Artifact>, entries: seq<Placed>,
                                                files: map<string, Bytes>)
    requires PlacedSoFar(t, node, arts, entries, files) && PathsDistinct(node, NamesIn(arts))
    ensures Vouched(t, node, arts, files, SwapsOf(entries))
  {
    if entries != [] {
      var n := |entries| - 1;
      var front, p := entries[..n], entries[n];
      DistributedIsVouched(t, node, arts, front, files);
      if Verified(p) {
        assert Arrived(t, files, p) && p.art == arts[n];
      }
    }
  }

  /** Live files at any moment of a swap: what was there before, or trusted bytes
      (staged names aside). */
  ghost predicate LiveOk(t: Toolchain, node: Node, arts: seq<Artifact>, before: map<string, Bytes>,
                         now: map<string, Bytes>)
  {
    forall p | !IsStaged(node, NamesIn(arts), p) && Marker(node) != Some(p) ::
      SameAt(now, before, p) || (p in now && Trusted(t, node, arts, p, now[p]))
  }

  lemma SwapsForTouch(node: Node, names: seq<string>, k: nat, p: string)
    requires k <= |SwapsFor(node, names)| && !IsStaged(node, names, p)
    ensures Touched(SwapsFor(node, names), k, p) <==> exists i :: 0 <= i < k && SwapsFor(node, names)[i].dest == p
  {
    forall i | 0 <= i < k ensures IsStaged(node, names, SwapsFor(node, names)[i].staged) {
      SwapForIff(node, names, SwapsFor(node, names)[i]);
    }
  }

  lemma LiveDuringSwap(t: Toolchain, node: Node, arts: seq<Artifact>, files: map<string, Bytes>, k: nat)
    requires PathsDistinct(node, NamesIn(arts))
    requires k <= |SwapsFor(node, NamesIn(arts))|
    requires Vouched(t, node, arts, files, SwapsFor(node, NamesIn(arts)))
    ensures LiveOk(t, node, arts, files, SwapFiles(files, SwapsFor(node, NamesIn(arts)), k))
  {
    var names := NamesIn(arts);
    var swaps := SwapsFor(node, names);
    var now := SwapFiles(files, swaps, k);
    SwapsForDistinct(node, names);
    SwapIsPrefix(files, swaps, k);
    forall p | !IsStaged(node, names, p)
      ensures SameAt(now, files, p) || (p in now && Trusted(t, node, arts, p, now[p]))
    {
      SwapsForTouch(node, names, k, p);
      if Touched(swaps, k, p) {
        var i :| 0 <= i < k && swaps[i].dest == p;
        assert swaps[i] in swaps;
      }
    }
  }
}
