/** Gated restarts and upgrades (src/solfleet/operations.py). */
module Operations {
  import opened Text
  import opened Config
  import opened Safety
  import opened Audit
  import opened Catchup
  import opened Remote
  import opened Builder
  import opened Layout
  import opened Executor
  import opened Distribution

  const CATCHUP_TIMEOUT_S := 600
  const CATCHUP_INTERVAL_S := 5

  // ---- the part of an upgrade that works on the service -------------------

  datatype MarkerResult = Skipped | Written(ok: bool)

  /** The marker file holds the tag. */
  ghost predicate MarkedAs(node: Node, version: string, now: Target) {
    && node.service.versionMarker.Some?
    && node.service.versionMarker.value in now.files && IsTagOf(version, now.files[node.service.versionMarker.value])
  }

  /** The marker step is skipped exactly without a marker path; reported as written,
      the marker holds the tag. */
  ghost predicate MarkerKept(node: Node, version: string, m: MarkerResult, now: Target) {
    && (m.Skipped? <==> node.service.versionMarker.None? || node.service.versionMarker.value == "")
    && (m.Written? && m.ok ==> MarkedAs(node, version, now))
  }

  function MarkerActs(node: Node, version: string): seq<Command> {
    match Marker(node)
    case None => []
    case Some(path) => [WriteMarker(path, Tag(version))]
  }

  /** The node after j moves, its marker and its service in whatever state. */
  ghost predicate Replaced(was: World, now: World, node: Node, swaps: seq<Swap>, j: nat)
    requires j <= |swaps|
  {
    && now.build == was.build
    && now.target == was.target.(files := now.target.files, active := now.target.active)
    && forall p | Marker(node) != Some(p) :: SameAt(now.target.files, SwapFiles(was.target.files, swaps, j), p)
  }

  ghost predicate SomeReplaced(was: World, now: World, node: Node, swaps: seq<Swap>, moved: nat)
    requires moved <= |swaps|
  {
    exists j: nat | j <= moved :: Replaced(was, now, node, swaps, j)
  }

  ghost predicate AlwaysReplaced(trace: seq<Entry>, n: nat, was: World, node: Node, swaps: seq<Swap>, moved: nat)
    requires moved <= |swaps|
  {
    forall i | n <= i < |trace| :: SomeReplaced(was, trace[i].after, node, swaps, moved)
  }

  method UpdateMarker(r: Runner, node: Node, version: string) returns (m: MarkerResult)
    modifies r
    ensures m.Skipped? <==> Marker(node).None?
    ensures m.Skipped? ==> r.world == old(r.world) && r.trace == old(r.trace)
    ensures m.Written? ==> OnlyAt(old(r.world), r.world, Marker(node).value)
    ensures m.Written? && m.ok ==>
      Marker(node).value in r.world.target.files && IsTagOf(version, r.world.target.files[Marker(node).value])
    ensures m.Written? ==> (m.ok <==> AllOkOf(r.trace, |old(r.trace)|, Marking))
    ensures AllSmooth(r) && m.Written? ==> m.ok
    ensures old(r.trace) <= r.trace
    ensures forall i | |old(r.trace)| <= i < |r.trace| :: r.trace[i].after == r.world
    ensures Acts(r.trace, |old(r.trace)|) == MarkerActs(node, version)
  {
    match Marker(node)
    case None => m := Skipped;
    case Some(path) =>
      TagIs(version);
      var ok := WriteText(r, path, Tag(version));
      m := Written(ok);
  }

  method WriteText(r: Runner, path: string, text: string) returns (ok: bool)
    modifies r
    ensures OnlyAt(old(r.world), r.world, path)
    ensures ok ==> FileAt(r.world.target, path) == Some(text)
    ensures ok <==> AllOkOf(r.trace, |old(r.trace)|, Marking)
    ensures |r.trace| == |old(r.trace)| + 1 && old(r.trace) <= r.trace && r.trace[|old(r.trace)|].after == r.world
    ensures Acts(r.trace, |old(r.trace)|) == [WriteMarker(path, text)]
    ensures AllSmooth(r) ==> ok
  {
    assert AllSmooth(r) ==> Smooth(r.oracle(r.tick));
    ok := RunAct(r, WriteMarker(path, text));
  }

  lemma SwappedIsReplaced(was: World, mid: World, now: World, node: Node, swaps: seq<Swap>, moved: nat)
    requires moved <= |swaps|
    requires mid == was.(target := was.target.(active := mid.target.active))
    requires SomeSwapped(now, mid, swaps, moved)
    ensures SomeReplaced(was, now, node, swaps, moved)
  {
    var j: nat :| j <= moved && now == Swapped(mid, swaps, j);
    assert Replaced(was, now, node, swaps, j);
  }

  lemma MarkedIsReplaced(was: World, mid: World, now: World, node: Node, swaps: seq<Swap>, j: nat)
    requires j <= |swaps| && Replaced(was, mid, node, swaps, j)
    requires now == mid || (Marker(node).Some? && OnlyAt(mid, now, Marker(node).value))
    ensures Replaced(was, now, node, swaps, j)
  {
    forall p | Marker(node) != Some(p) ensures SameAt(now.target.files, SwapFiles(was.target.files, swaps, j), p) {
      assert SameAt(mid.target.files, SwapFiles(was.target.files, swaps, j), p);
      assert SameAt(now.target.files, mid.target.files, p);
    }
  }

  /** The reported flags are the exit statuses of the commands they stand for, and
      the moves issued are a prefix of the chain, all of it on success. */
  ghost predicate SwapTold(trace: seq<Entry>, n: nat, swaps: seq<Swap>, moves: seq<Command>, swapOk: bool,
                           marker: MarkerResult)
  {
    && AllMoves(moves) && moves <= Parts(swaps) && (swapOk ==> moves == Parts(swaps))
    && (swaps != [] ==> (swapOk <==> AllOkOf(trace, n, Moving)))
    && (marker.Written? ==> (marker.ok <==> AllOkOf(trace, n, Marking)))
  }

  ghost predicate CycleTold(trace: seq<Entry>, n: nat, swaps: seq<Swap>, moves: seq<Command>, c: Cycle) {
    && SwapTold(trace, n, swaps, moves, c.swapOk, c.marker)
    && (c.cycleOk <==> AllOkOf(trace, n, Serving))
  }

  lemma MovesLack(node: Node, moves: seq<Command>, version: string)
    requires AllMoves(moves)
    ensures Lacks(moves, Marking) && Lacks(moves, Serving)
    ensures Lacks(MarkerActs(node, version), Moving) && Lacks(MarkerActs(node, version), Serving)
    ensures Lacks(moves + MarkerActs(node, version), Serving)
  {
    LacksConcat(moves, MarkerActs(node, version), Serving);
  }

  /** A stretch in front or behind that has none of the commands reported changes
      no verdict. */
  lemma ToldEarly(early: seq<Entry>, late: seq<Entry>, n: nat, swaps: seq<Swap>, moves: seq<Command>, swapOk: bool,
                  m: MarkerResult)
    requires n <= |early| && early <= late && SwapTold(early, n, swaps, moves, swapOk, m)
    requires Lacks(Acts(late, |early|), Moving) && Lacks(Acts(late, |early|), Marking)
    ensures SwapTold(late, n, swaps, moves, swapOk, m)
  {
    OnlyEarly(early, late, n, Moving);
    OnlyEarly(early, late, n, Marking);
  }

  lemma ToldLate(early: seq<Entry>, late: seq<Entry>, n: nat, swaps: seq<Swap>, moves: seq<Command>, swapOk: bool,
                 m: MarkerResult)
    requires n <= |early| && early <= late && SwapTold(late, |early|, swaps, moves, swapOk, m)
    requires Lacks(Acts(early, n), Moving) && Lacks(Acts(early, n), Marking)
    ensures SwapTold(late, n, swaps, moves, swapOk, m)
  {
    OnlyLate(early, late, n, Moving);
    OnlyLate(early, late, n, Marking);
  }

  lemma CycleToldEarly(early: seq<Entry>, late: seq<Entry>, n: nat, swaps: seq<Swap>, moves: seq<Command>, c: Cycle)
    requires n <= |early| && early <= late && CycleTold(early, n, swaps, moves, c) && Acts(late, |early|) == []
    ensures CycleTold(late, n, swaps, moves, c)
  {
    ToldEarly(early, late, n, swaps, moves, c.swapOk, c.marker);
    OnlyEarly(early, late, n, Serving);
  }

  lemma CycleToldLate(early: seq<Entry>, late: seq<Entry>, n: nat, swaps: seq<Swap>, moves: seq<Command>, c: Cycle)
    requires n <= |early| && early <= late && CycleTold(late, |early|, swaps, moves, c) && AllPrep(Acts(early, n))
    ensures CycleTold(late, n, swaps, moves, c)
  {
    ToldLate(early, late, n, swaps, moves, c.swapOk, c.marker);
    OnlyLate(early, late, n, Serving);
  }

  /** Nothing goes wrong on the way, and every staged file is there in its turn. */
  ghost predicate Unhindered(r: Runner, files: map<string, Bytes>, swaps: seq<Swap>) {
    AllSmooth(r) && swaps != [] && HasAll(swaps, Has(files, swaps))
  }

  /** How many files the chain moves under these outcomes. */
  function MovedBy(swaps: seq<Swap>, files: map<string, Bytes>, oracle: nat -> Outcome, tick: nat): nat {
    RunChain(swaps, Has(files, swaps), |swaps|, oracle, tick).moved
  }

  /** The outcome that decides over the first move: an RPC node is stopped before. */
  function SwapTick(node: Node, tick: nat): nat {
    if node.role == Validator then tick else tick + 1
  }

  /** Swap and marker: the marker is written even when the swap has failed. */
  method SwapAndMark(r: Runner, node: Node, swaps: seq<Swap>, version: string, ghost was: World)
    returns (swapOk: bool, marker: MarkerResult, ghost moved: nat, ghost moves: seq<Command>)
    requires r.world == was.(target := was.target.(active := r.world.target.active))
    modifies r
    ensures moved == MovedBy(swaps, was.target.files, r.oracle, old(r.tick))
    ensures moved <= |swaps| && (swapOk ==> moved == |swaps|)
    ensures Replaced(was, r.world, node, swaps, moved)
    ensures old(r.trace) <= r.trace && AlwaysReplaced(r.trace, |old(r.trace)|, was, node, swaps, moved)
    ensures Acts(r.trace, |old(r.trace)|) == moves + MarkerActs(node, version)
    ensures SwapTold(r.trace, |old(r.trace)|, swaps, moves, swapOk, marker)
    ensures MarkerKept(node, version, marker, r.world.target)
    ensures Unhindered(r, was.target.files, swaps) ==> swapOk && (marker.Written? ==> marker.ok)
  {
    ghost var w1, n, tick := r.world, |r.trace|, r.tick;
    swapOk, moved := AtomicSwap(r, swaps);
    if Unhindered(r, was.target.files, swaps) {
      SmoothChain(swaps, Has(was.target.files, swaps), |swaps|, r.oracle, tick);
    }
    ghost var w2, mid := r.world, r.trace;
    moves := Acts(mid, n);
    marker := UpdateMarker(r, node, version);
    ActsSplit(mid, r.trace, n);
    MovesLack(node, moves, version);
    OnlyEarly(mid, r.trace, n, Moving);
    OnlyLate(mid, r.trace, n, Marking);
    assert Replaced(was, w2, node, swaps, moved);
    MarkedIsReplaced(was, w2, r.world, node, swaps, moved);
    forall i | n <= i < |r.trace| ensures SomeReplaced(was, r.trace[i].after, node, swaps, moved) {
      if i < |mid| {
        assert r.trace[i] == mid[i];
        SwappedIsReplaced(was, w1, mid[i].after, node, swaps, moved);
      }
    }
  }

  /** What the cycle issues, in order: a validator replaces its files first and
      then exits by itself; an RPC node is stopped, replaced and started. */
  ghost function CycleActs(node: Node, moves: seq<Command>, version: string, minIdle: int): seq<Command> {
    if node.role == Validator then moves + MarkerActs(node, version) + [SafeExit(minIdle)]
    else [Stop] + (moves + MarkerActs(node, version)) + [Start]
  }

  datatype Cycle = Cycle(swapOk: bool, marker: MarkerResult, cycleOk: bool)

  /** Every command of the cycle went well. */
  ghost predicate CycleGood(c: Cycle) {
    c.swapOk && c.cycleOk && (c.marker.Written? ==> c.marker.ok)
  }

  /** What the cycle leaves behind and what it went through. */
  ghost predicate Cycled(before: seq<Entry>, trace: seq<Entry>, was: World, now: World, node: Node, swaps: seq<Swap>,
                         version: string, c: Cycle, moved: nat)
  {
    && moved <= |swaps| && (c.swapOk ==> moved == |swaps|)
    && Replaced(was, now, node, swaps, moved)
    && before <= trace && AlwaysReplaced(trace, |before|, was, node, swaps, moved)
    && MarkerKept(node, version, c.marker, now.target)
    && (c.cycleOk ==> now.target.active)
    && LaunchedWith(trace, |before|, now.target.files)
  }

  /** The commands that bring the service up on the files that are there. */
  ghost predicate Launches(c: Command) {
    c.Start? || c.SafeExit?
  }

  /** Since entry n the service was brought up, and on these files. */
  ghost predicate LaunchedWith(trace: seq<Entry>, n: nat, files: map<string, Bytes>) {
    && (exists i | n <= i < |trace| :: Launches(trace[i].cmd))
    && forall i | n <= i < |trace| && Launches(trace[i].cmd) :: trace[i].after.target.files == files
  }

  ghost predicate NoLaunch(acts: seq<Command>) {
    forall c | c in acts :: !Launches(c)
  }

  lemma LaunchedLast(early: seq<Entry>, late: seq<Entry>, n: nat, files: map<string, Bytes>)
    requires n <= |early| && early <= late && NoLaunch(Acts(early, n)) && LaunchedWith(late, |early|, files)
    ensures LaunchedWith(late, n, files)
  {
    forall i | n <= i < |early| ensures !Launches(late[i].cmd) {
      if Launches(late[i].cmd) {
        assert late[i] == early[i];
        EntryInActs(early, n, i);
      }
    }
    var i :| |early| <= i < |late| && Launches(late[i].cmd);
    assert n <= i < |late| && Launches(late[i].cmd);
  }

  lemma LaunchedNow(early: seq<Entry>, late: seq<Entry>, now: World)
    requires |late| == |early| + 1 && early <= late && Launches(late[|early|].cmd) && late[|early|].after == now
    ensures LaunchedWith(late, |early|, now.target.files)
  {}

  lemma LaunchedThenQuiet(early: seq<Entry>, late: seq<Entry>, n: nat, files: map<string, Bytes>, w: World)
    requires n <= |early| && early <= late && LaunchedWith(early, n, files) && Quiet(late, |early|, w)
    ensures LaunchedWith(late, n, files)
  {
    var i :| n <= i < |early| && Launches(early[i].cmd);
    assert late[i] == early[i];
  }

  lemma MovesLaunchNothing(node: Node, moves: seq<Command>, version: string)
    requires AllMoves(moves)
    ensures NoLaunch(moves + MarkerActs(node, version)) && NoLaunch([Stop] + (moves + MarkerActs(node, version)))
  {}

  method CycleValidator(r: Runner, node: Node, swaps: seq<Swap>, version: string, minIdle: int)
    returns (c: Cycle, ghost moved: nat, ghost moves: seq<Command>)
    requires node.role == Validator
    modifies r
    ensures moved == MovedBy(swaps, old(r.world.target.files), r.oracle, SwapTick(node, old(r.tick)))
    ensures Cycled(old(r.trace), r.trace, old(r.world), r.world, node, swaps, version, c, moved)
    ensures Acts(r.trace, |old(r.trace)|) == CycleActs(node, moves, version, minIdle)
    ensures CycleTold(r.trace, |old(r.trace)|, swaps, moves, c)
    ensures Unhindered(r, old(r.world.target.files), swaps) ==> CycleGood(c)
  {
    ghost var was, n := r.world, |r.trace|;
    var swapOk, marker;
    swapOk, marker, moved, moves := SwapAndMark(r, node, swaps, version, was);
    ghost var mid := r.trace;
    var ok := ValidatorSafeExit(r, minIdle);
    c := Cycle(swapOk, marker, ok);
    LaunchedNow(mid, r.trace, r.world);
    ValidatorCycled(mid, r.trace, n, was, r.world, node, swaps, moves, version, SafeExit(minIdle), c, moved);
  }

  lemma ValidatorCycled(t1: seq<Entry>, t2: seq<Entry>, n: nat, was: World, now: World, node: Node, swaps: seq<Swap>,
                        moves: seq<Command>, version: string, exit: Command, c: Cycle, moved: nat)
    requires n <= |t1| && t1 <= t2 && |t2| == |t1| + 1 && moved <= |swaps| && KindOf(exit) == Serving
    requires Acts(t1, n) == moves + MarkerActs(node, version) && Acts(t2, |t1|) == [exit]
    requires t2[|t1|].after == now && LaunchedWith(t2, |t1|, now.target.files)
    requires SwapTold(t1, n, swaps, moves, c.swapOk, c.marker)
    requires c.cycleOk <==> AllOkOf(t2, |t1|, Serving)
    requires AlwaysReplaced(t1, n, was, node, swaps, moved) && Replaced(was, now, node, swaps, moved)
    ensures Acts(t2, n) == moves + MarkerActs(node, version) + [exit]
    ensures CycleTold(t2, n, swaps, moves, c)
    ensures AlwaysReplaced(t2, n, was, node, swaps, moved)
    ensures LaunchedWith(t2, n, now.target.files)
  {
    ActsSplit(t1, t2, n);
    ValidatorTold(t1, t2, n, node, swaps, moves, version, exit, c);
    ServiceKeepsReplaced(t1, t2, n, was, now, node, swaps, moved);
    MarkedLaunchesLast(t1, t2, n, node, moves, version, now.target.files);
  }

  lemma MarkedLaunchesLast(t1: seq<Entry>, t2: seq<Entry>, n: nat, node: Node, moves: seq<Command>, version: string,
                           files: map<string, Bytes>)
    requires n <= |t1| && t1 <= t2
    requires AllMoves(moves) && Acts(t1, n) == moves + MarkerActs(node, version) && LaunchedWith(t2, |t1|, files)
    ensures LaunchedWith(t2, n, files)
  {
    MovesLaunchNothing(node, moves, version);
    LaunchedLast(t1, t2, n, files);
  }

  lemma ValidatorTold(t1: seq<Entry>, t2: seq<Entry>, n: nat, node: Node, swaps: seq<Swap>, moves: seq<Command>,
                      version: string, exit: Command, c: Cycle)
    requires n <= |t1| && t1 <= t2 && KindOf(exit) == Serving
    requires Acts(t1, n) == moves + MarkerActs(node, version) && Acts(t2, |t1|) == [exit]
    requires SwapTold(t1, n, swaps, moves, c.swapOk, c.marker)
    requires c.cycleOk <==> AllOkOf(t2, |t1|, Serving)
    ensures CycleTold(t2, n, swaps, moves, c)
  {
    MovesLack(node, moves, version);
    OneLacks(exit, Moving);
    OneLacks(exit, Marking);
    ToldEarly(t1, t2, n, swaps, moves, c.swapOk, c.marker);
    OnlyLate(t1, t2, n, Serving);
  }

  lemma ServiceKeepsReplaced(mid: seq<Entry>, trace: seq<Entry>, n: nat, was: World, now: World, node: Node,
                             swaps: seq<Swap>, moved: nat)
    requires moved <= |swaps| && n <= |mid| && mid <= trace
    requires AlwaysReplaced(mid, n, was, node, swaps, moved)
    requires Replaced(was, now, node, swaps, moved)
    requires forall i | |mid| <= i < |trace| :: trace[i].after == now
    ensures AlwaysReplaced(trace, n, was, node, swaps, moved)
  {}

  method CycleRpc(r: Runner, node: Node, swaps: seq<Swap>, version: string, minIdle: int)
    returns (c: Cycle, ghost moved: nat, ghost moves: seq<Command>)
    requires node.role == Rpc
    modifies r
    ensures moved == MovedBy(swaps, old(r.world.target.files), r.oracle, SwapTick(node, old(r.tick)))
    ensures Cycled(old(r.trace), r.trace, old(r.world), r.world, node, swaps, version, c, moved)
    ensures Acts(r.trace, |old(r.trace)|) == CycleActs(node, moves, version, minIdle)
    ensures CycleTold(r.trace, |old(r.trace)|, swaps, moves, c)
    ensures Unhindered(r, old(r.world.target.files), swaps) ==> CycleGood(c)
  {
    ghost var was, n := r.world, |r.trace|;
    var stopOk := StopService(r);
    ghost var t1 := r.trace;
    assert Replaced(was, r.world, node, swaps, 0);
    var swapOk, marker;
    swapOk, marker, moved, moves := SwapAndMark(r, node, swaps, version, was);
    ghost var t2 := r.trace;
    var startOk := StartService(r);
    c := Cycle(swapOk, marker, stopOk && startOk);
    LaunchedNow(t2, r.trace, r.world);
    RpcCycled(t1, t2, r.trace, n, was, r.world, node, swaps, moves, version, c, moved);
  }

  lemma RpcCycled(t1: seq<Entry>, t2: seq<Entry>, t3: seq<Entry>, n: nat, was: World, now: World, node: Node,
                  swaps: seq<Swap>, moves: seq<Command>, version: string, c: Cycle, moved: nat)
    requires |t1| == n + 1 && t1 <= t2 && |t3| == |t2| + 1 && t2 <= t3 && moved <= |swaps|
    requires Acts(t1, n) == [Stop] && Acts(t2, |t1|) == moves + MarkerActs(node, version) && Acts(t3, |t2|) == [Start]
    requires t3[|t2|].after == now && LaunchedWith(t3, |t2|, now.target.files)
    requires SwapTold(t2, |t1|, swaps, moves, c.swapOk, c.marker)
    requires c.cycleOk <==> AllOkOf(t1, n, Serving) && AllOkOf(t3, |t2|, Serving)
    requires Replaced(was, t1[n].after, node, swaps, 0) && AlwaysReplaced(t2, n + 1, was, node, swaps, moved)
    requires Replaced(was, now, node, swaps, moved)
    ensures Acts(t3, n) == [Stop] + (moves + MarkerActs(node, version)) + [Start]
    ensures CycleTold(t3, n, swaps, moves, c)
    ensures AlwaysReplaced(t3, n, was, node, swaps, moved)
    ensures LaunchedWith(t3, n, now.target.files)
  {
    RpcTold(t1, t2, t3, n, node, swaps, moves, version, c.swapOk, c.marker);
    RpcReplaced(t1, t2, t3, n, was, now, node, swaps, moved);
    RpcLaunched(t1, t2, t3, n, node, moves, version, now.target.files);
  }

  lemma RpcTold(t1: seq<Entry>, t2: seq<Entry>, t3: seq<Entry>, n: nat, node: Node, swaps: seq<Swap>,
                moves: seq<Command>, version: string, swapOk: bool, m: MarkerResult)
    requires n <= |t1| && t1 <= t2 && t2 <= t3
    requires Acts(t1, n) == [Stop] && Acts(t2, |t1|) == moves + MarkerActs(node, version) && Acts(t3, |t2|) == [Start]
    requires SwapTold(t2, |t1|, swaps, moves, swapOk, m)
    ensures Acts(t3, n) == [Stop] + (moves + MarkerActs(node, version)) + [Start]
    ensures SwapTold(t3, n, swaps, moves, swapOk, m)
    ensures AllOkOf(t3, n, Serving) <==> AllOkOf(t1, n, Serving) && AllOkOf(t3, |t2|, Serving)
  {
    RpcActs(t1, t2, t3, n);
    OneLacks(Stop, Moving);
    OneLacks(Stop, Marking);
    OneLacks(Start, Moving);
    OneLacks(Start, Marking);
    ToldLate(t1, t2, n, swaps, moves, swapOk, m);
    ToldEarly(t2, t3, n, swaps, moves, swapOk, m);
    RpcServing(t1, t2, t3, n, node, moves, version);
  }

  lemma RpcLaunched(t1: seq<Entry>, t2: seq<Entry>, t3: seq<Entry>, n: nat, node: Node, moves: seq<Command>,
                    version: string, files: map<string, Bytes>)
    requires n <= |t1| && t1 <= t2 && t2 <= t3
    requires AllMoves(moves) && Acts(t1, n) == [Stop] && Acts(t2, |t1|) == moves + MarkerActs(node, version)
    requires LaunchedWith(t3, |t2|, files)
    ensures LaunchedWith(t3, n, files)
  {
    ActsSplit(t1, t2, n);
    MovesLaunchNothing(node, moves, version);
    LaunchedLast(t2, t3, n, files);
  }

  lemma RpcActs(t1: seq<Entry>, t2: seq<Entry>, t3: seq<Entry>, n: nat)
    requires n <= |t1| && t1 <= t2 && t2 <= t3
    ensures Acts(t3, n) == Acts(t1, n) + Acts(t2, |t1|) + Acts(t3, |t2|)
  {
    ActsSplit(t1, t2, n);
    ActsSplit(t2, t3, n);
  }

  lemma RpcServing(t1: seq<Entry>, t2: seq<Entry>, t3: seq<Entry>, n: nat, node: Node, moves: seq<Command>,
                   version: string)
    requires n <= |t1| && t1 <= t2 && t2 <= t3
    requires AllMoves(moves) && Acts(t2, |t1|) == moves + MarkerActs(node, version)
    ensures AllOkOf(t3, n, Serving) <==> AllOkOf(t1, n, Serving) && AllOkOf(t3, |t2|, Serving)
  {
    MovesLack(node, moves, version);
    OnlyEarly(t1, t2, n, Serving);
    AllOkSplit(t2, t3, n, Serving);
  }

  lemma StopThenReplaced(t1: seq<Entry>, t2: seq<Entry>, n: nat, was: World, node: Node, swaps: seq<Swap>, moved: nat)
    requires moved <= |swaps| && |t1| == n + 1 && t1 <= t2
    requires Replaced(was, t1[n].after, node, swaps, 0)
    requires AlwaysReplaced(t2, n + 1, was, node, swaps, moved)
    ensures AlwaysReplaced(t2, n, was, node, swaps, moved)
  {}

  lemma RpcReplaced(t1: seq<Entry>, t2: seq<Entry>, t3: seq<Entry>, n: nat, was: World, now: World, node: Node,
                    swaps: seq<Swap>, moved: nat)
    requires moved <= |swaps| && |t1| == n + 1 && t1 <= t2 && |t3| == |t2| + 1 && t2 <= t3
    requires Replaced(was, t1[n].after, node, swaps, 0) && AlwaysReplaced(t2, n + 1, was, node, swaps, moved)
    requires Replaced(was, now, node, swaps, moved) && t3[|t2|].after == now
    ensures AlwaysReplaced(t3, n, was, node, swaps, moved)
  {
    StopThenReplaced(t1, t2, n, was, node, swaps, moved);
    ServiceKeepsReplaced(t2, t3, n, was, now, node, swaps, moved);
  }

  method CycleNode(r: Runner, node: Node, swaps: seq<Swap>, version: string, minIdle: int)
    returns (c: Cycle, ghost moved: nat, ghost moves: seq<Command>)
    modifies r
    ensures moved == MovedBy(swaps, old(r.world.target.files), r.oracle, SwapTick(node, old(r.tick)))
    ensures Cycled(old(r.trace), r.trace, old(r.world), r.world, node, swaps, version, c, moved)
    ensures Acts(r.trace, |old(r.trace)|) == CycleActs(node, moves, version, minIdle)
    ensures CycleTold(r.trace, |old(r.trace)|, swaps, moves, c)
    ensures Unhindered(r, old(r.world.target.files), swaps) ==> CycleGood(c)
  {
    if node.role == Validator {
      c, moved, moves := CycleValidator(r, node, swaps, version, minIdle);
    } else {
      c, moved, moves := CycleRpc(r, node, swaps, version, minIdle);
    }
  }

  // ---- build, copy, cycle -------------------------------------------------

  datatype Deployment =
    | BuildFailed(build: BuildResult)
    | CopyFailed(build: BuildResult, entries: seq<Placed>)
    | Deployed(build: BuildResult, entries: seq<Placed>, cycle: Cycle)

  function EntriesOf(d: Deployment): seq<Placed> {
    if d.BuildFailed? then [] else d.entries
  }

  /** An abandoned deployment never touched the live node. */
  ghost predicate AlwaysStagedOnly(trace: seq<Entry>, n: nat, was: Target, node: Node, names: seq<string>) {
    forall i | n <= i < |trace| :: StagedOnly(was, trace[i].after.target, node, names)
  }

  /** At every command since entry n, each live file holds its former bytes or bytes
      with the digest the build host recorded. */
  ghost predicate AlwaysLive(trace: seq<Entry>, n: nat, t: Toolchain, node: Node, arts: seq<Artifact>, was: Target) {
    forall i | n <= i < |trace| :: LiveOk(t, node, arts, was.files, trace[i].after.target.files)
  }

  /** The artifacts of the first `moved` moves are live with their recorded digests,
      the others are what they were. */
  ghost predicate Lockstep(t: Toolchain, node: Node, arts: seq<Artifact>, was: Target, now: Target, moved: nat) {
    forall k | 0 <= k < |arts| && DestFor(node, arts[k].key.name).Some? :: InStep(t, node, arts, was, now, moved, k)
  }

  ghost predicate InStep(t: Toolchain, node: Node, arts: seq<Artifact>, was: Target, now: Target, moved: nat, k: nat)
    requires k < |arts| && DestFor(node, arts[k].key.name).Some?
  {
    var dest := DestFor(node, arts[k].key.name).value;
    if PlacesBefore(node, arts, k) < moved then dest in now.files && arts[k].sha == Some(t.sha(now.files[dest]))
    else SameAt(now.files, was.files, dest)
  }

  ghost predicate AllPlaced(node: Node, names: seq<string>) {
    forall n | n in names :: DestFor(node, n).Some?
  }

  lemma LiveWhenReplaced(t: Toolchain, node: Node, arts: seq<Artifact>, before: map<string, Bytes>, was: World,
                         now: World, j: nat)
    requires PathsDistinct(node, NamesIn(arts))
    requires forall p | !IsStaged(node, NamesIn(arts), p) :: SameAt(was.target.files, before, p)
    requires Vouched(t, node, arts, was.target.files, SwapsFor(node, NamesIn(arts)))
    requires j <= |SwapsFor(node, NamesIn(arts))|
    requires Replaced(was, now, node, SwapsFor(node, NamesIn(arts)), j)
    ensures LiveOk(t, node, arts, before, now.target.files)
  {
    var swaps := SwapsFor(node, NamesIn(arts));
    LiveDuringSwap(t, node, arts, was.target.files, j);
    forall p | !IsStaged(node, NamesIn(arts), p) && Marker(node) != Some(p)
      ensures
        || SameAt(now.target.files, before, p)
        || (p in now.target.files && Trusted(t, node, arts, p, now.target.files[p]))
    {
      assert SameAt(now.target.files, SwapFiles(was.target.files, swaps, j), p);
      assert SameAt(was.target.files, before, p);
    }
  }

  lemma LiveThroughout(t: Toolchain, node: Node, arts: seq<Artifact>, before: map<string, Bytes>, was: World,
                       trace: seq<Entry>, n: nat, moved: nat)
    requires PathsDistinct(node, NamesIn(arts))
    requires forall p | !IsStaged(node, NamesIn(arts), p) :: SameAt(was.target.files, before, p)
    requires Vouched(t, node, arts, was.target.files, SwapsFor(node, NamesIn(arts)))
    requires moved <= |SwapsFor(node, NamesIn(arts))|
    requires AlwaysReplaced(trace, n, was, node, SwapsFor(node, NamesIn(arts)), moved)
    ensures forall i | n <= i < |trace| :: LiveOk(t, node, arts, before, trace[i].after.target.files)
  {
    var swaps := SwapsFor(node, NamesIn(arts));
    forall i | n <= i < |trace| ensures LiveOk(t, node, arts, before, trace[i].after.target.files) {
      assert SomeReplaced(was, trace[i].after, node, swaps, moved);
      var j: nat :| j <= moved && Replaced(was, trace[i].after, node, swaps, j);
      LiveWhenReplaced(t, node, arts, before, was, trace[i].after, j);
    }
  }

  lemma LockstepWhenReplaced(t: Toolchain, node: Node, arts: seq<Artifact>, was: World, now: World, moved: nat)
    requires PathsDistinct(node, NamesIn(arts))
    requires Vouched(t, node, arts, was.target.files, SwapsFor(node, NamesIn(arts)))
    requires moved <= |SwapsFor(node, NamesIn(arts))|
    requires Replaced(was, now, node, SwapsFor(node, NamesIn(arts)), moved)
    ensures Lockstep(t, node, arts, was.target, now.target, moved)
  {
    forall k | 0 <= k < |arts| && DestFor(node, arts[k].key.name).Some?
      ensures InStep(t, node, arts, was.target, now.target, moved, k)
    {
      LockstepAt(t, node, arts, was, now, moved, k);
    }
  }

  /** Staged names do not count: the step may be told from before they were written. */
  lemma LockstepFrom(t: Toolchain, node: Node, arts: seq<Artifact>, before: Target, was: Target, now: Target,
                     moved: nat)
    requires PathsDistinct(node, NamesIn(arts)) && StagedOnly(before, was, node, NamesIn(arts))
    requires Lockstep(t, node, arts, was, now, moved)
    ensures Lockstep(t, node, arts, before, now, moved)
  {
    forall k | 0 <= k < |arts| && DestFor(node, arts[k].key.name).Some?
      ensures InStep(t, node, arts, before, now, moved, k)
    {
      assert InStep(t, node, arts, was, now, moved, k);
      assert NamesIn(arts)[k] in NamesIn(arts);
      NotStaged(node, NamesIn(arts), DestFor(node, arts[k].key.name).value);
      assert SameAt(was.files, before.files, DestFor(node, arts[k].key.name).value);
    }
  }

  lemma LockstepAt(t: Toolchain, node: Node, arts: seq<Artifact>, was: World, now: World, moved: nat, k: nat)
    requires PathsDistinct(node, NamesIn(arts)) && k < |arts|
    requires Vouched(t, node, arts, was.target.files, SwapsFor(node, NamesIn(arts)))
    requires moved <= |SwapsFor(node, NamesIn(arts))|
    requires Replaced(was, now, node, SwapsFor(node, NamesIn(arts)), moved)
    requires DestFor(node, arts[k].key.name).Some?
    ensures InStep(t, node, arts, was.target, now.target, moved, k)
  {
    var names := NamesIn(arts);
    var swaps := SwapsFor(node, names);
    var i := PlacesBefore(node, arts, k);
    SwapOfPlace(node, arts, k);
    SwapsForDistinct(node, names);
    assert names[k] in names && swaps[i] in swaps;
    var dest := swaps[i].dest;
    assert IsDest(node, names, dest);
    assert SameAt(now.target.files, SwapFiles(was.target.files, swaps, moved), dest);
    if i < moved {
      SwapLands(was.target.files, swaps, moved, i);
      OnlyArtifactFor(t, node, arts, k, was.target.files[swaps[i].staged]);
    } else {
      assert !Touched(swaps, moved, dest) by {
        forall j | 0 <= j < moved ensures swaps[j].dest != dest && swaps[j].staged != dest {
          assert swaps[j] in swaps;
        }
      }
      SwapUntouched(was.target.files, swaps, moved, dest);
    }
  }

  /** Distinct destinations: bytes trusted at one can only be its own artifact. */
  lemma OnlyArtifactFor(t: Toolchain, node: Node, arts: seq<Artifact>, k: nat, bytes: Bytes)
    requires PathsDistinct(node, NamesIn(arts)) && k < |arts| && DestFor(node, arts[k].key.name).Some?
    requires Trusted(t, node, arts, DestFor(node, arts[k].key.name).value, bytes)
    ensures arts[k].sha == Some(t.sha(bytes))
  {}

  lemma NotStaged(node: Node, names: seq<string>, dest: string)
    requires PathsDistinct(node, names) && IsDest(node, names, dest)
    ensures !IsStaged(node, names, dest)
  {}

  lemma {:induction false} BuildIsPrep(trace: seq<Entry>, n: nat, w: World)
    requires OnBuildHost(trace, n, w)
    ensures AllPrep(Acts(trace, n))
  {
    if |trace| > n {
      BuildIsPrep(trace[..|trace| - 1], n, w);
    }
  }

  lemma BuiltThenCopied(t1: seq<Entry>, t2: seq<Entry>, n: nat, w0: World, w1: World, node: Node, names: seq<string>)
    requires n <= |t1| && t1 <= t2 && w1.target == w0.target
    requires OnBuildHost(t1, n, w0) && AlwaysOnlyStaged(t2, |t1|, w1, node, names)
    ensures AlwaysStagedOnly(t2, n, w0.target, node, names)
  {}

  /** A successful preparation: every artifact of the version, in order, either
      skipped or staged and verified. */
  ghost predicate Prepared(t: Toolchain, node: Node, install: Install, version: string, b: BuildHost,
                           build: BuildResult, entries: seq<Placed>)
  {
    && build.ok && NamesIn(build.artifacts) == ArtifactNames(install)
    && (forall a | a in build.artifacts :: a.key.version == version && Recorded(t, b, a))
    && |entries| == |build.artifacts|
    && (forall p | p in entries :: Good(p))
    && SwapsOf(entries) == SwapsFor(node, NamesIn(build.artifacts)) != []
  }

  lemma AllGoodIsPrepared(t: Toolchain, node: Node, install: Install, version: string, w: World,
                          build: BuildResult, entries: seq<Placed>)
    requires build.ok && ArtifactsOf(t, w.build, install, version, build.artifacts)
    requires |entries| == |build.artifacts| && PlacedSoFar(t, node, build.artifacts, entries, w.target.files)
    requires AllGood(entries)
    ensures Prepared(t, node, install, version, w.build, build, entries)
    ensures PathsDistinct(node, NamesIn(build.artifacts)) ==>
      Vouched(t, node, build.artifacts, w.target.files, SwapsFor(node, NamesIn(build.artifacts)))
  {
    var names := NamesIn(build.artifacts);
    GoodSwapsAreAll(node, names, entries);
    assert names[0] == AGAVE_BINS[0];
    SomethingToSwap(node, names, names[0]);
    if PathsDistinct(node, names) {
      DistributedIsVouched(t, node, build.artifacts, entries, w.target.files);
    }
  }

  predicate AllGood(entries: seq<Placed>) {
    forall p | p in entries :: Good(p)
  }

  /** The preparation as its commands tell it: the build from entry n to mid, and from
      there, unless it failed, every copy. */
  ghost predicate PreparedUpTo(trace: seq<Entry>, n: nat, mid: nat, node: Node, install: Install, version: string,
                               force: bool, build: BuildResult, entries: seq<Placed>)
  {
    && n <= mid <= |trace|
    && BuildTold(trace[..mid], n, install, version, force, build)
    && if build.ok then |entries| == |build.artifacts| && CopiesTold(trace, mid, node, build.artifacts, entries)
       else entries == []
  }

  ghost predicate PrepareTold(trace: seq<Entry>, n: nat, node: Node, install: Install, version: string, force: bool,
                              build: BuildResult, entries: seq<Placed>)
  {
    exists mid: nat :: PreparedUpTo(trace, n, mid, node, install, version, force, build, entries)
  }

  lemma PrepareToldLater(t1: seq<Entry>, t2: seq<Entry>, n: nat, node: Node, install: Install, version: string,
                         force: bool, build: BuildResult, entries: seq<Placed>)
    requires t1 <= t2 && PrepareTold(t1, n, node, install, version, force, build, entries)
    ensures PrepareTold(t2, n, node, install, version, force, build, entries)
  {
    var mid: nat :| PreparedUpTo(t1, n, mid, node, install, version, force, build, entries);
    assert t2[..mid] == t1[..mid];
    if build.ok {
      CopiesToldLater(t1, t2, mid, node, build.artifacts, entries);
    }
    assert PreparedUpTo(t2, n, mid, node, install, version, force, build, entries);
  }

  ghost predicate CacheSound(t: Toolchain, install: Install, b: BuildHost) {
    exists finished :: Sound(t, install, b, finished)
  }

  /** A sound cache stays sound; and from one, nothing but a mishap can fail. */
  ghost predicate SoundPrepare(t: Toolchain, install: Install, version: string, smooth: bool, was: BuildHost,
                               now: BuildHost, ok: bool)
  {
    forall finished | Sound(t, install, was, finished) ::
      Sound(t, install, now, finished + {version}) && (smooth ==> ok)
  }

  /** Build, then copy and verify. Only staged names on the node are written. */
  method Prepare(r: Runner, node: Node, install: Install, version: string, force: bool)
    returns (ok: bool, build: BuildResult, entries: seq<Placed>)
    modifies r
    ensures old(r.trace) <= r.trace
    ensures StagedOnly(old(r.world.target), r.world.target, node, NamesIn(build.artifacts))
    ensures AlwaysStagedOnly(r.trace, |old(r.trace)|, old(r.world.target), node, NamesIn(build.artifacts))
    ensures AllPrep(Acts(r.trace, |old(r.trace)|))
    ensures PrepareTold(r.trace, |old(r.trace)|, node, install, version, force, build, entries)
    ensures ok <==> build.ok && AllGood(entries)
    ensures ok ==> Prepared(r.tools, node, install, version, r.world.build, build, entries)
    ensures OnRecord(r.tools, r.world.build, install, version, build.artifacts)
    ensures ok && PathsDistinct(node, NamesIn(build.artifacts)) ==>
      Vouched(r.tools, node, build.artifacts, r.world.target.files, SwapsFor(node, NamesIn(build.artifacts)))
    ensures SoundPrepare(r.tools, install, version, AllSmooth(r), old(r.world.build), r.world.build, ok)
  {
    ghost var w0, n := r.world, |r.trace|;
    build := BuildArtifacts(r, install, version, force);
    ghost var w1, t1 := r.world, r.trace;
    BuildIsPrep(t1, n, w0);
    if !build.ok {
      assert t1[..|t1|] == t1;
      assert PreparedUpTo(t1, n, |t1|, node, install, version, force, build, []);
      return false, build, [];
    }
    ArtifactsAreOnRecord(r.tools, w1.build, install, version, build.artifacts);
    ok, entries := CopyPrepared(r, node, install, version, build);
    BuildThenCopies(t1, r.trace, n, w0, w1, node, install, version, force, build, entries);
    SmoothPrepare(r.tools, install, version, AllSmooth(r), w0.build, w1.build, build, ok);
  }

  /** No artifacts, or the whole set of the version with the digests of the cached files. */
  ghost predicate OnRecord(t: Toolchain, b: BuildHost, install: Install, version: string, arts: seq<Artifact>) {
    && (arts == [] || NamesIn(arts) == ArtifactNames(install))
    && forall a | a in arts :: a.key.version == version && Recorded(t, b, a)
  }

  lemma ArtifactsAreOnRecord(t: Toolchain, b: BuildHost, install: Install, version: string, arts: seq<Artifact>)
    requires ArtifactsOf(t, b, install, version, arts)
    ensures OnRecord(t, b, install, version, arts)
  {}

  lemma SmoothPrepare(t: Toolchain, install: Install, version: string, smooth: bool, was: BuildHost, now: BuildHost,
                      build: BuildResult, ok: bool)
    requires SoundBuild(t, install, version, smooth, was, now, build)
    requires ArtifactsOf(t, now, install, version, build.artifacts)
    requires smooth && AllRecorded(t, now, build.artifacts) ==> ok
    ensures SoundPrepare(t, install, version, smooth, was, now, ok)
  {
    forall finished | Sound(t, install, was, finished)
      ensures Sound(t, install, now, finished + {version}) && (smooth ==> ok)
    {
      assert smooth ==> forall i | 0 <= i < |build.artifacts| :: build.artifacts[i] in build.artifacts;
    }
  }

  lemma BuildThenCopies(t1: seq<Entry>, t2: seq<Entry>, n: nat, w0: World, w1: World, node: Node, install: Install,
                        version: string, force: bool, build: BuildResult, entries: seq<Placed>)
    requires n <= |t1| && t1 <= t2 && w1.target == w0.target && build.ok
    requires OnBuildHost(t1, n, w0) && AllPrep(Acts(t1, n)) && BuildTold(t1, n, install, version, force, build)
    requires AlwaysOnlyStaged(t2, |t1|, w1, node, NamesIn(build.artifacts)) && AllPrep(Acts(t2, |t1|))
    requires |entries| == |build.artifacts| && CopiesTold(t2, |t1|, node, build.artifacts, entries)
    ensures AlwaysStagedOnly(t2, n, w0.target, node, NamesIn(build.artifacts)) && AllPrep(Acts(t2, n))
    ensures PrepareTold(t2, n, node, install, version, force, build, entries)
  {
    ActsSplit(t1, t2, n);
    BuiltThenCopied(t1, t2, n, w0, w1, node, NamesIn(build.artifacts));
    assert t2[..|t1|] == t1;
    assert PreparedUpTo(t2, n, |t1|, node, install, version, force, build, entries);
  }

  /** The copies of a good build. */
  method CopyPrepared(r: Runner, node: Node, install: Install, version: string, build: BuildResult)
    returns (ok: bool, entries: seq<Placed>)
    requires build.ok && ArtifactsOf(r.tools, r.world.build, install, version, build.artifacts)
    modifies r
    ensures OnlyStaged(old(r.world), r.world, node, NamesIn(build.artifacts))
    ensures old(r.trace) <= r.trace
    ensures AlwaysOnlyStaged(r.trace, |old(r.trace)|, old(r.world), node, NamesIn(build.artifacts))
    ensures AllPrep(Acts(r.trace, |old(r.trace)|))
    ensures |entries| == |build.artifacts| && CopiesTold(r.trace, |old(r.trace)|, node, build.artifacts, entries)
    ensures ok <==> AllGood(entries)
    ensures ok ==> Prepared(r.tools, node, install, version, r.world.build, build, entries)
    ensures ok && PathsDistinct(node, NamesIn(build.artifacts)) ==>
      Vouched(r.tools, node, build.artifacts, r.world.target.files, SwapsFor(node, NamesIn(build.artifacts)))
    ensures AllSmooth(r) && AllRecorded(r.tools, r.world.build, build.artifacts) ==> ok
  {
    ok, entries := Distribute(r, node, build.artifacts);
    if ok {
      AllGoodIsPrepared(r.tools, node, install, version, r.world, build, entries);
    }
  }

  /** The node's entries since n and its state, after a full deployment. */
  ghost predicate Live(t: Toolchain, trace: seq<Entry>, n: nat, was: Target, now: Target, node: Node,
                       arts: seq<Artifact>, moved: nat)
  {
    && moved <= |SwapsFor(node, NamesIn(arts))|
    && (PathsDistinct(node, NamesIn(arts)) ==>
          && AlwaysLive(trace, n, t, node, arts, was) && LiveOk(t, node, arts, was.files, now.files)
          && Lockstep(t, node, arts, was, now, moved))
  }

  lemma DeployedIsLive(t: Toolchain, t2: seq<Entry>, trace: seq<Entry>, n: nat, was: Target, w2: World, now: World,
                       node: Node, arts: seq<Artifact>, moved: nat)
    requires n <= |t2| && t2 <= trace
    requires AlwaysStagedOnly(t2, n, was, node, NamesIn(arts)) && StagedOnly(was, w2.target, node, NamesIn(arts))
    requires var swaps := SwapsFor(node, NamesIn(arts));
      && moved <= |swaps|
      && (PathsDistinct(node, NamesIn(arts)) ==> Vouched(t, node, arts, w2.target.files, swaps))
      && AlwaysReplaced(trace, |t2|, w2, node, swaps, moved)
      && Replaced(w2, now, node, swaps, moved)
    ensures Live(t, trace, n, was, now.target, node, arts, moved)
  {
    if PathsDistinct(node, NamesIn(arts)) {
      LiveThroughout(t, node, arts, was.files, w2, trace, |t2|, moved);
      LiveWhenReplaced(t, node, arts, was.files, w2, now, moved);
      forall i | n <= i < |t2| ensures LiveOk(t, node, arts, was.files, trace[i].after.target.files) {
        assert trace[i] == t2[i];
      }
      LockstepWhenReplaced(t, node, arts, w2, now, moved);
      LockstepFrom(t, node, arts, was, w2.target, now.target, moved);
    }
  }

  /** Stopped at the build or the copy: the live node was never touched. */
  ghost predicate AbandonedKept(trace: seq<Entry>, n: nat, was: Target, now: Target, node: Node, d: Deployment,
                                setup: seq<Command>)
  {
    && StagedOnly(was, now, node, NamesIn(d.build.artifacts))
    && AlwaysStagedOnly(trace, n, was, node, NamesIn(d.build.artifacts))
    && Acts(trace, n) == setup
  }

  /** Carried through: role-ordered, no unverified bytes live at any moment, and every
      flag the exit status of its commands. */
  ghost predicate DeployedKept(t: Toolchain, trace: seq<Entry>, n: nat, was: Target, now: World, node: Node,
                               install: Install, version: string, minIdle: int, d: Deployment, setup: seq<Command>,
                               moves: seq<Command>, moved: nat)
    requires d.Deployed?
  {
    var swaps := SwapsFor(node, NamesIn(d.build.artifacts));
    && Prepared(t, node, install, version, now.build, d.build, d.entries)
    && Acts(trace, n) == setup + CycleActs(node, moves, version, minIdle)
    && Live(t, trace, n, was, now.target, node, d.build.artifacts, moved)
    && CycleTold(trace, n, swaps, moves, d.cycle)
    && (d.cycle.swapOk ==> moved == |swaps|)
    && LaunchedWith(trace, n, now.target.files)
    && (d.cycle.cycleOk ==> now.target.active)
    && MarkerKept(node, version, d.cycle.marker, now.target)
  }

  ghost predicate DeployKept(t: Toolchain, trace: seq<Entry>, n: nat, was: Target, now: World, node: Node,
                             install: Install, version: string, minIdle: int, d: Deployment, setup: seq<Command>,
                             moves: seq<Command>, moved: nat)
  {
    && AllPrep(setup) && AllMoves(moves)
    && OnRecord(t, now.build, install, version, d.build.artifacts)
    && if d.Deployed? then DeployedKept(t, trace, n, was, now, node, install, version, minIdle, d, setup, moves, moved)
       else AbandonedKept(trace, n, was, now.target, node, d, setup)
  }

  /** Where a deployment stops is what its commands answered: at the build exactly when
      that broke off, at the copy exactly when some artifact is not good. */
  ghost predicate DeployTold(trace: seq<Entry>, n: nat, node: Node, install: Install, version: string, force: bool,
                             d: Deployment)
  {
    && PrepareTold(trace, n, node, install, version, force, d.build, EntriesOf(d))
    && (d.BuildFailed? <==> !d.build.ok)
    && (d.CopyFailed? <==> d.build.ok && !AllGood(EntriesOf(d)))
  }

  /** From a sound cache and with distinct paths, nothing but a mishap stops it. */
  ghost predicate SoundDeploy(t: Toolchain, node: Node, install: Install, version: string, smooth: bool, was: BuildHost,
                              now: BuildHost, d: Deployment)
  {
    && (forall finished | Sound(t, install, was, finished) :: Sound(t, install, now, finished + {version}))
    && (smooth && CacheSound(t, install, was) && PathsDistinct(node, ArtifactNames(install)) ==>
          d.Deployed? && CycleGood(d.cycle))
  }

  lemma DeployCycled(t: Toolchain, t2: seq<Entry>, t3: seq<Entry>, n: nat, was: Target, w2: World, now: World,
                     node: Node, install: Install, version: string, minIdle: int, d: Deployment, setup: seq<Command>,
                     moves: seq<Command>, moved: nat)
    requires n <= |t2| && t2 <= t3 && d.Deployed?
    requires AllPrep(setup) && setup == Acts(t2, n)
    requires StagedOnly(was, w2.target, node, NamesIn(d.build.artifacts))
    requires AlwaysStagedOnly(t2, n, was, node, NamesIn(d.build.artifacts))
    requires Prepared(t, node, install, version, w2.build, d.build, d.entries)
    requires OnRecord(t, w2.build, install, version, d.build.artifacts)
    requires PathsDistinct(node, NamesIn(d.build.artifacts)) ==>
      Vouched(t, node, d.build.artifacts, w2.target.files, SwapsFor(node, NamesIn(d.build.artifacts)))
    requires Cycled(t2, t3, w2, now, node, SwapsFor(node, NamesIn(d.build.artifacts)), version, d.cycle, moved)
    requires Acts(t3, |t2|) == CycleActs(node, moves, version, minIdle)
    requires CycleTold(t3, |t2|, SwapsFor(node, NamesIn(d.build.artifacts)), moves, d.cycle)
    ensures DeployKept(t, t3, n, was, now, node, install, version, minIdle, d, setup, moves, moved)
  {
    ActsSplit(t2, t3, n);
    LaunchedLast(t2, t3, n, now.target.files);
    CycleToldLate(t2, t3, n, SwapsFor(node, NamesIn(d.build.artifacts)), moves, d.cycle);
    DeployedIsLive(t, t2, t3, n, was, w2, now, node, d.build.artifacts, moved);
  }

  /** A verified, distinct set is all there when its turn comes. */
  lemma VouchedHasAll(t: Toolchain, node: Node, arts: seq<Artifact>, files: map<string, Bytes>)
    requires PathsDistinct(node, NamesIn(arts)) && Vouched(t, node, arts, files, SwapsFor(node, NamesIn(arts)))
    ensures HasAll(SwapsFor(node, NamesIn(arts)), Has(files, SwapsFor(node, NamesIn(arts))))
  {
    SwapsForDistinct(node, NamesIn(arts));
    DistinctHasAll(files, SwapsFor(node, NamesIn(arts)));
  }

  /** Everything an upgrade does past the gate up to the catch-up wait. */
  method Deploy(r: Runner, node: Node, install: Install, version: string, force: bool, minIdle: int)
    returns (d: Deployment, ghost setup: seq<Command>, ghost moves: seq<Command>, ghost moved: nat)
    modifies r
    ensures old(r.trace) <= r.trace
    ensures DeployKept(r.tools, r.trace, |old(r.trace)|, old(r.world.target), r.world, node, install, version, minIdle,
                       d, setup, moves, moved)
    ensures DeployTold(r.trace, |old(r.trace)|, node, install, version, force, d)
    ensures SoundDeploy(r.tools, node, install, version, AllSmooth(r), old(r.world.build), r.world.build, d)
  {
    ghost var n, w0 := |r.trace|, r.world;
    moves, moved := [], 0;
    var ok, build, entries := Prepare(r, node, install, version, force);
    ghost var t2, w2 := r.trace, r.world;
    setup := Acts(t2, n);
    if !ok {
      d := if build.ok then CopyFailed(build, entries) else BuildFailed(build);
      StoppedIsTold(t2, n, node, install, version, force, build, entries, d);
      StoppedIsSound(r.tools, node, install, version, AllSmooth(r), w0.build, w2.build, d);
      return;
    }
    var c;
    c, moved, moves := CycleNode(r, node, SwapsOf(entries), version, minIdle);
    d := Deployed(build, entries, c);
    DeployCycled(r.tools, t2, r.trace, n, w0.target, w2, r.world, node, install, version, minIdle, d, setup, moves,
                 moved);
    PrepareToldLater(t2, r.trace, n, node, install, version, force, build, entries);
    DeployIsSound(r.tools, node, install, version, AllSmooth(r), w0.build, w2, d);
  }

  lemma StoppedIsTold(trace: seq<Entry>, n: nat, node: Node, install: Install, version: string, force: bool,
                      build: BuildResult, entries: seq<Placed>, d: Deployment)
    requires PrepareTold(trace, n, node, install, version, force, build, entries) && !(build.ok && AllGood(entries))
    requires d == (if build.ok then CopyFailed(build, entries) else BuildFailed(build))
    ensures DeployTold(trace, n, node, install, version, force, d)
  {
    assert !build.ok ==> entries == [];
  }

  lemma StoppedIsSound(t: Toolchain, node: Node, install: Install, version: string, smooth: bool, was: BuildHost,
                       now: BuildHost, d: Deployment)
    requires SoundPrepare(t, install, version, smooth, was, now, false)
    ensures SoundDeploy(t, node, install, version, smooth, was, now, d)
  {}

  lemma DeployIsSound(t: Toolchain, node: Node, install: Install, version: string, smooth: bool, was: BuildHost,
                      mid: World, d: Deployment)
    requires SoundPrepare(t, install, version, smooth, was, mid.build, true)
    requires d.Deployed? && Prepared(t, node, install, version, mid.build, d.build, d.entries)
    requires var arts := d.build.artifacts;
      && (PathsDistinct(node, NamesIn(arts)) ==>
            Vouched(t, node, arts, mid.target.files, SwapsFor(node, NamesIn(arts))))
      && (smooth && HasAll(SwapsOf(d.entries), Has(mid.target.files, SwapsOf(d.entries))) ==> CycleGood(d.cycle))
    ensures SoundDeploy(t, node, install, version, smooth, was, mid.build, d)
  {
    if PathsDistinct(node, ArtifactNames(install)) {
      VouchedHasAll(t, node, d.build.artifacts, mid.target.files);
    }
  }

  // ---- launched on a mixed set --------------------------------------------

  /** Nothing that is live before has the digest of its new version already. */
  ghost predicate AllNews(t: Toolchain, node: Node, arts: seq<Artifact>, files: map<string, Bytes>) {
    forall a | a in arts :: !IsLive(t, node, a, files)
  }

  /** Some artifacts of the set are live, others that have a place are not. */
  ghost predicate Mixed(t: Toolchain, node: Node, arts: seq<Artifact>, files: map<string, Bytes>) {
    && (exists a | a in arts :: IsLive(t, node, a, files))
    && (exists a | a in arts && DestFor(node, a.key.name).Some? :: !IsLive(t, node, a, files))
  }

  /** Since entry n the service was brought up on a mixed set. */
  ghost predicate LaunchedMixed(trace: seq<Entry>, n: nat, t: Toolchain, node: Node, arts: seq<Artifact>) {
    exists i | n <= i < |trace| && Launches(trace[i].cmd) :: Mixed(t, node, arts, trace[i].after.target.files)
  }

  /** A set in step is mixed exactly when the swap broke off in between. */
  lemma MixedIff(t: Toolchain, node: Node, arts: seq<Artifact>, was: Target, now: Target, moved: nat)
    requires Lockstep(t, node, arts, was, now, moved) && AllNews(t, node, arts, was.files)
    ensures Mixed(t, node, arts, now.files) <==> 0 < moved < |SwapsFor(node, NamesIn(arts))|
  {
    var n := |SwapsFor(node, NamesIn(arts))|;
    PlacesAreSwaps(node, arts, |arts|);
    assert NamesIn(arts)[..|arts|] == NamesIn(arts);
    forall k | 0 <= k < |arts| && DestFor(node, arts[k].key.name).Some?
      ensures IsLive(t, node, arts[k], now.files) <==> PlacesBefore(node, arts, k) < moved
      ensures PlacesBefore(node, arts, k) < n
    {
      assert InStep(t, node, arts, was, now, moved, k);
      assert !IsLive(t, node, arts[k], was.files);
      SwapOfPlace(node, arts, k);
    }
    if 0 < moved < n {
      var first := PlaceOfSwap(node, arts, |arts|, 0);
      var last := PlaceOfSwap(node, arts, |arts|, moved);
      assert arts[first] in arts && arts[last] in arts;
    }
  }

  lemma LiveLaunchesMixedIff(t: Toolchain, trace: seq<Entry>, n: nat, was: Target, now: Target, node: Node,
                             arts: seq<Artifact>, moved: nat)
    requires Live(t, trace, n, was, now, node, arts, moved) && LaunchedWith(trace, n, now.files)
    requires PathsDistinct(node, NamesIn(arts)) && AllNews(t, node, arts, was.files)
    ensures LaunchedMixed(trace, n, t, node, arts) <==> 0 < moved < |SwapsFor(node, NamesIn(arts))|
  {
    MixedIff(t, node, arts, was, now, moved);
  }

  /** The whole deployment: the service is brought up on a mixed set exactly when the
      swap broke off between its first and its last move. */
  lemma DeployLaunchesMixedIff(t: Toolchain, trace: seq<Entry>, n: nat, was: Target, now: World, node: Node,
                               install: Install, version: string, minIdle: int, d: Deployment, setup: seq<Command>,
                               moves: seq<Command>, moved: nat)
    requires DeployKept(t, trace, n, was, now, node, install, version, minIdle, d, setup, moves, moved)
    requires PathsDistinct(node, NamesIn(d.build.artifacts)) && AllNews(t, node, d.build.artifacts, was.files)
    ensures LaunchedMixed(trace, n, t, node, d.build.artifacts)
       <==> d.Deployed? && 0 < moved < |SwapsFor(node, NamesIn(d.build.artifacts))|
  {
    if d.Deployed? {
      LiveLaunchesMixedIff(t, trace, n, was, now.target, node, d.build.artifacts, moved);
    } else {
      PrepLaunchesNothing(trace, n, setup);
    }
  }

  lemma PrepLaunchesNothing(trace: seq<Entry>, n: nat, acts: seq<Command>)
    requires Acts(trace, n) == acts && NoLaunch(acts)
    ensures forall i | n <= i < |trace| :: !Launches(trace[i].cmd)
  {
    forall i | n <= i < |trace| ensures !Launches(trace[i].cmd) {
      if Launches(trace[i].cmd) {
        EntryInActs(trace, n, i);
      }
    }
  }

  /** The agave binaries alone are three files: whatever is installed on distinct paths
      and is all new, some outcomes leave it partly replaced. */
  lemma AgaveSetIsNotAtomic(node: Node, install: Install, files: map<string, Bytes>)
    requires ConfiguredPathsApart(node, install) && AllDiffer(files, SwapsFor(node, ArtifactNames(install)))
    ensures var swaps := SwapsFor(node, ArtifactNames(install));
      exists oracle, tick :: !AllOrNothing(files, AfterChain(files, swaps, oracle, tick), swaps)
  {
    var names := ArtifactNames(install);
    assert names[..3] == AGAVE_BINS;
    SwapsForAll(node, AGAVE_BINS);
    SwapsForPrefix(node, names, 3);
    PathsDistinctIff(node, install);
    SwapsForDistinct(node, names);
    SwapIsAtomicIff(files, SwapsFor(node, names));
  }

  /** And any set of two or more staged files can get there: one move lost, everything
      else well, and the service is brought up with exactly the first file replaced. */
  method LaunchMixed(tools: Toolchain, start: World, node: Node, swaps: seq<Swap>, version: string, minIdle: int)
    returns (r: Runner, c: Cycle)
    requires |swaps| >= 2 && SwapsDistinct(swaps) && AllStaged(start.target.files, swaps)
    ensures !c.swapOk && Replaced(start, r.world, node, swaps, 1)
    ensures LaunchedWith(r.trace, 0, r.world.target.files)
  {
    DistinctHasAll(start.target.files, swaps);
    EveryStopOccurs(swaps, Has(start.target.files, swaps), 1, SwapTick(node, 0));
    r := new Runner(tools, LoseMove(swaps, Has(start.target.files, swaps), 1, SwapTick(node, 0)), start);
    ghost var moved, moves;
    c, moved, moves := CycleNode(r, node, swaps, version, minIdle);
  }

  // ---- upgrades -----------------------------------------------------------

  /** `lstrip("v")` */
  function StripV(s: string): string {
    if s != "" && s[0] == 'v' then StripV(s[1..]) else s
  }

  predicate VersionMatches(reported: Option<string>, version: string) {
    Truthy(reported) && StripV(version) <= StripV(reported.value)
  }

  function UpgradeChecks(rules: PolicyRules, install: Option<Install>, builder: Option<string>, node: Node,
                         version: string): seq<Check>
  {
    [Check(rules.versionAllowed(version), VersionNotAllowed),
     Check(install.Some? && install.value.builder.Some?, NoBuilder),
     Check(builder.Some?, BuilderNotFound),
     Check(!(install.Some? && BuildsGeyser(install.value)) || node.service.geyserLib.Some?, NoPluginPath)]
  }

  function HostChecks(rules: PolicyRules, ins: Inspection): seq<Check> {
    [Check(ins.svcOk, Unreachable),
     Check(DiskFreeOk(rules.minDiskFreePct, ins.pcts), DiskLow)]
  }

  function BuilderOf(f: Fleet, install: Option<Install>): Option<string> {
    if install.Some? then FindBuilder(f, install.value.builder) else None
  }

  function PlanChecks(f: Fleet, found: Found, version: string, policy: Policy): seq<Check> {
    var install := found.cluster.install;
    UpgradeChecks(ForCluster(policy, found.clusterName), install, BuilderOf(f, install), found.node, version)
  }

  function UpgradeDecision(f: Fleet, found: Found, version: string, confirm: bool, policy: Policy,
                           ins: Inspection): Decision
  {
    Gate(confirm, PlanChecks(f, found, version, policy) + HostChecks(ForCluster(policy, found.clusterName), ins))
  }

  /** The dry-run plan: None for an unknown node. */
  function PlanUpgrade(f: Fleet, name: string, version: string, policy: Policy): Option<Decision> {
    match FindNode(f.clusters, name)
    case None => None
    case Some(found) => Some(Gate(false, PlanChecks(f, found, version, policy)))
  }

  /** The version is on the list, a known builder is configured, and a plugin that is
      built has a place. */
  ghost predicate MayPlan(f: Fleet, found: Found, version: string, rules: PolicyRules) {
    rules.versionAllowed(version) && KnowsBuilder(f, found.cluster) && PluginHasPath(found)
  }

  ghost predicate KnowsBuilder(f: Fleet, cluster: Cluster) {
    && cluster.install.Some? && cluster.install.value.builder.Some?
    && cluster.install.value.builder.value != "" && cluster.install.value.builder.value in f.builders
  }

  ghost predicate PluginHasPath(found: Found) {
    var install := found.cluster.install;
    install.Some? && install.value.geyserRepo.Some? && install.value.geyserRepo.value != "" ==>
      found.node.service.geyserLib.Some?
  }

  /** A cluster's own rules win over the defaults. */
  ghost predicate RulesOf(policy: Policy, cluster: string, rules: PolicyRules) {
    rules == if cluster in policy.clusters then policy.clusters[cluster] else policy.defaults
  }

  /** The dry-run plan for a known node allows exactly what the fleet and the policy do. */
  lemma PlanAllowedIff(f: Fleet, name: string, version: string, policy: Policy, rules: PolicyRules)
    requires FindNode(f.clusters, name).Some?
    requires RulesOf(policy, FindNode(f.clusters, name).value.clusterName, rules)
    ensures PlanUpgrade(f, name, version, policy).Some?
    ensures PlanUpgrade(f, name, version, policy).value.allowed <==>
      MayPlan(f, FindNode(f.clusters, name).value, version, rules)
    ensures InMode(PlanUpgrade(f, name, version, policy).value, false)
  {
    PlanChecksIff(f, FindNode(f.clusters, name).value, version, policy);
  }

  lemma PlanChecksIff(f: Fleet, found: Found, version: string, policy: Policy)
    ensures Gate(false, PlanChecks(f, found, version, policy)).allowed <==>
      MayPlan(f, found, version, ForCluster(policy, found.clusterName))
  {
    var plan := PlanChecks(f, found, version, policy);
    GateTruthful(false, plan);
    assert plan[0] in plan && plan[1] in plan && plan[2] in plan && plan[3] in plan;
  }

  /** Each reason is given exactly when what it names is the case. */
  lemma UpgradeReasons(f: Fleet, found: Found, version: string, confirm: bool, policy: Policy, rules: PolicyRules,
                       ins: Inspection)
    requires RulesOf(policy, found.clusterName, rules)
    ensures var reasons, install := UpgradeDecision(f, found, version, confirm, policy,
                                                    ins).reasons, found.cluster.install;
      && (VersionNotAllowed in reasons <==> !rules.versionAllowed(version))
      && (NoBuilder in reasons <==> install.None? || install.value.builder.None?)
      && (BuilderNotFound in reasons <==> !KnowsBuilder(f, found.cluster))
      && (NoPluginPath in reasons <==> !PluginHasPath(found))
      && (Unreachable in reasons <==> !ins.svcOk)
      && (DiskLow in reasons <==> !DiskFreeOk(rules.minDiskFreePct, ins.pcts))
  {
    var checks := PlanChecks(f, found, version, policy) + HostChecks(ForCluster(policy, found.clusterName), ins);
    ReasonAt(confirm, checks, 0);
    ReasonAt(confirm, checks, 1);
    ReasonAt(confirm, checks, 2);
    ReasonAt(confirm, checks, 3);
    ReasonAt(confirm, checks, 4);
    ReasonAt(confirm, checks, 5);
  }

  /** An upgrade is allowed exactly when the dry-run plan is, the unit answered, and
      the disk floor lets it pass. */
  lemma UpgradeAllowedIff(f: Fleet, found: Found, version: string, policy: Policy, rules: PolicyRules, confirm: bool,
                          trace: seq<Entry>, n: nat)
    requires n + LookLength(found.node) <= |trace| && RulesOf(policy, found.clusterName, rules)
    ensures InMode(UpgradeDecision(f, found, version, confirm, policy, Looked(trace, n, found.node)), confirm)
    ensures var df := trace[n + LookLength(found.node) - 1].result;
      (UpgradeDecision(f, found, version, confirm, policy, Looked(trace, n, found.node)).allowed <==>
        && MayPlan(f, found, version, rules)
        && trace[n].result.exitCode == 0
        && (rules.minDiskFreePct.None? || df.exitCode != 0 || !PrintsOver(df, rules.minDiskFreePct.value)))
  {
    PlanChecksIff(f, found, version, policy);
    var ins := Looked(trace, n, found.node);
    var plan, host := PlanChecks(f, found, version, policy), HostChecks(ForCluster(policy, found.clusterName), ins);
    FloorPassesIff(ForCluster(policy, found.clusterName).minDiskFreePct, trace[n + LookLength(found.node) - 1].result);
    GateTruthful(confirm, plan + host);
    GateTruthful(false, plan);
    assert host[0] in plan + host && host[1] in plan + host;
    assert forall c | c in plan + host :: c in plan || c == host[0] || c == host[1];
    assert forall c | c in plan :: c in plan + host;
  }

  /** The same for a restart, which also wants the unit active. */
  /** The last word that starts with the key is the key and this value. */
  ghost predicate LastWord(words: seq<string>, key: string, value: string) {
    exists i | 0 <= i < |words| :: words[i] == key + value && forall j | i < j < |words| :: !(key <= words[j])
  }

  lemma RestartAllowedIff(policy: Policy, cluster: string, rules: PolicyRules, confirm: bool, trace: seq<Entry>, n: nat,
                          node: Node)
    requires n + LookLength(node) <= |trace| && RulesOf(policy, cluster, rules)
    ensures InMode(RestartDecision(ForCluster(policy, cluster), confirm, Looked(trace, n, node)), confirm)
    ensures var df := trace[n + LookLength(node) - 1].result;
      (RestartDecision(ForCluster(policy, cluster), confirm, Looked(trace, n, node)).allowed <==>
        && trace[n].result.exitCode == 0 && LastWord(trace[n].result.words, "ActiveState=", "active")
        && (rules.minDiskFreePct.None? || df.exitCode != 0 || !PrintsOver(df, rules.minDiskFreePct.value)))
  {
    var checks := RestartChecks(ForCluster(policy, cluster), Looked(trace, n, node));
    ValueIs(trace[n].result.words, "ActiveState=", "active");
    FloorPassesIff(rules.minDiskFreePct, trace[n + LookLength(node) - 1].result);
    GateTruthful(confirm, checks);
    assert checks[0] in checks && checks[1] in checks && checks[2] in checks;
  }

  /** Past the gate there is a configured builder, the version is allowed and every
      artifact has a place on the node. */
  lemma AllowedUpgrade(f: Fleet, name: string, version: string, policy: Policy, confirm: bool, ins: Inspection)
    requires FindNode(f.clusters, name).Some?
    requires var found := FindNode(f.clusters, name).value;
      UpgradeDecision(f, found, version, confirm, policy, ins).allowed
    ensures PlanUpgrade(f, name, version, policy).value.allowed
    ensures var found := FindNode(f.clusters, name).value;
      && ins.svcOk
      && ForCluster(policy, found.clusterName).versionAllowed(version)
      && found.cluster.install.Some? && BuilderOf(f, found.cluster.install).Some?
      && AllPlaced(found.node, ArtifactNames(found.cluster.install.value))
  {
    var found := FindNode(f.clusters, name).value;
    var plan := PlanChecks(f, found, version, policy);
    var host := HostChecks(ForCluster(policy, found.clusterName), ins);
    MoreChecksNarrow(confirm, plan, host);
    GateTruthful(!confirm, plan);
    GateTruthful(confirm, plan + host);
    assert plan[0] in plan && plan[1] in plan && plan[2] in plan && plan[3] in plan;
    assert host[0] in plan + host;
    AllPlacedWhenRoom(found.node, found.cluster.install.value);
  }

  lemma AllPlacedWhenRoom(node: Node, install: Install)
    requires !BuildsGeyser(install) || node.service.geyserLib.Some?
    ensures AllPlaced(node, ArtifactNames(install))
  {}

  datatype UpgradeResult =
    | NoSuchNode
    | Held(decision: Decision)
    | Abandoned(d: Deployment)
    | Ran(d: Deployment, wait: Wait, reported: Option<string>, versionOk: bool, succeeded: bool)

  /** Past its leading v's the reported text begins with the version past its own. */
  ghost predicate ReportsVersion(reported: string, version: string) {
    exists i, j :: PastVs(version, i) && PastVs(reported, j) && version[i..] <= reported[j..]
  }

  /** Everything before position i is a `v`, and what comes there is not. */
  ghost predicate PastVs(s: string, i: int) {
    && 0 <= i <= |s|
    && (forall k | 0 <= k < i :: s[k] == 'v')
    && (i < |s| ==> s[i] != 'v')
  }

  lemma PastVsUnique(s: string, i: int, j: int)
    requires PastVs(s, i) && PastVs(s, j)
    ensures i == j
  {}

  lemma {:induction false} StripVIs(s: string) returns (i: nat)
    ensures PastVs(s, i) && StripV(s) == s[i..]
  {
    i := 0;
    if s != "" && s[0] == 'v' {
      i := StripVIs(s[1..]);
      i := i + 1;
    }
  }

  lemma VersionMatchesIff(reported: Option<string>, version: string)
    ensures VersionMatches(reported, version) <==>
      reported.Some? && reported.value != "" && ReportsVersion(reported.value, version)
  {
    if reported.Some? {
      var i := StripVIs(version);
      var j := StripVIs(reported.value);
      if ReportsVersion(reported.value, version) {
        var k, l :| PastVs(version, k) && PastVs(reported.value, l) && version[k..] <= reported.value[l..];
        PastVsUnique(version, i, k);
        PastVsUnique(reported.value, j, l);
      }
    }
  }

  /** What the verdict of an executed upgrade rests on: the swap, the cycle, the
      catch-up wait and the version the last look reports. */
  ghost predicate Judged(trace: seq<Entry>, node: Node, version: string, polls: Polls, res: UpgradeResult) {
    res.Ran? ==>
      && res.d.Deployed?
      && Waited(res.wait, polls.sampler, polls.maxLag, 600, 5)
      && LookLength(node) <= |trace| && IsLook(trace, |trace| - LookLength(node), node)
      && var answer := trace[|trace| - LookLength(node) + 1].result;
      && res.reported == (if answer.exitCode == 0 && |answer.words| >= 2 then Some(answer.words[1]) else None)
      && (res.versionOk <==>
            res.reported.Some? && res.reported.value != "" && ReportsVersion(res.reported.value, version))
      && (res.succeeded <==> res.d.cycle.swapOk && res.d.cycle.cycleOk && res.wait.caughtUp && res.versionOk)
  }

  lemma QuietThenLive(t1: seq<Entry>, trace: seq<Entry>, n: nat, w: World, t: Toolchain, now: Target, node: Node,
                      arts: seq<Artifact>, moved: nat)
    requires n <= |t1| && t1 <= trace && Quiet(t1, n, w)
    requires Live(t, trace, |t1|, w.target, now, node, arts, moved)
    ensures Live(t, trace, n, w.target, now, node, arts, moved)
  {}

  lemma LiveThenQuiet(t1: seq<Entry>, trace: seq<Entry>, n: nat, w: World, t: Toolchain, was: Target, node: Node,
                      arts: seq<Artifact>, moved: nat)
    requires n <= |t1| && t1 <= trace && Quiet(trace, |t1|, w)
    requires Live(t, t1, n, was, w.target, node, arts, moved)
    ensures Live(t, trace, n, was, w.target, node, arts, moved)
  {}

  lemma QuietThenStaged(t1: seq<Entry>, trace: seq<Entry>, n: nat, w: World, node: Node, names: seq<string>)
    requires n <= |t1| && t1 <= trace && Quiet(t1, n, w)
    requires AlwaysStagedOnly(trace, |t1|, w.target, node, names)
    ensures AlwaysStagedOnly(trace, n, w.target, node, names)
  {}

  /** The artifact is live with the digest its builder recorded. */
  ghost predicate IsLive(t: Toolchain, node: Node, a: Artifact, files: map<string, Bytes>) {
    var dest := DestFor(node, a.key.name);
    dest.Some? && dest.value in files && a.sha == Some(t.sha(files[dest.value]))
  }

  /** Every artifact that has a place on the node is live with its recorded digest. */
  ghost predicate PlacedAreLive(t: Toolchain, node: Node, arts: seq<Artifact>, files: map<string, Bytes>) {
    forall a | a in arts && DestFor(node, a.key.name).Some? :: IsLive(t, node, a, files)
  }

  /** Every artifact is live with the digest its builder recorded. */
  ghost predicate Installed(t: Toolchain, node: Node, arts: seq<Artifact>, files: map<string, Bytes>) {
    forall a | a in arts :: IsLive(t, node, a, files)
  }

  /** A swap in step that got to its end has installed whatever has a place. */
  lemma CompleteSwapInstalls(t: Toolchain, node: Node, arts: seq<Artifact>, was: Target, now: Target)
    requires Lockstep(t, node, arts, was, now, |SwapsFor(node, NamesIn(arts))|)
    ensures PlacedAreLive(t, node, arts, now.files)
    ensures AllPlaced(node, NamesIn(arts)) ==> Installed(t, node, arts, now.files)
  {
    forall a | a in arts && DestFor(node, a.key.name).Some? ensures IsLive(t, node, a, now.files) {
      var k :| 0 <= k < |arts| && arts[k] == a;
      SwapOfPlace(node, arts, k);
      assert InStep(t, node, arts, was, now, |SwapsFor(node, NamesIn(arts))|, k);
    }
    if AllPlaced(node, NamesIn(arts)) {
      forall a | a in arts ensures DestFor(node, a.key.name).Some? {
        var k :| 0 <= k < |arts| && arts[k] == a;
        assert NamesIn(arts)[k] in NamesIn(arts);
      }
    }
  }

  /** From a sound cache the live digests are those of a fresh build. */
  lemma InstalledIsFresh(t: Toolchain, node: Node, install: Install, version: string, b: BuildHost,
                         finished: set<string>, build: BuildResult, entries: seq<Placed>, files: map<string, Bytes>,
                         name: string)
    requires Prepared(t, node, install, version, b, build, entries) && Sound(t, install, b, finished)
    requires Installed(t, node, build.artifacts, files) && name in ArtifactNames(install)
    ensures DestFor(node, name).Some? && DestFor(node, name).value in files
    ensures t.sha(files[DestFor(node, name).value]) == t.sha(Fresh(t, install, CacheKey(version, name)))
  {
    var k :| 0 <= k < |ArtifactNames(install)| && ArtifactNames(install)[k] == name;
    var a := build.artifacts[k];
    assert NamesIn(build.artifacts)[k] == a.key.name && a in build.artifacts;
    assert IsLive(t, node, a, files);
  }

  /** Looking at the node afterwards changes nothing of what the deployment established. */
  lemma LookAfterDeploy(t: Toolchain, t1: seq<Entry>, t2: seq<Entry>, n: nat, was: Target, now: World, node: Node,
                        install: Install, version: string, minIdle: int, d: Deployment, setup: seq<Command>,
                        moves: seq<Command>, moved: nat)
    requires n <= |t1| && t1 <= t2 && Quiet(t2, |t1|, now) && d.Deployed?
    requires DeployKept(t, t1, n, was, now, node, install, version, minIdle, d, setup, moves, moved)
    ensures DeployKept(t, t2, n, was, now, node, install, version, minIdle, d, setup, moves, moved)
  {
    QuietHasNoActs(t2, |t1|, now);
    ActsSplit(t1, t2, n);
    CycleToldEarly(t1, t2, n, SwapsFor(node, NamesIn(d.build.artifacts)), moves, d.cycle);
    LaunchedThenQuiet(t1, t2, n, now.target.files, now);
    LiveThenQuiet(t1, t2, n, now, t, was, node, d.build.artifacts, moved);
  }

  lemma DeployToldLater(t1: seq<Entry>, t2: seq<Entry>, n: nat, node: Node, install: Install, version: string,
                        force: bool, d: Deployment)
    requires t1 <= t2 && DeployTold(t1, n, node, install, version, force, d)
    ensures DeployTold(t2, n, node, install, version, force, d)
  {
    PrepareToldLater(t1, t2, n, node, install, version, force, d.build, EntriesOf(d));
  }

  /** The executed part: deployment, catch-up wait, final look. */
  method Upgrade(r: Runner, node: Node, install: Install, version: string, force: bool, minIdle: int,
                 polls: Polls)
    returns (res: UpgradeResult, ghost setup: seq<Command>, ghost moves: seq<Command>, ghost moved: nat)
    modifies r
    ensures old(r.trace) <= r.trace
    ensures if res.Ran? then res.d.Deployed? else res.Abandoned? && !res.d.Deployed?
    ensures DeployKept(r.tools, r.trace, |old(r.trace)|, old(r.world.target), r.world, node, install, version, minIdle,
                       res.d, setup, moves, moved)
    ensures DeployTold(r.trace, |old(r.trace)|, node, install, version, force, res.d)
    ensures SoundDeploy(r.tools, node, install, version, AllSmooth(r), old(r.world.build), r.world.build, res.d)
    ensures Judged(r.trace, node, version, polls, res)
  {
    var d;
    d, setup, moves, moved := Deploy(r, node, install, version, force, minIdle);
    if !d.Deployed? {
      res := Abandoned(d);
      return;
    }
    ghost var t1 := r.trace;
    res := Judge(r, node, version, polls, d);
    LookAfterDeploy(r.tools, t1, r.trace, |old(r.trace)|, old(r.world.target), r.world, node, install, version, minIdle,
                    d, setup, moves, moved);
    DeployToldLater(t1, r.trace, |old(r.trace)|, node, install, version, force, d);
  }

  /** The wait for catch-up and the last look. */
  method Judge(r: Runner, node: Node, version: string, polls: Polls, d: Deployment)
    returns (res: UpgradeResult)
    requires d.Deployed?
    modifies r
    ensures old(r.trace) <= r.trace && r.world == old(r.world) && Quiet(r.trace, |old(r.trace)|, r.world)
    ensures res.Ran? && res.d == d && Judged(r.trace, node, version, polls, res)
  {
    var wait := WaitForCatchup(polls.sampler, polls.maxLag, CATCHUP_TIMEOUT_S, CATCHUP_INTERVAL_S);
    var after := Inspect(r, node);
    var versionOk := VersionMatches(after.version, version);
    VersionMatchesIff(after.version, version);
    res := Ran(d, wait, after.version, versionOk,
               d.cycle.swapOk && d.cycle.cycleOk && wait.caughtUp && versionOk);
  }

  ghost function UpgradeRows(f: Fleet, name: string, res: UpgradeResult): seq<Row> {
    match FindNode(f.clusters, name)
    case None => []
    case Some(found) =>
      [GatedRow("upgrade", found.clusterName, name, if res.Held? then Some(res.decision) else None)]
  }

  lemma PreflightFirst(t: Toolchain, t1: seq<Entry>, trace: seq<Entry>, n: nat, was: World, now: World, node: Node,
                       install: Install, version: string, minIdle: int, d: Deployment, setup: seq<Command>,
                       moves: seq<Command>, moved: nat)
    requires n <= |t1| && t1 <= trace && Quiet(t1, n, was)
    requires DeployKept(t, trace, |t1|, was.target, now, node, install, version, minIdle, d, setup, moves, moved)
    ensures DeployKept(t, trace, n, was.target, now, node, install, version, minIdle, d, setup, moves, moved)
  {
    QuietFirst(t1, trace, n, was);
    if d.Deployed? {
      QuietThenLive(t1, trace, n, was, t, now.target, node, d.build.artifacts, moved);
      QuietHasNoActs(t1, n, was);
      LaunchedLast(t1, trace, n, now.target.files);
      CycleToldLate(t1, trace, n, SwapsFor(node, NamesIn(d.build.artifacts)), moves, d.cycle);
    } else {
      QuietThenStaged(t1, trace, n, was, node, NamesIn(d.build.artifacts));
    }
  }

  /** The file live for an artifact name has the digest of a fresh build. */
  ghost predicate IsFresh(t: Toolchain, node: Node, install: Install, version: string, files: map<string, Bytes>,
                          name: string)
  {
    && DestFor(node, name).Some? && DestFor(node, name).value in files
    && t.sha(files[DestFor(node, name).value]) == t.sha(Fresh(t, install, CacheKey(version, name)))
  }

  /** Every artifact name of the configuration is fresh. */
  ghost predicate AllFresh(t: Toolchain, node: Node, install: Install, version: string, files: map<string, Bytes>) {
    forall n | n in ArtifactNames(install) :: IsFresh(t, node, install, version, files, n)
  }

  /** What a completed swap amounts to, when the configured paths do not collide: the
      whole set installed, and from a sound cache everything as a fresh build has it. */
  ghost predicate SwapComplete(t: Toolchain, b: BuildHost, now: Target, node: Node, install: Install, version: string,
                               res: UpgradeResult)
  {
    res.Ran? && res.d.Deployed? && res.d.cycle.swapOk && ConfiguredPathsApart(node, install) ==>
      && Installed(t, node, res.d.build.artifacts, now.files)
      && (CacheSound(t, install, b) ==> AllFresh(t, node, install, version, now.files))
  }

  lemma DeployedIsComplete(t: Toolchain, trace: seq<Entry>, n: nat, was: World, now: World, node: Node,
                           install: Install, version: string, minIdle: int, d: Deployment, setup: seq<Command>,
                           moves: seq<Command>, moved: nat)
    requires d.Deployed? && d.cycle.swapOk
    requires ConfiguredPathsApart(node, install) && AllPlaced(node, ArtifactNames(install))
    requires DeployKept(t, trace, n, was.target, now, node, install, version, minIdle, d, setup, moves, moved)
    requires forall finished | Sound(t, install, was.build, finished) ::
      Sound(t, install, now.build, finished + {version})
    ensures Installed(t, node, d.build.artifacts, now.target.files)
    ensures CacheSound(t, install, was.build) ==> AllFresh(t, node, install, version, now.target.files)
  {
    PathsDistinctIff(node, install);
    CompleteSwapInstalls(t, node, d.build.artifacts, was.target, now.target);
    if CacheSound(t, install, was.build) {
      var finished :| Sound(t, install, was.build, finished);
      forall n | n in ArtifactNames(install) ensures IsFresh(t, node, install, version, now.target.files, n) {
        InstalledIsFresh(t, node, install, version, now.build, finished + {version}, d.build, d.entries,
                         now.target.files, n);
      }
    }
  }

  /** The executed part again, with what its swap amounts to. */
  method UpgradeInstalled(r: Runner, node: Node, install: Install, version: string, force: bool, minIdle: int,
                          polls: Polls)
    returns (res: UpgradeResult, ghost setup: seq<Command>, ghost moves: seq<Command>, ghost moved: nat)
    requires AllPlaced(node, ArtifactNames(install))
    modifies r
    ensures old(r.trace) <= r.trace
    ensures if res.Ran? then res.d.Deployed? else res.Abandoned? && !res.d.Deployed?
    ensures DeployKept(r.tools, r.trace, |old(r.trace)|, old(r.world.target), r.world, node, install, version, minIdle,
                       res.d, setup, moves, moved)
    ensures DeployTold(r.trace, |old(r.trace)|, node, install, version, force, res.d)
    ensures SoundDeploy(r.tools, node, install, version, AllSmooth(r), old(r.world.build), r.world.build, res.d)
    ensures Judged(r.trace, node, version, polls, res)
    ensures SwapComplete(r.tools, old(r.world.build), r.world.target, node, install, version, res)
  {
    res, setup, moves, moved := Upgrade(r, node, install, version, force, minIdle, polls);
    if res.Ran? && res.d.cycle.swapOk && ConfiguredPathsApart(node, install) {
      DeployedIsComplete(r.tools, r.trace, |old(r.trace)|, old(r.world), r.world, node, install, version, minIdle,
                         res.d, setup, moves, moved);
    }
  }

  /** Whether the call went past the gate: what the preflight saw decides, and
      nothing it lets through would the dry-run plan have stopped. */
  ghost predicate UpgradeGated(trace: seq<Entry>, n: nat, f: Fleet, found: Found, version: string, confirm: bool,
                               policy: Policy, res: UpgradeResult)
  {
    && !res.NoSuchNode?
    && IsLook(trace, n, found.node)
    && var decision := UpgradeDecision(f, found, version, confirm, policy, Looked(trace, n, found.node));
    && (res.Held? <==> !confirm || !decision.allowed)
    && (res.Held? ==> res.decision == decision)
    && (!res.Held? ==> Gate(false, PlanChecks(f, found, version, policy)).allowed)
  }

  /** What a call that went past the gate guarantees, told from its first command on:
      abandoned or run, what is kept at every command; where and why it stopped; what
      a complete swap amounts to; what the verdict rests on. */
  ghost predicate UpgradeDone(t: Toolchain, trace: seq<Entry>, n: nat, was: World, now: World, found: Found,
                              version: string, force: bool, rules: PolicyRules, polls: Polls,
                              res: UpgradeResult, setup: seq<Command>, moves: seq<Command>, moved: nat)
  {
    && found.cluster.install.Some?
    && var node, install := found.node, found.cluster.install.value;
    && AllPlaced(node, ArtifactNames(install))
    && (if res.Ran? then res.d.Deployed? else res.Abandoned? && !res.d.Deployed?)
    && DeployKept(t, trace, n, was.target, now, node, install, version, rules.requireLeaderWindowMinutes,
                  res.d, setup, moves, moved)
    && DeployTold(trace, n + LookLength(node), node, install, version, force, res.d)
    && (CacheSound(t, install, was.build) ==> CacheSound(t, install, now.build))
    && SwapComplete(t, was.build, now.target, node, install, version, res)
    && Judged(trace, node, version, polls, res)
  }

  /** Carried out: swapped and cycled, the marker written, the service up, and every
      artifact of the configuration live as a fresh build has it. */
  ghost predicate CarriedOut(t: Toolchain, now: Target, node: Node, install: Install, version: string,
                             res: UpgradeResult)
  {
    && res.Ran? && res.d.Deployed? && CycleGood(res.d.cycle)
    && Installed(t, node, res.d.build.artifacts, now.files)
    && AllFresh(t, node, install, version, now.files)
    && (node.service.versionMarker.Some? && node.service.versionMarker.value != "" ==> MarkedAs(node, version, now))
    && now.active
  }

  /** What an allowed upgrade can rely on when nothing goes wrong on the way. */
  ghost predicate Assured(t: Toolchain, b: BuildHost, found: Found) {
    && found.cluster.install.Some?
    && CacheSound(t, found.cluster.install.value, b)
    && ConfiguredPathsApart(found.node, found.cluster.install.value)
  }

  /** What a call for a known node guarantees: gated as the preflight saw it; held back,
      reads only and nothing changed; otherwise done as above, and from a sound cache
      with nothing going wrong carried out. */
  ghost predicate UpgradeCall(t: Toolchain, trace: seq<Entry>, n: nat, was: World, now: World, f: Fleet, found: Found,
                              version: string, confirm: bool, policy: Policy, polls: Polls, force: bool,
                              smooth: bool, res: UpgradeResult, setup: seq<Command>, moves: seq<Command>, moved: nat)
  {
    && UpgradeGated(trace, n, f, found, version, confirm, policy, res)
    && (res.Held? ==> now == was && Quiet(trace, n, was))
    && (!res.Held? ==>
          UpgradeDone(t, trace, n, was, now, found, version, force, ForCluster(policy, found.clusterName), polls,
                      res, setup, moves, moved))
    && (!res.Held? && smooth && Assured(t, was.build, found) ==>
          CarriedOut(t, now.target, found.node, found.cluster.install.value, version, res))
  }

  method GatedUpgrade(f: Fleet, found: Found, r: Runner, name: string, version: string, confirm: bool, policy: Policy,
                      polls: Polls, force: bool)
    returns (res: UpgradeResult, ghost setup: seq<Command>, ghost moves: seq<Command>, ghost moved: nat)
    requires FindNode(f.clusters, name) == Some(found)
    modifies r
    ensures old(r.trace) <= r.trace && !res.NoSuchNode?
    ensures UpgradeCall(r.tools, r.trace, |old(r.trace)|, old(r.world), r.world, f, found, version, confirm, policy,
                        polls, force, AllSmooth(r), res, setup, moves, moved)
  {
    setup, moves, moved := [], [], 0;
    var before := Inspect(r, found.node);
    var decision := UpgradeDecision(f, found, version, confirm, policy, before);
    if !confirm || !decision.allowed {
      res := Held(decision);
      HeldIsCall(r.tools, r.trace, |old(r.trace)|, r.world, f, found, version, confirm, policy, polls, force,
                 AllSmooth(r), decision);
    } else {
      res, setup, moves, moved :=
        UpgradeConfirmed(f, found, r, name, version, confirm, policy, polls, force, |old(r.trace)|);
    }
  }

  method NoteUpgrade(f: Fleet, found: Found, name: string, res: UpgradeResult, audit: AuditLog?)
    requires FindNode(f.clusters, name) == Some(found)
    modifies audit
    ensures audit != null ==> audit.rows == old(audit.rows) + UpgradeRows(f, name, res)
  {
    RecordGated(audit, "upgrade", found.clusterName, name, if res.Held? then Some(res.decision) else None);
  }

  /** The confirmed and allowed call, told from the preflight at entry n on. */
  method UpgradeConfirmed(f: Fleet, found: Found, r: Runner, name: string, version: string, confirm: bool,
                          policy: Policy, polls: Polls, force: bool, ghost n: nat)
    returns (res: UpgradeResult, ghost setup: seq<Command>, ghost moves: seq<Command>, ghost moved: nat)
    requires |r.trace| == n + LookLength(found.node) && Quiet(r.trace, n, r.world) && IsLook(r.trace, n, found.node)
    requires confirm && UpgradeDecision(f, found, version, confirm, policy, Looked(r.trace, n, found.node)).allowed
    requires FindNode(f.clusters, name) == Some(found)
    modifies r
    ensures old(r.trace) <= r.trace && !res.NoSuchNode? && !res.Held?
    ensures UpgradeCall(r.tools, r.trace, n, old(r.world), r.world, f, found, version, confirm, policy, polls, force,
                        AllSmooth(r), res, setup, moves, moved)
  {
    ghost var looked, was := r.trace, r.world;
    AllowedUpgrade(f, name, version, policy, confirm, Looked(r.trace, n, found.node));
    res, setup, moves, moved := UpgradeAllowed(found, r, version, ForCluster(policy, found.clusterName), polls, force,
                                               n);
    LookLater(looked, r.trace, n, found.node);
    DoneIsCall(r.tools, r.trace, n, was, r.world, f, found, version, confirm, policy, polls, force, AllSmooth(r), res,
               setup, moves, moved);
  }

  lemma HeldIsCall(t: Toolchain, trace: seq<Entry>, n: nat, w: World, f: Fleet, found: Found, version: string,
                   confirm: bool, policy: Policy, polls: Polls, force: bool, smooth: bool, decision: Decision)
    requires IsLook(trace, n, found.node) && Quiet(trace, n, w)
    requires decision == UpgradeDecision(f, found, version, confirm, policy, Looked(trace, n, found.node))
    requires !confirm || !decision.allowed
    ensures UpgradeCall(t, trace, n, w, w, f, found, version, confirm, policy, polls, force, smooth, Held(decision),
                        [], [], 0)
  {}

  lemma DoneIsCall(t: Toolchain, trace: seq<Entry>, n: nat, was: World, now: World, f: Fleet, found: Found,
                   version: string, confirm: bool, policy: Policy, polls: Polls, force: bool, smooth: bool,
                   res: UpgradeResult, setup: seq<Command>, moves: seq<Command>, moved: nat)
    requires confirm && IsLook(trace, n, found.node)
    requires UpgradeDecision(f, found, version, confirm, policy, Looked(trace, n, found.node)).allowed
    requires Gate(false, PlanChecks(f, found, version, policy)).allowed
    requires UpgradeDone(t, trace, n, was, now, found, version, force, ForCluster(policy, found.clusterName), polls,
                         res, setup, moves, moved)
    requires smooth && Assured(t, was.build, found) ==>
      CarriedOut(t, now.target, found.node, found.cluster.install.value, version, res)
    ensures UpgradeCall(t, trace, n, was, now, f, found, version, confirm, policy, polls, force, smooth, res, setup,
                        moves, moved)
  {}

  /** The run past the gate, told from the preflight at entry n on. */
  method UpgradeAllowed(found: Found, r: Runner, version: string, rules: PolicyRules, polls: Polls,
                        force: bool, ghost n: nat)
    returns (res: UpgradeResult, ghost setup: seq<Command>, ghost moves: seq<Command>, ghost moved: nat)
    requires |r.trace| == n + LookLength(found.node) && Quiet(r.trace, n, r.world)
    requires found.cluster.install.Some? && AllPlaced(found.node, ArtifactNames(found.cluster.install.value))
    modifies r
    ensures old(r.trace) <= r.trace
    ensures UpgradeDone(r.tools, r.trace, n, old(r.world), r.world, found, version, force, rules, polls, res, setup,
                        moves, moved)
    ensures AllSmooth(r) && Assured(r.tools, old(r.world.build), found) ==>
      CarriedOut(r.tools, r.world.target, found.node, found.cluster.install.value, version, res)
  {
    ghost var t1, w1 := r.trace, r.world;
    res, setup, moves, moved := UpgradeInstalled(r, found.node, found.cluster.install.value, version, force,
                                                 rules.requireLeaderWindowMinutes, polls);
    DeployKeepsCache(r.tools, found.node, found.cluster.install.value, version, AllSmooth(r), w1.build, r.world.build,
                     res.d);
    UpgradeIsDone(r.tools, t1, r.trace, n, w1, r.world, found, version, force, rules, polls, res, setup, moves,
                  moved);
    if AllSmooth(r) && Assured(r.tools, w1.build, found) {
      AssuredIsCarriedOut(r.tools, r.trace, |t1|, w1, r.world, found.node, found.cluster.install.value, version,
                          rules.requireLeaderWindowMinutes, res, setup, moves, moved);
    }
  }

  lemma DeployKeepsCache(t: Toolchain, node: Node, install: Install, version: string, smooth: bool, was: BuildHost,
                         now: BuildHost, d: Deployment)
    requires SoundDeploy(t, node, install, version, smooth, was, now, d)
    ensures CacheSound(t, install, was) ==> CacheSound(t, install, now)
  {
    if CacheSound(t, install, was) {
      var finished :| Sound(t, install, was, finished);
      assert Sound(t, install, now, finished + {version});
    }
  }

  lemma UpgradeIsDone(t: Toolchain, t1: seq<Entry>, trace: seq<Entry>, n: nat, was: World, now: World, found: Found,
                      version: string, force: bool, rules: PolicyRules, polls: Polls,
                      res: UpgradeResult, setup: seq<Command>, moves: seq<Command>, moved: nat)
    requires found.cluster.install.Some? && AllPlaced(found.node, ArtifactNames(found.cluster.install.value))
    requires |t1| == n + LookLength(found.node) && t1 <= trace && Quiet(t1, n, was)
    requires if res.Ran? then res.d.Deployed? else res.Abandoned? && !res.d.Deployed?
    requires DeployKept(t, trace, |t1|, was.target, now, found.node, found.cluster.install.value, version,
                        rules.requireLeaderWindowMinutes, res.d, setup, moves, moved)
    requires DeployTold(trace, |t1|, found.node, found.cluster.install.value, version, force, res.d)
    requires CacheSound(t, found.cluster.install.value, was.build) ==>
      CacheSound(t, found.cluster.install.value, now.build)
    requires SwapComplete(t, was.build, now.target, found.node, found.cluster.install.value, version, res)
    requires Judged(trace, found.node, version, polls, res)
    ensures UpgradeDone(t, trace, n, was, now, found, version, force, rules, polls, res, setup, moves, moved)
  {
    var node, install := found.node, found.cluster.install.value;
    PreflightFirst(t, t1, trace, n, was, now, node, install, version, rules.requireLeaderWindowMinutes, res.d, setup,
                   moves, moved);
    assert DeployTold(trace, n + LookLength(node), node, install, version, force, res.d);
  }

  lemma AssuredIsCarriedOut(t: Toolchain, trace: seq<Entry>, n: nat, was: World, now: World, node: Node,
                            install: Install, version: string, minIdle: int, res: UpgradeResult, setup: seq<Command>,
                            moves: seq<Command>, moved: nat)
    requires if res.Ran? then res.d.Deployed? else res.Abandoned? && !res.d.Deployed?
    requires DeployKept(t, trace, n, was.target, now, node, install, version, minIdle, res.d, setup, moves, moved)
    requires SoundDeploy(t, node, install, version, true, was.build, now.build, res.d)
    requires SwapComplete(t, was.build, now.target, node, install, version, res)
    requires CacheSound(t, install, was.build) && ConfiguredPathsApart(node, install)
    ensures CarriedOut(t, now.target, node, install, version, res)
  {
    PathsDistinctIff(node, install);
  }

  /** `execute_upgrade` */
  method ExecuteUpgrade(f: Fleet, r: Runner, name: string, version: string, confirm: bool, policy: Policy,
                        audit: AuditLog?, polls: Polls, force: bool)
    returns (res: UpgradeResult, ghost setup: seq<Command>, ghost moves: seq<Command>, ghost moved: nat)
    modifies r, audit
    ensures old(r.trace) <= r.trace
    ensures res.NoSuchNode? <==> FindNode(f.clusters, name).None?
    ensures res.NoSuchNode? ==> r.world == old(r.world) && r.trace == old(r.trace)
    ensures !res.NoSuchNode? ==>
      UpgradeCall(r.tools, r.trace, |old(r.trace)|, old(r.world), r.world, f, FindNode(f.clusters, name).value, version,
                  confirm, policy, polls, force, AllSmooth(r), res, setup, moves, moved)
    // one row on every path of a known node
    ensures audit != null ==> audit.rows == old(audit.rows) + UpgradeRows(f, name, res)
  {
    var found := FindNode(f.clusters, name);
    if found.None? {
      return NoSuchNode, [], [], 0;
    }
    res, setup, moves, moved := GatedUpgrade(f, found.value, r, name, version, confirm, policy, polls, force);
    NoteUpgrade(f, found.value, name, res, audit);
  }

  // ---- restarts -----------------------------------------------------------

  function RestartChecks(rules: PolicyRules, ins: Inspection): seq<Check> {
    [Check(ins.svcOk, Unreachable),
     Check(ins.active == Some("active"), NotActive),
     Check(DiskFreeOk(rules.minDiskFreePct, ins.pcts), DiskLow)]
  }

  datatype RestartResult =
    | NoNode
    | NotRun(decision: Decision)
    | Restarted(beforeSlot: Option<int>, cycleOk: bool, wait: Wait, succeeded: bool)

  /** A validator is never stopped or started, only asked to exit by itself. */
  function RestartActs(node: Node, minIdle: int): seq<Command> {
    if node.role == Validator then [SafeExit(minIdle)] else [Stop, Start]
  }

  /** Since entry n nothing but the service's own state has changed. */
  ghost predicate ServiceOnly(trace: seq<Entry>, n: nat, was: World) {
    forall i | n <= i < |trace| ::
      trace[i].after == was.(target := was.target.(active := trace[i].after.target.active))
  }

  method Restart(r: Runner, node: Node, minIdle: int) returns (ok: bool)
    modifies r
    ensures old(r.trace) <= r.trace && ServiceOnly(r.trace, |old(r.trace)|, old(r.world))
    ensures Acts(r.trace, |old(r.trace)|) == RestartActs(node, minIdle)
    ensures r.world == old(r.world).(target := old(r.world.target).(active := r.world.target.active))
    ensures ok ==> r.world.target.active
    ensures ok <==> AllOkOf(r.trace, |old(r.trace)|, Serving)
    ensures AllSmooth(r) ==> ok
  {
    if node.role == Validator {
      ok := ValidatorSafeExit(r, minIdle);
    } else {
      var stop := StopService(r);
      ghost var mid := r.trace;
      var start := StartService(r);
      StopThenStart(mid, r.trace, |old(r.trace)|);
      ok := stop && start;
    }
  }

  lemma StopThenStart(t1: seq<Entry>, t2: seq<Entry>, n: nat)
    requires n <= |t1| && t1 <= t2 && Acts(t1, n) == [Stop] && Acts(t2, |t1|) == [Start]
    ensures Acts(t2, n) == [Stop, Start]
    ensures AllOkOf(t2, n, Serving) <==> AllOkOf(t1, n, Serving) && AllOkOf(t2, |t1|, Serving)
  {
    ActsSplit(t1, t2, n);
    AllOkSplit(t1, t2, n, Serving);
  }

  ghost function RestartRows(f: Fleet, name: string, res: RestartResult): seq<Row> {
    match FindNode(f.clusters, name)
    case None => []
    case Some(found) =>
      [GatedRow("restart_node", found.clusterName, name, if res.NotRun? then Some(res.decision) else None)]
  }

  /** The verdict of a restart; the first sample is spent on the slot before it. */
  ghost predicate RestartJudged(maxLag: int, sampler: nat -> Sample, res: RestartResult) {
    res.Restarted? ==>
      && res.beforeSlot == sampler(0).nodeSlot
      && Waited(res.wait, (k: nat) => sampler(k + 1), maxLag, 600, 5)
      && (res.succeeded <==> res.cycleOk && res.wait.caughtUp)
  }

  function RestartDecision(rules: PolicyRules, confirm: bool, ins: Inspection): Decision {
    Gate(confirm, RestartChecks(rules, ins))
  }

  /** Each reason is given exactly when what it names is the case. */
  lemma RestartReasons(rules: PolicyRules, confirm: bool, ins: Inspection)
    ensures var reasons := RestartDecision(rules, confirm, ins).reasons;
      && (Unreachable in reasons <==> !ins.svcOk)
      && (NotActive in reasons <==> ins.active != Some("active"))
      && (DiskLow in reasons <==> !DiskFreeOk(rules.minDiskFreePct, ins.pcts))
  {
    var checks := RestartChecks(rules, ins);
    ReasonAt(confirm, checks, 0);
    ReasonAt(confirm, checks, 1);
    ReasonAt(confirm, checks, 2);
  }

  lemma AllowedRestart(rules: PolicyRules, confirm: bool, ins: Inspection)
    requires RestartDecision(rules, confirm, ins).allowed
    ensures ins.svcOk && ins.active == Some("active") && DiskFreeOk(rules.minDiskFreePct, ins.pcts)
  {
    var checks := RestartChecks(rules, ins);
    GateTruthful(confirm, checks);
    assert checks[0] in checks && checks[1] in checks && checks[2] in checks;
  }

  lemma LookAfterRestart(t1: seq<Entry>, t2: seq<Entry>, n: nat, was: World, now: World)
    requires n <= |t1| && t1 <= t2 && ServiceOnly(t1, n, was) && Quiet(t2, |t1|, now)
    requires now == was.(target := was.target.(active := now.target.active))
    ensures ServiceOnly(t2, n, was) && Acts(t2, n) == Acts(t1, n)
    ensures AllOkOf(t2, n, Serving) <==> AllOkOf(t1, n, Serving)
  {
    QuietHasNoActs(t2, |t1|, now);
    ActsSplit(t1, t2, n);
    OnlyEarly(t1, t2, n, Serving);
    forall i | n <= i < |t2| ensures t2[i].after == was.(target := was.target.(active := t2[i].after.target.active)) {
      if i < |t1| {
        assert t2[i] == t1[i];
      }
    }
  }

  /** The executed part: cycle, catch-up wait, final look. */
  method RestartAndWait(r: Runner, node: Node, minIdle: int, maxLag: int, sampler: nat -> Sample)
    returns (res: RestartResult)
    modifies r
    ensures res.Restarted?
    ensures old(r.trace) <= r.trace && ServiceOnly(r.trace, |old(r.trace)|, old(r.world))
    ensures Acts(r.trace, |old(r.trace)|) == RestartActs(node, minIdle)
    ensures res.cycleOk ==> r.world.target.active
    ensures res.cycleOk <==> AllOkOf(r.trace, |old(r.trace)|, Serving)
    ensures AllSmooth(r) ==> res.cycleOk
    ensures RestartJudged(maxLag, sampler, res)
  {
    var beforeSlot := sampler(0).nodeSlot;
    var ok := Restart(r, node, minIdle);
    var wait := WaitForCatchup((k: nat) => sampler(k + 1), maxLag, CATCHUP_TIMEOUT_S, CATCHUP_INTERVAL_S);
    ghost var mid := r.trace;
    var _ := Inspect(r, node);
    LookAfterRestart(mid, r.trace, |old(r.trace)|, old(r.world), r.world);
    res := Restarted(beforeSlot, ok, wait, ok && wait.caughtUp);
  }

  lemma PreflightThenRestart(t1: seq<Entry>, trace: seq<Entry>, n: nat, was: World, acts: seq<Command>)
    requires n <= |t1| && t1 <= trace && Quiet(t1, n, was)
    requires ServiceOnly(trace, |t1|, was) && Acts(trace, |t1|) == acts
    ensures ServiceOnly(trace, n, was) && Acts(trace, n) == acts
    ensures AllOkOf(trace, n, Serving) <==> AllOkOf(trace, |t1|, Serving)
  {
    QuietFirst(t1, trace, n, was);
    QuietHasNoActs(t1, n, was);
    OnlyLate(t1, trace, n, Serving);
    forall i | n <= i < |trace|
      ensures trace[i].after == was.(target := was.target.(active := trace[i].after.target.active))
    {
      if i < |t1| {
        assert trace[i] == t1[i];
      }
    }
  }

  ghost predicate RestartGated(trace: seq<Entry>, n: nat, found: Found, confirm: bool, policy: Policy,
                               res: RestartResult)
  {
    && !res.NoNode?
    && IsLook(trace, n, found.node)
    && var ins := Looked(trace, n, found.node);
    && var decision := RestartDecision(ForCluster(policy, found.clusterName), confirm, ins);
    && (res.NotRun? <==> !confirm || !decision.allowed)
    && (res.NotRun? ==> res.decision == decision)
    // executed: seen to be reachable and active just before
    && (res.Restarted? ==> ins.svcOk && ins.active == Some("active"))
  }

  /** An executed restart: nothing but the service is touched, in the role's way, and
      only a mishap fails it. */
  ghost predicate RestartDone(trace: seq<Entry>, n: nat, was: World, now: World, found: Found, rules: PolicyRules,
                              smooth: bool, res: RestartResult)
  {
    && (res.Restarted? && smooth ==> res.cycleOk)
    && ServiceOnly(trace, n, was)
    && Acts(trace, n) == RestartActs(found.node, rules.requireLeaderWindowMinutes)
    && (res.Restarted? ==> (res.cycleOk <==> AllOkOf(trace, n, Serving)))
    && (res.Restarted? && res.cycleOk ==> now.target.active)
  }

  /** The restart past the gate, told from the preflight at entry n on. */
  method RestartAllowed(found: Found, r: Runner, rules: PolicyRules, maxLag: int, sampler: nat -> Sample, ghost n: nat)
    returns (res: RestartResult)
    requires n <= |r.trace| && Quiet(r.trace, n, r.world)
    modifies r
    ensures res.Restarted? && old(r.trace) <= r.trace
    ensures RestartDone(r.trace, n, old(r.world), r.world, found, rules, AllSmooth(r), res)
    ensures RestartJudged(maxLag, sampler, res)
  {
    ghost var t1, w1 := r.trace, r.world;
    res := RestartAndWait(r, found.node, rules.requireLeaderWindowMinutes, maxLag, sampler);
    PreflightThenRestart(t1, r.trace, n, w1, RestartActs(found.node, rules.requireLeaderWindowMinutes));
  }

  /** What a call for a known node guarantees: gated as the preflight saw it; held back,
      reads only and nothing changed; otherwise restarted as above. */
  ghost predicate RestartCall(trace: seq<Entry>, n: nat, was: World, now: World, found: Found, confirm: bool,
                              policy: Policy, smooth: bool, res: RestartResult)
  {
    && RestartGated(trace, n, found, confirm, policy, res)
    && (res.NotRun? ==> now == was && Quiet(trace, n, was))
    && (res.Restarted? ==> RestartDone(trace, n, was, now, found, ForCluster(policy, found.clusterName), smooth, res))
  }

  method GatedRestart(found: Found, r: Runner, confirm: bool, policy: Policy, maxLag: int, sampler: nat -> Sample)
    returns (res: RestartResult)
    modifies r
    ensures old(r.trace) <= r.trace
    ensures RestartCall(r.trace, |old(r.trace)|, old(r.world), r.world, found, confirm, policy, AllSmooth(r), res)
    ensures RestartJudged(maxLag, sampler, res)
  {
    var rules := ForCluster(policy, found.clusterName);
    var before := Inspect(r, found.node);
    var decision := RestartDecision(rules, confirm, before);
    if !confirm || !decision.allowed {
      res := NotRun(decision);
    } else {
      AllowedRestart(rules, confirm, before);
      ghost var looked := r.trace;
      res := RestartAllowed(found, r, rules, maxLag, sampler, |old(r.trace)|);
      LookLater(looked, r.trace, |old(r.trace)|, found.node);
    }
  }

  lemma LookLater(early: seq<Entry>, late: seq<Entry>, n: nat, node: Node)
    requires early <= late && IsLook(early, n, node)
    ensures IsLook(late, n, node) && Looked(late, n, node) == Looked(early, n, node)
  {}

  method NoteRestart(f: Fleet, found: Found, name: string, res: RestartResult, audit: AuditLog?)
    requires FindNode(f.clusters, name) == Some(found)
    modifies audit
    ensures audit != null ==> audit.rows == old(audit.rows) + RestartRows(f, name, res)
  {
    RecordGated(audit, "restart_node", found.clusterName, name, if res.NotRun? then Some(res.decision) else None);
  }

  /** `restart_node` */
  method RestartNode(f: Fleet, r: Runner, name: string, confirm: bool, policy: Policy, audit: AuditLog?, maxLag: int,
                     sampler: nat -> Sample)
    returns (res: RestartResult)
    modifies r, audit
    ensures old(r.trace) <= r.trace
    ensures res.NoNode? <==> FindNode(f.clusters, name).None?
    ensures res.NoNode? ==> r.world == old(r.world) && r.trace == old(r.trace)
    ensures !res.NoNode? ==>
      RestartCall(r.trace, |old(r.trace)|, old(r.world), r.world, FindNode(f.clusters, name).value, confirm, policy,
                  AllSmooth(r), res)
    ensures RestartJudged(maxLag, sampler, res)
    ensures audit != null ==> audit.rows == old(audit.rows) + RestartRows(f, name, res)
  {
    var found := FindNode(f.clusters, name);
    if found.None? {
      return NoNode;
    }
    res := GatedRestart(found.value, r, confirm, policy, maxLag, sampler);
    NoteRestart(f, found.value, name, res, audit);
  }
}
