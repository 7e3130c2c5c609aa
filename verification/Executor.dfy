/** The steps run on a node (src/solfleet/executor.py). */
module Executor {
  import opened Text
  import opened Config
  import opened Safety
  import opened Remote
  import opened Builder
  import opened Layout

  // ---- what a stretch of a trace did --------------------------------------

  /** The commands issued from entry n on that are not reads. */
  ghost function Acts(trace: seq<Entry>, n: nat): seq<Command> {
    if |trace| <= n then []
    else
      var last := trace[|trace| - 1].cmd;
      Acts(trace[..|trace| - 1], n) + if ReadOnly(last) then [] else [last]
  }

  /** Looking at a longer trace in two stretches. */
  lemma {:induction false} ActsSplit(early: seq<Entry>, late: seq<Entry>, n: nat)
    requires n <= |early| && early <= late
    ensures Acts(late, n) == Acts(early, n) + Acts(late, |early|)
  {
    if |early| == |late| {
      assert early == late;
    } else {
      var front := late[..|late| - 1];
      ActsSplit(early, front, n);
      var last := late[|late| - 1].cmd;
      ConcatAssociative(Acts(early, n), Acts(front, |early|), if ReadOnly(last) then [] else [last]);
    }
  }

  lemma {:induction false} QuietHasNoActs(trace: seq<Entry>, n: nat, w: World)
    requires Quiet(trace, n, w)
    ensures Acts(trace, n) == []
  {
    if |trace| > n {
      QuietHasNoActs(trace[..|trace| - 1], n, w);
    }
  }

  /** Reads in front add nothing. */
  lemma QuietFirst(early: seq<Entry>, late: seq<Entry>, n: nat, w: World)
    requires n <= |early| && early <= late && Quiet(early, n, w)
    ensures Acts(late, n) == Acts(late, |early|)
  {
    QuietHasNoActs(early, n, w);
    ActsSplit(early, late, n);
    assert [] + Acts(late, |early|) == Acts(late, |early|);
  }

  lemma {:induction false} EntryInActs(trace: seq<Entry>, n: nat, i: nat)
    requires n <= i < |trace|
    ensures ReadOnly(trace[i].cmd) || trace[i].cmd in Acts(trace, n)
  {
    if i < |trace| - 1 {
      EntryInActs(trace[..|trace| - 1], n, i);
    }
  }

  lemma OneAct(before: seq<Entry>, e: Entry)
    ensures Acts(before + [e], |before|) == if ReadOnly(e.cmd) then [] else [e.cmd]
  {}

  /** The kinds of commands whose exit status an operation reports. */
  datatype Kind = Moving | Marking | Serving | MakingUser | Tuning | PlacingUnit | Unreported

  function KindOf(c: Command): Kind {
    match c
    case Mv(_, _) | Chmod(_) => Moving
    case WriteMarker(_, _) => Marking
    case Stop | Start | SafeExit(_) => Serving
    case EnsureUser => MakingUser
    case ApplySystem => Tuning
    case InstallUnit(_) => PlacingUnit
    case _ => Unreported
  }

  /** Every command of the kind since entry n exited with 0. */
  ghost predicate AllOkOf(trace: seq<Entry>, n: nat, k: Kind) {
    forall i | n <= i < |trace| && KindOf(trace[i].cmd) == k :: Ok(trace[i].result)
  }

  ghost predicate Lacks(acts: seq<Command>, k: Kind) {
    forall c | c in acts :: KindOf(c) != k
  }

  lemma OneLacks(c: Command, k: Kind)
    ensures Lacks([c], k) <==> KindOf(c) != k
  {
    assert c in [c];
  }

  lemma LacksConcat(a: seq<Command>, b: seq<Command>, k: Kind)
    requires Lacks(a, k) && Lacks(b, k)
    ensures Lacks(a + b, k)
  {
    forall c | c in a + b ensures KindOf(c) != k {
      assert c in a || c in b;
    }
  }

  lemma LackingIsOk(trace: seq<Entry>, n: nat, k: Kind)
    requires k != Unreported && Lacks(Acts(trace, n), k)
    ensures AllOkOf(trace, n, k)
  {
    forall i | n <= i < |trace| ensures KindOf(trace[i].cmd) != k {
      EntryInActs(trace, n, i);
    }
  }

  lemma AllOkSplit(early: seq<Entry>, late: seq<Entry>, n: nat, k: Kind)
    requires n <= |early| && early <= late
    ensures AllOkOf(late, n, k) <==> AllOkOf(early, n, k) && AllOkOf(late, |early|, k)
  {
    if AllOkOf(early, n, k) && AllOkOf(late, |early|, k) {
      forall i | n <= i < |late| && KindOf(late[i].cmd) == k ensures Ok(late[i].result) {
        if i < |early| {
          assert late[i] == early[i];
        }
      }
    }
    if AllOkOf(late, n, k) {
      forall i | n <= i < |early| && KindOf(early[i].cmd) == k ensures Ok(early[i].result) {
        assert late[i] == early[i];
      }
    }
  }

  /** A kind that only the first stretch has ... */
  lemma OnlyEarly(early: seq<Entry>, late: seq<Entry>, n: nat, k: Kind)
    requires n <= |early| && early <= late && k != Unreported && Lacks(Acts(late, |early|), k)
    ensures AllOkOf(late, n, k) <==> AllOkOf(early, n, k)
  {
    AllOkSplit(early, late, n, k);
    LackingIsOk(late, |early|, k);
  }

  /** ... or only the second. */
  lemma OnlyLate(early: seq<Entry>, late: seq<Entry>, n: nat, k: Kind)
    requires n <= |early| && early <= late && k != Unreported && Lacks(Acts(early, n), k)
    ensures AllOkOf(late, n, k) <==> AllOkOf(late, |early|, k)
  {
    AllOkSplit(early, late, n, k);
    LackingIsOk(early, n, k);
  }

  // ---- reads --------------------------------------------------------------

  /** The use% of one line df printed: the fifth of at least six columns, when it is
      digits and a percent sign. */
  function PctOf(cols: seq<string>): Option<int> {
    if |cols| < 6 || cols[4] == "" then None
    else
      var digits := cols[4][..|cols[4]| - 1];
      if cols[4][|cols[4]| - 1] == '%' && digits != "" && AllDigits(digits) then Some(Digits(digits)) else None
  }

  function PctsOf(lines: seq<seq<string>>): seq<int> {
    if lines == [] then []
    else (if PctOf(lines[0]).Some? then [PctOf(lines[0]).value] else []) + PctsOf(lines[1..])
  }

  /** The percentages taken from df: none when it fails, and never the header's. */
  function UsePcts(df: CommandResult): seq<int> {
    if Ok(df) && df.table != [] then PctsOf(df.table[1..]) else []
  }

  /** A line of at least six columns whose fifth is a number and a percent sign, and what
      that leaves free is under the floor. */
  ghost predicate LineOver(cols: seq<string>, floor: int) {
    && |cols| >= 6 && |cols[4]| >= 2 && cols[4][|cols[4]| - 1] == '%'
    && var digits := cols[4][..|cols[4]| - 1];
    && (forall i | 0 <= i < |digits| :: '0' <= digits[i] <= '9')
    && 100 - Digits(digits) < floor
  }

  /** Some line below the header shows a mount over the floor. */
  ghost predicate PrintsOver(df: CommandResult, floor: int) {
    exists i | 0 < i < |df.table| :: LineOver(df.table[i], floor)
  }

  lemma LineOverIff(cols: seq<string>, floor: int)
    ensures LineOver(cols, floor) <==> PctOf(cols).Some? && 100 - PctOf(cols).value < floor
  {}

  lemma {:induction false} PctsOfMember(lines: seq<seq<string>>, x: int)
    ensures x in PctsOf(lines) <==> exists i | 0 <= i < |lines| :: PctOf(lines[i]) == Some(x)
  {
    if lines != [] {
      PctsOfMember(lines[1..], x);
      if exists i | 0 <= i < |lines| :: PctOf(lines[i]) == Some(x) {
        var i :| 0 <= i < |lines| && PctOf(lines[i]) == Some(x);
        assert i > 0 ==> lines[1..][i - 1] == lines[i];
      }
      if x in PctsOf(lines[1..]) {
        var i :| 0 <= i < |lines[1..]| && PctOf(lines[1..][i]) == Some(x);
        assert lines[i + 1] == lines[1..][i];
      }
    }
  }

  /** The disk floor is meant to stop work on a node whose disk is too full. It lets
      a node pass exactly when no floor is set, df exits non-zero - whatever it
      printed - or no line it printed is over the floor. */
  lemma FloorPassesIff(floor: Option<int>, df: CommandResult)
    ensures DiskFreeOk(floor, UsePcts(df)) <==> floor.None? || !Ok(df) || !PrintsOver(df, floor.value)
  {
    if floor.Some? && Ok(df) && df.table != [] {
      var lines := df.table[1..];
      forall i | 0 < i < |df.table|
        ensures LineOver(df.table[i], floor.value) <==>
          PctOf(df.table[i]).Some? && 100 - PctOf(df.table[i]).value < floor.value
      {
        LineOverIff(df.table[i], floor.value);
      }
      forall x ensures x in UsePcts(df) <==> exists i | 0 <= i < |lines| :: PctOf(lines[i]) == Some(x) {
        PctsOfMember(lines, x);
      }
      forall i | 0 < i < |df.table| && PctOf(df.table[i]).Some? ensures PctOf(df.table[i]).value in UsePcts(df) {
        assert lines[i - 1] == df.table[i];
      }
      forall x | x in UsePcts(df) ensures exists i | 0 < i < |df.table| :: PctOf(df.table[i]) == Some(x) {
        var i :| 0 <= i < |lines| && PctOf(lines[i]) == Some(x);
        assert df.table[i + 1] == lines[i];
      }
    }
  }

  /** Two answers that hide a full disk from every floor. The accounts path does not
      exist, so df exits 1 after printing a ledger at 99%; or it exits 0 and its only
      line has no percentage. */
  lemma FullDiskPasses(missing: CommandResult, blank: CommandResult, floor: Option<int>)
    requires missing == CommandResult(1, [], [["Filesystem"], ["/dev/sda1", "100G", "99G", "1G", "99%", "/ledger"]])
    requires blank == CommandResult(0, [], [["Filesystem"], ["none", "0G", "0G", "0G", "-", "/ledger"]])
    ensures PrintsOver(missing, 10) && DiskFreeOk(floor, UsePcts(missing)) && DiskFreeOk(floor, UsePcts(blank))
  {
    var cols := missing.table[1];
    assert cols[4] == "99%" && cols[4][..2] == "99" && "99"[..1] == "9" && "9"[..0] == "";
    assert Digits("9") == 9 && Digits("99") == 99;
    assert PctOf(cols) == Some(99);
    LineOverIff(cols, 10);
    assert blank.table[1..] == [blank.table[1]] && blank.table[1][4] == "-";
    assert PctOf(blank.table[1]) == None;
    assert blank.table[1..][1..] == [];
  }

  /** What the preflight sees; `pcts` are the use% values taken from df. */
  datatype Inspection = Inspection(svcOk: bool, active: Option<string>, version: Option<string>, pcts: seq<int>)

  /** Value of the last `key=value` line; the key is given with its `=`. */
  function ValueOf(words: seq<string>, key: string): Option<string> {
    if words == [] then None
    else
      var w := words[|words| - 1];
      if key <= w then Some(w[|key|..]) else ValueOf(words[..|words| - 1], key)
  }

  /** It is what follows the key in the last word that starts with it. */
  lemma {:induction false} ValueIs(words: seq<string>, key: string, value: string)
    ensures ValueOf(words, key) == Some(value) <==>
      exists i | 0 <= i < |words| :: words[i] == key + value && forall j | i < j < |words| :: !(key <= words[j])
  {
    if words != [] {
      var n := |words| - 1;
      var front, last := words[..n], words[n];
      ValueIs(front, key, value);
      if key <= last {
        assert last == key + last[|key|..];
        assert (key + value)[|key|..] == value;
      } else {
        assert last != key + value;
        if ValueOf(front, key) == Some(value) {
          var i :| 0 <= i < n && front[i] == key + value && forall j | i < j < n :: !(key <= front[j]);
          assert words[i] == key + value && forall j | i < j < |words| :: !(key <= words[j]);
        }
        if exists i | 0 <= i < |words| :: words[i] == key + value && forall j | i < j < |words| :: !(key <= words[j]) {
          var i :| 0 <= i < |words| && words[i] == key + value && forall j | i < j < |words| :: !(key <= words[j]);
          assert front[i] == key + value && forall j | i < j < n :: !(key <= front[j]);
        }
      }
    }
  }

  function ActiveOf(words: seq<string>): Option<string> {
    ValueOf(words, "ActiveState=")
  }

  function VersionOf(res: CommandResult): Option<string> {
    if Ok(res) && |res.words| >= 2 then Some(res.words[1]) else None
  }

  /** How many commands a look at the node takes. */
  function LookLength(node: Node): nat {
    if Marker(node).Some? then 4 else 3
  }

  /** What the look that starts at entry n saw. */
  ghost function Looked(trace: seq<Entry>, n: nat, node: Node): Inspection
    requires n + LookLength(node) <= |trace|
  {
    InspectionOf(trace[n].result, trace[n + 1].result, trace[n + LookLength(node) - 1].result)
  }

  ghost predicate IsLook(trace: seq<Entry>, n: nat, node: Node) {
    && n + LookLength(node) <= |trace|
    && trace[n].cmd == ShowUnit && trace[n + 1].cmd == BinaryVersion
    && trace[n + LookLength(node) - 1].cmd == DiskUsage
  }

  method Read(r: Runner, c: Command) returns (res: CommandResult)
    requires ReadOnly(c)
    modifies r
    ensures r.world == old(r.world) && |r.trace| == |old(r.trace)| + 1 && old(r.trace) <= r.trace
    ensures var e := r.trace[|old(r.trace)|]; e.cmd == c && e.result == res && e.after == r.world
  {
    res := r.Run(c);
  }

  method Inspect(r: Runner, node: Node) returns (ins: Inspection)
    modifies r
    ensures old(r.trace) <= r.trace && Quiet(r.trace, |old(r.trace)|, old(r.world))
    ensures r.world == old(r.world)
    ensures |r.trace| == |old(r.trace)| + LookLength(node) && IsLook(r.trace, |old(r.trace)|, node)
    ensures ins == Looked(r.trace, |old(r.trace)|, node)
  {
    var svc := Read(r, ShowUnit);
    var ver := Read(r, BinaryVersion);
    if Marker(node).Some? {
      var _ := Read(r, ReadMarker);
    }
    var df := Read(r, DiskUsage);
    ins := InspectionOf(svc, ver, df);
  }

  function InspectionOf(svc: CommandResult, ver: CommandResult, df: CommandResult): Inspection {
    Inspection(Ok(svc), ActiveOf(svc.words), VersionOf(ver), UsePcts(df))
  }

  // ---- service control ----------------------------------------------------

  /** One command that is not a read and touches nothing but the service. */
  ghost predicate OneServiceAct(before: seq<Entry>, after: seq<Entry>, was: World, now: World, c: Command) {
    && |after| == |before| + 1 && before <= after
    && after[|before|].cmd == c && after[|before|].after == now
    && Acts(after, |before|) == [c]
    && now == was.(target := was.target.(active := now.target.active))
  }

  /** One command that is not a read, with its verdict. */
  method RunAct(r: Runner, c: Command) returns (ok: bool)
    requires !ReadOnly(c)
    modifies r
    ensures r.world == Exec(r.tools, old(r.world), c, r.oracle(old(r.tick))).0
    ensures ok <==> Ok(Exec(r.tools, old(r.world), c, r.oracle(old(r.tick))).1)
    ensures r.tick == old(r.tick) + 1
    ensures |r.trace| == |old(r.trace)| + 1 && old(r.trace) <= r.trace
    ensures var e := r.trace[|old(r.trace)|]; e.cmd == c && e.after == r.world && (ok <==> Ok(e.result))
    ensures Acts(r.trace, |old(r.trace)|) == [c]
    ensures ok <==> AllOkOf(r.trace, |old(r.trace)|, KindOf(c))
  {
    var res := r.Run(c);
    OneAct(old(r.trace), r.trace[|old(r.trace)|]);
    ok := Ok(res);
  }

  method StopService(r: Runner) returns (ok: bool)
    modifies r
    ensures AllSmooth(r) ==> ok
    ensures ok <==> AllOkOf(r.trace, |old(r.trace)|, Serving)
    ensures OneServiceAct(old(r.trace), r.trace, old(r.world), r.world, Stop) && r.tick == old(r.tick) + 1
    ensures ok ==> !r.world.target.active
  {
    assert AllSmooth(r) ==> Smooth(r.oracle(r.tick));
    ok := RunAct(r, Stop);
  }

  method StartService(r: Runner) returns (ok: bool)
    modifies r
    ensures AllSmooth(r) ==> ok
    ensures ok <==> AllOkOf(r.trace, |old(r.trace)|, Serving)
    ensures OneServiceAct(old(r.trace), r.trace, old(r.world), r.world, Start)
    ensures ok ==> r.world.target.active
  {
    assert AllSmooth(r) ==> Smooth(r.oracle(r.tick));
    ok := RunAct(r, Start);
  }

  method ValidatorSafeExit(r: Runner, minIdleMinutes: int) returns (ok: bool)
    modifies r
    ensures AllSmooth(r) ==> ok
    ensures ok <==> AllOkOf(r.trace, |old(r.trace)|, Serving)
    ensures OneServiceAct(old(r.trace), r.trace, old(r.world), r.world, SafeExit(minIdleMinutes))
    ensures ok ==> r.world.target.active
  {
    assert AllSmooth(r) ==> Smooth(r.oracle(r.tick));
    ok := RunAct(r, SafeExit(minIdleMinutes));
  }

  // ---- the swap -----------------------------------------------------------

  datatype Swap = Swap(staged: string, dest: string, exec: bool)

  /** The files after the first k moves; a move without its staged file is none. */
  function SwapFiles(files: map<string, Bytes>, swaps: seq<Swap>, k: nat): map<string, Bytes>
    requires k <= |swaps|
  {
    if k == 0 then files
    else
      var f := SwapFiles(files, swaps, k - 1);
      var s := swaps[k - 1];
      if s.staged in f then MoveFile(f, s.staged, s.dest) else f
  }

  ghost function Swapped(w: World, swaps: seq<Swap>, k: nat): World
    requires k <= |swaps|
  {
    w.(target := w.target.(files := SwapFiles(w.target.files, swaps, k)))
  }

  ghost predicate IsMove(c: Command) {
    c.Mv? || c.Chmod?
  }

  ghost predicate AllMoves(cs: seq<Command>) {
    forall c | c in cs :: IsMove(c)
  }

  /** The parts of the chain for one file, and for all of them. */
  function PartsOf(s: Swap): seq<Command> {
    [Mv(s.staged, s.dest)] + if s.exec then [Chmod(s.dest)] else []
  }

  function Parts(swaps: seq<Swap>): seq<Command> {
    if swaps == [] then [] else Parts(swaps[..|swaps| - 1]) + PartsOf(swaps[|swaps| - 1])
  }

  lemma {:induction false} PartsPrefix(swaps: seq<Swap>, k: nat)
    requires k <= |swaps|
    ensures Parts(swaps[..k]) <= Parts(swaps)
  {
    if k == |swaps| {
      assert swaps[..k] == swaps;
    } else {
      var front := swaps[..|swaps| - 1];
      assert front[..k] == swaps[..k];
      PartsPrefix(front, k);
    }
  }

  lemma {:induction false} PartsAreMoves(swaps: seq<Swap>)
    ensures AllMoves(Parts(swaps))
  {
    if swaps != [] {
      PartsAreMoves(swaps[..|swaps| - 1]);
    }
  }

  /** How one file's part of the chain goes: whether it was moved, the commands
      issued, and whether they went well. */
  datatype Link = Link(moved: bool, issued: nat, ok: bool)

  function RunLink(s: Swap, staged: bool, mv: Outcome, chmod: Outcome): Link {
    if !mv.done || !staged then Link(false, 1, false)
    else if !mv.clean || !s.exec then Link(true, 1, mv.clean)
    else Link(true, 2, chmod.done && chmod.clean)
  }

  /** How far the chain gets under given outcomes. */
  datatype Chain = Chain(moved: nat, issued: nat, ok: bool)

  /** `has` says which staged files are there when their turn comes. */
  function LinkAt(swaps: seq<Swap>, has: nat -> bool, k: nat, oracle: nat -> Outcome, at: nat): Link
    requires k < |swaps|
  {
    RunLink(swaps[k], has(k), oracle(at), oracle(at + 1))
  }

  function RunChain(swaps: seq<Swap>, has: nat -> bool, n: nat, oracle: nat -> Outcome, tick: nat): (c: Chain)
    requires n <= |swaps|
    ensures c.moved <= n && (c.ok ==> c.moved == n)
  {
    if n == 0 then Chain(0, 0, true)
    else
      var c := RunChain(swaps, has, n - 1, oracle, tick);
      if !c.ok then c
      else
        var l := LinkAt(swaps, has, n - 1, oracle, tick + c.issued);
        Chain(if l.moved then n else n - 1, c.issued + l.issued, l.ok)
  }

  /** A chain that has failed stays where it is. */
  lemma {:induction false} BrokenChainStays(swaps: seq<Swap>, has: nat -> bool, m: nat, n: nat,
                                            oracle: nat -> Outcome, tick: nat)
    requires m <= n <= |swaps| && !RunChain(swaps, has, m, oracle, tick).ok
    ensures RunChain(swaps, has, n, oracle, tick) == RunChain(swaps, has, m, oracle, tick)
  {
    if m < n {
      BrokenChainStays(swaps, has, m, n - 1, oracle, tick);
    }
  }

  predicate StagedAt(files: map<string, Bytes>, swaps: seq<Swap>, k: nat) {
    k < |swaps| && swaps[k].staged in SwapFiles(files, swaps, k)
  }

  function Has(files: map<string, Bytes>, swaps: seq<Swap>): nat -> bool {
    (k: nat) => StagedAt(files, swaps, k)
  }

  ghost predicate SomeSwapped(now: World, w: World, swaps: seq<Swap>, moved: nat)
    requires moved <= |swaps|
  {
    exists j: nat | j <= moved :: now == Swapped(w, swaps, j)
  }

  /** From entry n on, the node was always in the state after some number of moves. */
  ghost predicate AlwaysSwapped(trace: seq<Entry>, n: nat, w: World, swaps: seq<Swap>, moved: nat)
    requires moved <= |swaps|
  {
    forall i | n <= i < |trace| :: SomeSwapped(trace[i].after, w, swaps, moved)
  }

  method MoveOne(r: Runner, swaps: seq<Swap>, k: nat, ghost w: World) returns (ok: bool, ghost moved: nat)
    requires k < |swaps| && r.world == Swapped(w, swaps, k)
    modifies r
    ensures var there := swaps[k].staged in SwapFiles(w.target.files, swaps, k);
      moved == if r.oracle(old(r.tick)).done && there then k + 1 else k
    ensures ok <==> moved == k + 1 && r.oracle(old(r.tick)).clean
    ensures r.world == Swapped(w, swaps, moved)
    ensures r.tick == old(r.tick) + 1
    ensures |r.trace| == |old(r.trace)| + 1 && old(r.trace) <= r.trace
    ensures r.trace[|old(r.trace)|].after == r.world
    ensures ok <==> AllOkOf(r.trace, |old(r.trace)|, Moving)
    ensures Acts(r.trace, |old(r.trace)|) == [Mv(swaps[k].staged, swaps[k].dest)]
  {
    var c := Mv(swaps[k].staged, swaps[k].dest);
    moved := if Feasible(r.world, c) && r.oracle(r.tick).done then k + 1 else k;
    ok := RunAct(r, c);
  }

  method MakeExecutable(r: Runner, dest: string) returns (ok: bool)
    requires dest in r.world.target.files
    modifies r
    ensures r.world == old(r.world) && r.tick == old(r.tick) + 1
    ensures ok <==> r.oracle(old(r.tick)).done && r.oracle(old(r.tick)).clean
    ensures |r.trace| == |old(r.trace)| + 1 && old(r.trace) <= r.trace
    ensures r.trace[|old(r.trace)|].after == r.world
    ensures ok <==> AllOkOf(r.trace, |old(r.trace)|, Moving)
    ensures Acts(r.trace, |old(r.trace)|) == [Chmod(dest)]
  {
    ok := RunAct(r, Chmod(dest));
  }

  lemma JustMoved(files: map<string, Bytes>, swaps: seq<Swap>, k: nat)
    requires k < |swaps| && swaps[k].staged in SwapFiles(files, swaps, k)
    ensures swaps[k].dest in SwapFiles(files, swaps, k + 1)
  {}

  /** The part of the `&&` chain for one file. */
  method SwapOne(r: Runner, swaps: seq<Swap>, k: nat, ghost w: World) returns (ok: bool, ghost moved: nat)
    requires k < |swaps| && r.world == Swapped(w, swaps, k)
    modifies r
    ensures var l := LinkAt(swaps, Has(w.target.files, swaps), k, r.oracle, old(r.tick));
      moved == (if l.moved then k + 1 else k) && ok == l.ok && r.tick == old(r.tick) + l.issued
    ensures r.world == Swapped(w, swaps, moved)
    ensures old(r.trace) <= r.trace
    ensures forall i | |old(r.trace)| <= i < |r.trace| :: r.trace[i].after == Swapped(w, swaps, moved)
    ensures ok <==> AllOkOf(r.trace, |old(r.trace)|, Moving)
    ensures Acts(r.trace, |old(r.trace)|) <= PartsOf(swaps[k])
    ensures ok ==> Acts(r.trace, |old(r.trace)|) == PartsOf(swaps[k])
  {
    ok, moved := MoveOne(r, swaps, k, w);
    if ok && swaps[k].exec {
      ghost var mid := r.trace;
      JustMoved(w.target.files, swaps, k);
      ok := MakeExecutable(r, swaps[k].dest);
      MoveThenChmod(mid, r.trace, |old(r.trace)|);
    }
  }

  lemma MoveThenChmod(t1: seq<Entry>, t2: seq<Entry>, n: nat)
    requires n <= |t1| && t1 <= t2
    ensures Acts(t2, n) == Acts(t1, n) + Acts(t2, |t1|)
    ensures AllOkOf(t2, n, Moving) <==> AllOkOf(t1, n, Moving) && AllOkOf(t2, |t1|, Moving)
  {
    ActsSplit(t1, t2, n);
    AllOkSplit(t1, t2, n, Moving);
  }

  lemma PartsSnoc(swaps: seq<Swap>, k: nat, done: seq<Command>, part: seq<Command>)
    requires k < |swaps| && done == Parts(swaps[..k]) && part <= PartsOf(swaps[k])
    ensures done + part <= Parts(swaps)
    ensures part == PartsOf(swaps[k]) ==> done + part == Parts(swaps[..k + 1])
  {
    var next := swaps[..k + 1];
    assert next[..k] == swaps[..k] && next[k] == swaps[k];
    assert Parts(next) == done + PartsOf(swaps[k]);
    PrefixAfter(done, part, PartsOf(swaps[k]));
    PartsPrefix(swaps, k + 1);
  }

  lemma PrefixAfter(a: seq<Command>, b: seq<Command>, c: seq<Command>)
    requires b <= c
    ensures a + b <= a + c
  {}

  lemma PrefixOfMoves(swaps: seq<Swap>, acts: seq<Command>)
    requires acts <= Parts(swaps)
    ensures AllMoves(acts)
  {
    PartsAreMoves(swaps);
    assert forall c | c in acts :: c in Parts(swaps);
  }

  /** All moves as one `&&` chain: it stops at the first part that fails, so the
      destinations replaced are always a prefix of the list. */
  method AtomicSwap(r: Runner, swaps: seq<Swap>) returns (ok: bool, ghost moved: nat)
    modifies r
    // how far it gets is decided by the outcomes
    ensures var c := RunChain(swaps, Has(old(r.world.target.files), swaps), |swaps|, r.oracle, old(r.tick));
      moved == c.moved && (swaps != [] ==> ok == c.ok)
    ensures ok ==> moved == |swaps|
    ensures r.world == Swapped(old(r.world), swaps, moved)
    ensures old(r.trace) <= r.trace && AlwaysSwapped(r.trace, |old(r.trace)|, old(r.world), swaps, moved)
    // a prefix of the chain is issued, all of it exactly on success
    ensures AllMoves(Acts(r.trace, |old(r.trace)|)) && Acts(r.trace, |old(r.trace)|) <= Parts(swaps)
    ensures swaps != [] ==> (ok <==> AllOkOf(r.trace, |old(r.trace)|, Moving))
    ensures ok ==> Acts(r.trace, |old(r.trace)|) == Parts(swaps)
  {
    if swaps == [] {
      var res := r.Run(EmptyLine);
      OneAct(old(r.trace), r.trace[|old(r.trace)|]);
      assert r.trace[|old(r.trace)|].after == Swapped(old(r.world), swaps, 0);
      return Ok(res), 0;
    }
    ok, moved := SwapAll(r, swaps);
  }

  /** The trace of a chain that has gone well over the first k files. */
  ghost predicate ChainTrace(trace: seq<Entry>, n: nat, w: World, swaps: seq<Swap>, k: nat)
    requires k <= |swaps|
  {
    && n <= |trace| && AlwaysSwapped(trace, n, w, swaps, k)
    && Acts(trace, n) == Parts(swaps[..k])
    && AllOkOf(trace, n, Moving)
  }

  lemma NextLink(before: seq<Entry>, after: seq<Entry>, n: nat, w: World, swaps: seq<Swap>, k: nat, moved: nat,
                 ok: bool)
    requires k < |swaps| && before <= after && ChainTrace(before, n, w, swaps, k)
    requires k <= moved <= k + 1 && (ok ==> moved == k + 1)
    requires forall i | |before| <= i < |after| :: after[i].after == Swapped(w, swaps, moved)
    requires ok <==> AllOkOf(after, |before|, Moving)
    requires Acts(after, |before|) <= PartsOf(swaps[k]) && (ok ==> Acts(after, |before|) == PartsOf(swaps[k]))
    ensures ok ==> ChainTrace(after, n, w, swaps, k + 1)
    ensures AlwaysSwapped(after, n, w, swaps, moved)
    ensures Acts(after, n) <= Parts(swaps) && AllMoves(Acts(after, n))
    ensures ok <==> AllOkOf(after, n, Moving)
  {
    MoveThenChmod(before, after, n);
    StillSwapped(before, after, n, w, swaps, k, moved);
    PartsSnoc(swaps, k, Acts(before, n), Acts(after, |before|));
    PrefixOfMoves(swaps, Acts(after, n));
  }

  /** The chain one file further on; once it has failed that is its end. */
  lemma NextChain(swaps: seq<Swap>, has: nat -> bool, k: nat, oracle: nat -> Outcome, tick: nat, c: Chain)
    returns (next: Chain)
    requires k < |swaps| && c == RunChain(swaps, has, k, oracle, tick) && c.ok
    ensures next == RunChain(swaps, has, k + 1, oracle, tick)
    ensures var l := LinkAt(swaps, has, k, oracle, tick + c.issued);
      next == Chain(if l.moved then k + 1 else k, c.issued + l.issued, l.ok)
    ensures !next.ok ==> RunChain(swaps, has, |swaps|, oracle, tick) == next
  {
    ChainStep(swaps, has, k, oracle, tick, c);
    var l := LinkAt(swaps, has, k, oracle, tick + c.issued);
    next := Chain(if l.moved then k + 1 else k, c.issued + l.issued, l.ok);
    if !next.ok {
      BrokenChainStays(swaps, has, k + 1, |swaps|, oracle, tick);
    }
  }

  lemma ChainStep(swaps: seq<Swap>, has: nat -> bool, k: nat, oracle: nat -> Outcome, tick: nat, c: Chain)
    requires k < |swaps| && c == RunChain(swaps, has, k, oracle, tick) && c.ok
    ensures var l := LinkAt(swaps, has, k, oracle, tick + c.issued);
      RunChain(swaps, has, k + 1, oracle, tick) == Chain(if l.moved then k + 1 else k, c.issued + l.issued, l.ok)
  {}

  method SwapAll(r: Runner, swaps: seq<Swap>) returns (ok: bool, ghost moved: nat)
    modifies r
    ensures var c := RunChain(swaps, Has(old(r.world.target.files), swaps), |swaps|, r.oracle, old(r.tick));
      moved == c.moved && ok == c.ok
    ensures r.world == Swapped(old(r.world), swaps, moved)
    ensures old(r.trace) <= r.trace && AlwaysSwapped(r.trace, |old(r.trace)|, old(r.world), swaps, moved)
    ensures AllMoves(Acts(r.trace, |old(r.trace)|)) && Acts(r.trace, |old(r.trace)|) <= Parts(swaps)
    ensures ok <==> AllOkOf(r.trace, |old(r.trace)|, Moving)
    ensures ok ==> Acts(r.trace, |old(r.trace)|) == Parts(swaps)
  {
    ghost var w, tick, n := r.world, r.tick, |r.trace|;
    ghost var chain := Chain(0, 0, true);
    moved := 0;
    for k := 0 to |swaps|
      invariant chain == RunChain(swaps, Has(w.target.files, swaps), k, r.oracle, tick)
      invariant chain.ok && r.tick == tick + chain.issued
      invariant moved == k && r.world == Swapped(w, swaps, k)
      invariant old(r.trace) <= r.trace && ChainTrace(r.trace, n, w, swaps, k)
    {
      ghost var before := r.trace;
      ok, moved := SwapOne(r, swaps, k, w);
      NextLink(before, r.trace, n, w, swaps, k, moved, ok);
      chain := NextChain(swaps, Has(w.target.files, swaps), k, r.oracle, tick, chain);
      if !ok {
        return;
      }
    }
    assert swaps[..|swaps|] == swaps;
    PartsAreMoves(swaps);
    ok := true;
  }

  lemma StillSwapped(before: seq<Entry>, after: seq<Entry>, n: nat, w: World, swaps: seq<Swap>, k: nat, moved: nat)
    requires n <= |before| && before <= after && k <= moved <= |swaps|
    requires AlwaysSwapped(before, n, w, swaps, k)
    requires forall i | |before| <= i < |after| :: after[i].after == Swapped(w, swaps, moved)
    ensures AlwaysSwapped(after, n, w, swaps, moved)
  {}

  ghost predicate SwapsDistinct(swaps: seq<Swap>) {
    && (forall i, j | 0 <= i < j < |swaps| ::
          swaps[i].dest != swaps[j].dest && swaps[i].staged != swaps[j].staged)
    && (forall s, u | s in swaps && u in swaps :: s.dest != u.staged)
  }

  ghost predicate AllStaged(files: map<string, Bytes>, swaps: seq<Swap>) {
    forall s | s in swaps :: s.staged in files
  }

  /** The path belongs to one of the first k moves, as source or destination. */
  ghost predicate Touched(swaps: seq<Swap>, k: nat, p: string)
    requires k <= |swaps|
  {
    exists i | 0 <= i < k :: swaps[i].dest == p || swaps[i].staged == p
  }

  ghost predicate SameAt(f: map<string, Bytes>, g: map<string, Bytes>, p: string) {
    (p in f <==> p in g) && (p in f ==> f[p] == g[p])
  }

  lemma {:induction false} SwapUntouched(files: map<string, Bytes>, swaps: seq<Swap>, k: nat, p: string)
    requires k <= |swaps| && !Touched(swaps, k, p)
    ensures SameAt(SwapFiles(files, swaps, k), files, p)
  {
    if k > 0 {
      assert !Touched(swaps, k - 1, p);
      SwapUntouched(files, swaps, k - 1, p);
      assert swaps[k - 1].dest != p && swaps[k - 1].staged != p;
    }
  }

  lemma {:induction false} SwapLands(files: map<string, Bytes>, swaps: seq<Swap>, k: nat, i: nat)
    requires i < k <= |swaps| && SwapsDistinct(swaps) && AllStaged(files, swaps)
    ensures swaps[i].dest in SwapFiles(files, swaps, k)
    ensures SwapFiles(files, swaps, k)[swaps[i].dest] == files[swaps[i].staged]
  {
    var s := swaps[k - 1];
    assert s in swaps && swaps[i] in swaps;
    if i == k - 1 {
      assert !Touched(swaps, k - 1, s.staged) by {
        assert forall j | 0 <= j < k - 1 :: swaps[j] in swaps;
      }
      SwapUntouched(files, swaps, k - 1, s.staged);
    } else {
      SwapLands(files, swaps, k - 1, i);
    }
  }

  /** With distinct paths the first k destinations hold exactly what was staged
      for them, and nothing else has changed. */
  lemma SwapIsPrefix(files: map<string, Bytes>, swaps: seq<Swap>, k: nat)
    requires k <= |swaps| && SwapsDistinct(swaps) && AllStaged(files, swaps)
    ensures forall i | 0 <= i < k ::
      && swaps[i].dest in SwapFiles(files, swaps, k)
      && SwapFiles(files, swaps, k)[swaps[i].dest] == files[swaps[i].staged]
    ensures forall p | !Touched(swaps, k, p) :: SameAt(SwapFiles(files, swaps, k), files, p)
  {
    forall i | 0 <= i < k
      ensures swaps[i].dest in SwapFiles(files, swaps, k)
      ensures SwapFiles(files, swaps, k)[swaps[i].dest] == files[swaps[i].staged]
    {
      SwapLands(files, swaps, k, i);
    }
    forall p | !Touched(swaps, k, p) ensures SameAt(SwapFiles(files, swaps, k), files, p) {
      SwapUntouched(files, swaps, k, p);
    }
  }

  ghost predicate HasAll(swaps: seq<Swap>, has: nat -> bool) {
    forall k: nat | k < |swaps| :: has(k)
  }

  /** With every staged file there, outcomes without a mishap move it all. */
  lemma {:induction false} SmoothChain(swaps: seq<Swap>, has: nat -> bool, n: nat, oracle: nat -> Outcome, tick: nat)
    requires n <= |swaps| && HasAll(swaps, has)
    requires forall i: nat :: Smooth(oracle(i))
    ensures RunChain(swaps, has, n, oracle, tick).ok
  {
    if n > 0 {
      SmoothChain(swaps, has, n - 1, oracle, tick);
      var c := RunChain(swaps, has, n - 1, oracle, tick);
      assert Smooth(oracle(tick + c.issued)) && Smooth(oracle(tick + c.issued + 1));
    }
  }

  /** With distinct paths every staged file is still there when its turn comes. */
  lemma DistinctHasAll(files: map<string, Bytes>, swaps: seq<Swap>)
    requires SwapsDistinct(swaps) && AllStaged(files, swaps)
    ensures HasAll(swaps, Has(files, swaps))
  {
    forall k: nat | k < |swaps| ensures StagedAt(files, swaps, k) {
      assert swaps[k] in swaps;
      assert !Touched(swaps, k, swaps[k].staged) by {
        assert forall j | 0 <= j < k :: swaps[j] in swaps;
      }
      SwapUntouched(files, swaps, k, swaps[k].staged);
    }
  }

  const LOST := LUCKY.(done := false)

  /** The plan line promises an atomic swap. Files go one by one, and a stop after any
      number k of them really occurs: the chain may break off at its next move. */
  lemma EveryStopOccurs(swaps: seq<Swap>, has: nat -> bool, k: nat, tick: nat)
    requires k < |swaps| && HasAll(swaps, has)
    ensures var c := RunChain(swaps, has, |swaps|, LoseMove(swaps, has, k, tick), tick); c.moved == k && !c.ok
  {
    SmoothChain(swaps, has, k, _ => LUCKY, tick);
    var oracle, at := LoseMove(swaps, has, k, tick), tick + RunChain(swaps, has, k, _ => LUCKY, tick).issued;
    SameChain(swaps, has, k, oracle, tick, at);
    var c := RunChain(swaps, has, k, oracle, tick);
    assert LinkAt(swaps, has, k, oracle, tick + c.issued) == Link(false, 1, false);
    BrokenChainStays(swaps, has, k + 1, |swaps|, oracle, tick);
  }

  /** The k-th move is lost, everything else goes well. */
  function LoseMove(swaps: seq<Swap>, has: nat -> bool, k: nat, tick: nat): nat -> Outcome
    requires k <= |swaps|
  {
    var at := tick + RunChain(swaps, has, k, _ => LUCKY, tick).issued;
    (i: nat) => if i == at then LOST else LUCKY
  }

  /** Outcomes past the commands issued make no difference. */
  lemma {:induction false} SameChain(swaps: seq<Swap>, has: nat -> bool, n: nat, a: nat -> Outcome, tick: nat, at: nat)
    requires n <= |swaps| && HasAll(swaps, has)
    requires tick + RunChain(swaps, has, n, _ => LUCKY, tick).issued <= at
    requires forall i: nat | i < at :: a(i) == LUCKY
    ensures RunChain(swaps, has, n, a, tick) == RunChain(swaps, has, n, _ => LUCKY, tick)
  {
    if n > 0 {
      SmoothChain(swaps, has, n - 1, _ => LUCKY, tick);
      SameChain(swaps, has, n - 1, a, tick, at);
      LinkIsSame(swaps[n - 1], LUCKY, a, tick + RunChain(swaps, has, n - 1, _ => LUCKY, tick).issued, at);
    }
  }

  lemma LinkIsSame(s: Swap, o: Outcome, a: nat -> Outcome, from: nat, at: nat)
    requires o == LUCKY && from + RunLink(s, true, o, o).issued <= at
    requires forall i: nat | i < at :: a(i) == o
    ensures RunLink(s, true, a(from), a(from + 1)) == RunLink(s, true, o, o)
  {}

  ghost predicate NoneMoved(files: map<string, Bytes>, now: map<string, Bytes>, swaps: seq<Swap>) {
    forall s | s in swaps :: SameAt(now, files, s.dest)
  }

  ghost predicate AllMoved(files: map<string, Bytes>, now: map<string, Bytes>, swaps: seq<Swap>) {
    forall s | s in swaps :: s.staged in files && s.dest in now && now[s.dest] == files[s.staged]
  }

  ghost predicate AllOrNothing(files: map<string, Bytes>, now: map<string, Bytes>, swaps: seq<Swap>) {
    NoneMoved(files, now, swaps) || AllMoved(files, now, swaps)
  }

  /** Each move brings something new. */
  ghost predicate AllDiffer(files: map<string, Bytes>, swaps: seq<Swap>) {
    forall s | s in swaps :: s.staged in files && !(s.dest in files && files[s.dest] == files[s.staged])
  }

  /** The files after the chain under these outcomes. */
  function AfterChain(files: map<string, Bytes>, swaps: seq<Swap>, oracle: nat -> Outcome,
                      tick: nat): map<string, Bytes>
  {
    SwapFiles(files, swaps, RunChain(swaps, Has(files, swaps), |swaps|, oracle, tick).moved)
  }

  /** So a set of files that bring something new is replaced all or nothing whatever
      the outcomes exactly when it is a single file. */
  lemma SwapIsAtomicIff(files: map<string, Bytes>, swaps: seq<Swap>)
    requires SwapsDistinct(swaps) && AllDiffer(files, swaps)
    ensures (forall oracle, tick :: AllOrNothing(files, AfterChain(files, swaps, oracle, tick), swaps))
       <==> |swaps| <= 1
  {
    if |swaps| <= 1 {
      forall oracle, tick ensures AllOrNothing(files, AfterChain(files, swaps, oracle, tick), swaps) {
        AllOrNothingIff(files, swaps, RunChain(swaps, Has(files, swaps), |swaps|, oracle, tick).moved);
      }
    } else {
      DistinctHasAll(files, swaps);
      EveryStopOccurs(swaps, Has(files, swaps), 1, 0);
      AllOrNothingIff(files, swaps, 1);
      assert !AllOrNothing(files, AfterChain(files, swaps, LoseMove(swaps, Has(files, swaps), 1, 0), 0), swaps);
    }
  }

  /** After k moves: exactly at the two ends of the chain. */
  lemma AllOrNothingIff(files: map<string, Bytes>, swaps: seq<Swap>, k: nat)
    requires k <= |swaps| && SwapsDistinct(swaps) && AllDiffer(files, swaps)
    ensures AllOrNothing(files, SwapFiles(files, swaps, k), swaps) <==> k == 0 || k == |swaps|
  {
    var now := SwapFiles(files, swaps, k);
    SwapIsPrefix(files, swaps, k);
    forall i | k <= i < |swaps| ensures SameAt(now, files, swaps[i].dest) {
      assert swaps[i] in swaps && forall j | 0 <= j < k :: swaps[j] in swaps;
      assert !Touched(swaps, k, swaps[i].dest);
    }
    if 0 < k < |swaps| {
      assert swaps[0] in swaps && swaps[k] in swaps;
    }
  }
}
