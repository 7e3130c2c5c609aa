/** First-time provisioning of a host (src/solfleet/provision.py). */
module Provision {
  import opened Text
  import opened Config
  import opened Safety
  import opened Audit
  import opened Catchup
  import opened Remote
  import opened Builder
  import opened Layout
  import opened Executor
  import opened Distribution
  import opened Operations

  const GIB := 1024 * 1024 * 1024
  const MIN_RAM_GIB := 8
  const MIN_CORES := 8

  /** How far behind and for how long a fresh node may be. */
  datatype Limits = Limits(maxLag: int, timeoutS: int)

  // ---- preflight ----------------------------------------------------------

  /** `int(s) if s.isdigit() else None`, and None for a missing line. */
  function Number(s: Option<string>): Option<nat> {
    if s.None? || s.value == "" || !AllDigits(s.value) then None
    else Some(Digits(s.value))
  }

  function AtLeast(n: Option<nat>, least: nat): bool {
    n.Some? && n.value >= least
  }

  function PreflightChecks(facts: CommandResult): seq<Check> {
    [Check(Ok(facts), Unreachable),
     Check(ValueOf(facts.words, "arch=") == Some("x86_64"), WrongArch),
     Check(AtLeast(Number(ValueOf(facts.words, "cores=")), MIN_CORES), FewCores),
     Check(AtLeast(Number(ValueOf(facts.words, "ram=")), MIN_RAM_GIB * GIB), LittleRam)]
  }

  function ProvisionChecks(f: Fleet, install: Option<Install>, facts: CommandResult): seq<Check> {
    [Check(Failed(PreflightChecks(facts)) == [], PreflightBlocks),
     Check(install.Some? && install.value.builder.Some?, NoBuilder),
     Check(BuilderOf(f, install).Some?, BuilderNotFound)]
  }

  function ProvisionDecision(f: Fleet, found: Found, confirm: bool, facts: CommandResult): Decision {
    Gate(confirm, ProvisionChecks(f, found.cluster.install, facts))
  }

  lemma AllowedProvision(f: Fleet, found: Found, confirm: bool, facts: CommandResult)
    ensures InMode(ProvisionDecision(f, found, confirm, facts), confirm)
    ensures ProvisionDecision(f, found, confirm, facts).allowed <==>
      HostIsFit(facts) && KnowsBuilder(f, found.cluster)
  {
    var checks := ProvisionChecks(f, found.cluster.install, facts);
    GateTruthful(confirm, checks);
    FailedEmptyIff(PreflightChecks(facts));
    PreflightIff(facts);
    assert checks[0] in checks && checks[1] in checks && checks[2] in checks;
  }

  /** Each reason is given exactly when what it names is the case. */
  lemma ProvisionReasons(f: Fleet, found: Found, confirm: bool, facts: CommandResult)
    ensures var reasons, install := ProvisionDecision(f, found, confirm, facts).reasons, found.cluster.install;
      && (PreflightBlocks in reasons <==> !HostIsFit(facts))
      && (NoBuilder in reasons <==> install.None? || install.value.builder.None?)
      && (BuilderNotFound in reasons <==> !KnowsBuilder(f, found.cluster))
  {
    var checks := ProvisionChecks(f, found.cluster.install, facts);
    FailedEmptyIff(PreflightChecks(facts));
    PreflightIff(facts);
    ReasonAt(confirm, checks, 0);
    ReasonAt(confirm, checks, 1);
    ReasonAt(confirm, checks, 2);
  }

  /** The last line for the key is a number and at least this. */
  ghost predicate LastNumberIs(words: seq<string>, key: string, least: nat) {
    exists v :: LastWord(words, key, v) && IsNumber(v) && Digits(v) >= least
  }

  ghost predicate IsNumber(s: string) {
    s != "" && forall i | 0 <= i < |s| :: '0' <= s[i] <= '9'
  }

  /** Reachable, x86_64, eight cores and eight GiB of RAM at least. */
  ghost predicate HostIsFit(facts: CommandResult) {
    && facts.exitCode == 0
    && LastWord(facts.words, "arch=", "x86_64")
    && LastNumberIs(facts.words, "cores=", 8)
    && LastNumberIs(facts.words, "ram=", 8589934592)
  }

  lemma NumberIff(words: seq<string>, key: string, least: nat)
    requires least > 0
    ensures AtLeast(Number(ValueOf(words, key)), least) <==> LastNumberIs(words, key, least)
  {
    var v := ValueOf(words, key);
    if v.Some? {
      ValueIs(words, key, v.value);
    }
    if LastNumberIs(words, key, least) {
      var w :| LastWord(words, key, w) && IsNumber(w) && Digits(w) >= least;
      ValueIs(words, key, w);
    }
  }

  lemma PreflightIff(facts: CommandResult)
    ensures AllPass(PreflightChecks(facts)) <==> HostIsFit(facts)
  {
    var checks := PreflightChecks(facts);
    ValueIs(facts.words, "arch=", "x86_64");
    NumberIff(facts.words, "cores=", 8);
    NumberIff(facts.words, "ram=", 8589934592);
    assert checks[0] in checks && checks[1] in checks && checks[2] in checks && checks[3] in checks;
  }

  // ---- disks --------------------------------------------------------------

  datatype DiskAction = MountOnly | Refuse | Format

  /** What happens to a block device once its probe has printed something or not. */
  function Decide(disk: Disk, allowFormat: set<string>, empty: bool): DiskAction {
    if !disk.format then MountOnly
    else if disk.device !in allowFormat || !empty then Refuse
    else Format
  }

  /** What decides over a format: the exit status of the probe does not. */
  predicate Formats(disk: Disk, allowFormat: set<string>, answer: CommandResult) {
    disk.fs != Tmpfs && disk.format && disk.device in allowFormat && answer.words == []
  }

  /** What the probe of the disk answers under this outcome. */
  function ProbeAnswer(t: Toolchain, w: World, disk: Disk, o: Outcome): CommandResult {
    Exec(t, w, DeviceProbe(disk.device), o).1
  }

  /** Some runner gets a device in use formatted exactly when it is a block device
      configured and acknowledged for formatting: a probe that fails without printing
      anything is enough. */
  lemma FormatsDeviceInUseIff(t: Toolchain, w: World, disk: Disk, allowFormat: set<string>)
    requires disk.device in w.target.occupied
    ensures (exists o :: Formats(disk, allowFormat, ProbeAnswer(t, w, disk, o)))
       <==> disk.fs != Tmpfs && disk.format && disk.device in allowFormat
  {
    assert ProbeAnswer(t, w, disk, SILENT).words == [];
  }

  /** A probe that fails before it looks: no connection, say. */
  const SILENT := LUCKY.(honest := false, done := false, clean := false, code := 255)

  ghost predicate SameLive(was: Target, now: Target) {
    now == was.(occupied := now.occupied)
  }

  /** Since entry n the live files and the service are what they were. */
  ghost predicate AlwaysSameLive(trace: seq<Entry>, n: nat, was: Target) {
    forall i | n <= i < |trace| :: SameLive(was, trace[i].after.target)
  }

  ghost predicate IsHostSetup(c: Command) {
    c.EnsureUser? || c.ApplySystem? || c.Mkfs? || c.MountDevice? || c.MountTmpfs?
  }

  ghost predicate AllHostSetup(cs: seq<Command>) {
    forall c | c in cs :: IsHostSetup(c)
  }

  /** The mkfs at entry i follows an empty probe of the same device. */
  ghost predicate Probed(trace: seq<Entry>, n: nat, i: nat)
    requires i < |trace| && trace[i].cmd.Mkfs?
  {
    i > n && trace[i - 1].cmd == DeviceProbe(trace[i].cmd.device) && trace[i - 1].result.words == []
  }

  ghost predicate Requested(disks: seq<Disk>, allowFormat: set<string>, device: string) {
    device in allowFormat && exists d | d in disks :: d.device == device && d.format && d.fs != Tmpfs
  }

  /** Every mkfs since entry n was configured, acknowledged and probed. */
  ghost predicate MkfsGuarded(trace: seq<Entry>, n: nat, disks: seq<Disk>, allowFormat: set<string>) {
    forall i | n <= i < |trace| && trace[i].cmd.Mkfs? ::
      Probed(trace, n, i) && Requested(disks, allowFormat, trace[i].cmd.device)
  }

  // ---- the ledger of formats ----------------------------------------------

  function Occupied(e: Entry): set<string> {
    e.after.target.occupied
  }

  /** What holds of a whole history of truthful probes: devices in use only ever
      become more, up to `now`, and a mkfs only ever meets a blank device. */
  ghost predicate Ledger(trace: seq<Entry>, n: nat, now: set<string>) {
    && (forall i | n <= i < |trace| :: Occupied(trace[i]) <= now)
    && (forall i, j | n <= i < j < |trace| :: Occupied(trace[i]) <= Occupied(trace[j]))
    && (forall j | n <= j < |trace| && trace[j].cmd.Mkfs? ::
          Probed(trace, n, j) && trace[j].cmd.device !in Occupied(trace[j - 1]))
  }

  /** So no device is formatted again once a format of it has taken effect. */
  lemma FormattedOnce(trace: seq<Entry>, n: nat, now: set<string>, i: nat, j: nat)
    requires Ledger(trace, n, now) && n <= i < j < |trace|
    requires trace[i].cmd.Mkfs? && trace[i].cmd.device in Occupied(trace[i])
    ensures trace[j].cmd != trace[i].cmd
  {}

  lemma LedgerStep(trace: seq<Entry>, n: nat, now: set<string>, e: Entry)
    requires n <= |trace| && Ledger(trace, n, now) && now <= Occupied(e)
    requires e.cmd.Mkfs? ==>
      && |trace| > n && trace[|trace| - 1].cmd == DeviceProbe(e.cmd.device)
      && trace[|trace| - 1].result.words == [] && e.cmd.device !in now
    ensures Ledger(trace + [e], n, Occupied(e))
  {}

  /** Nothing in this stretch formats or frees a device. */
  ghost predicate Calm(trace: seq<Entry>, n: nat, now: set<string>) {
    forall i | n <= i < |trace| :: Occupied(trace[i]) == now && !trace[i].cmd.Mkfs?
  }

  lemma LedgerCalm(early: seq<Entry>, late: seq<Entry>, n: nat, now: set<string>)
    requires n <= |early| && early <= late && Ledger(early, n, now) && Calm(late, |early|, now)
    ensures Ledger(late, n, now)
  {}

  /** A stretch that keeps every ledger there is. */
  ghost predicate KeepsLedger(t0: seq<Entry>, t1: seq<Entry>, occ0: set<string>, occ1: set<string>) {
    forall n: nat | n <= |t0| && Ledger(t0, n, occ0) :: Ledger(t1, n, occ1)
  }

  lemma KeepsLedgerThen(t0: seq<Entry>, t1: seq<Entry>, t2: seq<Entry>, occ0: set<string>, occ1: set<string>,
                        occ2: set<string>)
    requires t0 <= t1 && KeepsLedger(t0, t1, occ0, occ1) && KeepsLedger(t1, t2, occ1, occ2)
    ensures KeepsLedger(t0, t2, occ0, occ2)
  {}

  lemma CalmKeepsLedger(t0: seq<Entry>, t1: seq<Entry>, occ: set<string>)
    requires t0 <= t1 && Calm(t1, |t0|, occ)
    ensures KeepsLedger(t0, t1, occ, occ)
  {
    forall n: nat | n <= |t0| && Ledger(t0, n, occ) ensures Ledger(t1, n, occ) {
      LedgerCalm(t0, t1, n, occ);
    }
  }

  lemma FormatKeepsLedger(t0: seq<Entry>, t1: seq<Entry>, t2: seq<Entry>, d: string, occ: set<string>)
    requires |t1| == |t0| + 1 && t0 <= t1 && |t2| == |t1| + 1 && t1 <= t2
    requires t1[|t0|].cmd == DeviceProbe(d) && t1[|t0|].result.words == [] && Occupied(t1[|t0|]) == occ && d !in occ
    requires t2[|t1|].cmd == Mkfs(d) && occ <= Occupied(t2[|t1|])
    ensures KeepsLedger(t0, t2, occ, Occupied(t2[|t1|]))
  {
    assert t0 + [t1[|t0|]] == t1 && t1 + [t2[|t1|]] == t2;
    forall n: nat | n <= |t0| && Ledger(t0, n, occ) ensures Ledger(t2, n, Occupied(t2[|t1|])) {
      LedgerStep(t0, n, occ, t1[|t0|]);
      LedgerStep(t1, n, occ, t2[|t1|]);
    }
  }

  // ---- one disk -----------------------------------------------------------

  datatype DiskResult = DiskResult(formatted: bool, ok: bool)

  /** One more entry, for command c. */
  ghost predicate OneMore(t0: seq<Entry>, t1: seq<Entry>, c: Command, now: World) {
    && |t1| == |t0| + 1 && t0 <= t1
    && t1[|t0|].cmd == c && t1[|t0|].after == now
  }

  method ProbeDevice(r: Runner, device: string) returns (empty: bool)
    modifies r
    ensures r.world == old(r.world) && OneMore(old(r.trace), r.trace, DeviceProbe(device), r.world)
    ensures r.trace[|old(r.trace)|].result == Exec(r.tools, old(r.world), DeviceProbe(device), r.oracle(old(r.tick))).1
    ensures empty <==> r.trace[|old(r.trace)|].result.words == []
    ensures r.oracle(old(r.tick)).honest ==> (empty <==> device !in r.world.target.occupied)
    ensures AllSmooth(r) ==> (empty <==> device !in r.world.target.occupied)
  {
    assert AllSmooth(r) ==> Smooth(r.oracle(r.tick));
    var probe := r.Run(DeviceProbe(device));
    empty := probe.words == [];
  }

  method MakeFileSystem(r: Runner, device: string) returns (ok: bool)
    modifies r
    ensures OneMore(old(r.trace), r.trace, Mkfs(device), r.world)
    ensures ok <==> Ok(r.trace[|old(r.trace)|].result)
    ensures r.world.build == old(r.world.build) && SameLive(old(r.world.target), r.world.target)
    ensures old(r.world.target.occupied) <= r.world.target.occupied <= old(r.world.target.occupied) + {device}
    ensures ok ==> device in r.world.target.occupied
    ensures AllSmooth(r) ==> ok
  {
    assert AllSmooth(r) ==> Smooth(r.oracle(r.tick));
    var mkfs := r.Run(Mkfs(device));
    ok := Ok(mkfs);
  }

  method HostAct(r: Runner, c: Command) returns (ok: bool)
    requires c.MountDevice? || c.MountTmpfs? || c.EnsureUser? || c.ApplySystem?
    modifies r
    ensures r.world == old(r.world) && OneMore(old(r.trace), r.trace, c, r.world)
    ensures ok <==> Ok(r.trace[|old(r.trace)|].result)
    ensures AllSmooth(r) ==> (ok <==> Feasible(r.world, c))
  {
    assert AllSmooth(r) ==> Smooth(r.oracle(r.tick));
    var res := r.Run(c);
    ok := Ok(res);
  }

  /** Only reads and host set-up commands since entry n. */
  ghost predicate HostOnly(trace: seq<Entry>, n: nat) {
    forall i | n <= i < |trace| :: ReadOnly(trace[i].cmd) || IsHostSetup(trace[i].cmd)
  }

  /** What the commands of one disk are, told by the answer of its probe. */
  ghost predicate DiskRun(trace: seq<Entry>, n: nat, disk: Disk, allowFormat: set<string>, res: DiskResult) {
    if disk.fs == Tmpfs then
      && |trace| == n + 1 && trace[n].cmd == MountTmpfs(disk.mount)
      && res == DiskResult(false, Ok(trace[n].result))
    else
      && |trace| > n && trace[n].cmd == DeviceProbe(disk.device)
      && match Decide(disk, allowFormat, trace[n].result.words == [])
         case Refuse => |trace| == n + 1 && res == DiskResult(false, false)
         case MountOnly =>
           && |trace| == n + 2 && trace[n + 1].cmd == MountDevice(disk.device)
           && res == DiskResult(false, Ok(trace[n + 1].result))
         case Format =>
           && |trace| > n + 1 && trace[n + 1].cmd == Mkfs(disk.device)
           && if Ok(trace[n + 1].result)
              then |trace| == n + 3 && trace[n + 2].cmd == MountDevice(disk.device)
                && res == DiskResult(true, Ok(trace[n + 2].result))
              else |trace| == n + 2 && res == DiskResult(false, false)
  }

  ghost predicate Issued(trace: seq<Entry>, n: nat, c: Command) {
    exists i | n <= i < |trace| :: trace[i].cmd == c
  }

  /** A disk is formatted exactly as its probe decides. */
  lemma MkfsIssuedIff(trace: seq<Entry>, n: nat, disk: Disk, allowFormat: set<string>, res: DiskResult)
    requires DiskRun(trace, n, disk, allowFormat, res)
    ensures Issued(trace, n, Mkfs(disk.device)) <==> Formats(disk, allowFormat, trace[n].result)
  {
    if Formats(disk, allowFormat, trace[n].result) {
      assert trace[n + 1].cmd == Mkfs(disk.device);
    }
  }

  /** A disk that can be set up as configured: nothing to look at, or a device in use
      that is only mounted, or a blank one acknowledged for formatting. */
  predicate Fits(disk: Disk, allowFormat: set<string>, occupied: set<string>) {
    || disk.fs == Tmpfs
    || (if disk.format then disk.device in allowFormat && disk.device !in occupied else disk.device in occupied)
  }

  /** The devices in use after the first k disks. */
  function OccupiedAfter(disks: seq<Disk>, allowFormat: set<string>, occupied: set<string>, k: nat): set<string>
    requires k <= |disks|
  {
    if k == 0 then occupied
    else
      AfterDisk(disks[k - 1], allowFormat, OccupiedAfter(disks, allowFormat, occupied, k - 1))
  }

  function AfterDisk(d: Disk, allowFormat: set<string>, occupied: set<string>): set<string> {
    if d.fs != Tmpfs && d.format && Fits(d, allowFormat, occupied) then occupied + {d.device} else occupied
  }

  ghost predicate FitsAt(disks: seq<Disk>, allowFormat: set<string>, occupied: set<string>, k: nat)
    requires k < |disks|
  {
    Fits(disks[k], allowFormat, OccupiedAfter(disks, allowFormat, occupied, k))
  }

  /** Every disk fits in its turn. */
  ghost predicate DisksFit(disks: seq<Disk>, allowFormat: set<string>, occupied: set<string>) {
    forall k | 0 <= k < |disks| :: FitsAt(disks, allowFormat, occupied, k)
  }

  lemma {:induction false} OccupiedGrows(disks: seq<Disk>, allowFormat: set<string>, occupied: set<string>, j: nat,
                                         k: nat)
    requires j <= k <= |disks|
    ensures OccupiedAfter(disks, allowFormat, occupied, j) <= OccupiedAfter(disks, allowFormat, occupied, k)
  {
    if j < k {
      OccupiedGrows(disks, allowFormat, occupied, j, k - 1);
    }
  }

  predicate Formattable(d: Disk) {
    d.fs != Tmpfs && d.format
  }

  lemma {:induction false} NothingFormatted(disks: seq<Disk>, allowFormat: set<string>, occupied: set<string>, k: nat)
    requires k <= |disks| && forall d | d in disks :: !Formattable(d)
    ensures OccupiedAfter(disks, allowFormat, occupied, k) == occupied
  {
    if k > 0 {
      NothingFormatted(disks, allowFormat, occupied, k - 1);
      assert disks[k - 1] in disks;
    }
  }

  /** A run that has set up every disk can be repeated exactly when none of them is
      configured for formatting: a device formatted before is refused. */
  lemma RerunFitsIff(disks: seq<Disk>, allowFormat: set<string>, occupied: set<string>)
    requires DisksFit(disks, allowFormat, occupied)
    ensures DisksFit(disks, allowFormat, OccupiedAfter(disks, allowFormat, occupied, |disks|)) <==>
      forall d | d in disks :: !Formattable(d)
  {
    var again := OccupiedAfter(disks, allowFormat, occupied, |disks|);
    if forall d | d in disks :: !Formattable(d) {
      NothingFormatted(disks, allowFormat, occupied, |disks|);
    } else {
      var k :| 0 <= k < |disks| && Formattable(disks[k]);
      assert FitsAt(disks, allowFormat, occupied, k);
      assert disks[k].device in OccupiedAfter(disks, allowFormat, occupied, k + 1);
      OccupiedGrows(disks, allowFormat, occupied, k + 1, |disks|);
      OccupiedGrows(disks, allowFormat, again, 0, k);
      assert !FitsAt(disks, allowFormat, again, k);
    }
  }

  ghost predicate Honest(r: Runner) {
    forall i: nat :: r.oracle(i).honest
  }

  /** What setting up one disk keeps. */
  ghost predicate DiskKept(t0: seq<Entry>, t1: seq<Entry>, was: World, now: World, honest: bool) {
    && t0 <= t1
    && now.build == was.build && SameLive(was.target, now.target)
    && AlwaysSameLive(t1, |t0|, was.target)
    && (honest ==> KeepsLedger(t0, t1, was.target.occupied, now.target.occupied))
  }

  method SetupDisk(r: Runner, disk: Disk, allowFormat: set<string>) returns (res: DiskResult)
    modifies r
    ensures DiskRun(r.trace, |old(r.trace)|, disk, allowFormat, res)
    ensures DiskKept(old(r.trace), r.trace, old(r.world), r.world, Honest(r))
    ensures res.ok && res.formatted ==> disk.device in r.world.target.occupied
    // in use or not, the device is formatted exactly as the answer to its probe decides
    ensures Issued(r.trace, |old(r.trace)|, Mkfs(disk.device))
      <==> Formats(disk, allowFormat, ProbeAnswer(r.tools, old(r.world), disk, r.oracle(old(r.tick))))
    // with no mishap, exactly a disk that fits is set up
    ensures AllSmooth(r) ==>
      && (res.ok <==> Fits(disk, allowFormat, old(r.world.target.occupied)))
      && r.world.target.occupied == AfterDisk(disk, allowFormat, old(r.world.target.occupied))
  {
    ghost var n := |r.trace|;
    if disk.fs == Tmpfs {
      ghost var t0 := r.trace;
      var ok := HostAct(r, MountTmpfs(disk.mount));
      CalmKeepsLedger(t0, r.trace, r.world.target.occupied);
      res := DiskResult(false, ok);
    } else {
      res := SetupDevice(r, disk, allowFormat);
    }
    MkfsIssuedIff(r.trace, n, disk, allowFormat, res);
  }

  /** For any block device in use that is configured and acknowledged for formatting:
      a run in which it is formatted. */
  method FormatInUse(tools: Toolchain, start: World, disk: Disk, allowFormat: set<string>)
    returns (r: Runner, res: DiskResult)
    requires disk.device in start.target.occupied
    requires disk.fs != Tmpfs && disk.format && disk.device in allowFormat
    ensures r.world.build == start.build && Issued(r.trace, 0, Mkfs(disk.device))
  {
    r := new Runner(tools, (i: nat) => if i == 0 then SILENT else LUCKY, start);
    res := SetupDisk(r, disk, allowFormat);
  }

  /** A block device is looked at before any destructive step. */
  method SetupDevice(r: Runner, disk: Disk, allowFormat: set<string>) returns (res: DiskResult)
    requires disk.fs != Tmpfs
    modifies r
    ensures DiskRun(r.trace, |old(r.trace)|, disk, allowFormat, res)
    ensures r.trace[|old(r.trace)|].result == ProbeAnswer(r.tools, old(r.world), disk, r.oracle(old(r.tick)))
    ensures DiskKept(old(r.trace), r.trace, old(r.world), r.world, Honest(r))
    ensures res.ok && res.formatted ==> disk.device in r.world.target.occupied
    ensures AllSmooth(r) ==>
      && (res.ok <==> Fits(disk, allowFormat, old(r.world.target.occupied)))
      && r.world.target.occupied == AfterDisk(disk, allowFormat, old(r.world.target.occupied))
  {
    ghost var t0 := r.trace;
    var empty := ProbeDevice(r, disk.device);
    ghost var t1 := r.trace;
    assert t1[..|t0|] == t0;
    CalmKeepsLedger(t0, t1, r.world.target.occupied);
    var action := Decide(disk, allowFormat, empty);
    if action.MountOnly? {
      res := MountOnlyDisk(r, disk.device, |t0|);
    } else if action.Format? {
      res := FormatAndMount(r, disk.device, |t0|);
    } else {
      res := DiskResult(false, false);
    }
  }

  /** Past a probe at entry n, the last so far. */
  method MountOnlyDisk(r: Runner, device: string, ghost n: nat) returns (res: DiskResult)
    requires |r.trace| == n + 1 && r.trace[n].cmd == DeviceProbe(device) && r.trace[n].after == r.world
    modifies r
    ensures old(r.trace) <= r.trace && |r.trace| == n + 2 && r.trace[n + 1].cmd == MountDevice(device)
    ensures res == DiskResult(false, Ok(r.trace[n + 1].result)) && r.world == old(r.world)
    ensures DiskKept(old(r.trace)[..n], r.trace, old(r.world), r.world, Honest(r))
    ensures AllSmooth(r) ==> (res.ok <==> device in r.world.target.occupied)
  {
    ghost var t0 := r.trace[..n];
    var ok := HostAct(r, MountDevice(device));
    CalmKeepsLedger(t0, r.trace, r.world.target.occupied);
    res := DiskResult(false, ok);
  }

  /** Past an empty probe at entry n, the last so far. */
  method FormatAndMount(r: Runner, device: string, ghost n: nat) returns (res: DiskResult)
    requires |r.trace| == n + 1 && r.trace[n].cmd == DeviceProbe(device) && r.trace[n].after == r.world
    requires r.trace[n].result.words == []
    requires Honest(r) || AllSmooth(r) ==> device !in r.world.target.occupied
    modifies r
    ensures old(r.trace) <= r.trace && |r.trace| > n + 1 && r.trace[n + 1].cmd == Mkfs(device)
    ensures if Ok(r.trace[n + 1].result)
            then |r.trace| == n + 3 && r.trace[n + 2].cmd == MountDevice(device)
              && res == DiskResult(true, Ok(r.trace[n + 2].result))
            else |r.trace| == n + 2 && res == DiskResult(false, false)
    ensures DiskKept(old(r.trace)[..n], r.trace, old(r.world), r.world, Honest(r))
    ensures res.formatted ==> device in r.world.target.occupied
    ensures AllSmooth(r) ==> res.ok && r.world.target.occupied == old(r.world.target.occupied) + {device}
  {
    ghost var t0, t1, w0 := r.trace[..n], r.trace, r.world;
    var formatted := MakeFileSystem(r, device);
    ghost var t2, occ2 := r.trace, r.world.target.occupied;
    if Honest(r) {
      FormatKeepsLedger(t0, t1, t2, device, w0.target.occupied);
    }
    if !formatted {
      return DiskResult(false, false);
    }
    var ok := HostAct(r, MountDevice(device));
    CalmKeepsLedger(t2, r.trace, occ2);
    if Honest(r) {
      KeepsLedgerThen(t0, t2, r.trace, w0.target.occupied, occ2, occ2);
    }
    res := DiskResult(true, ok);
  }

  // ---- all disks ----------------------------------------------------------

  /** Disk k was handled by entries at[k] up to at[k + 1], one after the other. */
  ghost predicate DisksRun(trace: seq<Entry>, n: nat, disks: seq<Disk>, allowFormat: set<string>,
                           results: seq<DiskResult>, at: seq<nat>)
  {
    && |results| <= |disks| && |at| == |results| + 1
    && at[0] == n && at[|results|] == |trace|
    && (forall k, l | 0 <= k <= l < |at| :: at[k] <= at[l] <= |trace|)
    && (forall k | 0 <= k < |results| :: DiskRun(trace[..at[k + 1]], at[k], disks[k], allowFormat, results[k]))
  }

  /** The host set-up part since entry n: what it issues and what it keeps. */
  ghost predicate HostStretch(trace: seq<Entry>, n: nat, was: World, now: World, disks: seq<Disk>,
                              allowFormat: set<string>)
  {
    && HostOnly(trace, n) && MkfsGuarded(trace, n, disks, allowFormat)
    && AlwaysSameLive(trace, n, was.target)
    && now.build == was.build && SameLive(was.target, now.target)
  }

  lemma DiskIsHostStretch(t0: seq<Entry>, t1: seq<Entry>, n: nat, was: World, mid: World, now: World, disks: seq<Disk>,
                          allowFormat: set<string>, disk: Disk, res: DiskResult)
    requires n <= |t0| && t0 <= t1 && disk in disks
    requires HostStretch(t0, n, was, mid, disks, allowFormat)
    requires DiskRun(t1, |t0|, disk, allowFormat, res) && AlwaysSameLive(t1, |t0|, mid.target)
    requires now.build == mid.build && SameLive(mid.target, now.target)
    ensures HostStretch(t1, n, was, now, disks, allowFormat)
  {
    forall i | n <= i < |t1|
      ensures ReadOnly(t1[i].cmd) || IsHostSetup(t1[i].cmd)
      ensures SameLive(was.target, t1[i].after.target)
    {
      if i < |t0| {
        assert t1[i] == t0[i];
      }
    }
    forall i | n <= i < |t1| && t1[i].cmd.Mkfs?
      ensures Probed(t1, n, i) && Requested(disks, allowFormat, t1[i].cmd.device)
    {
      if i < |t0| {
        assert t1[i] == t0[i];
        assert Probed(t0, n, i);
      }
    }
  }

  lemma DisksRunMore(t0: seq<Entry>, t1: seq<Entry>, n: nat, disks: seq<Disk>, allowFormat: set<string>,
                     results: seq<DiskResult>, at: seq<nat>, res: DiskResult)
    requires DisksRun(t0, n, disks, allowFormat, results, at) && |results| < |disks| && t0 <= t1
    requires DiskRun(t1, |t0|, disks[|results|], allowFormat, res)
    ensures DisksRun(t1, n, disks, allowFormat, results + [res], at + [|t1|])
  {
    var more, ats := results + [res], at + [|t1|];
    forall k | 0 <= k < |more| ensures DiskRun(t1[..ats[k + 1]], ats[k], disks[k], allowFormat, more[k]) {
      if k < |results| {
        assert t1[..ats[k + 1]] == t0[..at[k + 1]];
      } else {
        assert t1[..ats[k + 1]] == t1;
      }
    }
  }

  ghost predicate ResultsFit(disks: seq<Disk>, allowFormat: set<string>, was: set<string>, results: seq<DiskResult>,
                             now: set<string>)
  {
    && |results| <= |disks|
    && now == OccupiedAfter(disks, allowFormat, was, |results|)
    && forall k | 0 <= k < |results| :: results[k].ok <==> FitsAt(disks, allowFormat, was, k)
  }

  lemma ResultsFitNext(disks: seq<Disk>, allowFormat: set<string>, was: set<string>, results: seq<DiskResult>,
                       mid: set<string>, res: DiskResult, now: set<string>)
    requires |results| < |disks| && ResultsFit(disks, allowFormat, was, results, mid)
    requires res.ok <==> Fits(disks[|results|], allowFormat, mid)
    requires now == AfterDisk(disks[|results|], allowFormat, mid)
    ensures ResultsFit(disks, allowFormat, was, results + [res], now)
  {}

  lemma AllOkIff(disks: seq<Disk>, allowFormat: set<string>, was: set<string>, results: seq<DiskResult>,
                 now: set<string>)
    requires ResultsFit(disks, allowFormat, was, results, now) && |results| == |disks|
    ensures AllOk(results) <==> DisksFit(disks, allowFormat, was)
  {
    if AllOk(results) {
      forall k | 0 <= k < |disks| ensures FitsAt(disks, allowFormat, was, k) {
        assert results[k] in results;
      }
    }
  }

  method SetupDisks(r: Runner, disks: seq<Disk>, allowFormat: set<string>)
    returns (results: seq<DiskResult>, ghost at: seq<nat>)
    modifies r
    ensures old(r.trace) <= r.trace
    // every disk is handled, even after one has failed
    ensures |results| == |disks| && DisksRun(r.trace, |old(r.trace)|, disks, allowFormat, results, at)
    ensures HostStretch(r.trace, |old(r.trace)|, old(r.world), r.world, disks, allowFormat)
    ensures Honest(r) ==>
      KeepsLedger(old(r.trace), r.trace, old(r.world.target.occupied), r.world.target.occupied)
    ensures AllSmooth(r) ==>
      ResultsFit(disks, allowFormat, old(r.world.target.occupied), results, r.world.target.occupied)
  {
    ghost var t0, w0 := r.trace, r.world;
    results, at := [], [|t0|];
    for k := 0 to |disks|
      invariant t0 <= r.trace
      invariant |results| == k && DisksRun(r.trace, |t0|, disks, allowFormat, results, at)
      invariant HostStretch(r.trace, |t0|, w0, r.world, disks, allowFormat)
      invariant Honest(r) ==> KeepsLedger(t0, r.trace, w0.target.occupied, r.world.target.occupied)
      invariant AllSmooth(r) ==> ResultsFit(disks, allowFormat, w0.target.occupied, results, r.world.target.occupied)
    {
      ghost var t1, w1 := r.trace, r.world;
      var res := SetupDisk(r, disks[k], allowFormat);
      DiskIsHostStretch(t1, r.trace, |t0|, w0, w1, r.world, disks, allowFormat, disks[k], res);
      DisksRunMore(t1, r.trace, |t0|, disks, allowFormat, results, at, res);
      if Honest(r) {
        KeepsLedgerThen(t0, t1, r.trace, w0.target.occupied, w1.target.occupied, r.world.target.occupied);
      }
      if AllSmooth(r) {
        ResultsFitNext(disks, allowFormat, w0.target.occupied, results, w1.target.occupied, res,
                       r.world.target.occupied);
      }
      results, at := results + [res], at + [|r.trace|];
    }
  }

  lemma HostActs(trace: seq<Entry>, n: nat)
    requires HostOnly(trace, n)
    ensures AllHostSetup(Acts(trace, n))
  {}

  ghost predicate AllOk(disks: seq<DiskResult>) {
    forall d | d in disks :: d.ok
  }

  lemma HostActsFirst(t0: seq<Entry>, t2: seq<Entry>, t3: seq<Entry>, was: World, now: World, disks: seq<Disk>,
                      allowFormat: set<string>)
    requires |t2| == |t0| + 2 && t0 <= t2 && t2 <= t3
    requires t2[|t0|].cmd.EnsureUser? && t2[|t0| + 1].cmd.ApplySystem?
    requires t2[|t0|].after == was && t2[|t0| + 1].after == was
    requires HostStretch(t3, |t2|, was, now, disks, allowFormat)
    ensures HostStretch(t3, |t0|, was, now, disks, allowFormat)
  {}

  /** User, system tuning, disks: each is tried whatever became of the others. */
  method PrepareHost(r: Runner, node: Node, allowFormat: set<string>)
    returns (userOk: bool, systemOk: bool, disks: seq<DiskResult>, ghost at: seq<nat>)
    modifies r
    ensures old(r.trace) <= r.trace && |disks| == |node.disks|
    ensures DisksRun(r.trace, |old(r.trace)| + 2, node.disks, allowFormat, disks, at)
    ensures r.trace[|old(r.trace)|].cmd == EnsureUser && r.trace[|old(r.trace)| + 1].cmd == ApplySystem
    ensures userOk <==> Ok(r.trace[|old(r.trace)|].result)
    ensures systemOk <==> Ok(r.trace[|old(r.trace)| + 1].result)
    ensures HostStretch(r.trace, |old(r.trace)|, old(r.world), r.world, node.disks, allowFormat)
    ensures AllHostSetup(Acts(r.trace, |old(r.trace)|))
    ensures Honest(r) ==>
      KeepsLedger(old(r.trace), r.trace, old(r.world.target.occupied), r.world.target.occupied)
    ensures AllSmooth(r) ==>
      userOk && systemOk && (AllOk(disks) <==> DisksFit(node.disks, allowFormat, old(r.world.target.occupied)))
  {
    ghost var t0, w0 := r.trace, r.world;
    userOk := HostAct(r, EnsureUser);
    systemOk := HostAct(r, ApplySystem);
    ghost var t2 := r.trace;
    CalmKeepsLedger(t0, t2, w0.target.occupied);
    disks, at := SetupDisks(r, node.disks, allowFormat);
    HostActsFirst(t0, t2, r.trace, w0, r.world, node.disks, allowFormat);
    HostActs(r.trace, |t0|);
    if AllSmooth(r) {
      AllOkIff(node.disks, allowFormat, w0.target.occupied, disks, r.world.target.occupied);
    }
    if Honest(r) {
      KeepsLedgerThen(t0, t2, r.trace, w0.target.occupied, w0.target.occupied, r.world.target.occupied);
    }
  }

  // ---- software -----------------------------------------------------------

  lemma PreparingIsCalm(trace: seq<Entry>, n: nat, was: Target, node: Node, names: seq<string>)
    requires AlwaysStagedOnly(trace, n, was, node, names) && AllPrep(Acts(trace, n))
    ensures Calm(trace, n, was.occupied)
  {
    forall i | n <= i < |trace| ensures Occupied(trace[i]) == was.occupied && !trace[i].cmd.Mkfs? {
      EntryInActs(trace, n, i);
      assert StagedOnly(was, trace[i].after.target, node, names);
    }
  }

  lemma SwappingIsCalm(trace: seq<Entry>, n: nat, w: World, swaps: seq<Swap>, moved: nat)
    requires moved <= |swaps| && AlwaysSwapped(trace, n, w, swaps, moved) && AllMoves(Acts(trace, n))
    ensures Calm(trace, n, w.target.occupied)
  {
    forall i | n <= i < |trace| ensures Occupied(trace[i]) == w.target.occupied && !trace[i].cmd.Mkfs? {
      EntryInActs(trace, n, i);
      assert SomeSwapped(trace[i].after, w, swaps, moved);
    }
  }

  lemma CalmConcat(t0: seq<Entry>, t1: seq<Entry>, n: nat, occ: set<string>)
    requires n <= |t0| && t0 <= t1 && Calm(t0, n, occ) && Calm(t1, |t0|, occ)
    ensures Calm(t1, n, occ)
  {}

  lemma SwappedIsLive(t: Toolchain, t2: seq<Entry>, trace: seq<Entry>, n: nat, was: Target, w2: World, now: World,
                      node: Node, arts: seq<Artifact>, moved: nat)
    requires n <= |t2| && t2 <= trace
    requires AlwaysStagedOnly(t2, n, was, node, NamesIn(arts)) && StagedOnly(was, w2.target, node, NamesIn(arts))
    requires var swaps := SwapsFor(node, NamesIn(arts));
      && moved <= |swaps|
      && (PathsDistinct(node, NamesIn(arts)) ==> Vouched(t, node, arts, w2.target.files, swaps))
      && AlwaysSwapped(trace, |t2|, w2, swaps, moved)
      && now == Swapped(w2, swaps, moved)
    ensures Live(t, trace, n, was, now.target, node, arts, moved)
  {
    var swaps := SwapsFor(node, NamesIn(arts));
    forall i | |t2| <= i < |trace| ensures SomeReplaced(w2, trace[i].after, node, swaps, moved) {
      SwappedIsReplaced(w2, w2, trace[i].after, node, swaps, moved);
    }
    DeployedIsLive(t, t2, trace, n, was, w2, now, node, arts, moved);
  }

  datatype Software = Software(ok: bool, build: BuildResult, entries: seq<Placed>, swapOk: bool)

  /** What building, copying and swapping did since entry n. */
  ghost predicate SoftwareKept(t: Toolchain, trace: seq<Entry>, n: nat, was: World, now: World, node: Node,
                               install: Install, version: string, s: Software, setup: seq<Command>, moves: seq<Command>,
                               moved: nat)
  {
    && AllPrep(setup) && AllMoves(moves) && Acts(trace, n) == setup + moves
    && Calm(trace, n, was.target.occupied)
    && now.target == was.target.(files := now.target.files)
    && OnRecord(t, now.build, install, version, s.build.artifacts)
    && Live(t, trace, n, was.target, now.target, node, s.build.artifacts, moved)
    && (!s.ok ==> moves == [] && !s.swapOk && moved == 0)
    && (s.ok ==> Prepared(t, node, install, version, now.build, s.build, s.entries))
    && SoftwareTold(trace, n, node, s, moves)
    && (s.swapOk && PathsDistinct(node, NamesIn(s.build.artifacts)) ==>
          PlacedAreLive(t, node, s.build.artifacts, now.target.files))
  }

  /** The build and every copy as their commands told, from entry m on; good exactly
      when both are. */
  ghost predicate SoftwareRun(trace: seq<Entry>, m: nat, node: Node, install: Install, version: string, s: Software) {
    && PrepareTold(trace, m, node, install, version, false, s.build, s.entries)
    && (s.ok <==> s.build.ok && AllGood(s.entries))
  }

  ghost predicate SomeSoftwareRun(trace: seq<Entry>, node: Node, install: Install, version: string, s: Software) {
    exists m: nat :: SoftwareRun(trace, m, node, install, version, s)
  }

  lemma SoftwareRunLater(t1: seq<Entry>, t2: seq<Entry>, m: nat, node: Node, install: Install, version: string,
                         s: Software)
    requires t1 <= t2 && SoftwareRun(t1, m, node, install, version, s)
    ensures SoftwareRun(t2, m, node, install, version, s)
  {
    PrepareToldLater(t1, t2, m, node, install, version, false, s.build, s.entries);
  }

  /** A sound cache stays sound, and with distinct paths nothing but a mishap spoils it. */
  ghost predicate SoundSoftware(t: Toolchain, node: Node, install: Install, smooth: bool, was: BuildHost,
                                now: BuildHost, s: Software)
  {
    CacheSound(t, install, was) ==>
      CacheSound(t, install, now) && (smooth && PathsDistinct(node, ArtifactNames(install)) ==> s.ok && s.swapOk)
  }

  /** The swap is reported as its parts went, and issues a prefix of its chain. */
  ghost predicate SoftwareTold(trace: seq<Entry>, n: nat, node: Node, s: Software, moves: seq<Command>) {
    s.ok ==>
      var chain := Parts(SwapsFor(node, NamesIn(s.build.artifacts)));
      && moves <= chain && (s.swapOk ==> moves == chain)
      && (s.swapOk <==> AllOkOf(trace, n, Moving))
  }

  lemma StagedIsLive(trace: seq<Entry>, n: nat, t: Toolchain, node: Node, arts: seq<Artifact>, was: Target, now: Target)
    requires AlwaysStagedOnly(trace, n, was, node, NamesIn(arts)) && StagedOnly(was, now, node, NamesIn(arts))
    ensures Live(t, trace, n, was, now, node, arts, 0)
  {
    if PathsDistinct(node, NamesIn(arts)) {
      forall k | 0 <= k < |arts| && DestFor(node, arts[k].key.name).Some?
        ensures InStep(t, node, arts, was, now, 0, k)
      {
        assert NamesIn(arts)[k] in NamesIn(arts);
        NotStaged(node, NamesIn(arts), DestFor(node, arts[k].key.name).value);
      }
    }
  }

  method InstallSoftware(r: Runner, node: Node, install: Install, version: string)
    returns (s: Software, ghost setup: seq<Command>, ghost moves: seq<Command>, ghost moved: nat)
    modifies r
    ensures old(r.trace) <= r.trace
    ensures SoftwareKept(r.tools, r.trace, |old(r.trace)|, old(r.world), r.world, node, install, version, s, setup,
                         moves, moved)
    ensures SoftwareRun(r.trace, |old(r.trace)|, node, install, version, s)
    ensures SoundSoftware(r.tools, node, install, AllSmooth(r), old(r.world.build), r.world.build, s)
  {
    ghost var n, w0 := |r.trace|, r.world;
    var ok, build, entries := Prepare(r, node, install, version, false);
    ghost var t2, w2 := r.trace, r.world;
    setup, moves, moved := Acts(t2, n), [], 0;
    PreparingIsCalm(t2, n, w0.target, node, NamesIn(build.artifacts));
    if !ok {
      StagedIsLive(t2, n, r.tools, node, build.artifacts, w0.target, w2.target);
      assert setup + moves == setup;
      s := Software(false, build, entries, false);
      return;
    }
    var swapOk;
    swapOk, moves, moved := SwapIn(r, node, install, version, build, entries, n, w0);
    s := Software(true, build, entries, swapOk);
    PrepareToldLater(t2, r.trace, n, node, install, version, false, build, entries);
  }

  /** The swap of a prepared set, told from entry n and world w0 on. */
  method SwapIn(r: Runner, node: Node, install: Install, version: string, build: BuildResult, entries: seq<Placed>,
                ghost n: nat, ghost w0: World)
    returns (swapOk: bool, ghost moves: seq<Command>, ghost moved: nat)
    requires OnRecord(r.tools, r.world.build, install, version, build.artifacts)
    requires Prepared(r.tools, node, install, version, r.world.build, build, entries)
    requires PathsDistinct(node, NamesIn(build.artifacts)) ==>
      Vouched(r.tools, node, build.artifacts, r.world.target.files, SwapsFor(node, NamesIn(build.artifacts)))
    requires n <= |r.trace| && AllPrep(Acts(r.trace, n)) && Calm(r.trace, n, w0.target.occupied)
    requires StagedOnly(w0.target, r.world.target, node, NamesIn(build.artifacts))
    requires AlwaysStagedOnly(r.trace, n, w0.target, node, NamesIn(build.artifacts))
    modifies r
    ensures old(r.trace) <= r.trace
    ensures SoftwareKept(r.tools, r.trace, n, w0, r.world, node, install, version,
                         Software(true, build, entries, swapOk), Acts(old(r.trace), n), moves, moved)
    ensures r.world.build == old(r.world.build)
    ensures AllSmooth(r) && PathsDistinct(node, NamesIn(build.artifacts)) ==> swapOk
  {
    ghost var t2, w2, tick := r.trace, r.world, r.tick;
    var swaps := SwapsOf(entries);
    swapOk, moved := AtomicSwap(r, swaps);
    moves := Acts(r.trace, |t2|);
    ActsSplit(t2, r.trace, n);
    OnlyLate(t2, r.trace, n, Moving);
    SwappingIsCalm(r.trace, |t2|, w2, swaps, moved);
    CalmConcat(t2, r.trace, n, w0.target.occupied);
    SwappedIsLive(r.tools, t2, r.trace, n, w0.target, w2, r.world, node, build.artifacts, moved);
    if PathsDistinct(node, NamesIn(build.artifacts)) {
      if swapOk {
        CompleteSwapInstalls(r.tools, node, build.artifacts, w0.target, r.world.target);
      }
      VouchedHasAll(r.tools, node, build.artifacts, w2.target.files);
      if AllSmooth(r) {
        SmoothChain(swaps, Has(w2.target.files, swaps), |swaps|, r.oracle, tick);
      }
    }
  }

  /** Unlike an upgrade, provisioning has no check that the node has a place for the
      plugin: what is swapped in falls short of the artifact set exactly when a
      plugin is built and `geyser_lib` is unset. */
  lemma PluginSkippedIff(node: Node, install: Install)
    ensures |SwapsFor(node, ArtifactNames(install))| ==
      |ArtifactNames(install)| - (if BuildsGeyser(install) && node.service.geyserLib.None? then 1 else 0)
    ensures AllPlaced(node, ArtifactNames(install)) <==> !BuildsGeyser(install) || node.service.geyserLib.Some?
  {
    var names := ArtifactNames(install);
    assert AllPlaced(node, AGAVE_BINS);
    SwapsForAll(node, AGAVE_BINS);
    if BuildsGeyser(install) {
      assert names[..3] == AGAVE_BINS && names[3] == GEYSER_LIB;
      assert forall n | n in names :: n in AGAVE_BINS || n == GEYSER_LIB;
    } else {
      assert names == AGAVE_BINS;
    }
  }

  // ---- unit, keys, start --------------------------------------------------

  predicate IsVoting(node: Node) {
    node.role == Validator && !node.noVoting
  }

  method WriteUnit(r: Runner, text: string) returns (ok: bool)
    modifies r
    ensures OneMore(old(r.trace), r.trace, InstallUnit(text), r.world)
    ensures r.world == old(r.world).(target := old(r.world.target).(unitText := r.world.target.unitText))
    ensures Acts(r.trace, |old(r.trace)|) == [InstallUnit(text)]
    ensures ok <==> AllOkOf(r.trace, |old(r.trace)|, PlacingUnit)
    ensures AllSmooth(r) ==> ok && r.world.target.unitText == Some(text)
  {
    assert AllSmooth(r) ==> Smooth(r.oracle(r.tick));
    ok := RunAct(r, InstallUnit(text));
  }

  /** `test -f ... && echo present`: an answer that does not come counts as missing. */
  method KeyPresent(r: Runner, path: string) returns (present: bool)
    modifies r
    ensures r.world == old(r.world) && OneMore(old(r.trace), r.trace, FilePresent(path), r.world)
    ensures present ==> path in r.world.target.files
    ensures r.oracle(old(r.tick)).done ==> (present <==> path in r.world.target.files)
  {
    var res := r.Run(FilePresent(path));
    assert "missing" != "present";
    present := Ok(res) && res.words == ["present"];
  }

  ghost predicate HasIdentityKey(node: Node, g: Target) {
    node.service.identityKeypair in g.files
  }

  ghost predicate HasVoteKey(node: Node, g: Target) {
    var path := node.service.voteAccountKeypair;
    path.Some? && path.value != "" && path.value in g.files
  }

  /** No command is lost on the way. */
  ghost predicate Reliable(r: Runner) {
    forall i: nat :: r.oracle(i).done
  }

  method CheckVoteKey(r: Runner, node: Node) returns (present: bool)
    modifies r
    ensures r.world == old(r.world) && old(r.trace) <= r.trace && Quiet(r.trace, |old(r.trace)|, r.world)
    ensures present ==> HasVoteKey(node, r.world.target)
    ensures Reliable(r) ==> (present <==> HasVoteKey(node, r.world.target))
  {
    if !Truthy(node.service.voteAccountKeypair) {
      return false;
    }
    present := KeyPresent(r, node.service.voteAccountKeypair.value);
  }

  /** A key reported present is there; over a reliable connection one that is there
      is reported. The vote key is asked for exactly on a voting node that has its
      identity key. */
  ghost predicate KeysTrue(now: Target, node: Node, reliable: bool, identity: bool, voteKey: Option<bool>) {
    && (identity ==> HasIdentityKey(node, now))
    && (reliable ==> (identity <==> HasIdentityKey(node, now)))
    && (voteKey.Some? <==> identity && node.role == Validator && !node.noVoting)
    && (voteKey.Some? && voteKey.value ==> HasVoteKey(node, now))
    && (reliable && voteKey.Some? ==> (voteKey.value <==> HasVoteKey(node, now)))
  }

  /** `voteKey` is None when it is not asked for. */
  method CheckKeys(r: Runner, node: Node) returns (identity: bool, voteKey: Option<bool>)
    modifies r
    ensures r.world == old(r.world) && old(r.trace) <= r.trace && Quiet(r.trace, |old(r.trace)|, r.world)
    ensures KeysTrue(r.world.target, node, Reliable(r), identity, voteKey)
  {
    voteKey := None;
    identity := KeyPresent(r, node.service.identityKeypair);
    if identity && IsVoting(node) {
      var present := CheckVoteKey(r, node);
      voteKey := Some(present);
    }
  }

  datatype Tail = Tail(unitOk: bool, identity: bool, voteKey: Option<bool>, startOk: bool, wait: Option<Wait>)

  predicate KeysInPlace(tail: Tail) {
    tail.identity && tail.voteKey != Some(false)
  }

  /** The service is started. */
  predicate Starts(tail: Option<Tail>) {
    tail.Some? && KeysInPlace(tail.value)
  }

  function TailActs(text: string, tail: Option<Tail>): seq<Command> {
    if tail.None? then []
    else [InstallUnit(text)] + if KeysInPlace(tail.value) then [Start] else []
  }

  /** The reported flags are the exit statuses of the commands they stand for. */
  ghost predicate TailTold(trace: seq<Entry>, n: nat, tail: Tail) {
    && (tail.unitOk <==> AllOkOf(trace, n, PlacingUnit))
    && (tail.startOk <==> KeysInPlace(tail) && AllOkOf(trace, n, Serving))
  }

  /** With no mishap the unit is in place and the service starts when the keys are. */
  ghost predicate SmoothTail(now: Target, text: string, tail: Tail) {
    tail.unitOk && now.unitText == Some(text) && (tail.startOk <==> KeysInPlace(tail))
  }

  /** What the reported tail says about the host and the catch-up. */
  ghost predicate TailTrue(now: Target, node: Node, reliable: bool, sampler: nat -> Sample, limits: Limits,
                           tail: Tail)
  {
    && KeysTrue(now, node, reliable, tail.identity, tail.voteKey)
    && (tail.wait.Some? <==> KeysInPlace(tail))
    && (tail.wait.Some? ==> Waited(tail.wait.value, sampler, limits.maxLag, limits.timeoutS, 5))
    && (tail.startOk ==> KeysInPlace(tail) && now.active)
  }

  ghost predicate AlwaysSameFiles(trace: seq<Entry>, n: nat, was: Target) {
    forall i | n <= i < |trace| ::
      trace[i].after.target.files == was.files && Occupied(trace[i]) == was.occupied && !trace[i].cmd.Mkfs?
  }

  method UnitAndKeys(r: Runner, node: Node, text: string) returns (unitOk: bool, identity: bool, voteKey: Option<bool>)
    modifies r
    ensures old(r.trace) <= r.trace && Acts(r.trace, |old(r.trace)|) == [InstallUnit(text)]
    ensures unitOk <==> AllOkOf(r.trace, |old(r.trace)|, PlacingUnit)
    ensures AllSmooth(r) ==> unitOk && r.world.target.unitText == Some(text)
    ensures AlwaysSameFiles(r.trace, |old(r.trace)|, old(r.world.target))
    ensures r.world == old(r.world).(target := old(r.world.target).(unitText := r.world.target.unitText))
    ensures KeysTrue(r.world.target, node, Reliable(r), identity, voteKey)
  {
    ghost var t0 := r.trace;
    unitOk := WriteUnit(r, text);
    ghost var t1, w1 := r.trace, r.world;
    identity, voteKey := CheckKeys(r, node);
    QuietAddsNoActs(t1, r.trace, |t0|, w1);
    QuietHasNoActs(r.trace, |t1|, w1);
    OnlyEarly(t1, r.trace, |t0|, PlacingUnit);
    assert AlwaysSameFiles(t1, |t0|, old(r.world.target));
    SameFilesThenQuiet(t1, r.trace, |t0|, old(r.world.target), w1);
  }

  lemma QuietAddsNoActs(t0: seq<Entry>, t1: seq<Entry>, n: nat, w: World)
    requires n <= |t0| && t0 <= t1 && Quiet(t1, |t0|, w)
    ensures Acts(t1, n) == Acts(t0, n)
  {}

  lemma SameFilesThenQuiet(t0: seq<Entry>, t1: seq<Entry>, n: nat, was: Target, w: World)
    requires n <= |t0| && t0 <= t1 && AlwaysSameFiles(t0, n, was) && Quiet(t1, |t0|, w)
    requires w.target.files == was.files && w.target.occupied == was.occupied
    ensures AlwaysSameFiles(t1, n, was)
  {}

  lemma SameFilesConcat(t0: seq<Entry>, t1: seq<Entry>, n: nat, was: Target, mid: Target)
    requires n <= |t0| && t0 <= t1 && mid.files == was.files && mid.occupied == was.occupied
    requires AlwaysSameFiles(t0, n, was) && AlwaysSameFiles(t1, |t0|, mid)
    ensures AlwaysSameFiles(t1, n, was)
  {}

  method StartAndWait(r: Runner, limits: Limits, sampler: nat -> Sample) returns (startOk: bool, wait: Wait)
    modifies r
    ensures old(r.trace) <= r.trace && Acts(r.trace, |old(r.trace)|) == [Start]
    ensures LaunchedWith(r.trace, |old(r.trace)|, r.world.target.files)
    ensures startOk <==> AllOkOf(r.trace, |old(r.trace)|, Serving)
    ensures AllSmooth(r) ==> startOk
    ensures AlwaysSameFiles(r.trace, |old(r.trace)|, old(r.world.target))
    ensures r.world == old(r.world).(target := old(r.world.target).(active := r.world.target.active))
    ensures startOk ==> r.world.target.active
    ensures Waited(wait, sampler, limits.maxLag, limits.timeoutS, 5)
  {
    startOk := StartService(r);
    LaunchedNow(old(r.trace), r.trace, r.world);
    wait := WaitForCatchup(sampler, limits.maxLag, limits.timeoutS, CATCHUP_INTERVAL_S);
  }

  lemma UnitThenStart(t1: seq<Entry>, t2: seq<Entry>, n: nat, text: string, tail: Tail, files: map<string, Bytes>)
    requires n <= |t1| && t1 <= t2 && KeysInPlace(tail)
    requires Acts(t1, n) == [InstallUnit(text)] && (tail.unitOk <==> AllOkOf(t1, n, PlacingUnit))
    requires Acts(t2, |t1|) == [Start] && (tail.startOk <==> AllOkOf(t2, |t1|, Serving))
    requires LaunchedWith(t2, |t1|, files)
    ensures Acts(t2, n) == TailActs(text, Some(tail)) && TailTold(t2, n, tail)
    ensures LaunchedWith(t2, n, files)
  {
    ActsSplit(t1, t2, n);
    UnitStartTold(t1, t2, n, text);
    LaunchedLast(t1, t2, n, files);
  }

  lemma UnitStartTold(t1: seq<Entry>, t2: seq<Entry>, n: nat, text: string)
    requires n <= |t1| && t1 <= t2 && Acts(t1, n) == [InstallUnit(text)] && Acts(t2, |t1|) == [Start]
    ensures AllOkOf(t2, n, PlacingUnit) <==> AllOkOf(t1, n, PlacingUnit)
    ensures AllOkOf(t2, n, Serving) <==> AllOkOf(t2, |t1|, Serving)
  {
    OnlyEarly(t1, t2, n, PlacingUnit);
    OnlyLate(t1, t2, n, Serving);
  }

  /** Everything after the swap. */
  method UnitKeysStart(r: Runner, node: Node, text: string, limits: Limits, sampler: nat -> Sample) returns (tail: Tail)
    modifies r
    ensures old(r.trace) <= r.trace
    // the unit file goes first, and the service is started exactly when the keys are there
    ensures Acts(r.trace, |old(r.trace)|) == TailActs(text, Some(tail))
    ensures TailTold(r.trace, |old(r.trace)|, tail)
    ensures AllSmooth(r) ==> SmoothTail(r.world.target, text, tail)
    ensures TailTrue(r.world.target, node, Reliable(r), sampler, limits, tail)
    ensures AlwaysSameFiles(r.trace, |old(r.trace)|, old(r.world.target))
    ensures KeysInPlace(tail) ==> LaunchedWith(r.trace, |old(r.trace)|, r.world.target.files)
    ensures r.world.build == old(r.world.build) && r.world.target.files == old(r.world.target.files)
    ensures r.world.target.occupied == old(r.world.target.occupied)
  {
    ghost var n, w0 := |r.trace|, r.world;
    var unitOk, identity, voteKey := UnitAndKeys(r, node, text);
    tail := Tail(unitOk, identity, voteKey, false, None);
    if KeysInPlace(tail) {
      ghost var t1, w1 := r.trace, r.world;
      var startOk, wait := StartAndWait(r, limits, sampler);
      SameFilesConcat(t1, r.trace, n, w0.target, w1.target);
      tail := tail.(startOk := startOk, wait := Some(wait));
      UnitThenStart(t1, r.trace, n, text, tail, r.world.target.files);
    }
  }

  // ---- the whole run ------------------------------------------------------

  /** Software and everything after it, since entry n. */
  ghost predicate InstallKept(t: Toolchain, trace: seq<Entry>, n: nat, was: World, now: World, node: Node,
                              install: Install, version: string, text: string, s: Software, tail: Option<Tail>,
                              setup: seq<Command>, moves: seq<Command>, moved: nat)
  {
    && AllPrep(setup) && AllMoves(moves)
    && Acts(trace, n) == (setup + moves) + TailActs(text, tail)
    && Calm(trace, n, was.target.occupied) && now.target.occupied == was.target.occupied
    && OnRecord(t, now.build, install, version, s.build.artifacts)
    && Live(t, trace, n, was.target, now.target, node, s.build.artifacts, moved)
    && (Starts(tail) ==> LaunchedWith(trace, n, now.target.files))
    && (tail.Some? <==> s.ok)
    && (!s.ok ==> moves == [] && !s.swapOk && moved == 0)
    && SoftwareTold(trace, n, node, s, moves)
    && (tail.Some? ==> TailTold(trace, n, tail.value))
    && (s.ok ==> Prepared(t, node, install, version, now.build, s.build, s.entries))
    && (s.swapOk && PathsDistinct(node, NamesIn(s.build.artifacts)) ==>
          PlacedAreLive(t, node, s.build.artifacts, now.target.files))
  }

  lemma SameFilesStayLive(t0: seq<Entry>, t1: seq<Entry>, n: nat, t: Toolchain, node: Node, arts: seq<Artifact>,
                          was: Target, mid: Target, now: Target, moved: nat)
    requires n <= |t0| && t0 <= t1 && now.files == mid.files
    requires Live(t, t0, n, was, mid, node, arts, moved)
    requires AlwaysSameFiles(t1, |t0|, mid)
    ensures Live(t, t1, n, was, now, node, arts, moved)
  {
    if PathsDistinct(node, NamesIn(arts)) {
      forall k | 0 <= k < |arts| && DestFor(node, arts[k].key.name).Some?
        ensures InStep(t, node, arts, was, now, moved, k)
      {
        assert InStep(t, node, arts, was, mid, moved, k);
      }
    }
  }

  lemma TailToldLate(early: seq<Entry>, late: seq<Entry>, n: nat, tail: Tail)
    requires n <= |early| && early <= late && TailTold(late, |early|, tail)
    requires Lacks(Acts(early, n), PlacingUnit) && Lacks(Acts(early, n), Serving)
    ensures TailTold(late, n, tail)
  {
    OnlyLate(early, late, n, PlacingUnit);
    OnlyLate(early, late, n, Serving);
  }

  lemma SoftwareThenTail(t1: seq<Entry>, t2: seq<Entry>, n: nat, node: Node, s: Software, text: string, tail: Tail,
                         setup: seq<Command>, moves: seq<Command>)
    requires n <= |t1| && t1 <= t2 && AllPrep(setup) && AllMoves(moves)
    requires Acts(t1, n) == setup + moves && SoftwareTold(t1, n, node, s, moves)
    requires Acts(t2, |t1|) == TailActs(text, Some(tail)) && TailTold(t2, |t1|, tail)
    ensures Acts(t2, n) == (setup + moves) + TailActs(text, Some(tail))
    ensures SoftwareTold(t2, n, node, s, moves) && TailTold(t2, n, tail)
  {
    ActsSplit(t1, t2, n);
    PrepMovesLack(setup, moves);
    TailLacks(text, tail);
    OnlyEarly(t1, t2, n, Moving);
    TailToldLate(t1, t2, n, tail);
  }

  lemma PrepMovesLack(setup: seq<Command>, moves: seq<Command>)
    requires AllPrep(setup) && AllMoves(moves)
    ensures Lacks(setup + moves, PlacingUnit) && Lacks(setup + moves, Serving)
  {
    LacksConcat(setup, moves, PlacingUnit);
    LacksConcat(setup, moves, Serving);
  }

  lemma TailLacks(text: string, tail: Tail)
    ensures Lacks(TailActs(text, Some(tail)), Moving)
  {
    OneLacks(InstallUnit(text), Moving);
    OneLacks(Start, Moving);
    LacksConcat([InstallUnit(text)], if KeysInPlace(tail) then [Start] else [], Moving);
  }

  method InstallAndStart(r: Runner, node: Node, install: Install, version: string, text: string, limits: Limits,
                         sampler: nat -> Sample)
    returns (s: Software, tail: Option<Tail>, ghost setup: seq<Command>, ghost moves: seq<Command>, ghost moved: nat)
    modifies r
    ensures old(r.trace) <= r.trace
    ensures InstallKept(r.tools, r.trace, |old(r.trace)|, old(r.world), r.world, node, install, version, text, s, tail,
                        setup, moves, moved)
    ensures tail.Some? ==> TailTrue(r.world.target, node, Reliable(r), sampler, limits, tail.value)
    ensures SoftwareRun(r.trace, |old(r.trace)|, node, install, version, s)
    ensures SoundSoftware(r.tools, node, install, AllSmooth(r), old(r.world.build), r.world.build, s)
    ensures AllSmooth(r) && tail.Some? ==> SmoothTail(r.world.target, text, tail.value)
  {
    ghost var n, w0 := |r.trace|, r.world;
    s, setup, moves, moved := InstallSoftware(r, node, install, version);
    if !s.ok {
      tail := None;
      assert (setup + moves) + [] == setup + moves;
      return;
    }
    ghost var t1, w1 := r.trace, r.world;
    var done := UnitKeysStart(r, node, text, limits, sampler);
    TailKeepsInstall(r.tools, t1, r.trace, n, w0, w1, r.world, node, install, version, text, s, done, setup, moves,
                     moved);
    SoftwareRunLater(t1, r.trace, n, node, install, version, s);
    tail := Some(done);
  }

  lemma TailKeepsInstall(t: Toolchain, t1: seq<Entry>, t2: seq<Entry>, n: nat, was: World, mid: World, now: World,
                         node: Node, install: Install, version: string, text: string, s: Software, tail: Tail,
                         setup: seq<Command>, moves: seq<Command>, moved: nat)
    requires n <= |t1| && t1 <= t2 && s.ok
    requires SoftwareKept(t, t1, n, was, mid, node, install, version, s, setup, moves, moved)
    requires KeysInPlace(tail) ==> LaunchedWith(t2, |t1|, now.target.files)
    requires Acts(t2, |t1|) == TailActs(text, Some(tail)) && TailTold(t2, |t1|, tail)
    requires AlwaysSameFiles(t2, |t1|, mid.target)
    requires now.build == mid.build
    requires now.target.files == mid.target.files && now.target.occupied == mid.target.occupied
    ensures InstallKept(t, t2, n, was, now, node, install, version, text, s, Some(tail), setup, moves, moved)
  {
    SoftwareThenTail(t1, t2, n, node, s, text, tail, setup, moves);
    CalmConcat(t1, t2, n, was.target.occupied);
    SameFilesStayLive(t1, t2, n, t, node, s.build.artifacts, was.target, mid.target, now.target, moved);
    if KeysInPlace(tail) {
      SoftwareLaunchesNothing(setup, moves);
      LaunchedLast(t1, t2, n, now.target.files);
    }
  }

  lemma SoftwareLaunchesNothing(setup: seq<Command>, moves: seq<Command>)
    requires AllPrep(setup) && AllMoves(moves)
    ensures NoLaunch(setup + moves)
  {}

  datatype HostSteps = HostSteps(userOk: bool, systemOk: bool, disks: seq<DiskResult>)

  /** `software` is None when a disk failed, `tail` when building or copying did. */
  datatype ProvisionResult =
    | NoHost
    | Blocked(decision: Decision)
    | Provisioned(host: HostSteps, software: Option<Software>, tail: Option<Tail>, succeeded: bool)

  function ArtsOf(software: Option<Software>): seq<Artifact> {
    if software.Some? then software.value.build.artifacts else []
  }

  /** The host part as reported: user and system first, then disk by disk. */
  ghost predicate HostTold(trace: seq<Entry>, n: nat, node: Node, allowFormat: set<string>, host: HostSteps) {
    && |trace| >= n + 2 && trace[n].cmd == EnsureUser && trace[n + 1].cmd == ApplySystem
    && (host.userOk <==> Ok(trace[n].result)) && (host.systemOk <==> Ok(trace[n + 1].result))
    && exists m: nat :: DisksWithin(trace, m, n, node.disks, allowFormat, host.disks)
  }

  ghost predicate DisksFrom(trace: seq<Entry>, n: nat, disks: seq<Disk>, allowFormat: set<string>,
                            results: seq<DiskResult>)
  {
    exists at :: DisksRun(trace, n, disks, allowFormat, results, at)
  }

  /** The disks were handled from the third command after entry n on. */
  ghost predicate DisksWithin(trace: seq<Entry>, m: nat, n: nat, disks: seq<Disk>, allowFormat: set<string>,
                              results: seq<DiskResult>)
  {
    m <= |trace| && DisksFrom(trace[..m], n + 2, disks, allowFormat, results)
  }

  /** The software part as reported, told from the first command of the run on. */
  ghost predicate InstallTold(trace: seq<Entry>, n: nat, node: Node, software: Option<Software>, tail: Option<Tail>,
                              moves: seq<Command>)
  {
    && (software.Some? ==> SoftwareTold(trace, n, node, software.value, moves))
    && (tail.Some? ==> TailTold(trace, n, tail.value))
  }

  lemma InstallToldLate(early: seq<Entry>, late: seq<Entry>, n: nat, node: Node, software: Option<Software>,
                        tail: Option<Tail>, moves: seq<Command>)
    requires n <= |early| && early <= late && InstallTold(late, |early|, node, software, tail, moves)
    requires Lacks(Acts(early, n), Moving) && Lacks(Acts(early, n), PlacingUnit) && Lacks(Acts(early, n), Serving)
    ensures InstallTold(late, n, node, software, tail, moves)
  {
    OnlyLate(early, late, n, Moving);
    if tail.Some? {
      TailToldLate(early, late, n, tail.value);
    }
  }

  /** What a run past the gate issued since entry n: the stages in order, with the
      service started last; every mkfs guarded; no unverified bytes live. */
  ghost predicate ProvisionTrace(t: Toolchain, trace: seq<Entry>, n: nat, was: Target, now: Target, node: Node,
                                 text: string, allowFormat: set<string>, arts: seq<Artifact>, tail: Option<Tail>,
                                 first: seq<Command>, setup: seq<Command>, moves: seq<Command>, moved: nat)
  {
    && AllHostSetup(first) && AllPrep(setup) && AllMoves(moves)
    && Acts(trace, n) == first + ((setup + moves) + TailActs(text, tail))
    && MkfsGuarded(trace, n, node.disks, allowFormat)
    && Live(t, trace, n, was, now, node, arts, moved)
    && (Starts(tail) ==> LaunchedWith(trace, n, now.files))
  }

  /** What a run past the gate reports and leaves behind. The tail - unit, keys,
      start - is reached exactly when all disks, the build and the verified copy
      are good; each stage that is not reached issues nothing. */
  ghost predicate ProvisionResultTrue(t: Toolchain, now: World, node: Node, install: Install, version: string,
                                      res: ProvisionResult, setup: seq<Command>, moves: seq<Command>, moved: nat)
  {
    && res.Provisioned?
    && |res.host.disks| == |node.disks|
    && (res.software.Some? <==> AllOk(res.host.disks))
    && (res.tail.Some? <==> res.software.Some? && res.software.value.ok)
    && (res.tail.None? ==> moves == [] && moved == 0)
    && OnRecord(t, now.build, install, version, ArtsOf(res.software))
    && (res.software.None? ==> setup == [])
    && (res.tail.Some? ==>
          Prepared(t, node, install, version, now.build, res.software.value.build, res.software.value.entries))
    && (res.tail.Some? && res.software.value.swapOk && PathsDistinct(node, NamesIn(ArtsOf(res.software))) ==>
          PlacedAreLive(t, node, ArtsOf(res.software), now.target.files))
    && (res.succeeded <==>
          && res.host.userOk && res.host.systemOk && res.tail.Some? && KeysInPlace(res.tail.value)
          && res.software.value.swapOk && res.tail.value.unitOk && res.tail.value.startOk
          && res.tail.value.wait.Some? && res.tail.value.wait.value.caughtUp)
  }

  lemma CalmStaysGuarded(t0: seq<Entry>, t1: seq<Entry>, n: nat, disks: seq<Disk>, allowFormat: set<string>,
                         occ: set<string>)
    requires n <= |t0| && t0 <= t1 && MkfsGuarded(t0, n, disks, allowFormat) && Calm(t1, |t0|, occ)
    ensures MkfsGuarded(t1, n, disks, allowFormat)
  {}

  lemma HostStaysLive(t0: seq<Entry>, t1: seq<Entry>, n: nat, t: Toolchain, node: Node, arts: seq<Artifact>,
                      was: Target, mid: Target, now: Target, moved: nat)
    requires n <= |t0| && t0 <= t1 && SameLive(was, mid)
    requires AlwaysSameLive(t0, n, was) && Live(t, t1, |t0|, mid, now, node, arts, moved)
    ensures Live(t, t1, n, was, now, node, arts, moved)
  {
    if PathsDistinct(node, NamesIn(arts)) {
      forall k | 0 <= k < |arts| && DestFor(node, arts[k].key.name).Some?
        ensures InStep(t, node, arts, was, now, moved, k)
      {
        assert InStep(t, node, arts, mid, now, moved, k);
      }
    }
  }

  lemma HostToldLater(t1: seq<Entry>, t2: seq<Entry>, n: nat, node: Node, allowFormat: set<string>, host: HostSteps)
    requires t1 <= t2 && HostTold(t1, n, node, allowFormat, host)
    ensures HostTold(t2, n, node, allowFormat, host)
  {
    var m: nat :| DisksWithin(t1, m, n, node.disks, allowFormat, host.disks);
    assert t2[..m] == t1[..m];
    assert DisksWithin(t2, m, n, node.disks, allowFormat, host.disks);
  }

  /** With no mishap the host part fails exactly when a disk does not fit. */
  ghost predicate SmoothHost(node: Node, allowFormat: set<string>, occupied: set<string>, host: HostSteps) {
    host.userOk && host.systemOk && (AllOk(host.disks) <==> DisksFit(node.disks, allowFormat, occupied))
  }

  /** The host part with its report. */
  method SetUpHost(r: Runner, node: Node, allowFormat: set<string>) returns (host: HostSteps, ghost first: seq<Command>)
    modifies r
    ensures old(r.trace) <= r.trace && |host.disks| == |node.disks|
    ensures HostStretch(r.trace, |old(r.trace)|, old(r.world), r.world, node.disks, allowFormat)
    ensures first == Acts(r.trace, |old(r.trace)|) && AllHostSetup(first)
    ensures HostTold(r.trace, |old(r.trace)|, node, allowFormat, host)
    ensures Honest(r) ==>
      KeepsLedger(old(r.trace), r.trace, old(r.world.target.occupied), r.world.target.occupied)
    ensures AllSmooth(r) ==> SmoothHost(node, allowFormat, old(r.world.target.occupied), host)
  {
    ghost var at;
    var userOk, systemOk, disks;
    userOk, systemOk, disks, at := PrepareHost(r, node, allowFormat);
    first := Acts(r.trace, |old(r.trace)|);
    host := HostSteps(userOk, systemOk, disks);
    assert r.trace[..|r.trace|] == r.trace;
    assert DisksWithin(r.trace, |r.trace|, |old(r.trace)|, node.disks, allowFormat, disks);
  }

  lemma HostAlone(t: Toolchain, t1: seq<Entry>, n: nat, w0: World, w1: World, node: Node, text: string,
                  allowFormat: set<string>, first: seq<Command>)
    requires n <= |t1| && HostStretch(t1, n, w0, w1, node.disks, allowFormat)
    requires first == Acts(t1, n) && AllHostSetup(first)
    ensures ProvisionTrace(t, t1, n, w0.target, w1.target, node, text, allowFormat, [], None, first, [], [], 0)
  {
    assert first + (([] + []) + []) == first;
    HostStaysLive(t1, t1, n, t, node, [], w0.target, w1.target, w1.target, 0);
  }

  lemma HostThenInstall(t: Toolchain, t1: seq<Entry>, t2: seq<Entry>, n: nat, w0: World, w1: World, w2: World,
                        node: Node, install: Install, version: string, text: string, allowFormat: set<string>,
                        s: Software, tail: Option<Tail>, first: seq<Command>, setup: seq<Command>, moves: seq<Command>,
                        moved: nat)
    requires n <= |t1| && t1 <= t2 && HostStretch(t1, n, w0, w1, node.disks, allowFormat)
    requires first == Acts(t1, n) && AllHostSetup(first)
    requires InstallKept(t, t2, |t1|, w1, w2, node, install, version, text, s, tail, setup, moves, moved)
    ensures ProvisionTrace(t, t2, n, w0.target, w2.target, node, text, allowFormat, s.build.artifacts, tail, first,
                           setup, moves, moved)
  {
    ActsSplit(t1, t2, n);
    CalmStaysGuarded(t1, t2, n, node.disks, allowFormat, w1.target.occupied);
    HostStaysLive(t1, t2, n, t, node, s.build.artifacts, w0.target, w1.target, w2.target, moved);
    if Starts(tail) {
      LaunchedLast(t1, t2, n, w2.target.files);
    }
  }

  lemma HostThenTold(t1: seq<Entry>, t2: seq<Entry>, n: nat, node: Node, s: Software, tail: Option<Tail>,
                     moves: seq<Command>)
    requires n <= |t1| && t1 <= t2 && AllHostSetup(Acts(t1, n))
    requires SoftwareTold(t2, |t1|, node, s, moves) && (tail.Some? ==> TailTold(t2, |t1|, tail.value))
    ensures InstallTold(t2, n, node, Some(s), tail, moves)
  {
    InstallToldLate(t1, t2, n, node, Some(s), tail, moves);
  }

  function Verdict(host: HostSteps, s: Software, tail: Option<Tail>): bool {
    && host.userOk && host.systemOk && tail.Some? && s.swapOk && tail.value.unitOk && tail.value.startOk
    && tail.value.wait.Some? && tail.value.wait.value.caughtUp
  }

  /** The service is started only with the keys the node needs in place. */
  ghost predicate StartedWithKeys(trace: seq<Entry>, n: nat, now: Target, node: Node) {
    Issued(trace, n, Start) ==> KeysOnHost(node, now)
  }

  lemma StartIssuedIff(trace: seq<Entry>, n: nat, first: seq<Command>, setup: seq<Command>, moves: seq<Command>,
                       text: string, tail: Option<Tail>, files: map<string, Bytes>)
    requires AllHostSetup(first) && AllPrep(setup) && AllMoves(moves)
    requires Acts(trace, n) == first + ((setup + moves) + TailActs(text, tail))
    requires Starts(tail) ==> LaunchedWith(trace, n, files)
    ensures Issued(trace, n, Start) <==> Starts(tail)
  {
    if Starts(tail) {
      var i :| n <= i < |trace| && Launches(trace[i].cmd);
      EntryInActs(trace, n, i);
      OnlyStartLaunches(first, setup, moves, text, tail, trace[i].cmd);
    } else {
      UnitLaunchesNothing(first, setup, moves, text, tail);
      PrepLaunchesNothing(trace, n, first + ((setup + moves) + TailActs(text, tail)));
    }
  }

  lemma OnlyStartLaunches(first: seq<Command>, setup: seq<Command>, moves: seq<Command>, text: string,
                          tail: Option<Tail>, c: Command)
    requires AllHostSetup(first) && AllPrep(setup) && AllMoves(moves)
    requires c in first + ((setup + moves) + TailActs(text, tail)) && Launches(c)
    ensures c == Start
  {}

  lemma StartHasKeys(trace: seq<Entry>, n: nat, now: Target, node: Node, reliable: bool, sampler: nat -> Sample,
                     limits: Limits, tail: Option<Tail>)
    requires Issued(trace, n, Start) <==> Starts(tail)
    requires tail.Some? ==> TailTrue(now, node, reliable, sampler, limits, tail.value)
    ensures StartedWithKeys(trace, n, now, node)
    ensures reliable && tail.Some? ==> (Issued(trace, n, Start) <==> KeysOnHost(node, now))
  {}

  /** All of it, and with no mishap from a sound cache everything that can be provided. */
  ghost predicate ProvisionKept(t: Toolchain, trace: seq<Entry>, n: nat, was: World, now: World, node: Node,
                                install: Install, version: string, text: string, allowFormat: set<string>,
                                limits: Limits, reliable: bool, smooth: bool, sampler: nat -> Sample,
                                res: ProvisionResult, first: seq<Command>, setup: seq<Command>, moves: seq<Command>,
                                moved: nat)
  {
    && ProvisionResultTrue(t, now, node, install, version, res, setup, moves, moved)
    && HostTold(trace, n, node, allowFormat, res.host)
    && InstallTold(trace, n, node, res.software, res.tail, moves)
    && ProvisionTrace(t, trace, n, was.target, now.target, node, text, allowFormat, ArtsOf(res.software), res.tail,
                      first, setup, moves, moved)
    && (CacheSound(t, install, was.build) ==> CacheSound(t, install, now.build))
    && (res.tail.Some? ==> TailTrue(now.target, node, reliable, sampler, limits, res.tail.value))
    && (res.software.Some? ==> SomeSoftwareRun(trace, node, install, version, res.software.value))
    && StartedWithKeys(trace, n, now.target, node)
    && (smooth && CacheSound(t, install, was.build) && ConfiguredPathsApart(node, install) ==>
          && Provided(now.target, node, text, allowFormat, was.target.occupied, res)
          && (Issued(trace, n, Start) <==>
                DisksFit(node.disks, allowFormat, was.target.occupied) && KeysOnHost(node, now.target)))
  }

  lemma HostIsKept(t: Toolchain, t1: seq<Entry>, n: nat, w0: World, w1: World, node: Node, install: Install,
                   version: string, text: string, allowFormat: set<string>, limits: Limits, reliable: bool,
                   smooth: bool, sampler: nat -> Sample, host: HostSteps, first: seq<Command>)
    requires n <= |t1| && HostStretch(t1, n, w0, w1, node.disks, allowFormat)
    requires first == Acts(t1, n) && AllHostSetup(first)
    requires HostTold(t1, n, node, allowFormat, host) && !AllOk(host.disks) && |host.disks| == |node.disks|
    requires smooth ==> SmoothHost(node, allowFormat, w0.target.occupied, host)
    ensures ProvisionKept(t, t1, n, w0, w1, node, install, version, text, allowFormat, limits, reliable, smooth,
                          sampler, Provisioned(host, None, None, false), first, [], [], 0)
  {
    HostAlone(t, t1, n, w0, w1, node, text, allowFormat, first);
    StartIssuedIff(t1, n, first, [], [], text, None, w1.target.files);
  }

  /** The two parts told as one. */
  lemma InstallIsTold(t: Toolchain, t1: seq<Entry>, t2: seq<Entry>, n: nat, w0: World, w1: World, w2: World, node: Node,
                      install: Install, version: string, text: string, allowFormat: set<string>, host: HostSteps,
                      s: Software, tail: Option<Tail>, first: seq<Command>, setup: seq<Command>, moves: seq<Command>,
                      moved: nat)
    requires n <= |t1| && t1 <= t2 && HostStretch(t1, n, w0, w1, node.disks, allowFormat)
    requires first == Acts(t1, n) && AllHostSetup(first) && HostTold(t1, n, node, allowFormat, host)
    requires InstallKept(t, t2, |t1|, w1, w2, node, install, version, text, s, tail, setup, moves, moved)
    ensures HostTold(t2, n, node, allowFormat, host)
    ensures InstallTold(t2, n, node, Some(s), tail, moves)
    ensures ProvisionTrace(t, t2, n, w0.target, w2.target, node, text, allowFormat, s.build.artifacts, tail, first,
                           setup, moves, moved)
    ensures Issued(t2, n, Start) <==> Starts(tail)
  {
    HostThenInstall(t, t1, t2, n, w0, w1, w2, node, install, version, text, allowFormat, s, tail, first, setup, moves,
                    moved);
    HostThenTold(t1, t2, n, node, s, tail, moves);
    HostToldLater(t1, t2, n, node, allowFormat, host);
    StartIssuedIff(t2, n, first, setup, moves, text, tail, w2.target.files);
  }

  lemma ResultIsTrue(t: Toolchain, trace: seq<Entry>, n: nat, was: World, now: World, node: Node, install: Install,
                     version: string, text: string, host: HostSteps, s: Software, tail: Option<Tail>,
                     setup: seq<Command>, moves: seq<Command>, moved: nat)
    requires AllOk(host.disks) && |host.disks| == |node.disks|
    requires InstallKept(t, trace, n, was, now, node, install, version, text, s, tail, setup, moves, moved)
    ensures ProvisionResultTrue(t, now, node, install, version,
                                Provisioned(host, Some(s), tail, Verdict(host, s, tail)), setup, moves, moved)
  {}

  /** From a sound cache, on paths apart, with nothing going wrong. */
  lemma SmoothRunProvides(trace: seq<Entry>, n: nat, node: Node, install: Install, text: string,
                          allowFormat: set<string>, occupied: set<string>, limits: Limits, reliable: bool, smooth: bool,
                          sampler: nat -> Sample, t: Toolchain, was: BuildHost, now: World, res: ProvisionResult)
    requires res.Provisioned? && AllOk(res.host.disks) && res.software.Some? && (smooth ==> reliable)
    requires Issued(trace, n, Start) <==> Starts(res.tail)
    requires res.tail.Some? ==> TailTrue(now.target, node, reliable, sampler, limits, res.tail.value)
    requires smooth ==> SmoothHost(node, allowFormat, occupied, res.host)
    requires SoundSoftware(t, node, install, smooth, was, now.build, res.software.value)
    requires res.tail.Some? <==> res.software.value.ok
    requires smooth && res.tail.Some? ==> SmoothTail(now.target, text, res.tail.value)
    requires res.succeeded == Verdict(res.host, res.software.value, res.tail)
    ensures StartedWithKeys(trace, n, now.target, node)
    ensures smooth && CacheSound(t, install, was) && ConfiguredPathsApart(node, install) ==>
      && Provided(now.target, node, text, allowFormat, occupied, res)
      && (Issued(trace, n, Start) <==> DisksFit(node.disks, allowFormat, occupied) && KeysOnHost(node, now.target))
  {
    StartHasKeys(trace, n, now.target, node, reliable, sampler, limits, res.tail);
    if smooth && CacheSound(t, install, was) && ConfiguredPathsApart(node, install) {
      PathsDistinctIff(node, install);
      InstallProvides(now.target, node, text, allowFormat, occupied, limits, sampler, res);
    }
  }

  /** With nothing going wrong, what is reported is what there is. */
  lemma InstallProvides(now: Target, node: Node, text: string, allowFormat: set<string>, occupied: set<string>,
                        limits: Limits, sampler: nat -> Sample, res: ProvisionResult)
    requires res.Provisioned? && AllOk(res.host.disks) && SmoothHost(node, allowFormat, occupied, res.host)
    requires res.software.Some? && res.software.value.ok && res.software.value.swapOk && res.tail.Some?
    requires SmoothTail(now, text, res.tail.value) && TailTrue(now, node, true, sampler, limits, res.tail.value)
    requires res.succeeded == Verdict(res.host, res.software.value, res.tail)
    ensures Provided(now, node, text, allowFormat, occupied, res)
  {}

  /** Past the gate: host set-up, software, unit, keys, start. */
  method ProvisionHost(r: Runner, node: Node, install: Install, version: string, text: string, allowFormat: set<string>,
                       limits: Limits, sampler: nat -> Sample)
    returns (res: ProvisionResult, ghost first: seq<Command>, ghost setup: seq<Command>, ghost moves: seq<Command>,
             ghost moved: nat)
    modifies r
    ensures old(r.trace) <= r.trace
    ensures ProvisionKept(r.tools, r.trace, |old(r.trace)|, old(r.world), r.world, node, install, version, text,
                          allowFormat, limits, Reliable(r), AllSmooth(r), sampler, res, first, setup, moves, moved)
    ensures Honest(r) ==>
      KeepsLedger(old(r.trace), r.trace, old(r.world.target.occupied), r.world.target.occupied)
  {
    ghost var t0, w0 := r.trace, r.world;
    var host;
    host, first := SetUpHost(r, node, allowFormat);
    ghost var t1, w1 := r.trace, r.world;
    if exists d | d in host.disks :: !d.ok {
      HostIsKept(r.tools, t1, |t0|, w0, w1, node, install, version, text, allowFormat, limits, Reliable(r),
                 AllSmooth(r), sampler, host, first);
      return Provisioned(host, None, None, false), first, [], [], 0;
    }
    res, setup, moves, moved :=
      ProvisionSoftware(r, node, install, version, text, allowFormat, limits, sampler, host, first, t0, w0);
    if Honest(r) {
      KeepsLedgerThen(t0, t1, r.trace, w0.target.occupied, w1.target.occupied, w1.target.occupied);
    }
  }

  /** The part after the disks, all of which are good; told from entry |t0| on. */
  method ProvisionSoftware(r: Runner, node: Node, install: Install, version: string, text: string,
                           allowFormat: set<string>, limits: Limits, sampler: nat -> Sample, host: HostSteps,
                           ghost first: seq<Command>, ghost t0: seq<Entry>, ghost w0: World)
    returns (res: ProvisionResult, ghost setup: seq<Command>, ghost moves: seq<Command>, ghost moved: nat)
    requires t0 <= r.trace && HostStretch(r.trace, |t0|, w0, r.world, node.disks, allowFormat)
    requires first == Acts(r.trace, |t0|) && AllHostSetup(first) && HostTold(r.trace, |t0|, node, allowFormat, host)
    requires AllOk(host.disks) && |host.disks| == |node.disks|
    requires AllSmooth(r) ==> SmoothHost(node, allowFormat, w0.target.occupied, host)
    modifies r
    ensures old(r.trace) <= r.trace
    ensures KeepsLedger(old(r.trace), r.trace, old(r.world.target.occupied), old(r.world.target.occupied))
    ensures r.world.target.occupied == old(r.world.target.occupied)
    ensures ProvisionKept(r.tools, r.trace, |t0|, w0, r.world, node, install, version, text, allowFormat, limits,
                          Reliable(r), AllSmooth(r), sampler, res, first, setup, moves, moved)
  {
    ghost var t1, w1 := r.trace, r.world;
    var s, tail;
    s, tail, setup, moves, moved := InstallAndStart(r, node, install, version, text, limits, sampler);
    res := Provisioned(host, Some(s), tail, Verdict(host, s, tail));
    ReliableWhenSmooth(r);
    InstallIsTold(r.tools, t1, r.trace, |t0|, w0, w1, r.world, node, install, version, text, allowFormat, host, s, tail,
                  first, setup, moves, moved);
    ResultIsTrue(r.tools, r.trace, |t1|, w1, r.world, node, install, version, text, host, s, tail, setup, moves, moved);
    SmoothRunProvides(r.trace, |t0|, node, install, text, allowFormat, w0.target.occupied, limits, Reliable(r),
                      AllSmooth(r), sampler, r.tools, w1.build, r.world, res);
    CalmKeepsLedger(t1, r.trace, w1.target.occupied);
  }

  /** Provisioning starts the service on a mixed set exactly when the swap broke off
      between its first and its last move and the keys are in place: a failed swap does
      not keep it from starting. */
  lemma ProvisionLaunchesMixedIff(t: Toolchain, trace: seq<Entry>, n: nat, was: Target, now: World, node: Node,
                                  install: Install, version: string, text: string, allowFormat: set<string>,
                                  res: ProvisionResult, first: seq<Command>, setup: seq<Command>, moves: seq<Command>,
                                  moved: nat)
    requires ProvisionResultTrue(t, now, node, install, version, res, setup, moves, moved)
    requires ProvisionTrace(t, trace, n, was, now.target, node, text, allowFormat, ArtsOf(res.software), res.tail,
                            first, setup, moves, moved)
    requires var arts := ArtsOf(res.software); PathsDistinct(node, NamesIn(arts)) && AllNews(t, node, arts, was.files)
    ensures LaunchedMixed(trace, n, t, node, ArtsOf(res.software))
       <==> Starts(res.tail) && 0 < moved < |SwapsFor(node, NamesIn(ArtsOf(res.software)))|
  {
    var arts := ArtsOf(res.software);
    if Starts(res.tail) {
      LiveLaunchesMixedIff(t, trace, n, was, now.target, node, arts, moved);
    } else {
      UnitLaunchesNothing(first, setup, moves, text, res.tail);
      PrepLaunchesNothing(trace, n, first + ((setup + moves) + TailActs(text, res.tail)));
    }
  }

  lemma UnitLaunchesNothing(first: seq<Command>, setup: seq<Command>, moves: seq<Command>, text: string,
                            tail: Option<Tail>)
    requires AllHostSetup(first) && AllPrep(setup) && AllMoves(moves) && !Starts(tail)
    ensures NoLaunch(first + ((setup + moves) + TailActs(text, tail)))
  {}

  lemma ReliableWhenSmooth(r: Runner)
    ensures AllSmooth(r) ==> Reliable(r)
  {
    if AllSmooth(r) {
      forall i: nat ensures r.oracle(i).done {
        assert Smooth(r.oracle(i));
      }
    }
  }

  /** The identity file is there, and on a validator that votes the vote file. */
  ghost predicate KeysOnHost(node: Node, g: Target) {
    && node.service.identityKeypair in g.files
    && (node.role == Validator && !node.noVoting ==>
          var path := node.service.voteAccountKeypair;
          path.Some? && path.value != "" && path.value in g.files)
  }

  /** A run with no mishap: it stops short of the start exactly when a disk does not fit
      or a key is missing, and succeeds exactly when the node then catches up. */
  ghost predicate Provided(now: Target, node: Node, text: string, allowFormat: set<string>, occupied: set<string>,
                           res: ProvisionResult)
  {
    && res.Provisioned?
    && res.host.userOk && res.host.systemOk
    && (res.tail.Some? <==> DisksFit(node.disks, allowFormat, occupied))
    && (res.tail.Some? ==>
          && res.software.Some? && res.software.value.ok && res.software.value.swapOk
          && now.unitText == Some(text)
          && (res.tail.value.startOk <==> KeysOnHost(node, now))
          && (res.tail.value.startOk ==> now.active))
    && (res.succeeded <==>
          && res.tail.Some? && KeysOnHost(node, now)
          && res.tail.value.wait.Some? && res.tail.value.wait.value.caughtUp)
  }

  // ---- the gated call -----------------------------------------------------

  method Preflight(r: Runner) returns (facts: CommandResult)
    modifies r
    ensures r.world == old(r.world) && OneMore(old(r.trace), r.trace, HostFacts, r.world)
    ensures Quiet(r.trace, |old(r.trace)|, r.world)
    ensures facts == r.trace[|old(r.trace)|].result
  {
    facts := r.Run(HostFacts);
  }

  ghost predicate ProvisionGated(trace: seq<Entry>, n: nat, f: Fleet, found: Found, confirm: bool,
                                 res: ProvisionResult)
  {
    && |trace| > n && trace[n].cmd == HostFacts
    && var decision := ProvisionDecision(f, found, confirm, trace[n].result);
    && !res.NoHost?
    && (res.Blocked? <==> !confirm || !decision.allowed)
    && (res.Blocked? ==> res.decision == decision)
  }

  /** What a call for a known node guarantees: gated as the preflight saw it; held back,
      one read and nothing changed; otherwise, from the next command on, all of the above. */
  ghost predicate ProvisionCall(t: Toolchain, trace: seq<Entry>, n: nat, was: World, now: World, f: Fleet, found: Found,
                                version: string, text: string, confirm: bool, allowFormat: set<string>, limits: Limits,
                                reliable: bool, smooth: bool, sampler: nat -> Sample, res: ProvisionResult,
                                first: seq<Command>, setup: seq<Command>, moves: seq<Command>, moved: nat)
  {
    && ProvisionGated(trace, n, f, found, confirm, res) && trace[n].after == was
    && (res.Blocked? ==> now == was && |trace| == n + 1)
    && (res.Provisioned? ==>
          && found.cluster.install.Some?
          && ProvisionKept(t, trace, n + 1, was, now, found.node, found.cluster.install.value, version, text,
                           allowFormat, limits, reliable, smooth, sampler, res, first, setup, moves, moved))
  }

  method GatedProvision(f: Fleet, found: Found, r: Runner, version: string, text: string, confirm: bool,
                        allowFormat: set<string>, limits: Limits, sampler: nat -> Sample)
    returns (res: ProvisionResult, ghost first: seq<Command>, ghost setup: seq<Command>, ghost moves: seq<Command>,
             ghost moved: nat)
    modifies r
    ensures old(r.trace) <= r.trace
    ensures ProvisionCall(r.tools, r.trace, |old(r.trace)|, old(r.world), r.world, f, found, version, text, confirm,
                          allowFormat, limits, Reliable(r), AllSmooth(r), sampler, res, first, setup, moves, moved)
    ensures Honest(r) ==>
      KeepsLedger(old(r.trace), r.trace, old(r.world.target.occupied), r.world.target.occupied)
  {
    first, setup, moves, moved := [], [], [], 0;
    ghost var t0, w0 := r.trace, r.world;
    var facts := Preflight(r);
    ghost var t1 := r.trace;
    CalmKeepsLedger(t0, t1, w0.target.occupied);
    var decision := ProvisionDecision(f, found, confirm, facts);
    AllowedProvision(f, found, confirm, facts);
    if !confirm || !decision.allowed {
      res := Blocked(decision);
      return;
    }
    res, first, setup, moves, moved :=
      ProvisionHost(r, found.node, found.cluster.install.value, version, text, allowFormat, limits, sampler);
    if Honest(r) {
      KeepsLedgerThen(t0, t1, r.trace, w0.target.occupied, w0.target.occupied, r.world.target.occupied);
    }
  }

  ghost function ProvisionRows(f: Fleet, name: string, res: ProvisionResult): seq<Row> {
    match FindNode(f.clusters, name)
    case None => []
    case Some(found) =>
      [GatedRow("provision", found.clusterName, name, if res.Blocked? then Some(res.decision) else None)]
  }

  method NoteProvision(f: Fleet, found: Found, name: string, res: ProvisionResult, audit: AuditLog?)
    requires FindNode(f.clusters, name) == Some(found)
    modifies audit
    ensures audit != null ==> audit.rows == old(audit.rows) + ProvisionRows(f, name, res)
  {
    RecordGated(audit, "provision", found.clusterName, name, if res.Blocked? then Some(res.decision) else None);
  }

  /** `provision_node`; the rendered unit text comes in as `text`. */
  method ProvisionNode(f: Fleet, r: Runner, name: string, version: string, text: string, confirm: bool,
                       allowFormat: set<string>, audit: AuditLog?, limits: Limits, sampler: nat -> Sample)
    returns (res: ProvisionResult, ghost first: seq<Command>, ghost setup: seq<Command>, ghost moves: seq<Command>,
             ghost moved: nat)
    modifies r, audit
    ensures old(r.trace) <= r.trace
    ensures res.NoHost? <==> FindNode(f.clusters, name).None?
    ensures res.NoHost? ==> r.world == old(r.world) && r.trace == old(r.trace)
    ensures !res.NoHost? ==>
      ProvisionCall(r.tools, r.trace, |old(r.trace)|, old(r.world), r.world, f, FindNode(f.clusters, name).value,
                    version, text, confirm, allowFormat, limits, Reliable(r), AllSmooth(r), sampler, res, first, setup,
                    moves, moved)
    // with truthful probes, no device is ever formatted again
    ensures Honest(r) ==>
      KeepsLedger(old(r.trace), r.trace, old(r.world.target.occupied), r.world.target.occupied)
    ensures audit != null ==> audit.rows == old(audit.rows) + ProvisionRows(f, name, res)
  {
    var found := FindNode(f.clusters, name);
    if found.None? {
      return NoHost, [], [], [], 0;
    }
    res, first, setup, moves, moved := GatedProvision(f, found.value, r, version, text, confirm, allowFormat, limits,
                                                      sampler);
    NoteProvision(f, found.value, name, res, audit);
  }

  // ---- any sequence of runs -----------------------------------------------

  /** One call of provision_node on the host. */
  datatype Attempt = Attempt(version: string, text: string, confirm: bool, allowFormat: set<string>,
                             sampler: nat -> Sample)

  /** However often a host is provisioned, with whatever acknowledgements and
      however the runs break off: with truthful probes the whole history is a
      ledger, so no device is formatted twice. */
  method ProvisionRuns(f: Fleet, r: Runner, name: string, attempts: seq<Attempt>, audit: AuditLog?, limits: Limits)
    modifies r, audit
    ensures old(r.trace) <= r.trace
    ensures Honest(r) ==> Ledger(r.trace, |old(r.trace)|, r.world.target.occupied)
  {
    ghost var n := |r.trace|;
    for k := 0 to |attempts|
      invariant old(r.trace) <= r.trace
      invariant Honest(r) ==> Ledger(r.trace, n, r.world.target.occupied)
    {
      var a := attempts[k];
      var _ := ProvisionOnce(f, r, name, a, audit, limits, n);
    }
  }

  method ProvisionOnce(f: Fleet, r: Runner, name: string, a: Attempt, audit: AuditLog?, limits: Limits, ghost n: nat)
    returns (res: ProvisionResult)
    requires n <= |r.trace| && (Honest(r) ==> Ledger(r.trace, n, r.world.target.occupied))
    modifies r, audit
    ensures old(r.trace) <= r.trace
    ensures Honest(r) ==> Ledger(r.trace, n, r.world.target.occupied)
  {
    ghost var first, setup, moves, moved;
    res, first, setup, moves, moved :=
      ProvisionNode(f, r, name, a.version, a.text, a.confirm, a.allowFormat, audit, limits, a.sampler);
  }
}
