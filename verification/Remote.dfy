/** Commands on remote hosts as steps of a small world (src/solfleet/executor.py).
    The runner obeys an oracle that may fail any command: a failed copy may leave
    anything at its own target, a failed `mv` on one file system leaves both names
    as they were (rename() is atomic, System Interfaces volume of POSIX.1-2017),
    and exit 0 means the effect is complete. */
module Remote {
  import opened Text

  type Bytes = string

  // ---- the build host -----------------------------------------------------

  /** A checked-out source tree: where it was cloned from, and at which ref it is. */
  datatype Checkout = Checkout(repo: string, gref: string)

  /** What the build tools compute: a binary and the plugin from a checkout, and the ref
      a fresh clone of a repository is at. */
  datatype Toolchain = Toolchain(
    bin: (Checkout, string) -> Bytes,
    lib: Checkout -> Bytes,
    sha: Bytes -> string,
    defaultRef: string -> string)

  /** A file of the artifact cache: `<cache>/<version>/<name>`. */
  datatype CacheKey = CacheKey(version: string, name: string)

  /** `agaveHead` and `geyserHead` are the checkouts, None before the
      clone; `installed` is what the install script left for a version. */
  datatype BuildHost = BuildHost(
    agaveHead: Option<Checkout>,
    geyserHead: Option<Checkout>,
    installed: map<string, map<string, Bytes>>,
    geyserLib: Option<Bytes>,
    cache: map<CacheKey, Bytes>)

  datatype BuildStep =
    | MakeDirs
    | CloneAgave(repo: string)
    | FetchAgave
    | CheckoutAgave(tag: string)
    | InstallAgave(version: string)
    | CopyBin(version: string, name: string)
    | CloneGeyser(repo: string)
    | FetchGeyser
    | CheckoutGeyser(gref: string)
    | BuildGeyser
    | CopyGeyser(version: string)

  // ---- the world ----------------------------------------------------------

  /** The node being worked on. `occupied` are the devices that hold a file system
      or are mounted. */
  datatype Target = Target(
    files: map<string, Bytes>,
    active: bool,
    occupied: set<string>,
    unitText: Option<string>)

  /** `staging` is the operator's own scratch directory. */
  datatype World = World(build: BuildHost, staging: map<string, Bytes>, target: Target)

  function FileAt(t: Target, path: string): Option<Bytes> {
    if path in t.files then Some(t.files[path]) else None
  }

  datatype Command =
    // reads
    | ShowUnit
    | BinaryVersion
    | ReadMarker
    | DiskUsage
    | HostFacts
    | Reach
    | EmptyLine
    | TestCached(version: string, names: seq<string>)
    | BuilderSha(key: CacheKey)
    | TargetSha(path: string)
    | FilePresent(path: string)
    | DeviceProbe(device: string)
    // build host and copies
    | Build(step: BuildStep)
    | Bootstrap
    | Pull(key: CacheKey, localName: string)
    | Push(localName: string, path: string)
    // the node
    | Mv(staged: string, dest: string)
    | Chmod(dest: string)
    | WriteMarker(path: string, text: string)
    | Stop
    | Start
    | SafeExit(minIdleMinutes: int)
    | EnsureUser
    | ApplySystem
    | Mkfs(device: string)
    | MountDevice(device: string)
    | MountTmpfs(mount: string)
    | InstallUnit(text: string)

  predicate ReadOnly(c: Command) {
    c.ShowUnit? || c.BinaryVersion? || c.ReadMarker? || c.DiskUsage? || c.HostFacts? || c.Reach? || c.EmptyLine?
    || c.TestCached? || c.BuilderSha? || c.TargetSha? || c.FilePresent? || c.DeviceProbe?
  }

  /** One command's fate. `done`: the effect was carried out; `clean`: its exit
      status came back as 0; the rest is what an unlucky command reports or
      leaves behind. `honest` says a device probe reports the device's state. */
  datatype Outcome = Outcome(
    done: bool,
    clean: bool,
    code: int,
    words: seq<string>,
    table: seq<seq<string>>,
    junk: Option<Bytes>,
    tree: map<string, Bytes>,
    text: string,
    flag: bool,
    honest: bool)

  /** `words` is stdout split at white space; `table` its lines, each split so. */
  datatype CommandResult = CommandResult(exitCode: int, words: seq<string>, table: seq<seq<string>>)

  predicate Ok(r: CommandResult) {
    r.exitCode == 0
  }

  /** First word of what sha256sum printed. */
  function ShaOf(res: CommandResult): Option<string> {
    if Ok(res) && res.words != [] then Some(res.words[0]) else None
  }

  /** An outcome without any mishap: carried out, exit 0, truthful. */
  predicate Smooth(o: Outcome) {
    o.done && o.clean && o.code == 0 && o.flag && o.honest
  }

  // ---- effects ------------------------------------------------------------

  predicate StepFeasible(b: BuildHost, s: BuildStep) {
    match s
    case MakeDirs | CloneAgave(_) | CloneGeyser(_) => true
    case FetchAgave | CheckoutAgave(_) | InstallAgave(_) => b.agaveHead.Some?
    case CopyBin(v, n) => v in b.installed && n in b.installed[v]
    case FetchGeyser | CheckoutGeyser(_) | BuildGeyser => b.geyserHead.Some?
    case CopyGeyser(_) => b.geyserLib.Some?
  }

  /** The names the install script puts under `install/bin`. */
  function InstalledBins(t: Toolchain, head: Checkout): map<string, Bytes> {
    map n | n in AgaveBinSet() :: t.bin(head, n)
  }

  const AGAVE_BINS: seq<string> := ["agave-validator", "agave-ledger-tool", "solana"]
  const GEYSER_LIB := "libyellowstone_grpc_geyser.so"

  function AgaveBinSet(): set<string> {
    {"agave-validator", "agave-ledger-tool", "solana"}
  }

  function Clone(t: Toolchain, repo: string): Checkout {
    Checkout(repo, t.defaultRef(repo))
  }

  /** A clone is only made where there is none: an old one stays, whatever repository
      it came from. */
  function StepEffect(t: Toolchain, b: BuildHost, s: BuildStep): BuildHost
    requires StepFeasible(b, s)
  {
    match s
    case MakeDirs | FetchAgave | FetchGeyser => b
    case CloneAgave(repo) => if b.agaveHead.Some? then b else b.(agaveHead := Some(Clone(t, repo)))
    case CheckoutAgave(tag) => b.(agaveHead := Some(b.agaveHead.value.(gref := tag)))
    case InstallAgave(v) => b.(installed := b.installed[v := InstalledBins(t, b.agaveHead.value)])
    case CopyBin(v, n) => b.(cache := b.cache[CacheKey(v, n) := b.installed[v][n]])
    case CloneGeyser(repo) => if b.geyserHead.Some? then b else b.(geyserHead := Some(Clone(t, repo)))
    case CheckoutGeyser(gref) => b.(geyserHead := Some(b.geyserHead.value.(gref := gref)))
    case BuildGeyser => b.(geyserLib := Some(t.lib(b.geyserHead.value)))
    case CopyGeyser(v) => b.(cache := b.cache[CacheKey(v, GEYSER_LIB) := b.geyserLib.value])
  }

  function MovedHead(head: Option<Checkout>, gref: string): Option<Checkout> {
    if head.Some? then Some(head.value.(gref := gref)) else None
  }

  /** What a failed build step may leave: a broken install tree, a checkout on
      some other ref, a half-written library. Clones and the final copies are all
      or nothing. */
  function StepDebris(b: BuildHost, s: BuildStep, o: Outcome): BuildHost {
    match s
    case CheckoutAgave(_) => b.(agaveHead := MovedHead(b.agaveHead, o.text))
    case InstallAgave(v) => b.(installed := b.installed[v := o.tree])
    case CheckoutGeyser(_) => b.(geyserHead := MovedHead(b.geyserHead, o.text))
    case BuildGeyser => b.(geyserLib := o.junk)
    case _ => b
  }

  predicate Feasible(w: World, c: Command) {
    match c
    case Build(s) => StepFeasible(w.build, s)
    case Pull(k, _) => k in w.build.cache
    case Push(n, _) => n in w.staging
    case Mv(staged, _) => staged in w.target.files
    case Chmod(dest) => dest in w.target.files
    case MountDevice(d) => d in w.target.occupied
    case _ => true
  }

  function Effect(t: Toolchain, w: World, c: Command): World
    requires Feasible(w, c)
  {
    var g := w.target;
    match c
    case Build(s) => w.(build := StepEffect(t, w.build, s))
    case Pull(k, n) => w.(staging := w.staging[n := w.build.cache[k]])
    case Push(n, p) => w.(target := g.(files := g.files[p := w.staging[n]]))
    case Mv(staged, dest) => w.(target := g.(files := MoveFile(g.files, staged, dest)))
    case WriteMarker(p, text) => w.(target := g.(files := g.files[p := text]))
    case Stop => w.(target := g.(active := false))
    case Start | SafeExit(_) => w.(target := g.(active := true))
    case Mkfs(d) => w.(target := g.(occupied := g.occupied + {d}))
    case InstallUnit(text) => w.(target := g.(unitText := Some(text)))
    case _ => w
  }

  /** `mv -f` */
  function MoveFile(files: map<string, Bytes>, staged: string, dest: string): map<string, Bytes>
    requires staged in files
  {
    if staged == dest then files else (files - {staged})[dest := files[staged]]
  }

  function Debris(w: World, c: Command, o: Outcome): World {
    var g := w.target;
    match c
    case Build(s) => w.(build := StepDebris(w.build, s, o))
    case Pull(_, n) => if o.junk.Some? then w.(staging := w.staging[n := o.junk.value]) else w
    case Push(_, p) => if o.junk.Some? then w.(target := g.(files := g.files[p := o.junk.value])) else w
    case WriteMarker(p, _) => if o.junk.Some? then w.(target := g.(files := g.files[p := o.junk.value])) else w
    case Stop | Start | SafeExit(_) => w.(target := g.(active := o.flag))
    case Mkfs(d) => if o.flag then w.(target := g.(occupied := g.occupied + {d})) else w
    case _ => w
  }

  function Failure(o: Outcome): CommandResult {
    CommandResult(if o.code == 0 then 255 else o.code, o.words, o.table)
  }

  /** Answers of the reads. Digests, presence tests and honest device probes are
      truthful when they exit with 0; everything else is whatever comes back. */
  function ReadAnswer(t: Toolchain, w: World, c: Command, o: Outcome): CommandResult {
    match c
    case TestCached(v, names) =>
      if o.done && forall n | n in names :: CacheKey(v, n) in w.build.cache
      then CommandResult(0, [], []) else Failure(o)
    case BuilderSha(k) =>
      if o.done && k in w.build.cache
      then CommandResult(0, [t.sha(w.build.cache[k]), k.name], []) else Failure(o)
    case TargetSha(p) =>
      if o.done && p in w.target.files
      then CommandResult(0, [t.sha(w.target.files[p]), p], []) else Failure(o)
    case FilePresent(p) =>
      if o.done then CommandResult(0, [if p in w.target.files then "present" else "missing"], []) else Failure(o)
    case DeviceProbe(d) =>
      if o.honest then CommandResult(o.code, if d in w.target.occupied then ["ext4"] else [], [])
      else Failure(o)
    case _ => CommandResult(o.code, o.words, o.table)
  }

  /** One command under one outcome. Installing the unit file ends in `|| true`,
      so its exit status says nothing about the effect. */
  function Exec(t: Toolchain, w: World, c: Command, o: Outcome): (World, CommandResult) {
    if ReadOnly(c) then (w, ReadAnswer(t, w, c, o))
    else if c.InstallUnit? then
      (if o.flag then Effect(t, w, c) else w,
       if o.done then CommandResult(0, o.words, o.table) else Failure(o))
    else if o.done && Feasible(w, c) then
      (Effect(t, w, c), if o.clean then CommandResult(0, o.words, o.table) else Failure(o))
    else
      (Debris(w, c, o), Failure(o))
  }

  // ---- the runner ---------------------------------------------------------

  datatype Entry = Entry(cmd: Command, result: CommandResult, before: World, after: World)

  class Runner {
    const tools: Toolchain
    const oracle: nat -> Outcome
    var world: World
    var tick: nat
    ghost var trace: seq<Entry>  // every command issued so far

    constructor (tools: Toolchain, oracle: nat -> Outcome, start: World)
      ensures this.tools == tools && this.oracle == oracle
      ensures world == start && trace == [] && tick == 0
    {
      this.tools := tools;
      this.oracle := oracle;
      world := start;
      tick := 0;
      trace := [];
    }

    method Run(c: Command) returns (r: CommandResult)
      modifies this
      ensures world == Exec(tools, old(world), c, oracle(old(tick))).0
      ensures r == Exec(tools, old(world), c, oracle(old(tick))).1
      ensures tick == old(tick) + 1
      ensures trace == old(trace) + [Entry(c, r, old(world), world)]
    {
      var before := world;
      var (after, res) := Exec(tools, before, c, oracle(tick));
      world, r := after, res;
      trace := trace + [Entry(c, res, before, after)];
      tick := tick + 1;
    }
  }

  /** Nothing goes wrong on the way. */
  ghost predicate AllSmooth(r: Runner) {
    forall i: nat :: Smooth(r.oracle(i))
  }

  // ---- talking about stretches of a trace ---------------------------------

  /** From entry n on, only reads, and the world stays what it was. */
  ghost predicate Quiet(trace: seq<Entry>, n: nat, w: World) {
    forall i | n <= i < |trace| :: ReadOnly(trace[i].cmd) && trace[i].after == w
  }
}
