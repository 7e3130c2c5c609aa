/** The safety gate (src/solfleet/safety.py). */
module Safety {
  import opened Text

  /** The compiled form of `allowed_versions`: which versions some glob of the
      list accepts. Glob matching itself is library code and stays abstract. */
  datatype PolicyRules = PolicyRules(
    versionAllowed: string -> bool,
    minDiskFreePct: Option<int>,
    requireLeaderWindowMinutes: int)

  datatype Policy = Policy(defaults: PolicyRules, clusters: map<string, PolicyRules>)

  /** A cluster's own rules win over the defaults. */
  function ForCluster(p: Policy, name: string): (rules: PolicyRules)
    ensures name in p.clusters ==> rules == p.clusters[name]
    ensures name !in p.clusters ==> rules == p.defaults
  {
    if name in p.clusters then p.clusters[name] else p.defaults
  }

  predicate DiskFreeOk(floor: Option<int>, usePcts: seq<int>) {
    floor.None? || forall used | used in usePcts :: 100 - used >= floor.value
  }

  datatype Mode = DryRun | Execute

  /** What a decision lists: one message per failed check, and the line a dry run puts
      first or instead. */
  datatype Reason =
    | WouldBlock | ChecksPass
    | Unreachable | DiskLow | NotActive
    | VersionNotAllowed | NoBuilder | BuilderNotFound | NoPluginPath
    | WrongArch | FewCores | LittleRam | PreflightBlocks
    | LastAddress | NothingToCheck

  datatype Check = Check(passed: bool, message: Reason)

  datatype Decision = Decision(mode: Mode, allowed: bool, reasons: seq<Reason>)

  /** Messages of the checks that failed, in order. */
  function Failed(checks: seq<Check>): seq<Reason> {
    if checks == [] then []
    else (if checks[0].passed then [] else [checks[0].message]) + Failed(checks[1..])
  }

  function Gate(confirm: bool, checks: seq<Check>): Decision {
    var failed := Failed(checks);
    var reasons :=
      if failed != [] then (if confirm then [] else [WouldBlock]) + failed
      else if confirm then [] else [ChecksPass];
    Decision(if confirm then Execute else DryRun, failed == [], reasons)
  }

  /** The positions of the failed checks, in order. */
  ghost predicate FailedAt(checks: seq<Check>, at: seq<nat>) {
    && (forall k | 0 <= k < |at| :: at[k] < |checks|)
    && (forall k, l | 0 <= k < l < |at| :: at[k] < at[l])
    && (forall i :: i in at <==> 0 <= i < |checks| && !checks[i].passed)
  }

  /** The reasons of a decision are the messages of exactly the failed checks, in order;
      a dry run puts its own line first, or says that all is well. */
  lemma GateReasons(confirm: bool, checks: seq<Check>) returns (at: seq<nat>)
    ensures FailedAt(checks, at)
    ensures var reasons := Gate(confirm, checks).reasons;
      var head := if confirm then [] else if at == [] then [ChecksPass] else [WouldBlock];
      && |reasons| == |head| + |at| && head <= reasons
      && forall k | 0 <= k < |at| :: reasons[|head| + k] == checks[at[k]].message
  {
    at := FailedPositions(checks);
  }

  lemma {:induction false} FailedPositions(checks: seq<Check>) returns (at: seq<nat>)
    ensures FailedAt(checks, at) && |at| == |Failed(checks)|
    ensures forall k | 0 <= k < |at| :: Failed(checks)[k] == checks[at[k]].message
  {
    at := [];
    if checks != [] {
      var n := |checks| - 1;
      var front := checks[..n];
      at := FailedPositions(front);
      assert checks == front + [checks[n]];
      FailedAppend(front, [checks[n]]);
      assert Failed([checks[n]]) == if checks[n].passed then [] else [checks[n].message];
      if !checks[n].passed {
        at := at + [n];
      }
    }
  }

  lemma {:induction false} FailedHas(checks: seq<Check>, m: Reason)
    ensures m in Failed(checks) <==> exists c | c in checks :: !c.passed && c.message == m
  {
    if checks != [] {
      FailedHas(checks[1..], m);
      assert checks == [checks[0]] + checks[1..];
    }
  }

  /** A message of its own is among the reasons exactly when its check failed. */
  lemma ReasonAt(confirm: bool, checks: seq<Check>, i: nat)
    requires i < |checks| && !checks[i].message.WouldBlock? && !checks[i].message.ChecksPass?
    requires forall j | 0 <= j < |checks| && j != i :: checks[j].message != checks[i].message
    ensures checks[i].message in Gate(confirm, checks).reasons <==> !checks[i].passed
  {
    FailedHas(checks, checks[i].message);
    assert checks[i] in checks;
  }

  /** What a decision says of itself: the mode asked for, and in a dry run a first line
      on how execution would go. */
  ghost predicate InMode(d: Decision, confirm: bool) {
    && (d.mode == Execute <==> confirm)
    && (confirm && d.allowed ==> d.reasons == [])
    && (!confirm ==> d.reasons != [] && d.reasons[0] == if d.allowed then ChecksPass else WouldBlock)
  }

  ghost predicate AllPass(checks: seq<Check>) {
    forall c | c in checks :: c.passed
  }

  lemma {:induction false} FailedEmptyIff(checks: seq<Check>)
    ensures Failed(checks) == [] <==> AllPass(checks)
  {
    if checks != [] {
      FailedEmptyIff(checks[1..]);
      assert checks == [checks[0]] + checks[1..];
    }
  }

  lemma {:induction false} FailedAppend(a: seq<Check>, b: seq<Check>)
    ensures Failed(a + b) == Failed(a) + Failed(b)
  {
    if a == [] {
      assert a + b == b;
    } else {
      assert (a + b)[1..] == a[1..] + b;
      FailedAppend(a[1..], b);
    }
  }

  /** `allowed` says exactly that every check passed, whatever the mode, so a
      dry run predicts what execution would decide; an execution is clean of
      reasons exactly when it is allowed. */
  lemma GateTruthful(confirm: bool, checks: seq<Check>)
    ensures Gate(confirm, checks).allowed <==> AllPass(checks)
    ensures InMode(Gate(confirm, checks), confirm)
    ensures Gate(true, checks).allowed == Gate(false, checks).allowed
    ensures Gate(true, checks).reasons == [] <==> Gate(true, checks).allowed
    ensures Gate(false, checks).reasons != []
  {
    FailedEmptyIff(checks);
  }

  /** Adding checks can only narrow what is allowed. */
  lemma MoreChecksNarrow(confirm: bool, a: seq<Check>, b: seq<Check>)
    requires Gate(confirm, a + b).allowed
    ensures Gate(!confirm, a).allowed
  {
    FailedAppend(a, b);
  }
}
