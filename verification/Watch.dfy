/** The failover loop (src/solfleet/watch.py). Plans are values: a pass over the
    pools is a list of driver events, audit rows and reports, and WatchOnce is
    proved to perform exactly that plan on any of the three drivers. */
module Watch {
  import opened Text
  import opened Config
  import opened Probe
  import opened Zones
  import opened Dns
  import opened Safety
  import opened Audit

  // ---- decisions ----------------------------------------------------------

  datatype Reason = Unhealthy | Lagging(lag: int, limit: int) | IsDelinquent

  function EjectReasons(status: Option<NodeStatus>, ew: EjectWhen): seq<Reason> {
    (if ew.unhealthy && (status.None? || !status.value.reachable || status.value.healthy == Some(false))
     then [Unhealthy] else [])
    + (if ew.slotLag.Some? && status.Some? && status.value.slotLag.Some?
          && status.value.slotLag.value > ew.slotLag.value
       then [Lagging(status.value.slotLag.value, ew.slotLag.value)] else [])
    + (if ew.delinquent && status.Some? && status.value.delinquent == Some(true) then [IsDelinquent] else [])
  }

  predicate ShouldEject(status: Option<NodeStatus>, ew: EjectWhen) {
    |EjectReasons(status, ew)| > 0
  }

  /** The status breaks one of the pool's three rules. */
  ghost predicate Fails(s: NodeStatus, ew: EjectWhen) {
    || (ew.unhealthy && (!s.reachable || s.healthy == Some(false)))
    || (ew.slotLag.Some? && s.slotLag.Some? && s.slotLag.value > ew.slotLag.value)
    || (ew.delinquent && s.delinquent == Some(true))
  }

  /** A member is ejected exactly when its status breaks a rule, or, having none, when the
      pool ejects unhealthy members. */
  lemma ShouldEjectIff(status: Option<NodeStatus>, ew: EjectWhen)
    ensures ShouldEject(status, ew) <==> if status.Some? then Fails(status.value, ew) else ew.unhealthy
  {}

  /** The eject decision in terms of what the node and the reference answered:
      a lagging node escapes the lag rule unless the reference slot and all three
      of its own answers are in. */
  lemma EjectedIff(s: NodeStatus, n: Node, referenceSlot: Option<int>, votes: Option<map<string, VoteEntry>>,
                   a: NodeAnswers, ew: EjectWhen)
    requires ReportsNode(s, n, referenceSlot, a) && ReportsVotes(s, n, votes)
    ensures Fails(s, ew) <==>
      || (ew.unhealthy && !(n.rpcUrl.Some? && n.rpcUrl.value != "" && a.health == Reply("ok")))
      || (ew.slotLag.Some? && referenceSlot.Some? && FullyAnswered(n, a)
            && var behind := referenceSlot.value - a.slot.value.value;
            (if behind > 0 then behind else 0) > ew.slotLag.value)
      || (ew.delinquent && n.identity.Some? && n.identity.value != "" && votes.Some? && n.identity.value in votes.value
            && votes.value[n.identity.value].delinquent)
  {
    if s.healthy.Some? {
      if s.healthy.value {
        assert s.healthy == Some(true);
      } else {
        assert s.healthy == Some(false);
      }
    }
  }

  function AllStatuses(cs: seq<ClusterStatus>): seq<NodeStatus> {
    if cs == [] then [] else cs[0].nodes + AllStatuses(cs[1..])
  }

  /** `{n.name: n}` over all probed nodes: the last status of a name wins. */
  function ByName(nodes: seq<NodeStatus>): map<string, NodeStatus> {
    if nodes == [] then map[]
    else
      var last := nodes[|nodes| - 1];
      ByName(nodes[..|nodes| - 1])[last.name := last]
  }

  function StatusOf(st: map<string, NodeStatus>, name: string): Option<NodeStatus> {
    if name in st then Some(st[name]) else None
  }

  // ---- the plan for one pool ----------------------------------------------

  /** A pool together with where the driver keeps its record. */
  datatype KeyedPool = KeyedPool(key: RecordKey, pool: Pool)

  function Keyed(d: Driver, pools: seq<Pool>): (r: seq<KeyedPool>)
    ensures |r| == |pools|
    ensures forall i | 0 <= i < |r| :: r[i] == KeyedPool(d.Key(pools[i].record), pools[i])
  {
    if pools == [] then [] else [KeyedPool(d.Key(pools[0].record), pools[0])] + Keyed(d, pools[1..])
  }

  /** Everything a pass looks at besides the zone. */
  datatype Health = Health(ips: map<string, string>, status: map<string, NodeStatus>)

  ghost predicate Resolves(h: Health, p: Pool) {
    forall m | m in p.members :: m in h.ips
  }

  function MemberIps(h: Health, p: Pool): set<string>
    requires Resolves(h, p)
  {
    set m | m in p.members :: h.ips[m]
  }

  function Desired(h: Health, p: Pool): set<string>
    requires Resolves(h, p)
  {
    set m | m in p.members && !ShouldEject(StatusOf(h.status, m), p.ejectWhen) :: h.ips[m]
  }

  function ToRemove(h: Health, p: Pool, current: set<string>): seq<string>
    requires Resolves(h, p)
  {
    SortedSet(current * MemberIps(h, p) - Desired(h, p))
  }

  function ToAdd(h: Health, p: Pool, current: set<string>): seq<string>
    requires Resolves(h, p)
  {
    SortedSet(Desired(h, p) - current)
  }

  datatype Report = Report(record: string, current: seq<string>, isProtected: bool, added: seq<string>,
                           removed: seq<string>)

  datatype Plan = Plan(events: seq<Event>, rows: seq<Row>, reports: seq<Report>)

  function Then(a: Plan, b: Plan): Plan {
    Plan(a.events + b.events, a.rows + b.rows, a.reports + b.reports)
  }

  const EMPTY_PLAN := Plan([], [], [])

  function Removes(k: RecordKey, ips: seq<string>): seq<Event> {
    seq(|ips|, i requires 0 <= i < |ips| => Remove(k, ips[i]))
  }

  function Adds(k: RecordKey, ips: seq<string>): seq<Event> {
    seq(|ips|, i requires 0 <= i < |ips| => Add(k, ips[i]))
  }

  /** The marker first, then every removal, then every addition. */
  function Changes(k: RecordKey, remove: seq<string>, add: seq<string>): seq<Event> {
    [Mark(k)] + Removes(k, remove) + Adds(k, add)
  }

  const WATCH := "dns_watch"

  /** Keeping the last set of addresses is noted, unless there is nothing to keep. */
  function ProtectedRows(p: Pool, current: set<string>, dryRun: bool): seq<Row> {
    if current == {} then []
    else [Row(WATCH, p.cluster, p.record, if dryRun then DryRun else Execute, true, Protected(SortedSet(current)))]
  }

  function PlanPool(h: Health, kp: KeyedPool, current: set<string>, dryRun: bool): Plan
    requires Resolves(h, kp.pool)
  {
    var p, k := kp.pool, kp.key;
    if Desired(h, p) == {} then
      Plan([],
           ProtectedRows(p, current, dryRun),
           [Report(p.record, SortedSet(current), true, [], [])])
    else
      var remove, add := ToRemove(h, p, current), ToAdd(h, p, current);
      var reports := [Report(p.record, SortedSet(current), false, add, remove)];
      if dryRun || (add == [] && remove == []) then
        Plan([], [], reports)
      else
        Plan(Changes(k, remove, add),
             [Row(WATCH, p.cluster, p.record, Execute, true, Changed(add, remove))],
             reports)
  }

  /** The row of a pool: named after the loop, about the pool's record, and there exactly
      when something served is kept or something is changed; it names what is kept, or what
      is added and what is removed. */
  lemma PoolRowIs(h: Health, kp: KeyedPool, current: set<string>, dryRun: bool)
    requires Resolves(h, kp.pool)
    ensures var plan := PlanPool(h, kp, current, dryRun);
      && |plan.rows| == (if Desired(h, kp.pool) == {} then if current == {} then 0 else 1
                         else if plan.events == [] then 0 else 1)
      && forall r | r in plan.rows ::
           && r.operation == "dns_watch" && r.cluster == kp.pool.cluster && r.node == kp.pool.record && r.allowed
           && (r.mode == DryRun <==> dryRun)
           && (Desired(h, kp.pool) == {} ==> r.detail.Protected? && Elements(r.detail.current) == current)
           && (Desired(h, kp.pool) != {} ==>
                 r.detail.Changed? && Elements(r.detail.added) == Desired(h, kp.pool) - current)
           && (Desired(h, kp.pool) != {} ==>
                 Elements(r.detail.removed) == current * MemberIps(h, kp.pool) - Desired(h, kp.pool))
  {
    SortedSetElements(current);
    SortedSetElements(Desired(h, kp.pool) - current);
    SortedSetElements(current * MemberIps(h, kp.pool) - Desired(h, kp.pool));
  }

  ghost predicate AllResolve(h: Health, kps: seq<KeyedPool>) {
    forall i | 0 <= i < |kps| :: Resolves(h, kps[i].pool)
  }

  /** A pass over the first n pools: each pool is planned against the zone the
      pools before it left. */
  function PlanPass(h: Health, kps: seq<KeyedPool>, n: nat, z: Zone, dryRun: bool): Plan
    requires AllResolve(h, kps) && n <= |kps|
  {
    if n == 0 then EMPTY_PLAN
    else
      var before := PlanPass(h, kps, n - 1, z, dryRun);
      var kp := kps[n - 1];
      Then(before, PlanPool(h, kp, Members(Run(z, before.events), kp.key.owner), dryRun))
  }

  /** A pass over all pools. */
  function FullPass(h: Health, kps: seq<KeyedPool>, z: Zone, dryRun: bool): Plan
    requires AllResolve(h, kps)
  {
    PlanPass(h, kps, |kps|, z, dryRun)
  }

  // ---- performing it ------------------------------------------------------

  /** The driver has carried out these events since it held z and had logged `log`. */
  ghost predicate DriverDid(d: Driver, es: seq<Event>, z: Zone, log: seq<Event>)
    reads d.Repr()
  {
    d.Valid() && d.View() == Run(z, es) && d.Log() == log + es
  }

  method RemoveAll(d: Driver, record: string, ips: seq<string>)
    requires d.Valid()
    modifies d.Repr()
    ensures DriverDid(d, Removes(d.Key(record), ips), old(d.View()), old(d.Log()))
  {
    ghost var k, z, log := d.Key(record), d.View(), d.Log();
    for i := 0 to |ips|
      invariant DriverDid(d, Removes(k, ips[..i]), z, log)
    {
      RunSnoc(z, Removes(k, ips[..i]), Remove(k, ips[i]));
      assert Removes(k, ips[..i + 1]) == Removes(k, ips[..i]) + [Remove(k, ips[i])];
      d.RemoveMember(record, ips[i]);
    }
    assert ips[..|ips|] == ips;
  }

  method AddAll(d: Driver, record: string, ips: seq<string>, ttl: int)
    requires d.Valid()
    modifies d.Repr()
    ensures DriverDid(d, Adds(d.Key(record), ips), old(d.View()), old(d.Log()))
  {
    ghost var k, z, log := d.Key(record), d.View(), d.Log();
    for i := 0 to |ips|
      invariant DriverDid(d, Adds(k, ips[..i]), z, log)
    {
      RunSnoc(z, Adds(k, ips[..i]), Add(k, ips[i]));
      assert Adds(k, ips[..i + 1]) == Adds(k, ips[..i]) + [Add(k, ips[i])];
      d.AddMember(record, ips[i], ttl);
    }
    assert ips[..|ips|] == ips;
  }

  lemma LogChanges(log: seq<Event>, k: RecordKey, remove: seq<string>, add: seq<string>)
    ensures log + Changes(k, remove, add) == log + [Mark(k)] + Removes(k, remove) + Adds(k, add)
  {}

  lemma RunChanges(z: Zone, k: RecordKey, remove: seq<string>, add: seq<string>)
    ensures Run(z, Changes(k, remove, add)) == Run(Run(Step(z, Mark(k)), Removes(k, remove)), Adds(k, add))
  {
    RunSnoc(z, [], Mark(k));
    assert [] + [Mark(k)] == [Mark(k)];
    RunAppend(z, [Mark(k)], Removes(k, remove));
    RunAppend(z, [Mark(k)] + Removes(k, remove), Adds(k, add));
  }

  method ApplyPool(d: Driver, p: Pool, remove: seq<string>, add: seq<string>)
    requires d.Valid()
    modifies d.Repr()
    ensures DriverDid(d, Changes(d.Key(p.record), remove, add), old(d.View()), old(d.Log()))
  {
    LogChanges(d.Log(), d.Key(p.record), remove, add);
    RunChanges(d.View(), d.Key(p.record), remove, add);
    d.EnsureMarker(p.record);
    RemoveAll(d, p.record, remove);
    AddAll(d, p.record, add, p.ttl);
  }

  /** The rows that cover the changes made to one pool. */
  function CoveringRows(p: Pool, remove: seq<string>, add: seq<string>, es: seq<Event>): seq<Row> {
    if es == [] then [] else [Row(WATCH, p.cluster, p.record, Execute, true, Changed(add, remove))]
  }

  /** The part of a pass that may change the zone: apply the difference, then
      write the row that covers it. */
  method Reconcile(d: Driver, p: Pool, remove: seq<string>, add: seq<string>, audit: AuditLog?, dryRun: bool)
    requires d.Valid()
    modifies d.Repr(), audit
    ensures var es := if dryRun || (add == [] && remove == []) then [] else Changes(d.Key(p.record), remove, add);
      && DriverDid(d, es, old(d.View()), old(d.Log()))
      && (audit != null ==>
            audit.rows == old(audit.rows) + CoveringRows(p, remove, add, es))
  {
    if add == [] && remove == [] {
      return;
    }
    if dryRun {
      return;
    }
    ApplyPool(d, p, remove, add);
    if audit != null {
      var _ := audit.Record(WATCH, p.cluster, p.record, Execute, true, Changed(add, remove));
    }
  }

  method NoteProtected(audit: AuditLog?, p: Pool, current: set<string>, dryRun: bool)
    modifies audit
    ensures audit != null ==> audit.rows == old(audit.rows) + ProtectedRows(p, current, dryRun)
  {
    if audit != null && current != {} {
      var _ := audit.Record(WATCH, p.cluster, p.record, if dryRun then DryRun else Execute, true,
                            Protected(SortedSet(current)));
    }
  }

  method WatchPool(d: Driver, h: Health, p: Pool, audit: AuditLog?, dryRun: bool) returns (report: Report)
    requires d.Valid() && Resolves(h, p)
    modifies d.Repr(), audit
    ensures d.Valid()
    ensures var kp := KeyedPool(d.Key(p.record), p);
      var plan := PlanPool(h, kp, Members(old(d.View()), kp.key.owner), dryRun);
      && d.View() == Run(old(d.View()), plan.events)
      && d.Log() == old(d.Log()) + plan.events
      && plan.reports == [report]
      && (audit != null ==> audit.rows == old(audit.rows) + plan.rows)
  {
    var listed := d.ListMembers(p.record);
    var current := Elements(listed);
    var desired := Desired(h, p);
    if desired == {} {
      report := Report(p.record, SortedSet(current), true, [], []);
      NoteProtected(audit, p, current, dryRun);
    } else {
      var remove := SortedSet(current * MemberIps(h, p) - desired);
      var add := SortedSet(desired - current);
      report := Report(p.record, SortedSet(current), false, add, remove);
      Reconcile(d, p, remove, add, audit, dryRun);
    }
  }

  function PoolsOf(f: Fleet): seq<Pool> {
    if f.pools.Some? then f.pools.value else []
  }

  function HealthOf(f: Fleet, probes: seq<ClusterStatus>): Health {
    Health(NodeIps(AllNodes(f.clusters)), ByName(AllStatuses(probes)))
  }

  /** Every pool member has an address: what a pass needs of its fleet. */
  ghost predicate Servable(f: Fleet) {
    var pools := PoolsOf(f);
    forall i | 0 <= i < |pools| :: forall m | m in pools[i].members :: m in NodeIps(AllNodes(f.clusters))
  }

  /** The fleet validators guarantee it. */
  lemma ValidFleetIsServable(f: Fleet)
    requires ValidFleet(f)
    ensures Servable(f)
  {
    var pools := PoolsOf(f);
    forall i, m | 0 <= i < |pools| && m in pools[i].members ensures m in NodeIps(AllNodes(f.clusters)) {
      PoolMembersResolve(f, pools[i], m);
    }
  }

  lemma FleetResolves(f: Fleet, d: Driver, probes: seq<ClusterStatus>)
    requires Servable(f)
    ensures AllResolve(HealthOf(f, probes), Keyed(d, PoolsOf(f)))
  {}

  function RowsOf(audit: AuditLog?): seq<Row>
    reads audit
  {
    if audit != null then audit.rows else []
  }

  /** Driver, audit log and reports stand where a plan leaves them. */
  ghost predicate PassSoFar(d: Driver, audit: AuditLog?, done: Plan, z: Zone, log: seq<Event>, rows: seq<Row>,
                            reports: seq<Report>)
    reads d.Repr(), audit
  {
    && DriverDid(d, done.events, z, log)
    && reports == done.reports
    && (audit != null ==> audit.rows == rows + done.rows)
  }

  lemma PassNext(h: Health, kps: seq<KeyedPool>, n: nat, z: Zone, dryRun: bool)
    requires AllResolve(h, kps) && n < |kps|
    ensures Resolves(h, kps[n].pool)
    ensures var done := PlanPass(h, kps, n, z, dryRun);
      PlanPass(h, kps, n + 1, z, dryRun) ==
        Then(done, PlanPool(h, kps[n], Members(Run(z, done.events), kps[n].key.owner), dryRun))
  {}

  ghost predicate KeyedBy(d: Driver, pools: seq<Pool>, kps: seq<KeyedPool>) {
    |kps| == |pools| && forall i | 0 <= i < |pools| :: kps[i] == KeyedPool(d.Key(pools[i].record), pools[i])
  }

  /** One round of the loop below. */
  method WatchNext(d: Driver, h: Health, pools: seq<Pool>, n: nat, audit: AuditLog?, dryRun: bool, reports: seq<Report>,
                   ghost kps: seq<KeyedPool>, ghost z: Zone, ghost log: seq<Event>, ghost rows: seq<Row>)
    returns (more: seq<Report>)
    requires n < |pools| && KeyedBy(d, pools, kps) && AllResolve(h, kps)
    requires PassSoFar(d, audit, PlanPass(h, kps, n, z, dryRun), z, log, rows, reports)
    modifies d.Repr(), audit
    ensures PassSoFar(d, audit, PlanPass(h, kps, n + 1, z, dryRun), z, log, rows, more)
  {
    PassNext(h, kps, n, z, dryRun);
    ghost var done := PlanPass(h, kps, n, z, dryRun);
    ghost var step := PlanPool(h, kps[n], Members(d.View(), kps[n].key.owner), dryRun);
    RunAppend(z, done.events, step.events);
    ConcatAssociative(log, done.events, step.events);
    ConcatAssociative(rows, done.rows, step.rows);
    var report := WatchPool(d, h, pools[n], audit, dryRun);
    more := reports + [report];
  }

  lemma PassStart(d: Driver, audit: AuditLog?)
    requires d.Valid()
    ensures PassSoFar(d, audit, EMPTY_PLAN, d.View(), d.Log(), RowsOf(audit), [])
  {}

  /** The loop over the pools; `kps` are the pools with their keys. */
  method WatchPools(d: Driver, h: Health, pools: seq<Pool>, audit: AuditLog?, dryRun: bool, ghost kps: seq<KeyedPool>)
    returns (reports: seq<Report>)
    requires d.Valid() && KeyedBy(d, pools, kps) && AllResolve(h, kps)
    modifies d.Repr(), audit
    ensures PassSoFar(d, audit, PlanPass(h, kps, |kps|, old(d.View()), dryRun), old(d.View()), old(d.Log()),
                      old(RowsOf(audit)), reports)
  {
    ghost var z, log, rows := d.View(), d.Log(), RowsOf(audit);
    reports := [];
    PassStart(d, audit);
    for i := 0 to |pools|
      invariant PassSoFar(d, audit, PlanPass(h, kps, i, z, dryRun), z, log, rows, reports)
    {
      reports := WatchNext(d, h, pools, i, audit, dryRun, reports, kps, z, log, rows);
    }
  }

  /** What one pass does, for a valid fleet and whatever the probes said. */
  ghost function WatchPlan(f: Fleet, d: Driver, z: Zone, dryRun: bool, probes: seq<ClusterStatus>): Plan
    requires Servable(f)
  {
    FleetResolves(f, d, probes);
    FullPass(HealthOf(f, probes), Keyed(d, PoolsOf(f)), z, dryRun)
  }

  method WatchOnce(f: Fleet, d: Driver, audit: AuditLog?, dryRun: bool, probes: seq<ClusterStatus>)
    returns (reports: seq<Report>)
    requires Servable(f) && d.Valid()
    modifies d.Repr(), audit
    ensures d.Valid()
    ensures var plan := WatchPlan(f, d, old(d.View()), dryRun, probes);
      && d.View() == Run(old(d.View()), plan.events)
      && d.Log() == old(d.Log()) + plan.events
      && reports == plan.reports
      && (audit != null ==> audit.rows == old(audit.rows) + plan.rows)
  {
    FleetResolves(f, d, probes);
    if f.pools.None? || f.pools.value == [] {
      return [];
    }
    reports := WatchPools(d, HealthOf(f, probes), f.pools.value, audit, dryRun, Keyed(d, f.pools.value));
  }
}
