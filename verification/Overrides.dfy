/** Manual DNS overrides (`_dns_override` of src/solfleet/operations.py): eject
    and restore, gated, one decision and one audit row per pool. */
module Overrides {
  import opened Text
  import opened Config
  import opened Zones
  import opened Dns
  import opened Safety
  import opened Audit
  import opened Watch

  datatype Action = Eject | Restore

  function OperationName(a: Action): string {
    if a.Eject? then "dns_eject" else "dns_restore"
  }

  /** The pools a node belongs to, narrowed to one record when one is given. */
  function PoolsForNode(pools: seq<Pool>, name: string, record: Option<string>): seq<Pool> {
    if pools == [] then []
    else
      var p := pools[0];
      (if name in p.members && (Truthy(record) ==> p.record == record.value) then [p] else [])
      + PoolsForNode(pools[1..], name, record)
  }

  /** A pool that lists the node and, when a record is given, keeps that record. */
  ghost predicate Lists(p: Pool, name: string, record: Option<string>) {
    name in p.members && (record.Some? && record.value != "" ==> p.record == record.value)
  }

  lemma {:induction false} PoolsForNodeHas(pools: seq<Pool>, name: string, record: Option<string>)
    ensures forall p :: p in PoolsForNode(pools, name, record) <==> p in pools && Lists(p, name, record)
  {
    if pools != [] {
      PoolsForNodeHas(pools[1..], name, record);
      assert pools == [pools[0]] + pools[1..];
    }
  }

  /** They are found in the order of the fleet file, each as often as it is there: of one
      pool it is that pool or nothing, ... */
  lemma PoolsForNodeOfOne(p: Pool, name: string, record: Option<string>)
    ensures PoolsForNode([p], name, record) == if Lists(p, name, record) then [p] else []
  {
    assert [p][1..] == [];
  }

  /** ... and of a longer list what its parts give in turn. */
  lemma {:induction false} PoolsForNodeInOrder(a: seq<Pool>, b: seq<Pool>, name: string, record: Option<string>)
    ensures PoolsForNode(a + b, name, record) == PoolsForNode(a, name, record) + PoolsForNode(b, name, record)
  {
    if a == [] {
      assert a + b == b;
    } else {
      assert (a + b)[1..] == a[1..] + b;
      PoolsForNodeInOrder(a[1..], b, name, record);
    }
  }

  predicate WouldEmpty(current: set<string>, ip: string) {
    current - {ip} == {} && ip in current
  }

  function OverrideChecks(action: Action, current: set<string>, ip: string): seq<Check> {
    match action
    case Eject => [Check(!WouldEmpty(current, ip), LastAddress)]
    case Restore => [Check(true, NothingToCheck)]
  }

  predicate Refused(action: Action, current: set<string>, ip: string) {
    action.Eject? && current == {ip}
  }

  /** What an override does to one pool, the gate already decided. */
  function PlanOverride(action: Action, kp: KeyedPool, current: set<string>, ip: string, confirm: bool): Plan {
    var change := if action.Eject? then Remove(kp.key, ip) else Add(kp.key, ip);
    Plan(if confirm && !Refused(action, current, ip) then [Mark(kp.key), change] else [],
         [Row(OperationName(action), kp.pool.cluster, kp.pool.record,
              if confirm then Execute else DryRun, !Refused(action, current, ip), About(ip))],
         [])
  }

  /** The one row of a pool: the operation by name, the mode asked for, and refused exactly
      when the address is the only one and is to go. */
  lemma OverrideRowIs(action: Action, kp: KeyedPool, current: set<string>, ip: string, confirm: bool)
    ensures |PlanOverride(action, kp, current, ip, confirm).rows| == 1
    ensures var row := PlanOverride(action, kp, current, ip, confirm).rows[0];
      && row.operation == (match action case Eject => "dns_eject" case Restore => "dns_restore")
      && row.cluster == kp.pool.cluster && row.node == kp.pool.record && row.detail == About(ip)
      && (row.mode == Execute <==> confirm)
      && (!row.allowed <==> action == Eject && ip in current && forall x | x in current :: x == ip)
  {
    if action == Eject && ip in current && forall x | x in current :: x == ip {
      assert current == {ip};
    }
  }

  function PlanOverrides(action: Action, kps: seq<KeyedPool>, n: nat, z: Zone, ip: string, confirm: bool): Plan
    requires n <= |kps|
  {
    if n == 0 then EMPTY_PLAN
    else
      var before := PlanOverrides(action, kps, n - 1, z, ip, confirm);
      var kp := kps[n - 1];
      Then(before, PlanOverride(action, kp, Members(Run(z, before.events), kp.key.owner), ip, confirm))
  }

  function FullOverride(action: Action, kps: seq<KeyedPool>, z: Zone, ip: string, confirm: bool): Plan {
    PlanOverrides(action, kps, |kps|, z, ip, confirm)
  }

  /** An override is refused exactly when it is an eject of the last address. */
  lemma OverrideAllowedIff(action: Action, current: set<string>, ip: string, confirm: bool)
    ensures Gate(confirm, OverrideChecks(action, current, ip)).allowed <==> !Refused(action, current, ip)
    ensures LastAddress in Gate(confirm, OverrideChecks(action, current, ip)).reasons <==> Refused(action, current, ip)
  {
    GateTruthful(confirm, OverrideChecks(action, current, ip));
    FailedHas(OverrideChecks(action, current, ip), LastAddress);
    assert OverrideChecks(action, current, ip)[0] in OverrideChecks(action, current, ip);
    if WouldEmpty(current, ip) {
      assert forall x | x in current :: x == ip || x in current - {ip};
      assert current == {ip};
    }
  }

  datatype Entry = Entry(record: string, decision: Decision, membersNow: Option<seq<string>>)

  ghost predicate Describes(e: Entry, p: Pool, action: Action, current: set<string>, ip: string, confirm: bool) {
    && e.record == p.record
    && e.decision.allowed == !Refused(action, current, ip)
    && InMode(e.decision, confirm)
    && (e.membersNow.Some? <==> confirm && e.decision.allowed)
  }

  /** The i-th entry of a call describes the decision on the i-th pool, taken on the
      zone the pools before it left, and the members after its own change. */
  ghost predicate EntryTold(e: Entry, kps: seq<KeyedPool>, i: nat, action: Action, z: Zone, ip: string, confirm: bool)
    requires i < |kps|
  {
    var before := Run(z, PlanOverrides(action, kps, i, z, ip, confirm).events);
    var after := Run(z, PlanOverrides(action, kps, i + 1, z, ip, confirm).events);
    && Describes(e, kps[i].pool, action, Members(before, kps[i].key.owner), ip, confirm)
    && (e.membersNow.Some? ==> Elements(e.membersNow.value) == Members(after, kps[i].key.owner))
  }

  ghost predicate EntriesTold(entries: seq<Entry>, kps: seq<KeyedPool>, action: Action, z: Zone, ip: string,
                              confirm: bool)
  {
    |entries| <= |kps| && forall i | 0 <= i < |entries| :: EntryTold(entries[i], kps, i, action, z, ip, confirm)
  }

  datatype Outcome = UnknownNode | NotInAnyPool | Done(entries: seq<Entry>)

  method OverridePool(d: Driver, p: Pool, action: Action, ip: string, confirm: bool, audit: AuditLog?)
    returns (entry: Entry)
    requires d.Valid()
    modifies d.Repr(), audit
    ensures d.Valid()
    ensures var kp := KeyedPool(d.Key(p.record), p);
      var current := Members(old(d.View()), kp.key.owner);
      var plan := PlanOverride(action, kp, current, ip, confirm);
      && d.View() == Run(old(d.View()), plan.events)
      && d.Log() == old(d.Log()) + plan.events
      && (audit != null ==> audit.rows == old(audit.rows) + plan.rows)
      && Describes(entry, p, action, current, ip, confirm)
    ensures entry.membersNow.Some? ==>
      Elements(entry.membersNow.value) == Members(d.View(), d.Key(p.record).owner)
  {
    var listed := d.ListMembers(p.record);
    var current := Elements(listed);
    var decision := Gate(confirm, OverrideChecks(action, current, ip));
    OverrideAllowedIff(action, current, ip, confirm);
    entry := Entry(p.record, decision, None);
    if confirm && decision.allowed {
      ApplyOverride(d, p.record, p.ttl, action, ip);
      var now := d.ListMembers(p.record);
      entry := entry.(membersNow := Some(now));
    }
    if audit != null {
      var _ := audit.Record(OperationName(action), p.cluster, p.record, decision.mode, decision.allowed, About(ip));
    }
  }

  method ApplyOverride(d: Driver, record: string, ttl: int, action: Action, ip: string)
    requires d.Valid()
    modifies d.Repr()
    ensures d.Valid()
    ensures var k := d.Key(record);
      var es := [Mark(k), if action.Eject? then Remove(k, ip) else Add(k, ip)];
      d.View() == Run(old(d.View()), es) && d.Log() == old(d.Log()) + es
  {
    ghost var k, z := d.Key(record), d.View();
    ghost var change := if action.Eject? then Remove(k, ip) else Add(k, ip);
    RunSnoc(z, [], Mark(k));
    RunSnoc(z, [Mark(k)], change);
    assert [] + [Mark(k)] == [Mark(k)] && [Mark(k)] + [change] == [Mark(k), change];
    ConcatAssociative(d.Log(), [Mark(k)], [change]);
    d.EnsureMarker(record);
    if action.Eject? {
      d.RemoveMember(record, ip);
    } else {
      d.AddMember(record, ip, ttl);
    }
  }

  /** The driver and the audit log stand where a plan leaves them. */
  ghost predicate Performed(d: Driver, audit: AuditLog?, z: Zone, log: seq<Event>, rows: seq<Row>, plan: Plan)
    reads d.Repr(), audit
  {
    && d.View() == Run(z, plan.events)
    && d.Log() == log + plan.events
    && (audit != null ==> audit.rows == rows + plan.rows)
  }

  /** One pool after others: `done` is the plan over the pools before. */
  method OverrideOne(d: Driver, pool: Pool, action: Action, ip: string, confirm: bool, audit: AuditLog?,
                      ghost done: Plan, ghost z: Zone, ghost log: seq<Event>, ghost rows: seq<Row>)
    returns (entry: Entry, ghost next: Plan)
    requires d.Valid() && Performed(d, audit, z, log, rows, done)
    modifies d.Repr(), audit
    ensures d.Valid() && Performed(d, audit, z, log, rows, next)
    ensures var kp := KeyedPool(d.Key(pool.record), pool);
      next == Then(done, PlanOverride(action, kp, Members(Run(z, done.events), kp.key.owner), ip, confirm))
    ensures Describes(entry, pool, action, Members(Run(z, done.events), d.Key(pool.record).owner), ip, confirm)
    ensures entry.membersNow.Some? ==>
      Elements(entry.membersNow.value) == Members(Run(z, next.events), d.Key(pool.record).owner)
  {
    ghost var kp := KeyedPool(d.Key(pool.record), pool);
    ghost var step := PlanOverride(action, kp, Members(d.View(), kp.key.owner), ip, confirm);
    next := Then(done, step);
    RunAppend(z, done.events, step.events);
    ConcatAssociative(log, done.events, step.events);
    ConcatAssociative(rows, done.rows, step.rows);
    entry := OverridePool(d, pool, action, ip, confirm, audit);
  }

  lemma EntriesToldNext(entries: seq<Entry>, kps: seq<KeyedPool>, action: Action, z: Zone, ip: string, confirm: bool,
                        entry: Entry, before: Plan, next: Plan)
    requires |entries| < |kps| && EntriesTold(entries, kps, action, z, ip, confirm)
    requires before == PlanOverrides(action, kps, |entries|, z, ip, confirm)
    requires var kp := kps[|entries|];
      var current := Members(Run(z, before.events), kp.key.owner);
      && next == Then(before, PlanOverride(action, kp, current, ip, confirm))
      && Describes(entry, kp.pool, action, current, ip, confirm)
      && (entry.membersNow.Some? ==> Elements(entry.membersNow.value) == Members(Run(z, next.events), kp.key.owner))
    ensures EntriesTold(entries + [entry], kps, action, z, ip, confirm)
    ensures next == PlanOverrides(action, kps, |entries| + 1, z, ip, confirm)
  {
    NextPlan(kps, |entries|, action, z, ip, confirm, before);
    EntryToldNow(entry, kps, |entries|, action, z, ip, confirm, before, next);
    EntriesToldSnoc(entries, kps, action, z, ip, confirm, entry);
  }

  lemma NextPlan(kps: seq<KeyedPool>, n: nat, action: Action, z: Zone, ip: string, confirm: bool, before: Plan)
    requires n < |kps| && before == PlanOverrides(action, kps, n, z, ip, confirm)
    ensures var current := Members(Run(z, before.events), kps[n].key.owner);
      PlanOverrides(action, kps, n + 1, z, ip, confirm) ==
        Then(before, PlanOverride(action, kps[n], current, ip, confirm))
  {}

  lemma EntryToldNow(entry: Entry, kps: seq<KeyedPool>, n: nat, action: Action, z: Zone, ip: string, confirm: bool,
                     before: Plan, next: Plan)
    requires n < |kps|
    requires before == PlanOverrides(action, kps, n, z, ip, confirm)
    requires next == PlanOverrides(action, kps, n + 1, z, ip, confirm)
    requires Describes(entry, kps[n].pool, action, Members(Run(z, before.events), kps[n].key.owner), ip, confirm)
    requires entry.membersNow.Some? ==>
      Elements(entry.membersNow.value) == Members(Run(z, next.events), kps[n].key.owner)
    ensures EntryTold(entry, kps, n, action, z, ip, confirm)
  {}

  lemma EntriesToldSnoc(entries: seq<Entry>, kps: seq<KeyedPool>, action: Action, z: Zone, ip: string, confirm: bool,
                        entry: Entry)
    requires |entries| < |kps| && EntriesTold(entries, kps, action, z, ip, confirm)
    requires EntryTold(entry, kps, |entries|, action, z, ip, confirm)
    ensures EntriesTold(entries + [entry], kps, action, z, ip, confirm)
  {
    var more := entries + [entry];
    forall i | 0 <= i < |more| ensures EntryTold(more[i], kps, i, action, z, ip, confirm) {
      if i < |entries| {
        assert more[i] == entries[i];
      } else {
        assert i == |entries| && more[i] == entry;
      }
    }
  }

  /** The first |entries| pools are done: z, log and rows are what was there before. */
  ghost predicate SoFar(d: Driver, audit: AuditLog?, z: Zone, log: seq<Event>, rows: seq<Row>, kps: seq<KeyedPool>,
                        entries: seq<Entry>, action: Action, ip: string, confirm: bool)
    reads d.Repr(), audit
  {
    && d.Valid()
    && EntriesTold(entries, kps, action, z, ip, confirm)
    && Performed(d, audit, z, log, rows, PlanOverrides(action, kps, |entries|, z, ip, confirm))
  }

  /** One round of the loop below. */
  method OverrideNext(d: Driver, pool: Pool, entries: seq<Entry>, action: Action, ip: string, confirm: bool,
                      audit: AuditLog?, ghost z: Zone, ghost log: seq<Event>, ghost rows: seq<Row>,
                      ghost kps: seq<KeyedPool>)
    returns (more: seq<Entry>)
    requires |entries| < |kps| && kps[|entries|] == KeyedPool(d.Key(pool.record), pool)
    requires SoFar(d, audit, z, log, rows, kps, entries, action, ip, confirm)
    modifies d.Repr(), audit
    ensures |more| == |entries| + 1
    ensures SoFar(d, audit, z, log, rows, kps, more, action, ip, confirm)
  {
    ghost var before, next := PlanOverrides(action, kps, |entries|, z, ip, confirm), EMPTY_PLAN;
    var entry;
    entry, next := OverrideOne(d, pool, action, ip, confirm, audit, before, z, log, rows);
    EntriesToldNext(entries, kps, action, z, ip, confirm, entry, before, next);
    more := entries + [entry];
  }

  method OverridePools(d: Driver, pools: seq<Pool>, action: Action, ip: string, confirm: bool, audit: AuditLog?)
    returns (entries: seq<Entry>)
    requires d.Valid()
    modifies d.Repr(), audit
    ensures d.Valid()
    ensures var plan := FullOverride(action, Keyed(d, pools), old(d.View()), ip, confirm);
      && d.View() == Run(old(d.View()), plan.events)
      && d.Log() == old(d.Log()) + plan.events
      && (audit != null ==> audit.rows == old(audit.rows) + plan.rows)
    ensures |entries| == |pools| && EntriesTold(entries, Keyed(d, pools), action, old(d.View()), ip, confirm)
  {
    ghost var z, log, kps := d.View(), d.Log(), Keyed(d, pools);
    ghost var rows := if audit != null then audit.rows else [];
    entries := [];
    for i := 0 to |pools|
      invariant |entries| == i
      invariant SoFar(d, audit, z, log, rows, kps, entries, action, ip, confirm)
    {
      entries := OverrideNext(d, pools[i], entries, action, ip, confirm, audit, z, log, rows, kps);
    }
  }

  /** One row per pool. */
  method OverridePoolsWithRows(d: Driver, pools: seq<Pool>, action: Action, ip: string, confirm: bool, audit: AuditLog?)
    returns (entries: seq<Entry>)
    requires d.Valid()
    modifies d.Repr(), audit
    ensures d.Valid()
    ensures Performed(d, audit, old(d.View()), old(d.Log()), if audit != null then old(audit.rows) else [],
                      FullOverride(action, Keyed(d, pools), old(d.View()), ip, confirm))
    ensures |entries| == |pools| && EntriesTold(entries, Keyed(d, pools), action, old(d.View()), ip, confirm)
    ensures audit != null ==> |audit.rows| == |old(audit.rows)| + |pools|
  {
    RowPerPool(action, Keyed(d, pools), |pools|, d.View(), ip, confirm);
    entries := OverridePools(d, pools, action, ip, confirm, audit);
  }

  /** The whole override: what it does to the zone is decided by the first node
      of that name and the pools that list it. */
  function OverridePlan(f: Fleet, d: Driver, z: Zone, name: string, action: Action, record: Option<string>,
                        confirm: bool): Plan
  {
    var found := FindNode(f.clusters, name);
    if found.None? then EMPTY_PLAN
    else
      FullOverride(action, Keyed(d, PoolsForNode(PoolsOf(f), name, record)), z, found.value.node.host, confirm)
  }

  method DnsOverride(f: Fleet, d: Driver, name: string, action: Action, record: Option<string>, confirm: bool,
                     audit: AuditLog?)
    returns (r: Outcome)
    requires d.Valid()
    modifies d.Repr(), audit
    ensures d.Valid()
    ensures r == UnknownNode <==> FindNode(f.clusters, name).None?
    ensures r == NotInAnyPool <==>
      FindNode(f.clusters, name).Some? && PoolsForNode(PoolsOf(f), name, record) == []
    ensures var plan := OverridePlan(f, d, old(d.View()), name, action, record, confirm);
      && d.View() == Run(old(d.View()), plan.events)
      && d.Log() == old(d.Log()) + plan.events
      && (audit != null ==> audit.rows == old(audit.rows) + plan.rows)
    // every pool is reported, in order, with what was decided and what is left
    ensures r.Done? ==>
      var pools, ip := PoolsForNode(PoolsOf(f), name, record), FindNode(f.clusters, name).value.node.host;
      |r.entries| == |pools| && EntriesTold(r.entries, Keyed(d, pools), action, old(d.View()), ip, confirm)
    // one audit row per pool that lists the node, on every path
    ensures audit != null && r.Done? ==>
      |audit.rows| == |old(audit.rows)| + |PoolsForNode(PoolsOf(f), name, record)|
  {
    var found := FindNode(f.clusters, name);
    if found.None? {
      return UnknownNode;
    }
    var pools := PoolsForNode(PoolsOf(f), name, record);
    if pools == [] {
      return NotInAnyPool;
    }
    var entries := OverridePoolsWithRows(d, pools, action, found.value.node.host, confirm, audit);
    r := Done(entries);
  }

  lemma {:induction false} RowPerPool(action: Action, kps: seq<KeyedPool>, n: nat, z: Zone, ip: string, confirm: bool)
    requires n <= |kps|
    ensures |PlanOverrides(action, kps, n, z, ip, confirm).rows| == n
  {
    if n > 0 {
      RowPerPool(action, kps, n - 1, z, ip, confirm);
    }
  }
}
