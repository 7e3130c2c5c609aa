/** What a pass over the pools serves, told by the fields of the fleet and of the probes
    (`watch_once` of src/solfleet/watch.py). */
module Serving {
  import opened Text
  import opened Config
  import opened Probe
  import opened Zones
  import opened Dns
  import opened Watch
  import opened Failover

  // ---- the last status and the last host of a name ------------------------

  /** Node k of cluster c is the last one probed under this name. */
  ghost predicate LastStatus(probes: seq<ClusterStatus>, name: string, c: nat, k: nat) {
    && c < |probes| && k < |probes[c].nodes| && probes[c].nodes[k].name == name
    && (forall l | k < l < |probes[c].nodes| :: probes[c].nodes[l].name != name)
    && forall b | c < b < |probes| :: NotIn(probes[b], name)
  }

  ghost predicate NotIn(probe: ClusterStatus, name: string) {
    forall l | 0 <= l < |probe.nodes| :: probe.nodes[l].name != name
  }

  ghost predicate Unprobed(probes: seq<ClusterStatus>, name: string) {
    forall b | 0 <= b < |probes| :: NotIn(probes[b], name)
  }

  lemma {:induction false} ByNameOfBoth(a: seq<NodeStatus>, b: seq<NodeStatus>, name: string)
    ensures StatusOf(ByName(a + b), name) ==
      if name in ByName(b) then StatusOf(ByName(b), name) else StatusOf(ByName(a), name)
  {
    if b == [] {
      assert a + b == a;
    } else {
      var n := |b| - 1;
      assert (a + b)[..|a + b| - 1] == a + b[..n];
      ByNameOfBoth(a, b[..n], name);
    }
  }

  lemma {:induction false} ByNameIsLast(nodes: seq<NodeStatus>, name: string) returns (k: nat)
    ensures if name in ByName(nodes) then
              && k < |nodes| && nodes[k].name == name && ByName(nodes)[name] == nodes[k]
              && forall l | k < l < |nodes| :: nodes[l].name != name
            else forall l | 0 <= l < |nodes| :: nodes[l].name != name
  {
    k := 0;
    if nodes != [] {
      var n := |nodes| - 1;
      if nodes[n].name == name {
        k := n;
      } else {
        k := ByNameIsLast(nodes[..n], name);
      }
    }
  }

  /** The table of statuses holds the last one of each name that was probed. */
  lemma {:induction false} StatusIsLast(probes: seq<ClusterStatus>, name: string) returns (c: nat, k: nat)
    ensures if name in ByName(AllStatuses(probes)) then
              LastStatus(probes, name, c, k) && ByName(AllStatuses(probes))[name] == probes[c].nodes[k]
            else Unprobed(probes, name)
  {
    c, k := 0, 0;
    if probes != [] {
      var rest := probes[1..];
      ByNameOfBoth(probes[0].nodes, AllStatuses(rest), name);
      c, k := StatusIsLast(rest, name);
      if name in ByName(AllStatuses(rest)) {
        LastStatusLater(probes, name, c, k);
        c := c + 1;
      } else {
        UnprobedLater(probes, name);
        c := 0;
        k := ByNameIsLast(probes[0].nodes, name);
      }
    }
  }

  lemma LastStatusLater(probes: seq<ClusterStatus>, name: string, c: nat, k: nat)
    requires probes != [] && LastStatus(probes[1..], name, c, k)
    ensures LastStatus(probes, name, c + 1, k)
  {
    forall b | c + 1 < b < |probes| ensures NotIn(probes[b], name) {
      assert probes[1..][b - 1] == probes[b];
    }
  }

  lemma UnprobedLater(probes: seq<ClusterStatus>, name: string)
    requires probes != [] && Unprobed(probes[1..], name)
    ensures forall b | 0 < b < |probes| :: NotIn(probes[b], name)
  {
    forall b | 0 < b < |probes| ensures NotIn(probes[b], name) {
      assert probes[1..][b - 1] == probes[b];
    }
  }

  lemma NoLastStatus(probes: seq<ClusterStatus>, name: string, c: nat, k: nat)
    requires Unprobed(probes, name)
    ensures !LastStatus(probes, name, c, k)
  {
    if c < |probes| {
      assert NotIn(probes[c], name);
    }
  }

  lemma LastStatusUnique(probes: seq<ClusterStatus>, name: string, c: nat, k: nat, d: nat, l: nat)
    requires LastStatus(probes, name, c, k) && LastStatus(probes, name, d, l)
    ensures c == d && k == l
  {}

  /** Node k of cluster c is the last of this name in the fleet. */
  ghost predicate LastNode(f: Fleet, name: string, c: nat, k: nat) {
    && c < |f.clusters| && k < |f.clusters[c].cluster.nodes| && f.clusters[c].cluster.nodes[k].name == name
    && (forall l | k < l < |f.clusters[c].cluster.nodes| :: f.clusters[c].cluster.nodes[l].name != name)
    && forall b | c < b < |f.clusters| :: NoneNamed(f.clusters[b].cluster, name)
  }

  ghost predicate NoneNamed(cluster: Cluster, name: string) {
    forall l | 0 <= l < |cluster.nodes| :: cluster.nodes[l].name != name
  }

  /** The address a member is served under. */
  ghost predicate HasHost(f: Fleet, name: string, ip: string) {
    exists c: nat, k: nat :: LastNode(f, name, c, k) && f.clusters[c].cluster.nodes[k].host == ip
  }

  lemma {:induction false} NodeIpsOfBoth(a: seq<Node>, b: seq<Node>, name: string)
    ensures name in NodeIps(a + b) <==> name in NodeIps(a) || name in NodeIps(b)
    ensures name in NodeIps(b) ==> NodeIps(a + b)[name] == NodeIps(b)[name]
    ensures name !in NodeIps(b) && name in NodeIps(a) ==> NodeIps(a + b)[name] == NodeIps(a)[name]
  {
    if b == [] {
      assert a + b == a;
    } else {
      var n := |b| - 1;
      assert (a + b)[..|a + b| - 1] == a + b[..n];
      NodeIpsOfBoth(a, b[..n], name);
    }
  }

  lemma {:induction false} NodeIpsIsLast(nodes: seq<Node>, name: string) returns (k: nat)
    ensures if name in NodeIps(nodes) then
              && k < |nodes| && nodes[k].name == name && NodeIps(nodes)[name] == nodes[k].host
              && forall l | k < l < |nodes| :: nodes[l].name != name
            else forall l | 0 <= l < |nodes| :: nodes[l].name != name
  {
    k := 0;
    if nodes != [] {
      var n := |nodes| - 1;
      if nodes[n].name == name {
        k := n;
      } else {
        k := NodeIpsIsLast(nodes[..n], name);
      }
    }
  }

  lemma {:induction false} HostIsLast(f: Fleet, name: string) returns (c: nat, k: nat)
    ensures var ips := NodeIps(AllNodes(f.clusters));
      if name in ips then LastNode(f, name, c, k) && ips[name] == f.clusters[c].cluster.nodes[k].host
      else forall b | 0 <= b < |f.clusters| :: NoneNamed(f.clusters[b].cluster, name)
    decreases |f.clusters|
  {
    c, k := 0, 0;
    if f.clusters != [] {
      var rest := f.(clusters := f.clusters[1..]);
      NodeIpsOfBoth(f.clusters[0].cluster.nodes, AllNodes(rest.clusters), name);
      c, k := HostIsLast(rest, name);
      if name in NodeIps(AllNodes(rest.clusters)) {
        LastNodeLater(f, name, c, k);
        c := c + 1;
      } else {
        NoneNamedLater(f, name);
        c := 0;
        k := NodeIpsIsLast(f.clusters[0].cluster.nodes, name);
      }
    }
  }

  lemma LastNodeLater(f: Fleet, name: string, c: nat, k: nat)
    requires f.clusters != [] && LastNode(f.(clusters := f.clusters[1..]), name, c, k)
    ensures LastNode(f, name, c + 1, k)
  {
    forall b | c + 1 < b < |f.clusters| ensures NoneNamed(f.clusters[b].cluster, name) {
      assert f.clusters[1..][b - 1] == f.clusters[b];
    }
  }

  lemma NoneNamedLater(f: Fleet, name: string)
    requires f.clusters != []
    requires forall b | 0 <= b < |f.clusters| - 1 :: NoneNamed(f.clusters[1..][b].cluster, name)
    ensures forall b | 0 < b < |f.clusters| :: NoneNamed(f.clusters[b].cluster, name)
  {
    forall b | 0 < b < |f.clusters| ensures NoneNamed(f.clusters[b].cluster, name) {
      assert f.clusters[1..][b - 1] == f.clusters[b];
    }
  }

  lemma LastNodeUnique(f: Fleet, name: string, c: nat, k: nat, d: nat, l: nat)
    requires LastNode(f, name, c, k) && LastNode(f, name, d, l)
    ensures c == d && k == l
  {}

  lemma HostIff(f: Fleet, name: string, ip: string)
    requires name in NodeIps(AllNodes(f.clusters))
    ensures NodeIps(AllNodes(f.clusters))[name] == ip <==> HasHost(f, name, ip)
  {
    var c, k := HostIsLast(f, name);
    if HasHost(f, name, ip) {
      var d: nat, l: nat :| LastNode(f, name, d, l) && f.clusters[d].cluster.nodes[l].host == ip;
      LastNodeUnique(f, name, c, k, d, l);
    }
  }

  // ---- members and pools --------------------------------------------------

  /** The member breaks a rule by its last status, or was not probed and the pool ejects
      unhealthy members. */
  ghost predicate Failing(probes: seq<ClusterStatus>, ew: EjectWhen, name: string) {
    || (ew.unhealthy && Unprobed(probes, name))
    || exists c: nat, k: nat :: LastStatus(probes, name, c, k) && Fails(probes[c].nodes[k], ew)
  }

  lemma FailingIff(probes: seq<ClusterStatus>, ew: EjectWhen, name: string)
    ensures ShouldEject(StatusOf(ByName(AllStatuses(probes)), name), ew) <==> Failing(probes, ew, name)
  {
    var c, k := StatusIsLast(probes, name);
    ShouldEjectIff(StatusOf(ByName(AllStatuses(probes)), name), ew);
    if name in ByName(AllStatuses(probes)) {
      assert !NotIn(probes[c], name);
      if exists d: nat, l: nat :: LastStatus(probes, name, d, l) && Fails(probes[d].nodes[l], ew) {
        var d: nat, l: nat :| LastStatus(probes, name, d, l) && Fails(probes[d].nodes[l], ew);
        LastStatusUnique(probes, name, c, k, d, l);
      }
    } else {
      forall d: nat, l: nat ensures !LastStatus(probes, name, d, l) {
        NoLastStatus(probes, name, d, l);
      }
    }
  }

  /** Some member at this address is fit to serve. */
  ghost predicate Wants(f: Fleet, probes: seq<ClusterStatus>, p: Pool, ip: string) {
    exists m | m in p.members :: HasHost(f, m, ip) && !Failing(probes, p.ejectWhen, m)
  }

  /** The pool decides over the address: some member has it, and some member, that one or
      another, is fit to serve. */
  ghost predicate Decides(f: Fleet, probes: seq<ClusterStatus>, p: Pool, ip: string) {
    && (exists m | m in p.members :: HasHost(f, m, ip))
    && exists m | m in p.members :: !Failing(probes, p.ejectWhen, m)
  }

  lemma WantsIff(f: Fleet, probes: seq<ClusterStatus>, p: Pool, ip: string)
    requires Resolves(HealthOf(f, probes), p)
    ensures ip in Desired(HealthOf(f, probes), p) <==> Wants(f, probes, p, ip)
    ensures HasSay(HealthOf(f, probes), p, ip) <==> Decides(f, probes, p, ip)
  {
    var h := HealthOf(f, probes);
    forall m | m in p.members
      ensures h.ips[m] == ip <==> HasHost(f, m, ip)
      ensures ShouldEject(StatusOf(h.status, m), p.ejectWhen) <==> Failing(probes, p.ejectWhen, m)
    {
      HostIff(f, m, ip);
      FailingIff(probes, p.ejectWhen, m);
    }
    if exists m | m in p.members :: !Failing(probes, p.ejectWhen, m) {
      var m :| m in p.members && !Failing(probes, p.ejectWhen, m);
      assert h.ips[m] in Desired(h, p);
    }
    if Desired(h, p) != {} {
      var x :| x in Desired(h, p);
      var m :| m in p.members && !ShouldEject(StatusOf(h.status, m), p.ejectWhen) && h.ips[m] == x;
      assert !Failing(probes, p.ejectWhen, m);
    }
  }

  // ---- a pass -------------------------------------------------------------

  /** Pool i of the record wants the address and no later pool of it decides. */
  ghost predicate ServedBy(f: Fleet, d: Driver, pools: seq<Pool>, probes: seq<ClusterStatus>, owner: string, ip: string,
                           i: nat)
  {
    && i < |pools| && d.Key(pools[i].record).owner == owner && Wants(f, probes, pools[i], ip)
    && forall j | i < j < |pools| && d.Key(pools[j].record).owner == owner :: !Decides(f, probes, pools[j], ip)
  }

  lemma SameDecision(f: Fleet, d: Driver, pools: seq<Pool>, probes: seq<ClusterStatus>, kps: seq<KeyedPool>,
                     owner: string, ip: string)
    requires kps == Keyed(d, pools) && AllResolve(HealthOf(f, probes), kps)
    ensures WantedLast(HealthOf(f, probes), kps, |kps|, owner, ip) <==>
      exists i: nat :: ServedBy(f, d, pools, probes, owner, ip, i)
    ensures Undecided(HealthOf(f, probes), kps, |kps|, owner, ip) <==>
      forall j | 0 <= j < |pools| && d.Key(pools[j].record).owner == owner :: !Decides(f, probes, pools[j], ip)
  {
    var h := HealthOf(f, probes);
    forall i | 0 <= i < |pools|
      ensures ip in Desired(h, kps[i].pool) <==> Wants(f, probes, pools[i], ip)
      ensures HasSay(h, kps[i].pool, ip) <==> Decides(f, probes, pools[i], ip)
    {
      WantsIff(f, probes, pools[i], ip);
    }
    forall i: nat ensures WantedAt(h, kps, |kps|, owner, ip, i) <==> ServedBy(f, d, pools, probes, owner, ip, i) {
    }
  }

  /** What is in a record after an executed pass, by what was last probed of each member:
      an address is there exactly when the last pool of the record to decide over it has
      a member at it that breaks none of its rules, or no pool decides and it was there. */
  lemma PassServesIff(f: Fleet, d: Driver, z: Zone, pools: seq<Pool>, probes: seq<ClusterStatus>, owner: string,
                      ip: string)
    requires Servable(f) && f.pools == Some(pools)
    ensures ip in Members(Run(z, WatchPlan(f, d, z, false, probes).events), owner) <==>
      || (exists i: nat :: ServedBy(f, d, pools, probes, owner, ip, i))
      || (ip in Members(z, owner)
          && forall j | 0 <= j < |pools| && d.Key(pools[j].record).owner == owner :: !Decides(f, probes, pools[j], ip))
  {
    var h, kps := HealthOf(f, probes), Keyed(d, pools);
    FleetResolves(f, d, probes);
    PassMembershipIff(h, kps, |kps|, z, owner, ip);
    SameDecision(f, d, pools, probes, kps, owner, ip);
  }
}
