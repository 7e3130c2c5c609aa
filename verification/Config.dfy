/** The validated fleet configuration (src/solfleet/config.py), reduced to the
    fields the modelled operations read. Loading and parsing are not modelled:
    a Fleet value is what the loader returns, and ValidFleet is what its
    validators enforce. */
module Config {
  import opened Text

  datatype Role = Rpc | Validator

  datatype Service = Service(
    unit: string,
    binary: string,
    versionMarker: Option<string>,
    geyserLib: Option<string>,
    identityKeypair: string,
    voteAccountKeypair: Option<string>)

  datatype FileSystem = Ext4 | Xfs | Tmpfs

  datatype Disk = Disk(device: string, mount: string, fs: FileSystem, format: bool)

  datatype Node = Node(
    name: string,
    role: Role,
    host: string,
    rpcUrl: Option<string>,
    identity: Option<string>,
    service: Service,
    disks: seq<Disk>,
    noVoting: bool)

  datatype Strategy = BuildFromSource | Prebuilt

  datatype Install = Install(
    strategy: Strategy,
    builder: Option<string>,
    agaveRepo: string,
    geyserRepo: Option<string>,
    geyserRef: Option<string>)

  datatype Cluster = Cluster(install: Option<Install>, nodes: seq<Node>)

  /** One entry of the `clusters` mapping, in file order. */
  datatype ClusterEntry = ClusterEntry(name: string, cluster: Cluster)

  datatype EjectWhen = EjectWhen(slotLag: Option<int>, unhealthy: bool, delinquent: bool)

  datatype Pool = Pool(
    record: string,
    cluster: string,
    members: seq<string>,
    ttl: int,
    ejectWhen: EjectWhen)

  /** `pools` is None when the fleet has no `dns` section. */
  datatype Fleet = Fleet(
    clusters: seq<ClusterEntry>,
    builders: set<string>,
    pools: Option<seq<Pool>>)

  /** Python truthiness of an optional string. */
  predicate Truthy(s: Option<string>) {
    s.Some? && s.value != ""
  }

  predicate BuildsGeyser(install: Install) {
    Truthy(install.geyserRepo)
  }

  // ---- validators ---------------------------------------------------------

  predicate ValidNode(n: Node) {
    && (n.role == Rpc ==> Truthy(n.rpcUrl))
    && (n.role == Validator ==> Truthy(n.identity))
  }

  predicate ValidInstall(i: Install) {
    i.strategy == BuildFromSource ==> Truthy(i.builder)
  }

  ghost predicate UniqueNames(nodes: seq<Node>) {
    forall i, j | 0 <= i < j < |nodes| :: nodes[i].name != nodes[j].name
  }

  ghost predicate ValidCluster(c: Cluster) {
    && (forall n | n in c.nodes :: ValidNode(n))
    && (c.install.Some? ==> ValidInstall(c.install.value))
    && UniqueNames(c.nodes)
  }

  function NamesOf(nodes: seq<Node>): set<string> {
    set n | n in nodes :: n.name
  }

  predicate ValidPool(f: Fleet, p: Pool) {
    exists c | c in f.clusters ::
      c.name == p.cluster && forall m | m in p.members :: m in NamesOf(c.cluster.nodes)
  }

  ghost predicate ValidFleet(f: Fleet) {
    && (forall i, j | 0 <= i < j < |f.clusters| :: f.clusters[i].name != f.clusters[j].name)
    && (forall c | c in f.clusters :: ValidCluster(c.cluster))
    && (forall c | c in f.clusters && c.cluster.install.Some? ::
          var inst := c.cluster.install.value;
          inst.strategy == BuildFromSource && Truthy(inst.builder) ==> inst.builder.value in f.builders)
    && (f.pools.Some? ==> forall p | p in f.pools.value :: ValidPool(f, p))
  }

  // ---- lookups ------------------------------------------------------------

  /** Every node of the fleet, in the order the nested loops visit them. */
  function AllNodes(cs: seq<ClusterEntry>): seq<Node> {
    if cs == [] then [] else cs[0].cluster.nodes + AllNodes(cs[1..])
  }

  datatype Found = Found(clusterName: string, cluster: Cluster, node: Node)

  /** First node of the list with the given name. */
  function FirstNamed(nodes: seq<Node>, name: string): Option<Node> {
    if nodes == [] then None
    else if nodes[0].name == name then Some(nodes[0])
    else FirstNamed(nodes[1..], name)
  }

  /** `Fleet.find_node`: clusters in order, nodes in order, first match. */
  function FindNode(cs: seq<ClusterEntry>, name: string): (r: Option<Found>)
    ensures r.Some? ==> r.value.node.name == name && r.value.node in r.value.cluster.nodes
    ensures r.Some? ==> ClusterEntry(r.value.clusterName, r.value.cluster) in cs
  {
    if cs == [] then None
    else
      match FirstNamed(cs[0].cluster.nodes, name)
      case Some(n) => FirstNamedIsMember(cs[0].cluster.nodes, name);
        Some(Found(cs[0].name, cs[0].cluster, n))
      case None => FindNode(cs[1..], name)
  }

  /** `Fleet.find_builder`: the name when it is defined under `builders`. */
  function FindBuilder(f: Fleet, name: Option<string>): Option<string> {
    if Truthy(name) && name.value in f.builders then name else None
  }

  /** The `{n.name: n.host}` comprehension: a later node overwrites an earlier one. */
  function NodeIps(nodes: seq<Node>): map<string, string> {
    if nodes == [] then map[]
    else
      var last := nodes[|nodes| - 1];
      NodeIps(nodes[..|nodes| - 1])[last.name := last.host]
  }

  ghost predicate IsFirst(nodes: seq<Node>, name: string, i: nat) {
    i < |nodes| && nodes[i].name == name && forall k | 0 <= k < i :: nodes[k].name != name
  }

  ghost predicate IsLast(nodes: seq<Node>, name: string, i: nat) {
    i < |nodes| && nodes[i].name == name && forall k | i < k < |nodes| :: nodes[k].name != name
  }

  lemma {:induction false} FirstNamedIsMember(nodes: seq<Node>, name: string)
    ensures match FirstNamed(nodes, name)
      case None => name !in NamesOf(nodes)
      case Some(n) => n in nodes && n.name == name
  {
    if nodes != [] && nodes[0].name != name {
      FirstNamedIsMember(nodes[1..], name);
      assert nodes == [nodes[0]] + nodes[1..];
    }
  }

  lemma {:induction false} FirstNamedAt(nodes: seq<Node>, name: string, i: nat)
    requires IsFirst(nodes, name, i)
    ensures FirstNamed(nodes, name) == Some(nodes[i])
  {
    if i > 0 {
      assert IsFirst(nodes[1..], name, i - 1);
      FirstNamedAt(nodes[1..], name, i - 1);
    }
  }

  lemma {:induction false} FirstNamedAppend(a: seq<Node>, b: seq<Node>, name: string)
    ensures FirstNamed(a + b, name) ==
      (if FirstNamed(a, name).Some? then FirstNamed(a, name) else FirstNamed(b, name))
  {
    if a == [] {
      assert a + b == b;
    } else {
      assert (a + b)[1..] == a[1..] + b;
      FirstNamedAppend(a[1..], b, name);
    }
  }

  lemma {:induction false} FindNodeIsFirst(cs: seq<ClusterEntry>, name: string)
    ensures FindNode(cs, name).Some? <==> FirstNamed(AllNodes(cs), name).Some?
    ensures FindNode(cs, name).Some? ==> FirstNamed(AllNodes(cs), name) == Some(FindNode(cs, name).value.node)
  {
    if cs != [] {
      FirstNamedAppend(cs[0].cluster.nodes, AllNodes(cs[1..]), name);
      FindNodeIsFirst(cs[1..], name);
    }
  }

  lemma {:induction false} NodeIpsAtLast(nodes: seq<Node>, name: string, i: nat)
    requires IsLast(nodes, name, i)
    ensures name in NodeIps(nodes) && NodeIps(nodes)[name] == nodes[i].host
  {
    if i < |nodes| - 1 {
      var front := nodes[..|nodes| - 1];
      assert IsLast(front, name, i);
      NodeIpsAtLast(front, name, i);
      assert nodes[|nodes| - 1].name != name;
    }
  }

  lemma {:induction false} NodeIpsKeys(nodes: seq<Node>)
    ensures NodeIps(nodes).Keys == NamesOf(nodes)
  {
    if nodes != [] {
      var front := nodes[..|nodes| - 1];
      NodeIpsKeys(front);
      assert nodes == front + [nodes[|nodes| - 1]];
    }
  }

  /** Manual overrides resolve a name by first match, the watch loop by last
      match: they name the same address exactly when the first and the last
      node so named have the same host. */
  lemma LookupsAgreeIff(cs: seq<ClusterEntry>, name: string, first: nat, last: nat)
    requires IsFirst(AllNodes(cs), name, first) && IsLast(AllNodes(cs), name, last)
    ensures FindNode(cs, name).Some? && name in NodeIps(AllNodes(cs))
    ensures FindNode(cs, name).value.node.host == NodeIps(AllNodes(cs))[name]
       <==> AllNodes(cs)[first].host == AllNodes(cs)[last].host
  {
    FindNodeIsFirst(cs, name);
    FirstNamedAt(AllNodes(cs), name, first);
    NodeIpsAtLast(AllNodes(cs), name, last);
  }

  /** With fleet-wide unique names the two lookups never differ. */
  lemma UniqueNamesLookupsAgree(cs: seq<ClusterEntry>, name: string)
    requires UniqueNames(AllNodes(cs)) && FindNode(cs, name).Some?
    ensures name in NodeIps(AllNodes(cs))
    ensures FindNode(cs, name).value.node.host == NodeIps(AllNodes(cs))[name]
  {
    var nodes := AllNodes(cs);
    FindNodeIsFirst(cs, name);
    FirstNamedIsMember(nodes, name);
    var i :| 0 <= i < |nodes| && nodes[i].name == name;
    LookupsAgreeIff(cs, name, i, i);
  }

  lemma {:induction false} AllNodesContains(cs: seq<ClusterEntry>, c: ClusterEntry, n: Node)
    requires c in cs && n in c.cluster.nodes
    ensures n in AllNodes(cs)
  {
    if c != cs[0] {
      AllNodesContains(cs[1..], c, n);
    }
  }

  /** Every member of a valid pool resolves in both lookups, so the watch loop
      never fails on an unknown name. */
  lemma PoolMembersResolve(f: Fleet, p: Pool, m: string)
    requires ValidPool(f, p) && m in p.members
    ensures m in NodeIps(AllNodes(f.clusters)) && FindNode(f.clusters, m).Some?
  {
    var c :| c in f.clusters && c.name == p.cluster && forall m | m in p.members :: m in NamesOf(c.cluster.nodes);
    var n :| n in c.cluster.nodes && n.name == m;
    AllNodesContains(f.clusters, c, n);
    NodeIpsKeys(AllNodes(f.clusters));
    assert m in NamesOf(AllNodes(f.clusters));
    FindNodeIsFirst(f.clusters, m);
    FirstNamedIsMember(AllNodes(f.clusters), m);
  }
}
