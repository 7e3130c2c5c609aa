/** The health probe (src/solfleet/probe.py) and the vote-account scan of
    src/solfleet/voting.py. RPC transport is an input: every call is given the
    answer it would receive. */
module Probe {
  import opened Text
  import opened Config

  /** What one RPC call came back with. */
  datatype Answer<+T> = Reply(value: T) | RpcFailed | TransportFailed

  datatype Credits = Credits(epoch: int, credits: int, previous: int)

  datatype VoteAccount = VoteAccount(
    nodePubkey: string,
    stake: int,
    epochCredits: seq<Credits>,
    lastVote: Option<int>)

  datatype VoteEntry = VoteEntry(delinquent: bool, stake: int, credits: int, lastVote: Option<int>)

  datatype VoteAccounts = VoteAccounts(current: seq<VoteAccount>, delinquent: seq<VoteAccount>)

  /** Credits of the newest epoch, 0 when there is none yet. */
  function LatestCredits(a: VoteAccount): int {
    if a.epochCredits == [] then 0 else a.epochCredits[|a.epochCredits| - 1].credits
  }

  /** `epochCredits` lists the epochs in order, so the last entry is the newest. */
  lemma LatestCreditsIsNewest(a: VoteAccount)
    requires forall i, j | 0 <= i < j < |a.epochCredits| :: a.epochCredits[i].epoch < a.epochCredits[j].epoch
    ensures a.epochCredits == [] ==> LatestCredits(a) == 0
    ensures forall c | c in a.epochCredits && (forall d | d in a.epochCredits :: d.epoch <= c.epoch) ::
      LatestCredits(a) == c.credits
  {
    if a.epochCredits != [] {
      var n := |a.epochCredits| - 1;
      assert a.epochCredits[n] in a.epochCredits;
    }
  }

  /** The entry an account stands for, credits those of the last epoch listed. */
  ghost function ToEntry(a: VoteAccount, delinquent: bool): VoteEntry {
    var n := |a.epochCredits|;
    VoteEntry(delinquent, a.stake, if n == 0 then 0 else a.epochCredits[n - 1].credits, a.lastVote)
  }

  /** Position of the last account of an identity, -1 when it has none. */
  function LastIndex(accts: seq<VoteAccount>, id: string): (i: int)
    ensures -1 <= i < |accts|
    ensures i == -1 <==> forall a | a in accts :: a.nodePubkey != id
    ensures i >= 0 ==> accts[i].nodePubkey == id && forall k | i < k < |accts| :: accts[k].nodePubkey != id
  {
    if accts == [] then -1
    else
      var n := |accts| - 1;
      assert accts == accts[..n] + [accts[n]];
      if accts[n].nodePubkey == id then n else LastIndex(accts[..n], id)
  }

  lemma LastIndexSnoc(accts: seq<VoteAccount>, n: nat, id: string)
    requires n < |accts|
    ensures LastIndex(accts[..n + 1], id) ==
      if accts[n].nodePubkey == id then n else LastIndex(accts[..n], id)
  {}

  /** The account that speaks for an identity: the last delinquent one, else the
      last current one. */
  function Speaker(v: VoteAccounts, id: string): Option<VoteAccount> {
    var d := LastIndex(v.delinquent, id);
    var c := LastIndex(v.current, id);
    if d >= 0 then Some(v.delinquent[d]) else if c >= 0 then Some(v.current[c]) else None
  }

  ghost predicate Occurs(accts: seq<VoteAccount>, id: string) {
    exists a | a in accts :: a.nodePubkey == id
  }

  /** `m` is `base` overwritten by the first n accounts of one group. */
  ghost predicate Filled(m: map<string, VoteEntry>, base: map<string, VoteEntry>,
                         accts: seq<VoteAccount>, n: nat, delinquent: bool)
    requires n <= |accts|
  {
    && (forall id :: id in m <==> id in base || LastIndex(accts[..n], id) >= 0)
    && (forall id | id in m :: m[id] == EntryAfter(base, accts, n, delinquent, id))
  }

  ghost function EntryAfter(base: map<string, VoteEntry>, accts: seq<VoteAccount>, n: nat, delinquent: bool,
                            id: string): VoteEntry
    requires n <= |accts| && (id in base || LastIndex(accts[..n], id) >= 0)
  {
    var i := LastIndex(accts[..n], id);
    if i >= 0 then ToEntry(accts[i], delinquent) else base[id]
  }

  lemma FilledSnoc(m: map<string, VoteEntry>, base: map<string, VoteEntry>,
                   accts: seq<VoteAccount>, n: nat, delinquent: bool)
    requires n < |accts| && Filled(m, base, accts, n, delinquent)
    ensures Filled(m[accts[n].nodePubkey := ToEntry(accts[n], delinquent)], base, accts, n + 1, delinquent)
  {
    var a := accts[n];
    var next := m[a.nodePubkey := ToEntry(a, delinquent)];
    forall id ensures id in next <==> id in base || LastIndex(accts[..n + 1], id) >= 0 {
      LastIndexSnoc(accts, n, id);
    }
    forall id | id in next ensures next[id] == EntryAfter(base, accts, n + 1, delinquent, id) {
      LastIndexSnoc(accts, n, id);
      if id != a.nodePubkey {
        assert m[id] == EntryAfter(base, accts, n, delinquent, id);
      }
    }
  }

  /** One round of the outer loop: the accounts of one group. */
  method FillGroup(base: map<string, VoteEntry>, accts: seq<VoteAccount>, delinquent: bool)
    returns (m: map<string, VoteEntry>)
    ensures Filled(m, base, accts, |accts|, delinquent)
  {
    m := base;
    for n := 0 to |accts|
      invariant Filled(m, base, accts, n, delinquent)
    {
      FilledSnoc(m, base, accts, n, delinquent);
      var a := accts[n];
      m := m[a.nodePubkey := VoteEntry(delinquent, a.stake, LatestCredits(a), a.lastVote)];
    }
  }

  /** The identity-keyed dict `probe_cluster` fills, the delinquent group last. */
  method VoteMap(v: VoteAccounts) returns (m: map<string, VoteEntry>)
    ensures forall id :: id in m <==> Speaker(v, id).Some?
    ensures forall id | id in m :: m[id] == ToEntry(Speaker(v, id).value, Occurs(v.delinquent, id))
  {
    var current := FillGroup(map[], v.current, false);
    m := FillGroup(current, v.delinquent, true);
    assert v.current[..|v.current|] == v.current && v.delinquent[..|v.delinquent|] == v.delinquent;
    forall id | id in m ensures m[id] == ToEntry(Speaker(v, id).value, Occurs(v.delinquent, id)) {
      assert m[id] == EntryAfter(current, v.delinquent, |v.delinquent|, true, id);
    }
  }

  /** The linear scan `vote_status` makes for one identity. */
  method ScanVote(v: VoteAccounts, id: string) returns (entry: Option<VoteAccount>, delinquent: Option<bool>)
    ensures entry == Speaker(v, id)
    ensures delinquent == if entry.Some? then Some(Occurs(v.delinquent, id)) else None
  {
    entry, delinquent := None, None;
    for n := 0 to |v.current|
      invariant var c := LastIndex(v.current[..n], id);
        entry == (if c >= 0 then Some(v.current[c]) else None)
      invariant delinquent == if entry.Some? then Some(false) else None
    {
      LastIndexSnoc(v.current, n, id);
      if v.current[n].nodePubkey == id {
        entry, delinquent := Some(v.current[n]), Some(false);
      }
    }
    assert v.current[..|v.current|] == v.current;
    ghost var before, flag := entry, delinquent;
    for n := 0 to |v.delinquent|
      invariant var d := LastIndex(v.delinquent[..n], id);
        && entry == (if d >= 0 then Some(v.delinquent[d]) else before)
        && delinquent == (if d >= 0 then Some(true) else flag)
    {
      LastIndexSnoc(v.delinquent, n, id);
      if v.delinquent[n].nodePubkey == id {
        entry, delinquent := Some(v.delinquent[n]), Some(true);
      }
    }
    assert v.delinquent[..|v.delinquent|] == v.delinquent;
  }

  /** Both views of the same accounts agree on presence, delinquency, stake,
      credits and last vote, for every identity, repeated ones included. */
  method VoteViewsAgree(v: VoteAccounts, id: string)
    returns (m: map<string, VoteEntry>, entry: Option<VoteAccount>, delinquent: Option<bool>)
    ensures id in m <==> entry.Some?
    ensures entry.Some? <==> Occurs(v.current, id) || Occurs(v.delinquent, id)
    ensures entry.Some? ==> delinquent.Some? && m[id] == ToEntry(entry.value, delinquent.value)
    ensures delinquent == Some(true) <==> Occurs(v.delinquent, id)
  {
    m := VoteMap(v);
    entry, delinquent := ScanVote(v, id);
  }

  // ---- one node -----------------------------------------------------------

  datatype NodeStatus = NodeStatus(
    name: string,
    reachable: bool,
    healthy: Option<bool>,
    version: Option<string>,
    slot: Option<int>,
    slotLag: Option<int>,
    delinquent: Option<bool>,
    credits: Option<int>,
    lastVote: Option<int>)

  datatype ClusterStatus = ClusterStatus(referenceSlot: Option<int>, nodes: seq<NodeStatus>)

  /** What a node would answer to the three calls of one probe. */
  datatype NodeAnswers = NodeAnswers(
    health: Answer<string>,
    version: Answer<Option<string>>,
    slot: Answer<Option<int>>)

  function Max(a: int, b: int): int {
    if a > b then a else b
  }

  /** All three calls of a probe came back and the slot is known. */
  ghost predicate FullyAnswered(n: Node, a: NodeAnswers) {
    && n.rpcUrl.Some? && n.rpcUrl.value != ""
    && !a.health.TransportFailed?
    && a.version.Reply?
    && a.slot.Reply? && a.slot.value.Some?
  }

  /** What a status says about the node itself. The lag is known only when the
      reference slot and all three answers are. */
  ghost predicate ReportsNode(s: NodeStatus, n: Node, referenceSlot: Option<int>, a: NodeAnswers) {
    && s.name == n.name
    && (s.reachable <==> n.rpcUrl.Some? && n.rpcUrl.value != "" && !a.health.TransportFailed?)
    && (s.healthy.Some? <==> s.reachable)
    && (s.healthy == Some(true) <==> s.reachable && a.health == Reply("ok"))
    && (s.version == if s.reachable && a.version.Reply? then a.version.value else None)
    && (s.slot == if FullyAnswered(n, a) then a.slot.value else None)
    && (s.slotLag.Some? <==> referenceSlot.Some? && FullyAnswered(n, a))
    && (s.slotLag.Some? ==>
          var behind := referenceSlot.value - a.slot.value.value;
          s.slotLag.value == if behind > 0 then behind else 0)
  }

  /** What it says about the vote account: reference data alone, whether or not
      the node answered. */
  ghost predicate ReportsVotes(s: NodeStatus, n: Node, votes: Option<map<string, VoteEntry>>) {
    var known := n.identity.Some? && n.identity.value != "" && votes.Some? && n.identity.value in votes.value;
    && s.delinquent == (if known then Some(votes.value[n.identity.value].delinquent) else None)
    && s.credits == (if known then Some(votes.value[n.identity.value].credits) else None)
    && s.lastVote == (if known then votes.value[n.identity.value].lastVote else None)
  }

  method ProbeNode(n: Node, referenceSlot: Option<int>, votes: Option<map<string, VoteEntry>>, a: NodeAnswers)
    returns (status: NodeStatus)
    ensures ReportsNode(status, n, referenceSlot, a)
    ensures ReportsVotes(status, n, votes)
  {
    status := NodeStatus(n.name, false, None, None, None, None, None, None, None);
    if Truthy(n.identity) && votes.Some? && n.identity.value in votes.value {
      var entry := votes.value[n.identity.value];
      status := status.(delinquent := Some(entry.delinquent),
                        credits := Some(entry.credits),
                        lastVote := entry.lastVote);
    }
    if !Truthy(n.rpcUrl) {
      return;
    }
    match a.health {
      case Reply(h) => status := status.(healthy := Some(h == "ok"));
      case RpcFailed => status := status.(healthy := Some(false));
      case TransportFailed => return;
    }
    status := status.(reachable := true);
    if !a.version.Reply? {
      return;
    }
    status := status.(version := a.version.value);
    if !a.slot.Reply? {
      return;
    }
    status := status.(slot := a.slot.value);
    if referenceSlot.Some? && status.slot.Some? {
      status := status.(slotLag := Some(Max(0, referenceSlot.value - status.slot.value)));
    }
  }

  // ---- one cluster --------------------------------------------------------

  datatype ReferenceAnswers = ReferenceAnswers(
    slot: Answer<Option<int>>,
    version: Answer<Option<string>>,
    votes: Answer<VoteAccounts>)

  ghost predicate AnyIdentity(nodes: seq<Node>) {
    exists n | n in nodes :: n.identity.Some? && n.identity.value != ""
  }

  /** The vote data reached the nodes of this cluster. */
  ghost predicate VotesKnown(nodes: seq<Node>, r: ReferenceAnswers) {
    r.slot.Reply? && r.version.Reply? && AnyIdentity(nodes) && r.votes.Reply?
  }

  method ReferenceVotes(nodes: seq<Node>, r: ReferenceAnswers) returns (votes: Option<map<string, VoteEntry>>)
    ensures votes.Some? <==> VotesKnown(nodes, r)
    ensures votes.Some? ==>
      && (forall id :: id in votes.value <==> Speaker(r.votes.value, id).Some?)
      && (forall id | id in votes.value ::
            votes.value[id] == ToEntry(Speaker(r.votes.value, id).value, Occurs(r.votes.value.delinquent, id)))
  {
    votes := None;
    if r.slot.Reply? && r.version.Reply? && (exists n | n in nodes :: Truthy(n.identity)) && r.votes.Reply? {
      var m := VoteMap(r.votes.value);
      votes := Some(m);
    }
  }

  /** What the reference says of an identity; a failed reference call hides it. */
  ghost function VoteOf(nodes: seq<Node>, r: ReferenceAnswers, identity: Option<string>): Option<VoteEntry> {
    if identity.Some? && identity.value != "" && VotesKnown(nodes, r) && Speaker(r.votes.value, identity.value).Some?
    then Some(ToEntry(Speaker(r.votes.value, identity.value).value, Occurs(r.votes.value.delinquent, identity.value)))
    else None
  }

  method ProbeCluster(nodes: seq<Node>, r: ReferenceAnswers, answers: seq<NodeAnswers>)
    returns (status: ClusterStatus)
    requires |answers| == |nodes|
    ensures status.referenceSlot == if r.slot.Reply? then r.slot.value else None
    ensures |status.nodes| == |nodes|
    ensures forall i | 0 <= i < |nodes| ::
      ReportsNode(status.nodes[i], nodes[i], status.referenceSlot, answers[i])
    ensures forall i | 0 <= i < |nodes| ::
      var vote := VoteOf(nodes, r, nodes[i].identity);
      && status.nodes[i].delinquent == (if vote.Some? then Some(vote.value.delinquent) else None)
      && status.nodes[i].credits == (if vote.Some? then Some(vote.value.credits) else None)
      && status.nodes[i].lastVote == (if vote.Some? then vote.value.lastVote else None)
  {
    var referenceSlot := if r.slot.Reply? then r.slot.value else None;
    var votes := ReferenceVotes(nodes, r);
    var out: seq<NodeStatus> := [];
    for i := 0 to |nodes|
      invariant |out| == i
      invariant forall k | 0 <= k < i :: ReportsNode(out[k], nodes[k], referenceSlot, answers[k])
      invariant forall k | 0 <= k < i :: ReportsVotes(out[k], nodes[k], votes)
    {
      var s := ProbeNode(nodes[i], referenceSlot, votes, answers[i]);
      out := out + [s];
    }
    status := ClusterStatus(referenceSlot, out);
  }
}
