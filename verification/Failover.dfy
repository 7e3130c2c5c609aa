/** What the failover state machine keeps: over one pool, over one pass, and over
    any mix of passes and manual overrides. */
module Failover {
  import opened Text
  import opened Config
  import opened Probe
  import opened Zones
  import opened Dns
  import opened Watch
  import opened Overrides
  import Audit
  import Safety

  // ---- one pool -----------------------------------------------------------

  lemma {:induction false} RunRemoves(z: Zone, k: RecordKey, ips: seq<string>, n: nat)
    requires n <= |ips|
    ensures Members(Run(z, Removes(k, ips[..n])), k.owner) == Members(z, k.owner) - Elements(ips[..n])
  {
    if n > 0 {
      RunRemoves(z, k, ips, n - 1);
      assert Removes(k, ips[..n]) == Removes(k, ips[..n - 1]) + [Remove(k, ips[n - 1])];
      RunSnoc(z, Removes(k, ips[..n - 1]), Remove(k, ips[n - 1]));
      StepFrame(Run(z, Removes(k, ips[..n - 1])), Remove(k, ips[n - 1]));
      assert ips[..n] == ips[..n - 1] + [ips[n - 1]];
      assert Elements(ips[..n]) == Elements(ips[..n - 1]) + {ips[n - 1]};
    }
  }

  lemma {:induction false} RunAdds(z: Zone, k: RecordKey, ips: seq<string>, n: nat)
    requires n <= |ips|
    ensures Members(Run(z, Adds(k, ips[..n])), k.owner) == Members(z, k.owner) + Elements(ips[..n])
  {
    if n > 0 {
      RunAdds(z, k, ips, n - 1);
      assert Adds(k, ips[..n]) == Adds(k, ips[..n - 1]) + [Add(k, ips[n - 1])];
      RunSnoc(z, Adds(k, ips[..n - 1]), Add(k, ips[n - 1]));
      StepFrame(Run(z, Adds(k, ips[..n - 1])), Add(k, ips[n - 1]));
      assert ips[..n] == ips[..n - 1] + [ips[n - 1]];
      assert Elements(ips[..n]) == Elements(ips[..n - 1]) + {ips[n - 1]};
    }
  }

  /** The addresses of a record after the first n calls of a change. */
  lemma DuringChanges(z: Zone, k: RecordKey, remove: seq<string>, add: seq<string>, n: nat)
    requires n <= 1 + |remove| + |add|
    ensures |Changes(k, remove, add)| == 1 + |remove| + |add|
    ensures var now := Members(Run(z, Changes(k, remove, add)[..n]), k.owner);
      now == if n == 0 then Members(z, k.owner)
             else if n <= 1 + |remove| then Members(z, k.owner) - Elements(remove[..n - 1])
             else (Members(z, k.owner) - Elements(remove)) + Elements(add[..n - 1 - |remove|])
  {
    var es := Changes(k, remove, add);
    if n == 0 {
      assert es[..n] == [];
    } else if n <= 1 + |remove| {
      assert es[..n] == Changes(k, remove[..n - 1], []);
      RunChanges(z, k, remove[..n - 1], []);
      StepFrame(z, Mark(k));
      assert remove[..n - 1][..n - 1] == remove[..n - 1];
      RunRemoves(Step(z, Mark(k)), k, remove[..n - 1], n - 1);
    } else {
      var m := n - 1 - |remove|;
      assert es[..n] == Changes(k, remove, add[..m]);
      RunChanges(z, k, remove, add[..m]);
      StepFrame(z, Mark(k));
      assert remove[..|remove|] == remove && add[..m][..m] == add[..m];
      RunRemoves(Step(z, Mark(k)), k, remove, |remove|);
      RunAdds(Run(Step(z, Mark(k)), Removes(k, remove)), k, add[..m], m);
    }
  }

  lemma ChangesResult(z: Zone, k: RecordKey, remove: seq<string>, add: seq<string>)
    ensures Members(Run(z, Changes(k, remove, add)), k.owner)
         == (Members(z, k.owner) - Elements(remove)) + Elements(add)
  {
    RunChanges(z, k, remove, add);
    StepFrame(z, Mark(k));
    assert remove[..|remove|] == remove && add[..|add|] == add;
    RunRemoves(Step(z, Mark(k)), k, remove, |remove|);
    RunAdds(Run(Step(z, Mark(k)), Removes(k, remove)), k, add, |add|);
  }

  /** The healthy members plus whatever the pool does not manage; with no healthy
      member, what was there. */
  function Reconciled(h: Health, p: Pool, current: set<string>): set<string>
    requires Resolves(h, p)
  {
    if Desired(h, p) == {} then current else (current - MemberIps(h, p)) + Desired(h, p)
  }

  /** A pass drives a pool to its reconciled set. */
  lemma PoolPassResult(h: Health, kp: KeyedPool, z: Zone, dryRun: bool)
    requires Resolves(h, kp.pool)
    ensures var current := Members(z, kp.key.owner);
      Members(Run(z, PlanPool(h, kp, current, dryRun).events), kp.key.owner) ==
        if dryRun then current else Reconciled(h, kp.pool, current)
  {
    if !dryRun && Desired(h, kp.pool) != {} {
      ReconciledSet(Members(z, kp.key.owner), MemberIps(h, kp.pool), Desired(h, kp.pool));
      ChangesResult(z, kp.key, ToRemove(h, kp.pool, Members(z, kp.key.owner)),
                    ToAdd(h, kp.pool, Members(z, kp.key.owner)));
    }
  }

  lemma ReconciledSet(current: set<string>, members: set<string>, desired: set<string>)
    ensures (current - Elements(SortedSet(current * members - desired))) + Elements(SortedSet(desired - current))
         == (current - members) + desired
  {
    SortedSetElements(current * members - desired);
    SortedSetElements(desired - current);
  }

  /** Taking out some of a set's elements one by one and then putting others in
      passes through the empty set at most once. */
  lemma EmptyDuring(current: set<string>, remove: seq<string>, add: seq<string>, n: nat, now: set<string>)
    requires current != {} && NoDuplicates(remove) && Elements(remove) <= current
    requires n <= 1 + |remove| + |add|
    requires now == if n == 0 then current
                    else if n <= 1 + |remove| then current - Elements(remove[..n - 1])
                    else (current - Elements(remove)) + Elements(add[..n - 1 - |remove|])
    ensures now == {} <==> n == 1 + |remove| && current == Elements(remove)
  {
    if 1 <= n <= |remove| {
      assert remove[n - 1] in Elements(remove);
      assert remove[n - 1] in now;
    } else if n == 1 + |remove| {
      assert remove[..n - 1] == remove && now == current - Elements(remove);
      assert forall x | x in current :: x in now || x in Elements(remove);
    } else if n > 1 + |remove| {
      assert add[..n - 1 - |remove|][0] in now;
    }
  }

  /** Inside a pass the record is empty at one point only, and only when every
      current address is managed and none of them is wanted any more: between the
      last removal and the first addition. */
  lemma IntermediateStates(h: Health, kp: KeyedPool, z: Zone, n: nat)
    requires Resolves(h, kp.pool)
    requires Desired(h, kp.pool) != {} && Members(z, kp.key.owner) != {}
    requires n <= |PlanPool(h, kp, Members(z, kp.key.owner), false).events|
    ensures var current := Members(z, kp.key.owner);
      Members(Run(z, PlanPool(h, kp, current, false).events[..n]), kp.key.owner) == {}
      <==> current <= MemberIps(h, kp.pool) && current * Desired(h, kp.pool) == {}
           && n == 1 + |ToRemove(h, kp.pool, current)|
  {
    var p, current := kp.pool, Members(z, kp.key.owner);
    var remove, add := ToRemove(h, p, current), ToAdd(h, p, current);
    SortedSetIs(current * MemberIps(h, p) - Desired(h, p));
    SortedSetElements(current * MemberIps(h, p) - Desired(h, p));
    AllGoneIff(current, MemberIps(h, p), Desired(h, p));
    if PlanPool(h, kp, current, false).events != [] {
      DuringChanges(z, kp.key, remove, add, n);
      EmptyDuring(current, remove, add, n, Members(Run(z, Changes(kp.key, remove, add)[..n]), kp.key.owner));
    }
  }

  lemma AllGoneIff(current: set<string>, members: set<string>, desired: set<string>)
    ensures current == current * members - desired <==> current <= members && current * desired == {}
  {
    var gone := current * members - desired;
    assert forall x | x in gone :: x in members && x !in desired;
    assert forall x | x in current * desired :: x in current && x !in gone;
    if current <= members && current * desired == {} {
      assert forall x | x in current :: x in members && x !in current * desired;
      assert forall x | x in current :: x in gone;
    }
  }

  // ---- one pass -----------------------------------------------------------

  ghost predicate StaysServed(before: Zone, after: Zone) {
    forall n :: Members(before, n) != {} ==> Members(after, n) != {}
  }

  lemma PlanPoolOwner(h: Health, kp: KeyedPool, current: set<string>, dryRun: bool)
    requires Resolves(h, kp.pool)
    ensures forall e | e in PlanPool(h, kp, current, dryRun).events :: e.key == kp.key
  {
    ChangesKey(kp.key, ToRemove(h, kp.pool, current), ToAdd(h, kp.pool, current));
  }

  lemma ChangesKey(k: RecordKey, remove: seq<string>, add: seq<string>)
    ensures forall e | e in Changes(k, remove, add) :: e.key == k
  {}

  lemma PoolPassFrame(h: Health, kp: KeyedPool, z: Zone, current: set<string>, dryRun: bool, n: string)
    requires Resolves(h, kp.pool) && n != kp.key.owner
    ensures Members(Run(z, PlanPool(h, kp, current, dryRun).events), n) == Members(z, n)
  {
    PlanPoolOwner(h, kp, current, dryRun);
    RunFrame(z, PlanPool(h, kp, current, dryRun).events, n);
  }

  /** The zone after the first n pools of a pass. */
  function After(h: Health, kps: seq<KeyedPool>, n: nat, z: Zone, dryRun: bool): Zone
    requires AllResolve(h, kps) && n <= |kps|
  {
    Run(z, PlanPass(h, kps, n, z, dryRun).events)
  }

  lemma AfterStep(h: Health, kps: seq<KeyedPool>, n: nat, z: Zone, dryRun: bool)
    requires AllResolve(h, kps) && 0 < n <= |kps|
    ensures var y := After(h, kps, n - 1, z, dryRun);
      After(h, kps, n, z, dryRun) ==
        Run(y, PlanPool(h, kps[n - 1], Members(y, kps[n - 1].key.owner), dryRun).events)
  {
    var before := PlanPass(h, kps, n - 1, z, dryRun);
    var y := Run(z, before.events);
    RunAppend(z, before.events, PlanPool(h, kps[n - 1], Members(y, kps[n - 1].key.owner), dryRun).events);
  }

  /** The last pool of a pass leaves every other name alone ... */
  lemma AfterOther(h: Health, kps: seq<KeyedPool>, n: nat, z: Zone, dryRun: bool, name: string)
    requires AllResolve(h, kps) && 0 < n <= |kps| && kps[n - 1].key.owner != name
    ensures Members(After(h, kps, n, z, dryRun), name) == Members(After(h, kps, n - 1, z, dryRun), name)
  {
    var y := After(h, kps, n - 1, z, dryRun);
    AfterStep(h, kps, n, z, dryRun);
    PoolPassFrame(h, kps[n - 1], y, Members(y, kps[n - 1].key.owner), dryRun, name);
  }

  /** ... and reconciles its own. */
  lemma AfterOwn(h: Health, kps: seq<KeyedPool>, n: nat, z: Zone, dryRun: bool)
    requires AllResolve(h, kps) && 0 < n <= |kps|
    ensures var kp := kps[n - 1];
      var current := Members(After(h, kps, n - 1, z, dryRun), kp.key.owner);
      Members(After(h, kps, n, z, dryRun), kp.key.owner) ==
        if dryRun then current else Reconciled(h, kp.pool, current)
  {
    AfterStep(h, kps, n, z, dryRun);
    PoolPassResult(h, kps[n - 1], After(h, kps, n - 1, z, dryRun), dryRun);
  }

  lemma {:induction false} PassStaysServed(h: Health, kps: seq<KeyedPool>, n: nat, z: Zone, dryRun: bool)
    requires AllResolve(h, kps) && n <= |kps|
    ensures StaysServed(z, After(h, kps, n, z, dryRun))
  {
    if n > 0 {
      PassStaysServed(h, kps, n - 1, z, dryRun);
      AfterOwn(h, kps, n, z, dryRun);
      forall m | Members(z, m) != {} ensures Members(After(h, kps, n, z, dryRun), m) != {} {
        if m != kps[n - 1].key.owner {
          AfterOther(h, kps, n, z, dryRun, m);
        }
      }
    }
  }

  /** A name no pool keeps its record under is not touched by a pass. */
  lemma {:induction false} PassFrame(h: Health, kps: seq<KeyedPool>, n: nat, z: Zone, dryRun: bool, name: string)
    requires AllResolve(h, kps) && n <= |kps|
    requires forall i | 0 <= i < n :: kps[i].key.owner != name
    ensures Members(After(h, kps, n, z, dryRun), name) == Members(z, name)
  {
    if n > 0 {
      PassFrame(h, kps, n - 1, z, dryRun, name);
      AfterOther(h, kps, n, z, dryRun, name);
    }
  }

  lemma ForeignStays(h: Health, p: Pool, current: set<string>, ip: string)
    requires Resolves(h, p) && ip !in MemberIps(h, p)
    ensures ip in Reconciled(h, p, current) <==> ip in current
  {}

  lemma StepUntouched(h: Health, kps: seq<KeyedPool>, n: nat, z: Zone, dryRun: bool, name: string, ip: string)
    requires AllResolve(h, kps) && 0 < n <= |kps|
    requires kps[n - 1].key.owner == name ==> ip !in MemberIps(h, kps[n - 1].pool)
    ensures ip in Members(After(h, kps, n, z, dryRun), name) <==> ip in Members(After(h, kps, n - 1, z, dryRun), name)
  {
    if kps[n - 1].key.owner == name {
      AfterOwn(h, kps, n, z, dryRun);
      ForeignStays(h, kps[n - 1].pool, Members(After(h, kps, n - 1, z, dryRun), name), ip);
    } else {
      AfterOther(h, kps, n, z, dryRun, name);
    }
  }

  /** Addresses that belong to no member of a record's pools come and go only by
      other hands. */
  lemma {:induction false} UnmanagedUntouched(h: Health, kps: seq<KeyedPool>, n: nat, z: Zone, dryRun: bool,
                                              name: string, ip: string)
    requires AllResolve(h, kps) && n <= |kps|
    requires forall i | 0 <= i < n && kps[i].key.owner == name :: ip !in MemberIps(h, kps[i].pool)
    ensures ip in Members(After(h, kps, n, z, dryRun), name) <==> ip in Members(z, name)
  {
    if n > 0 {
      UnmanagedUntouched(h, kps, n - 1, z, dryRun, name, ip);
      StepUntouched(h, kps, n, z, dryRun, name, ip);
    }
  }

  ghost predicate DistinctOwners(kps: seq<KeyedPool>) {
    forall i, j | 0 <= i < j < |kps| :: kps[i].key.owner != kps[j].key.owner
  }

  /** With one pool per record, a full pass gives each pool its own result. */
  lemma {:induction false} PassResult(h: Health, kps: seq<KeyedPool>, n: nat, z: Zone, i: nat)
    requires AllResolve(h, kps) && DistinctOwners(kps) && i < n <= |kps|
    ensures Members(After(h, kps, n, z, false), kps[i].key.owner) ==
      Reconciled(h, kps[i].pool, Members(z, kps[i].key.owner))
  {
    if i == n - 1 {
      OwnUntouched(h, kps, n, z);
      AfterOwnFrom(h, kps, n, z, Members(z, kps[i].key.owner));
    } else {
      PassResult(h, kps, n - 1, z, i);
      AfterOther(h, kps, n, z, false, kps[i].key.owner);
    }
  }

  lemma AfterOwnFrom(h: Health, kps: seq<KeyedPool>, n: nat, z: Zone, current: set<string>)
    requires AllResolve(h, kps) && 0 < n <= |kps|
    requires current == Members(After(h, kps, n - 1, z, false), kps[n - 1].key.owner)
    ensures Members(After(h, kps, n, z, false), kps[n - 1].key.owner) == Reconciled(h, kps[n - 1].pool, current)
  {
    AfterOwn(h, kps, n, z, false);
  }

  /** Nothing reaches the record of a pool before its turn. */
  lemma OwnUntouched(h: Health, kps: seq<KeyedPool>, n: nat, z: Zone)
    requires AllResolve(h, kps) && DistinctOwners(kps) && 0 < n <= |kps|
    ensures Members(After(h, kps, n - 1, z, false), kps[n - 1].key.owner) == Members(z, kps[n - 1].key.owner)
  {
    PassFrame(h, kps, n - 1, z, false, kps[n - 1].key.owner);
  }

  /** Nothing left to do for a pool. */
  ghost predicate Settled(h: Health, p: Pool, current: set<string>)
    requires Resolves(h, p)
  {
    Desired(h, p) == {} || (current * MemberIps(h, p) <= Desired(h, p) <= current)
  }

  lemma {:induction false} SettledPassIsQuiet(h: Health, kps: seq<KeyedPool>, n: nat, z: Zone)
    requires AllResolve(h, kps) && n <= |kps|
    requires forall i | 0 <= i < n :: Settled(h, kps[i].pool, Members(z, kps[i].key.owner))
    ensures PlanPass(h, kps, n, z, false).events == []
  {
    if n > 0 {
      SettledPassIsQuiet(h, kps, n - 1, z);
      var p, current := kps[n - 1].pool, Members(z, kps[n - 1].key.owner);
      assert Settled(h, p, current);
      if Desired(h, p) != {} {
        assert current * MemberIps(h, p) - Desired(h, p) == {} && Desired(h, p) - current == {};
        assert ToRemove(h, p, current) == [] && ToAdd(h, p, current) == [];
      }
    }
  }

  /** With one pool per record a second pass on the same probes calls no driver. */
  lemma SecondPassIsQuiet(h: Health, kps: seq<KeyedPool>, z: Zone)
    requires AllResolve(h, kps) && DistinctOwners(kps)
    ensures FullPass(h, kps, After(h, kps, |kps|, z, false), false).events == []
  {
    var y := After(h, kps, |kps|, z, false);
    forall i | 0 <= i < |kps| ensures Settled(h, kps[i].pool, Members(y, kps[i].key.owner)) {
      PassResult(h, kps, |kps|, z, i);
      assert Desired(h, kps[i].pool) <= MemberIps(h, kps[i].pool);
    }
    SettledPassIsQuiet(h, kps, |kps|, y);
  }

  // ---- records that several pools share -----------------------------------

  /** The pool decides over the address: it manages it and has something to serve. */
  ghost predicate HasSay(h: Health, p: Pool, ip: string)
    requires Resolves(h, p)
  {
    Desired(h, p) != {} && ip in MemberIps(h, p)
  }

  /** Pool i of the record wants the address, and none of the first n after it has a say. */
  ghost predicate WantedAt(h: Health, kps: seq<KeyedPool>, n: nat, owner: string, ip: string, i: nat)
    requires AllResolve(h, kps) && n <= |kps|
  {
    && i < n && kps[i].key.owner == owner && ip in Desired(h, kps[i].pool)
    && forall j | i < j < n && kps[j].key.owner == owner :: !HasSay(h, kps[j].pool, ip)
  }

  ghost predicate WantedLast(h: Health, kps: seq<KeyedPool>, n: nat, owner: string, ip: string)
    requires AllResolve(h, kps) && n <= |kps|
  {
    exists i: nat :: WantedAt(h, kps, n, owner, ip, i)
  }

  ghost predicate Undecided(h: Health, kps: seq<KeyedPool>, n: nat, owner: string, ip: string)
    requires AllResolve(h, kps) && n <= |kps|
  {
    forall i | 0 <= i < n && kps[i].key.owner == owner :: !HasSay(h, kps[i].pool, ip)
  }

  /** What is in a record after an executed pass, however many pools share it: the last
      pool to have a say decides, and where none has, what was there stays. */
  lemma PassMembershipIff(h: Health, kps: seq<KeyedPool>, n: nat, z: Zone, owner: string, ip: string)
    requires AllResolve(h, kps) && n <= |kps|
    ensures ip in Members(After(h, kps, n, z, false), owner) <==>
      WantedLast(h, kps, n, owner, ip) || (Undecided(h, kps, n, owner, ip) && ip in Members(z, owner))
  {
    PassDecides(h, kps, n, z, owner, ip);
    DecidedIff(h, kps, n, owner, ip, ip in Members(z, owner));
  }

  /** The same, pool by pool. */
  ghost predicate Decided(h: Health, kps: seq<KeyedPool>, n: nat, owner: string, ip: string, was: bool)
    requires AllResolve(h, kps) && n <= |kps|
  {
    if n == 0 then was
    else if kps[n - 1].key.owner == owner && HasSay(h, kps[n - 1].pool, ip) then ip in Desired(h, kps[n - 1].pool)
    else Decided(h, kps, n - 1, owner, ip, was)
  }

  lemma {:induction false} PassDecides(h: Health, kps: seq<KeyedPool>, n: nat, z: Zone, owner: string, ip: string)
    requires AllResolve(h, kps) && n <= |kps|
    ensures ip in Members(After(h, kps, n, z, false), owner) <==> Decided(h, kps, n, owner, ip, ip in Members(z, owner))
  {
    if n > 0 {
      PassDecides(h, kps, n - 1, z, owner, ip);
      if kps[n - 1].key.owner == owner && HasSay(h, kps[n - 1].pool, ip) {
        SayDecides(h, kps, n, z, owner, ip);
      } else {
        NoSayStays(h, kps, n, z, owner, ip);
      }
    }
  }

  lemma {:induction false} DecidedIff(h: Health, kps: seq<KeyedPool>, n: nat, owner: string, ip: string, was: bool)
    requires AllResolve(h, kps) && n <= |kps|
    ensures Decided(h, kps, n, owner, ip, was) <==>
      WantedLast(h, kps, n, owner, ip) || (Undecided(h, kps, n, owner, ip) && was)
  {
    if n > 0 {
      DecidedIff(h, kps, n - 1, owner, ip, was);
      if kps[n - 1].key.owner == owner && HasSay(h, kps[n - 1].pool, ip) {
        LastSay(h, kps, n, owner, ip);
      } else {
        NoLastSay(h, kps, n, owner, ip);
      }
    }
  }

  lemma SayDecides(h: Health, kps: seq<KeyedPool>, n: nat, z: Zone, owner: string, ip: string)
    requires AllResolve(h, kps) && 0 < n <= |kps| && kps[n - 1].key.owner == owner && HasSay(h, kps[n - 1].pool, ip)
    ensures ip in Members(After(h, kps, n, z, false), owner) <==> ip in Desired(h, kps[n - 1].pool)
  {
    AfterOwn(h, kps, n, z, false);
  }

  lemma LastSay(h: Health, kps: seq<KeyedPool>, n: nat, owner: string, ip: string)
    requires AllResolve(h, kps) && 0 < n <= |kps| && kps[n - 1].key.owner == owner && HasSay(h, kps[n - 1].pool, ip)
    ensures !Undecided(h, kps, n, owner, ip)
    ensures WantedLast(h, kps, n, owner, ip) <==> ip in Desired(h, kps[n - 1].pool)
  {
    if ip in Desired(h, kps[n - 1].pool) {
      assert WantedAt(h, kps, n, owner, ip, n - 1);
    }
  }

  lemma NoSayStays(h: Health, kps: seq<KeyedPool>, n: nat, z: Zone, owner: string, ip: string)
    requires AllResolve(h, kps) && 0 < n <= |kps|
    requires !(kps[n - 1].key.owner == owner && HasSay(h, kps[n - 1].pool, ip))
    ensures ip in Members(After(h, kps, n, z, false), owner) <==> ip in Members(After(h, kps, n - 1, z, false), owner)
  {
    if kps[n - 1].key.owner == owner {
      AfterOwn(h, kps, n, z, false);
      assert Desired(h, kps[n - 1].pool) <= MemberIps(h, kps[n - 1].pool);
    } else {
      AfterOther(h, kps, n, z, false, owner);
    }
  }

  lemma NoLastSay(h: Health, kps: seq<KeyedPool>, n: nat, owner: string, ip: string)
    requires AllResolve(h, kps) && 0 < n <= |kps|
    requires !(kps[n - 1].key.owner == owner && HasSay(h, kps[n - 1].pool, ip))
    ensures Undecided(h, kps, n, owner, ip) <==> Undecided(h, kps, n - 1, owner, ip)
    ensures WantedLast(h, kps, n, owner, ip) <==> WantedLast(h, kps, n - 1, owner, ip)
  {
    if WantedLast(h, kps, n, owner, ip) {
      var i: nat :| WantedAt(h, kps, n, owner, ip, i);
      assert ip in MemberIps(h, kps[i].pool);
      assert WantedAt(h, kps, n - 1, owner, ip, i);
    }
    if WantedLast(h, kps, n - 1, owner, ip) {
      var i: nat :| WantedAt(h, kps, n - 1, owner, ip, i);
      assert WantedAt(h, kps, n, owner, ip, i);
    }
  }

  // ---- coverage by markers and audit rows ---------------------------------

  /** Every change of a name comes after the marker call of the same record. */
  ghost predicate WellMarked(es: seq<Event>) {
    forall i | 0 <= i < |es| && !es[i].Mark? :: exists j :: 0 <= j < i && es[j] == Mark(es[i].key)
  }

  lemma WellMarkedAppend(a: seq<Event>, b: seq<Event>)
    requires WellMarked(a) && WellMarked(b)
    ensures WellMarked(a + b)
  {
    var es := a + b;
    forall i | 0 <= i < |es| && !es[i].Mark? ensures exists j :: 0 <= j < i && es[j] == Mark(es[i].key) {
      if i < |a| {
        var j :| 0 <= j < i && a[j] == Mark(a[i].key);
        assert es[j] == Mark(es[i].key);
      } else {
        var j :| 0 <= j < i - |a| && b[j] == Mark(b[i - |a|].key);
        assert es[j + |a|] == Mark(es[i].key);
      }
    }
  }

  lemma HeadMarked(k: RecordKey, es: seq<Event>)
    requires es == [] || es[0] == Mark(k)
    requires forall e | e in es :: e.key == k
    ensures WellMarked(es)
  {}

  lemma PoolPassIsWellMarked(h: Health, kp: KeyedPool, current: set<string>, dryRun: bool)
    requires Resolves(h, kp.pool)
    ensures WellMarked(PlanPool(h, kp, current, dryRun).events)
  {
    PlanPoolOwner(h, kp, current, dryRun);
    assert Changes(kp.key, ToRemove(h, kp.pool, current), ToAdd(h, kp.pool, current))[0] == Mark(kp.key);
    HeadMarked(kp.key, PlanPool(h, kp, current, dryRun).events);
  }

  lemma {:induction false} PassIsWellMarked(h: Health, kps: seq<KeyedPool>, n: nat, z: Zone, dryRun: bool)
    requires AllResolve(h, kps) && n <= |kps|
    ensures WellMarked(PlanPass(h, kps, n, z, dryRun).events)
  {
    if n > 0 {
      PassIsWellMarked(h, kps, n - 1, z, dryRun);
      var before := PlanPass(h, kps, n - 1, z, dryRun);
      var current := Members(Run(z, before.events), kps[n - 1].key.owner);
      PoolPassIsWellMarked(h, kps[n - 1], current, dryRun);
      WellMarkedAppend(before.events, PlanPool(h, kps[n - 1], current, dryRun).events);
    }
  }

  lemma {:induction false} MarksOnly(z: Zone, es: seq<Event>, name: string)
    requires forall e | e in es && !e.Mark? :: e.key.owner != name
    ensures Members(Run(z, es), name) == Members(z, name)
    decreases es
  {
    if es != [] {
      StepFrame(z, es[0]);
      MarksOnly(Step(z, es[0]), es[1..], name);
    }
  }

  /** The driver calls an audit row stands for: the marker, then what it says was
      removed and added. Held back and protecting rows stand for none. */
  function Replay(k: RecordKey, r: Audit.Row): seq<Event> {
    match r.detail
    case Changed(added, removed) => Changes(k, removed, added)
    case About(ip) =>
      if r.mode == Safety.Execute && r.allowed
      then [Mark(k), if r.operation == OperationName(Eject) then Remove(k, ip) else Add(k, ip)]
      else []
    case _ => []
  }

  function KeyOf(d: Driver): string -> RecordKey {
    (record: string) => d.Key(record)
  }

  function ReplayAll(key: string -> RecordKey, rows: seq<Audit.Row>): seq<Event> {
    if rows == [] then []
    else
      var last := rows[|rows| - 1];
      ReplayAll(key, rows[..|rows| - 1]) + Replay(key(last.node), last)
  }

  lemma {:induction false} ReplayAppend(key: string -> RecordKey, a: seq<Audit.Row>, b: seq<Audit.Row>)
    ensures ReplayAll(key, a + b) == ReplayAll(key, a) + ReplayAll(key, b)
  {
    if b == [] {
      assert a + b == a;
    } else {
      var front, last := b[..|b| - 1], b[|b| - 1];
      assert (a + b)[..|a + b| - 1] == a + front;
      ReplayAppend(key, a, front);
      ConcatAssociative(ReplayAll(key, a), ReplayAll(key, front), Replay(key(last.node), last));
    }
  }

  /** The rows of a plan, read in order, are its driver calls. */
  ghost predicate Audited(key: string -> RecordKey, p: Plan) {
    p.events == ReplayAll(key, p.rows)
  }

  lemma EmptyIsAudited(key: string -> RecordKey)
    ensures Audited(key, EMPTY_PLAN)
  {
    assert ReplayAll(key, []) == [];
  }

  lemma ThenIsAudited(key: string -> RecordKey, a: Plan, b: Plan)
    requires Audited(key, a) && Audited(key, b)
    ensures Audited(key, Then(a, b))
  {
    ReplayAppend(key, a.rows, b.rows);
  }

  lemma ReplayOne(key: string -> RecordKey, r: Audit.Row)
    ensures ReplayAll(key, [r]) == Replay(key(r.node), r)
  {
    assert [r][..0] == [];
    assert ReplayAll(key, []) == [];
  }

  ghost predicate KeysOf(key: string -> RecordKey, kps: seq<KeyedPool>) {
    forall i | 0 <= i < |kps| :: kps[i].key == key(kps[i].pool.record)
  }

  lemma PoolPassIsAudited(key: string -> RecordKey, h: Health, kp: KeyedPool, current: set<string>, dryRun: bool)
    requires Resolves(h, kp.pool) && kp.key == key(kp.pool.record)
    ensures Audited(key, PlanPool(h, kp, current, dryRun))
  {
    var rows := PlanPool(h, kp, current, dryRun).rows;
    if rows != [] {
      assert rows == [rows[0]];
      ReplayOne(key, rows[0]);
    } else {
      assert ReplayAll(key, []) == [];
    }
  }

  /** The audit rows of a pass, read in order, are its driver calls: every change
      is covered by the row that names its address, and no row claims more. */
  lemma {:induction false} PassIsAudited(key: string -> RecordKey, h: Health, kps: seq<KeyedPool>, n: nat, z: Zone,
                                         dryRun: bool)
    requires AllResolve(h, kps) && n <= |kps| && KeysOf(key, kps)
    ensures Audited(key, PlanPass(h, kps, n, z, dryRun))
  {
    if n == 0 {
      NoPassIsAudited(key, h, kps, z, dryRun);
    } else {
      PassIsAudited(key, h, kps, n - 1, z, dryRun);
      PassStepIsAudited(key, h, kps, n, z, dryRun);
    }
  }

  lemma NoPassIsAudited(key: string -> RecordKey, h: Health, kps: seq<KeyedPool>, z: Zone, dryRun: bool)
    requires AllResolve(h, kps)
    ensures Audited(key, PlanPass(h, kps, 0, z, dryRun))
  {
    EmptyIsAudited(key);
  }

  lemma PassStepIsAudited(key: string -> RecordKey, h: Health, kps: seq<KeyedPool>, n: nat, z: Zone, dryRun: bool)
    requires AllResolve(h, kps) && 0 < n <= |kps| && KeysOf(key, kps)
    requires Audited(key, PlanPass(h, kps, n - 1, z, dryRun))
    ensures Audited(key, PlanPass(h, kps, n, z, dryRun))
  {
    var before := PlanPass(h, kps, n - 1, z, dryRun);
    var current := Members(Run(z, before.events), kps[n - 1].key.owner);
    PoolPassIsAudited(key, h, kps[n - 1], current, dryRun);
    ThenIsAudited(key, before, PlanPool(h, kps[n - 1], current, dryRun));
  }

  // ---- manual overrides ---------------------------------------------------

  function AfterOverride(action: Action, kps: seq<KeyedPool>, n: nat, z: Zone, ip: string): Zone
    requires n <= |kps|
  {
    Run(z, PlanOverrides(action, kps, n, z, ip, true).events)
  }

  ghost predicate OwnerAmong(kps: seq<KeyedPool>, n: nat, name: string)
    requires n <= |kps|
  {
    exists i :: 0 <= i < n && kps[i].key.owner == name
  }

  lemma PoolOverrideResult(action: Action, kp: KeyedPool, z: Zone, ip: string, name: string)
    ensures var current := Members(z, kp.key.owner);
      Members(Run(z, PlanOverride(action, kp, current, ip, true).events), name) ==
        if name != kp.key.owner then Members(z, name)
        else if action.Restore? then current + {ip}
        else if current == {ip} then current else current - {ip}
  {
    var current := Members(z, kp.key.owner);
    var es := PlanOverride(action, kp, current, ip, true).events;
    if es != [] {
      assert es == [Mark(kp.key)] + [es[1]];
      RunSnoc(z, [], Mark(kp.key));
      assert [] + [Mark(kp.key)] == [Mark(kp.key)];
      RunSnoc(z, [Mark(kp.key)], es[1]);
      StepFrame(z, Mark(kp.key));
      StepFrame(Step(z, Mark(kp.key)), es[1]);
    }
  }

  /** What a confirmed override leaves under every name: an eject takes the
      address out unless it is the last one, a restore puts it in, and names
      outside the node's pools are unchanged. */
  lemma {:induction false} OverrideResult(action: Action, kps: seq<KeyedPool>, n: nat, z: Zone, ip: string,
                                          name: string)
    requires n <= |kps|
    ensures var current := Members(z, name);
      Members(AfterOverride(action, kps, n, z, ip), name) ==
        if !OwnerAmong(kps, n, name) then current
        else if action.Restore? then current + {ip}
        else if current == {ip} then current else current - {ip}
  {
    if n > 0 {
      OverrideResult(action, kps, n - 1, z, ip, name);
      var before := PlanOverrides(action, kps, n - 1, z, ip, true);
      var y, kp := Run(z, before.events), kps[n - 1];
      RunAppend(z, before.events, PlanOverride(action, kp, Members(y, kp.key.owner), ip, true).events);
      PoolOverrideResult(action, kp, y, ip, name);
      if kp.key.owner != name && OwnerAmong(kps, n, name) {
        assert OwnerAmong(kps, n - 1, name);
      }
    }
  }

  /** A restore after an eject puts every record of the node's pools back, when
      the node was listed there and no pool refused. */
  lemma RestoreUndoesEject(kps: seq<KeyedPool>, z: Zone, ip: string, name: string)
    requires OwnerAmong(kps, |kps|, name) ==> ip in Members(z, name)
    ensures var ejected := AfterOverride(Eject, kps, |kps|, z, ip);
      Members(AfterOverride(Restore, kps, |kps|, ejected, ip), name) == Members(z, name)
  {
    OverrideResult(Eject, kps, |kps|, z, ip, name);
    OverrideResult(Restore, kps, |kps|, AfterOverride(Eject, kps, |kps|, z, ip), ip, name);
  }

  lemma {:induction false} DryOverrideIsQuiet(action: Action, kps: seq<KeyedPool>, n: nat, z: Zone, ip: string)
    requires n <= |kps|
    ensures PlanOverrides(action, kps, n, z, ip, false).events == []
  {
    if n > 0 {
      DryOverrideIsQuiet(action, kps, n - 1, z, ip);
    }
  }

  lemma {:induction false} OverrideIsWellMarked(action: Action, kps: seq<KeyedPool>, n: nat, z: Zone, ip: string,
                                                confirm: bool)
    requires n <= |kps|
    ensures WellMarked(PlanOverrides(action, kps, n, z, ip, confirm).events)
  {
    if n > 0 {
      OverrideIsWellMarked(action, kps, n - 1, z, ip, confirm);
      var before := PlanOverrides(action, kps, n - 1, z, ip, confirm);
      var step := PlanOverride(action, kps[n - 1], Members(Run(z, before.events), kps[n - 1].key.owner), ip, confirm);
      assert WellMarked(step.events) by {
        forall i | 0 <= i < |step.events| && !step.events[i].Mark?
          ensures exists j :: 0 <= j < i && step.events[j] == Mark(step.events[i].key)
        {
          assert step.events[0] == Mark(step.events[i].key);
        }
      }
      WellMarkedAppend(before.events, step.events);
    }
  }

  lemma PoolOverrideIsAudited(key: string -> RecordKey, action: Action, kp: KeyedPool, current: set<string>, ip: string,
                              confirm: bool)
    requires kp.key == key(kp.pool.record)
    ensures Audited(key, PlanOverride(action, kp, current, ip, confirm))
  {
    var row := PlanOverride(action, kp, current, ip, confirm).rows[0];
    assert PlanOverride(action, kp, current, ip, confirm).rows == [row];
    assert OperationName(Eject) != OperationName(Restore) by {
      assert OperationName(Eject)[4] != OperationName(Restore)[4];
    }
    ReplayOne(key, row);
  }

  lemma OverrideStepIsAudited(key: string -> RecordKey, action: Action, kps: seq<KeyedPool>, n: nat, z: Zone,
                              ip: string, confirm: bool)
    requires 0 < n <= |kps| && KeysOf(key, kps)
    requires Audited(key, PlanOverrides(action, kps, n - 1, z, ip, confirm))
    ensures Audited(key, PlanOverrides(action, kps, n, z, ip, confirm))
  {
    var before := PlanOverrides(action, kps, n - 1, z, ip, confirm);
    var current := Members(Run(z, before.events), kps[n - 1].key.owner);
    PoolOverrideIsAudited(key, action, kps[n - 1], current, ip, confirm);
    ThenIsAudited(key, before, PlanOverride(action, kps[n - 1], current, ip, confirm));
  }

  /** The same for the rows of an override. */
  lemma {:induction false} OverrideIsAudited(key: string -> RecordKey, action: Action, kps: seq<KeyedPool>, n: nat,
                                             z: Zone, ip: string, confirm: bool)
    requires n <= |kps| && KeysOf(key, kps)
    ensures Audited(key, PlanOverrides(action, kps, n, z, ip, confirm))
  {
    if n == 0 {
      EmptyIsAudited(key);
    } else {
      OverrideIsAudited(key, action, kps, n - 1, z, ip, confirm);
      OverrideStepIsAudited(key, action, kps, n, z, ip, confirm);
    }
  }

  /** The zone after a confirmed eject and the next executed pass. */
  ghost function EjectedThenWatched(f: Fleet, d: Driver, z: Zone, probes: seq<ClusterStatus>, name: string): Zone
    requires Servable(f)
  {
    var ejected := Run(z, OverridePlan(f, d, z, name, Eject, None, true).events);
    Run(ejected, WatchPlan(f, d, ejected, false, probes).events)
  }

  /** How long a manual eject lasts: after the next executed pass the address is in the
      record exactly when the last pool of that record to have a say wants it, or none
      has one and the eject was refused. */
  lemma EjectIsUndoneIff(f: Fleet, d: Driver, z: Zone, probes: seq<ClusterStatus>, p: Pool, name: string)
    requires Servable(f) && FindNode(f.clusters, name).Some? && p in PoolsOf(f) && name in p.members
    ensures AllResolve(HealthOf(f, probes), Keyed(d, PoolsOf(f)))
    ensures var h, kps, owner := HealthOf(f, probes), Keyed(d, PoolsOf(f)), d.Key(p.record).owner;
      var ip := FindNode(f.clusters, name).value.node.host;
      (ip in Members(EjectedThenWatched(f, d, z, probes, name), owner) <==>
        || WantedLast(h, kps, |kps|, owner, ip)
        || (Undecided(h, kps, |kps|, owner, ip) && Refused(Eject, Members(z, owner), ip)))
  {
    FleetResolves(f, d, probes);
    var ip := FindNode(f.clusters, name).value.node.host;
    var ejected := Run(z, OverridePlan(f, d, z, name, Eject, None, true).events);
    PassMembershipIff(HealthOf(f, probes), Keyed(d, PoolsOf(f)), |PoolsOf(f)|, ejected, d.Key(p.record).owner, ip);
    EjectedFrom(d, PoolsOf(f), p, z, name, ip);
  }

  /** A confirmed eject leaves the address in a record of the node exactly when it was
      refused there. */
  lemma EjectedFrom(d: Driver, pools: seq<Pool>, p: Pool, z: Zone, name: string, ip: string)
    requires p in pools && name in p.members
    ensures var ejecting := Keyed(d, PoolsForNode(pools, name, None));
      var owner := d.Key(p.record).owner;
      (ip in Members(AfterOverride(Eject, ejecting, |ejecting|, z, ip), owner) <==>
         Refused(Eject, Members(z, owner), ip))
  {
    var some := PoolsForNode(pools, name, None);
    var ejecting := Keyed(d, some);
    OverrideResult(Eject, ejecting, |ejecting|, z, ip, d.Key(p.record).owner);
    PoolsForNodeHas(pools, name, None);
    var k :| 0 <= k < |some| && some[k] == p;
    assert OwnerAmong(ejecting, |ejecting|, d.Key(p.record).owner) by {
      assert ejecting[k].key == d.Key(p.record);
    }
  }

  /** In particular the eject of a node that is not to be ejected never lasts, unless a
      later pool of the same record has a say in its address. */
  lemma EjectOfHealthyNodeIsUndone(f: Fleet, d: Driver, z: Zone, probes: seq<ClusterStatus>, i: nat, name: string)
    requires Servable(f) && FindNode(f.clusters, name).Some? && i < |PoolsOf(f)| && name in PoolsOf(f)[i].members
    requires HealthOf(f, probes).ips[name] == FindNode(f.clusters, name).value.node.host
    requires !ShouldEject(StatusOf(HealthOf(f, probes).status, name), PoolsOf(f)[i].ejectWhen)
    requires forall j |
      i < j < |PoolsOf(f)| && d.Key(PoolsOf(f)[j].record).owner == d.Key(PoolsOf(f)[i].record).owner ::
      !HasSay(HealthOf(f, probes), PoolsOf(f)[j], FindNode(f.clusters, name).value.node.host)
    ensures FindNode(f.clusters, name).value.node.host in
      Members(EjectedThenWatched(f, d, z, probes, name), d.Key(PoolsOf(f)[i].record).owner)
  {
    var h, kps, ip := HealthOf(f, probes), Keyed(d, PoolsOf(f)), FindNode(f.clusters, name).value.node.host;
    EjectIsUndoneIff(f, d, z, probes, PoolsOf(f)[i], name);
    assert ip in Desired(h, kps[i].pool);
    assert WantedAt(h, kps, |kps|, kps[i].key.owner, ip, i);
  }

  // ---- any mix of operations ----------------------------------------------

  /** One operation on the zone, with whatever the probes report at the time. */
  datatype Operation =
    | Pass(probes: seq<ClusterStatus>, dryRun: bool)
    | Manual(action: Action, node: string, record: Option<string>, confirm: bool)

  ghost function PlanOf(f: Fleet, d: Driver, z: Zone, op: Operation): Plan
    requires Servable(f)
  {
    match op
    case Pass(probes, dryRun) => WatchPlan(f, d, z, dryRun, probes)
    case Manual(action, node, record, confirm) => OverridePlan(f, d, z, node, action, record, confirm)
  }

  ghost function EventsOf(f: Fleet, d: Driver, z: Zone, op: Operation): seq<Event>
    requires Servable(f)
  {
    PlanOf(f, d, z, op).events
  }

  /** Everything a sequence of operations asks of the driver. */
  ghost function History(f: Fleet, d: Driver, z: Zone, ops: seq<Operation>): seq<Event>
    requires Servable(f)
    decreases |ops|
  {
    if ops == [] then []
    else
      var n := |ops| - 1;
      var before := History(f, d, z, ops[..n]);
      before + EventsOf(f, d, Run(z, before), ops[n])
  }

  /** Everything it writes to the audit log. */
  ghost function HistoryRows(f: Fleet, d: Driver, z: Zone, ops: seq<Operation>): seq<Audit.Row>
    requires Servable(f)
    decreases |ops|
  {
    if ops == [] then []
    else
      var n := |ops| - 1;
      HistoryRows(f, d, z, ops[..n]) + PlanOf(f, d, Run(z, History(f, d, z, ops[..n])), ops[n]).rows
  }

  lemma HistorySnoc(f: Fleet, d: Driver, z: Zone, ops: seq<Operation>, op: Operation)
    requires Servable(f)
    ensures History(f, d, z, ops + [op]) ==
      History(f, d, z, ops) + EventsOf(f, d, Run(z, History(f, d, z, ops)), op)
    ensures HistoryRows(f, d, z, ops + [op]) ==
      HistoryRows(f, d, z, ops) + PlanOf(f, d, Run(z, History(f, d, z, ops)), op).rows
  {
    assert (ops + [op])[..|ops|] == ops;
  }

  lemma OperationIsAudited(f: Fleet, d: Driver, z: Zone, op: Operation)
    requires Servable(f)
    ensures Audited(KeyOf(d), PlanOf(f, d, z, op))
  {
    EmptyIsAudited(KeyOf(d));
    match op
    case Pass(probes, dryRun) =>
      FleetResolves(f, d, probes);
      PassIsAudited(KeyOf(d), HealthOf(f, probes), Keyed(d, PoolsOf(f)), |Keyed(d, PoolsOf(f))|, z, dryRun);
    case Manual(action, node, record, confirm) =>
      var found := FindNode(f.clusters, node);
      if found.Some? {
        var kps := Keyed(d, PoolsForNode(PoolsOf(f), node, record));
        OverrideIsAudited(KeyOf(d), action, kps, |kps|, z, found.value.node.host, confirm);
      }
  }

  /** The log alone tells every driver call that was ever made, in order: replaying
      its rows gives the history of any mix of passes and overrides. */
  lemma {:induction false} HistoryIsAudited(f: Fleet, d: Driver, z: Zone, ops: seq<Operation>)
    requires Servable(f)
    ensures History(f, d, z, ops) == ReplayAll(KeyOf(d), HistoryRows(f, d, z, ops))
    decreases |ops|
  {
    if ops != [] {
      var n := |ops| - 1;
      HistoryIsAudited(f, d, z, ops[..n]);
      var y := Run(z, History(f, d, z, ops[..n]));
      OperationIsAudited(f, d, y, ops[n]);
      ReplayAppend(KeyOf(d), HistoryRows(f, d, z, ops[..n]), PlanOf(f, d, y, ops[n]).rows);
    }
  }

  lemma OverrideStaysServed(action: Action, kps: seq<KeyedPool>, z: Zone, ip: string, confirm: bool)
    ensures StaysServed(z, Run(z, FullOverride(action, kps, z, ip, confirm).events))
  {
    if confirm {
      forall n | Members(z, n) != {} ensures Members(AfterOverride(action, kps, |kps|, z, ip), n) != {} {
        OverrideResult(action, kps, |kps|, z, ip, n);
        OneLessIsEmptyIff(Members(z, n), ip);
      }
    } else {
      DryOverrideIsQuiet(action, kps, |kps|, z, ip);
    }
  }

  lemma OneLessIsEmptyIff(s: set<string>, x: string)
    requires s != {}
    ensures s - {x} == {} <==> s == {x}
  {}

  lemma OperationStaysServed(f: Fleet, d: Driver, z: Zone, op: Operation)
    requires Servable(f)
    ensures StaysServed(z, Run(z, EventsOf(f, d, z, op)))
  {
    match op
    case Pass(probes, dryRun) =>
      FleetResolves(f, d, probes);
      PassStaysServed(HealthOf(f, probes), Keyed(d, PoolsOf(f)), |Keyed(d, PoolsOf(f))|, z, dryRun);
    case Manual(action, node, record, confirm) =>
      var found := FindNode(f.clusters, node);
      if found.Some? {
        OverrideStaysServed(action, Keyed(d, PoolsForNode(PoolsOf(f), node, record)), z, found.value.node.host,
                            confirm);
      }
  }

  /** Over any sequence of passes, ejects and restores - any probes, pools that
      share a record included - a record that starts with an address keeps one
      after every operation. */
  lemma {:induction false} NeverEmptied(f: Fleet, d: Driver, z: Zone, ops: seq<Operation>)
    requires Servable(f)
    ensures StaysServed(z, Run(z, History(f, d, z, ops)))
    decreases |ops|
  {
    if ops != [] {
      var n := |ops| - 1;
      NeverEmptied(f, d, z, ops[..n]);
      var before := History(f, d, z, ops[..n]);
      OperationStaysServed(f, d, Run(z, before), ops[n]);
      RunAppend(z, before, EventsOf(f, d, Run(z, before), ops[n]));
    }
  }

  lemma {:induction false} HistoryIsWellMarked(f: Fleet, d: Driver, z: Zone, ops: seq<Operation>)
    requires Servable(f)
    ensures WellMarked(History(f, d, z, ops))
    decreases |ops|
  {
    if ops != [] {
      var n := |ops| - 1;
      HistoryIsWellMarked(f, d, z, ops[..n]);
      var before := History(f, d, z, ops[..n]);
      var y := Run(z, before);
      match ops[n] {
        case Pass(probes, dryRun) =>
          FleetResolves(f, d, probes);
          PassIsWellMarked(HealthOf(f, probes), Keyed(d, PoolsOf(f)), |Keyed(d, PoolsOf(f))|, y, dryRun);
        case Manual(action, node, record, confirm) =>
          var found := FindNode(f.clusters, node);
          if found.Some? {
            var kps := Keyed(d, PoolsForNode(PoolsOf(f), node, record));
            OverrideIsWellMarked(action, kps, |kps|, y, found.value.node.host, confirm);
          }
      }
      WellMarkedAppend(before, EventsOf(f, d, y, ops[n]));
    }
  }

  lemma WellMarkedPrefix(es: seq<Event>, n: nat)
    requires WellMarked(es) && n <= |es|
    ensures WellMarked(es[..n])
  {}

  /** Some call has changed, or may have changed, the addresses of a name. */
  ghost predicate Touches(es: seq<Event>, owner: string) {
    exists e | e in es :: !e.Mark? && e.key.owner == owner
  }

  /** Every call is made for the key of a listed pool. */
  ghost predicate ForPools(d: Driver, pools: seq<Pool>, es: seq<Event>) {
    forall e | e in es :: exists p | p in pools :: e.key == d.Key(p.record)
  }

  lemma OneKeyForPools(d: Driver, pools: seq<Pool>, p: Pool, es: seq<Event>)
    requires p in pools && forall e | e in es :: e.key == d.Key(p.record)
    ensures ForPools(d, pools, es)
  {}

  lemma ForPoolsAppend(d: Driver, pools: seq<Pool>, a: seq<Event>, b: seq<Event>)
    requires ForPools(d, pools, a) && ForPools(d, pools, b)
    ensures ForPools(d, pools, a + b)
  {
    forall e | e in a + b ensures exists p | p in pools :: e.key == d.Key(p.record) {
      assert e in a || e in b;
    }
  }

  lemma {:induction false} PassIsForPools(d: Driver, pools: seq<Pool>, h: Health, n: nat, z: Zone, dryRun: bool)
    requires AllResolve(h, Keyed(d, pools)) && n <= |pools|
    ensures ForPools(d, pools, PlanPass(h, Keyed(d, pools), n, z, dryRun).events)
  {
    if n > 0 {
      var kps := Keyed(d, pools);
      PassIsForPools(d, pools, h, n - 1, z, dryRun);
      var before := PlanPass(h, kps, n - 1, z, dryRun);
      var current := Members(Run(z, before.events), kps[n - 1].key.owner);
      PlanPoolOwner(h, kps[n - 1], current, dryRun);
      OneKeyForPools(d, pools, pools[n - 1], PlanPool(h, kps[n - 1], current, dryRun).events);
      ForPoolsAppend(d, pools, before.events, PlanPool(h, kps[n - 1], current, dryRun).events);
    }
  }

  lemma {:induction false} OverrideIsForPools(d: Driver, pools: seq<Pool>, some: seq<Pool>, action: Action, n: nat,
                                              z: Zone, ip: string, confirm: bool)
    requires n <= |some| && forall p | p in some :: p in pools
    ensures ForPools(d, pools, PlanOverrides(action, Keyed(d, some), n, z, ip, confirm).events)
  {
    if n > 0 {
      var kps := Keyed(d, some);
      OverrideIsForPools(d, pools, some, action, n - 1, z, ip, confirm);
      var before := PlanOverrides(action, kps, n - 1, z, ip, confirm);
      var step := PlanOverride(action, kps[n - 1], Members(Run(z, before.events), kps[n - 1].key.owner), ip, confirm);
      OneKeyForPools(d, pools, some[n - 1], step.events);
      ForPoolsAppend(d, pools, before.events, step.events);
    }
  }

  lemma OperationIsForPools(f: Fleet, d: Driver, z: Zone, op: Operation)
    requires Servable(f)
    ensures ForPools(d, PoolsOf(f), EventsOf(f, d, z, op))
  {
    match op
    case Pass(probes, dryRun) =>
      FleetResolves(f, d, probes);
      PassIsForPools(d, PoolsOf(f), HealthOf(f, probes), |PoolsOf(f)|, z, dryRun);
    case Manual(action, node, record, confirm) =>
      var found := FindNode(f.clusters, node);
      if found.Some? {
        var some := PoolsForNode(PoolsOf(f), node, record);
        PoolsForNodeHas(PoolsOf(f), node, record);
        OverrideIsForPools(d, PoolsOf(f), some, action, |some|, z, found.value.node.host, confirm);
      }
  }

  lemma {:induction false} HistoryIsForPools(f: Fleet, d: Driver, z: Zone, ops: seq<Operation>)
    requires Servable(f)
    ensures ForPools(d, PoolsOf(f), History(f, d, z, ops))
    decreases |ops|
  {
    if ops != [] {
      var n := |ops| - 1;
      HistoryIsForPools(f, d, z, ops[..n]);
      var before := History(f, d, z, ops[..n]);
      OperationIsForPools(f, d, Run(z, before), ops[n]);
      ForPoolsAppend(d, PoolsOf(f), before, EventsOf(f, d, Run(z, before), ops[n]));
    }
  }

  lemma TouchedIsMarked(z: Zone, es: seq<Event>, e: Event)
    requires WellMarked(es) && e in es && !e.Mark?
    ensures e.key.marker in Run(z, es).txt
  {
    var i :| 0 <= i < |es| && es[i] == e;
    var j :| 0 <= j < i && es[j] == Mark(es[i].key);
    assert es == es[..j] + [es[j]] + es[j + 1..];
    RunAppend(z, es[..j] + [es[j]], es[j + 1..]);
    RunSnoc(z, es[..j], es[j]);
    MarkersGrow(Run(z, es[..j] + [es[j]]), es[j + 1..]);
  }

  /** Calls for listed pools that each follow their marker leave the marker of a record
      wherever they reach it, under whichever spelling of its name. */
  lemma MarkedWhereTouched(d: Driver, pools: seq<Pool>, p: Pool, z: Zone, es: seq<Event>)
    requires WellMarked(es) && ForPools(d, pools, es)
    ensures Touches(es, d.Key(p.record).owner) ==> d.Key(p.record).marker in Run(z, es).txt
  {
    var owner := d.Key(p.record).owner;
    if Touches(es, owner) {
      var e :| e in es && !e.Mark? && e.key.owner == owner;
      var q :| q in pools && e.key == d.Key(q.record);
      KeysMatch(d, q.record, p.record);
      TouchedIsMarked(z, es, e);
    }
  }

  /** In every state of such a run, between driver calls included: a listed record
      that any add or remove has reached, under whichever spelling of its name,
      carries its own marker; and only such a record can have changed. */
  lemma TouchedCarriesMarker(f: Fleet, d: Driver, z: Zone, ops: seq<Operation>, n: nat, p: Pool)
    requires Servable(f) && p in PoolsOf(f) && n <= |History(f, d, z, ops)|
    ensures var es, key := History(f, d, z, ops)[..n], d.Key(p.record);
      && (Touches(es, key.owner) ==> key.marker in Run(z, es).txt)
      && (Members(Run(z, es), key.owner) != Members(z, key.owner) ==> Touches(es, key.owner))
  {
    var es, owner := History(f, d, z, ops)[..n], d.Key(p.record).owner;
    HistoryIsWellMarked(f, d, z, ops);
    HistoryIsForPools(f, d, z, ops);
    WellMarkedPrefix(History(f, d, z, ops), n);
    ForPoolsPrefix(d, PoolsOf(f), History(f, d, z, ops), n);
    MarkedWhereTouched(d, PoolsOf(f), p, z, es);
    if !Touches(es, owner) {
      MarksOnly(z, es, owner);
    }
  }

  lemma ForPoolsPrefix(d: Driver, pools: seq<Pool>, es: seq<Event>, n: nat)
    requires ForPools(d, pools, es) && n <= |es|
    ensures ForPools(d, pools, es[..n])
  {
    forall e | e in es[..n] ensures exists p | p in pools :: e.key == d.Key(p.record) {
      assert e in es;
    }
  }

  // ---- records without a marker -------------------------------------------

  /** Some pool of the record is not settled in the zone. */
  ghost predicate Unsettled(h: Health, kps: seq<KeyedPool>, n: nat, z: Zone, owner: string)
    requires AllResolve(h, kps) && n <= |kps|
  {
    exists i :: 0 <= i < n && kps[i].key.owner == owner && !Settled(h, kps[i].pool, Members(z, owner))
  }

  /** A pass asks for no marker before it changes a record: with or without one, and
      however many pools share it, addresses are added to or removed from a record
      exactly when the pass is executed and one of its pools is not settled. */
  lemma PassTouchesIff(h: Health, kps: seq<KeyedPool>, n: nat, z: Zone, dryRun: bool, owner: string)
    requires AllResolve(h, kps) && n <= |kps|
    ensures Touches(PlanPass(h, kps, n, z, dryRun).events, owner) <==> !dryRun && Unsettled(h, kps, n, z, owner)
  {
    if dryRun {
      DryPassIsQuiet(h, kps, n, z);
    } else {
      PassDoes(h, kps, n, z, owner);
      ToDoIff(h, kps, n, z, owner);
    }
  }

  /** The same, pool by pool. */
  ghost predicate ToDo(h: Health, kps: seq<KeyedPool>, n: nat, z: Zone, owner: string)
    requires AllResolve(h, kps) && n <= |kps|
  {
    n > 0 && (ToDo(h, kps, n - 1, z, owner)
      || (kps[n - 1].key.owner == owner && !Settled(h, kps[n - 1].pool, Members(z, owner))))
  }

  lemma {:induction false} PassDoes(h: Health, kps: seq<KeyedPool>, n: nat, z: Zone, owner: string)
    requires AllResolve(h, kps) && n <= |kps|
    ensures Touches(PlanPass(h, kps, n, z, false).events, owner) <==> ToDo(h, kps, n, z, owner)
  {
    if n > 0 {
      PassDoes(h, kps, n - 1, z, owner);
      LastPoolTouches(h, kps, n, z, owner);
    }
  }

  lemma {:induction false} ToDoIff(h: Health, kps: seq<KeyedPool>, n: nat, z: Zone, owner: string)
    requires AllResolve(h, kps) && n <= |kps|
    ensures ToDo(h, kps, n, z, owner) <==> Unsettled(h, kps, n, z, owner)
  {
    if n > 0 {
      ToDoIff(h, kps, n - 1, z, owner);
      LastPoolUnsettled(h, kps, n, z, owner);
    }
  }

  lemma LastPoolTouches(h: Health, kps: seq<KeyedPool>, n: nat, z: Zone, owner: string)
    requires AllResolve(h, kps) && 0 < n <= |kps|
    ensures Touches(PlanPass(h, kps, n, z, false).events, owner) <==>
      || Touches(PlanPass(h, kps, n - 1, z, false).events, owner)
      || (kps[n - 1].key.owner == owner && !Settled(h, kps[n - 1].pool, Members(z, owner)))
  {
    var before := PlanPass(h, kps, n - 1, z, false).events;
    var current := Members(Run(z, before), kps[n - 1].key.owner);
    TouchesAppend(before, PlanPool(h, kps[n - 1], current, false).events, owner);
    PoolTouchesIff(h, kps[n - 1], current, owner);
    if !Touches(before, owner) {
      MarksOnly(z, before, owner);
    }
  }

  lemma LastPoolUnsettled(h: Health, kps: seq<KeyedPool>, n: nat, z: Zone, owner: string)
    requires AllResolve(h, kps) && 0 < n <= |kps|
    ensures Unsettled(h, kps, n, z, owner) <==>
      || Unsettled(h, kps, n - 1, z, owner)
      || (kps[n - 1].key.owner == owner && !Settled(h, kps[n - 1].pool, Members(z, owner)))
  {}

  lemma TouchesAppend(a: seq<Event>, b: seq<Event>, owner: string)
    ensures Touches(a + b, owner) <==> Touches(a, owner) || Touches(b, owner)
  {
    forall e ensures e in a + b <==> e in a || e in b {
    }
  }

  lemma PoolTouchesIff(h: Health, kp: KeyedPool, current: set<string>, owner: string)
    requires Resolves(h, kp.pool)
    ensures Touches(PlanPool(h, kp, current, false).events, owner) <==>
      owner == kp.key.owner && !Settled(h, kp.pool, current)
  {
    var remove, add := ToRemove(h, kp.pool, current), ToAdd(h, kp.pool, current);
    NothingToDoIff(current * MemberIps(h, kp.pool), Desired(h, kp.pool), current);
    PlanPoolOwner(h, kp, current, false);
    ChangesTouch(kp.key, remove, add);
  }

  lemma NothingToDoIff(managed: set<string>, desired: set<string>, current: set<string>)
    ensures SortedSet(managed - desired) == [] <==> managed <= desired
    ensures SortedSet(desired - current) == [] <==> desired <= current
  {
    SortedSetElements(managed - desired);
    SortedSetElements(desired - current);
    forall x | x in managed && x !in desired ensures x in Elements(SortedSet(managed - desired)) {
    }
    forall x | x in desired && x !in current ensures x in Elements(SortedSet(desired - current)) {
    }
  }

  lemma ChangesTouch(k: RecordKey, remove: seq<string>, add: seq<string>)
    ensures Touches(Changes(k, remove, add), k.owner) <==> remove != [] || add != []
  {
    var es := Changes(k, remove, add);
    if remove != [] {
      assert es[1] == Remove(k, remove[0]);
    } else if add != [] {
      assert es[1] == Add(k, add[0]);
    }
  }

  lemma {:induction false} DryPassIsQuiet(h: Health, kps: seq<KeyedPool>, n: nat, z: Zone)
    requires AllResolve(h, kps) && n <= |kps|
    ensures PlanPass(h, kps, n, z, true).events == []
  {
    if n > 0 {
      DryPassIsQuiet(h, kps, n - 1, z);
      var current := Members(Run(z, PlanPass(h, kps, n - 1, z, true).events), kps[n - 1].key.owner);
      DryPoolIsQuiet(h, kps[n - 1], current);
    }
  }

  lemma DryPoolIsQuiet(h: Health, kp: KeyedPool, current: set<string>)
    requires Resolves(h, kp.pool)
    ensures PlanPool(h, kp, current, true).events == []
  {}

  /** Nor does a manual override: it changes the record of a pool of the node exactly
      when it is confirmed, not refused, and there is something to change. */
  lemma UnmarkedOverriddenIff(action: Action, kps: seq<KeyedPool>, z: Zone, ip: string, confirm: bool, i: nat)
    requires i < |kps|
    ensures var owner := kps[i].key.owner;
      var current := Members(z, owner);
      Members(Run(z, FullOverride(action, kps, z, ip, confirm).events), owner) != current <==>
        confirm && !Refused(action, current, ip) && (action.Eject? <==> ip in current)
  {
    if confirm {
      OverrideResult(action, kps, |kps|, z, ip, kps[i].key.owner);
    } else {
      DryOverrideIsQuiet(action, kps, |kps|, z, ip);
    }
  }

  /** A record without a marker that loses its address and gains another. */
  lemma UnmarkedRecordIsChanged(k: RecordKey, h: Health, p: Pool, z: Zone, up: NodeStatus)
    requires up == NodeStatus("a", true, Some(true), None, None, None, None, None, None)
    requires p == Pool("rpc.example.com", "mainnet", ["a", "b"], 60, EjectWhen(None, true, false))
    requires h == Health(map["a" := "10.0.0.1", "b" := "10.0.0.2"], map["a" := up])
    requires k == RecordKey("rpc.example.com", "_solfleet.rpc.example.com")
    requires z == Zone(map["rpc.example.com" := {"10.0.0.2"}], {})
    ensures k.marker !in z.txt && AllResolve(h, [KeyedPool(k, p)])
    ensures Members(z, k.owner) == {"10.0.0.2"}
    ensures Members(After(h, [KeyedPool(k, p)], 1, z, false), k.owner) == {"10.0.0.1"}
  {
    var kps := [KeyedPool(k, p)];
    assert forall m | m in p.members :: m == "a" || m == "b";
    assert Resolves(h, p);
    ExamplePool(h, p, up);
    PassResult(h, kps, 1, z, 0);
  }

  lemma ExamplePool(h: Health, p: Pool, up: NodeStatus)
    requires up == NodeStatus("a", true, Some(true), None, None, None, None, None, None)
    requires p.members == ["a", "b"] && p.ejectWhen == EjectWhen(None, true, false)
    requires h == Health(map["a" := "10.0.0.1", "b" := "10.0.0.2"], map["a" := up])
    ensures Resolves(h, p) && Desired(h, p) == {"10.0.0.1"} && MemberIps(h, p) == {"10.0.0.1", "10.0.0.2"}
  {
    assert p.members[0] == "a" && p.members[1] == "b" && "a"[0] != "b"[0];
    assert forall m :: m in p.members <==> m == "a" || m == "b";
    assert StatusOf(h.status, "a") == Some(up) && StatusOf(h.status, "b") == None;
    EjectReasonsExample(up, p.ejectWhen);
    assert h.ips["a"] in Desired(h, p);
    assert h.ips["a"] in MemberIps(h, p) && h.ips["b"] in MemberIps(h, p);
    assert forall x | x in MemberIps(h, p) :: x == h.ips["a"] || x == h.ips["b"];
  }

  lemma EjectReasonsExample(up: NodeStatus, ew: EjectWhen)
    requires up == NodeStatus("a", true, Some(true), None, None, None, None, None, None)
    requires ew == EjectWhen(None, true, false)
    ensures !ShouldEject(Some(up), ew) && ShouldEject(None, ew)
  {}

  /** The driver stands where a sequence of operations leaves a zone, and driver and
      audit log have recorded it. */
  ghost predicate Played(f: Fleet, d: Driver, audit: Audit.AuditLog?, z: Zone, log: seq<Event>, rows: seq<Audit.Row>,
                         ops: seq<Operation>)
    requires Servable(f)
    reads d.Repr(), audit
  {
    && d.View() == Run(z, History(f, d, z, ops))
    && d.Log() == log + History(f, d, z, ops)
    && (audit != null ==> audit.rows == rows + HistoryRows(f, d, z, ops))
  }

  /** The operations of n rounds of the loop, one pass on each of the first n probes. */
  function Rounds(prober: nat -> seq<ClusterStatus>, dryRun: bool, n: nat): seq<Operation> {
    if n == 0 then [] else Rounds(prober, dryRun, n - 1) + [Pass(prober(n - 1), dryRun)]
  }

  /** `watch_loop`: one pass per round, each on fresh probes. */
  method WatchLoop(f: Fleet, d: Driver, audit: Audit.AuditLog?, iterations: int, dryRun: bool,
                   prober: nat -> seq<ClusterStatus>)
    requires Servable(f) && d.Valid()
    modifies d.Repr(), audit
    ensures d.Valid()
    ensures Played(f, d, audit, old(d.View()), old(d.Log()), if audit != null then old(audit.rows) else [],
                   Rounds(prober, dryRun, if iterations < 0 then 0 else iterations))
  {
    ghost var z, log := d.View(), d.Log();
    ghost var rows := if audit != null then audit.rows else [];
    var count := if iterations < 0 then 0 else iterations;
    for n := 0 to count
      invariant d.Valid()
      invariant Played(f, d, audit, z, log, rows, Rounds(prober, dryRun, n))
    {
      WatchRound(f, d, audit, dryRun, prober(n), z, log, rows, Rounds(prober, dryRun, n));
    }
  }

  method WatchRound(f: Fleet, d: Driver, audit: Audit.AuditLog?, dryRun: bool, probes: seq<ClusterStatus>,
                    ghost z: Zone, ghost log: seq<Event>, ghost rows: seq<Audit.Row>, ghost ops: seq<Operation>)
    requires Servable(f) && d.Valid()
    requires Played(f, d, audit, z, log, rows, ops)
    modifies d.Repr(), audit
    ensures d.Valid()
    ensures Played(f, d, audit, z, log, rows, ops + [Pass(probes, dryRun)])
  {
    ghost var before := History(f, d, z, ops);
    ghost var step := WatchPlan(f, d, d.View(), dryRun, probes);
    RunAppend(z, before, step.events);
    ConcatAssociative(log, before, step.events);
    ConcatAssociative(rows, HistoryRows(f, d, z, ops), step.rows);
    HistorySnoc(f, d, z, ops, Pass(probes, dryRun));
    var _ := WatchOnce(f, d, audit, dryRun, probes);
  }
}
