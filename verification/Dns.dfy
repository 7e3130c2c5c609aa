/** The three DNS drivers (src/solfleet/dns.py). Each keeps the provider's own
    representation; View is the zone it stands for, and every mutating call is
    proved to be one step of that zone. Calls do not fail and the zone lookup has
    been made. */
module Dns {
  import opened Text
  import opened Zones

  const MARKER_PREFIX := "_solfleet."
  const MARKER_CONTENT := "solfleet-managed"

  function MarkerName(record: string): string {
    MARKER_PREFIX + record
  }

  // ---- a dict of sets -----------------------------------------------------

  datatype Op = Added(record: string, ip: string) | Removed(record: string, ip: string)

  class InMemoryDnsDriver {
    var a: map<string, set<string>>
    var markers: set<string>
    var ops: seq<Op>
    ghost var log: seq<Event>

    constructor (initial: map<string, set<string>>, markers: set<string>)
      ensures View() == Zone(map n | n in initial && initial[n] != {} :: initial[n], markers)
      ensures ops == [] && log == []
    {
      this.a := initial;
      this.markers := markers;
      ops := [];
      log := [];
    }

    ghost function View(): Zone
      reads this
    {
      Zone(map n | n in a && a[n] != {} :: a[n], markers)
    }

    function Key(record: string): RecordKey {
      RecordKey(record, record)
    }

    method ListMembers(record: string) returns (r: seq<string>)
      ensures Ascending(r) && NoDuplicates(r)
      ensures Elements(r) == Members(View(), Key(record).owner)
    {
      var s := if record in a then a[record] else {};
      r := SortedSet(s);
      SortedSetIs(s);
    }

    method AddMember(record: string, ip: string, ttl: int)
      modifies this
      ensures View() == Step(old(View()), Add(Key(record), ip))
      ensures log == old(log) + [Add(Key(record), ip)]
      ensures ops == old(ops) + [Added(record, ip)]
    {
      if record !in a {
        a := a[record := {}];
      }
      a := a[record := a[record] + {ip}];
      ops := ops + [Added(record, ip)];
      log := log + [Add(Key(record), ip)];
    }

    method RemoveMember(record: string, ip: string)
      modifies this
      ensures View() == Step(old(View()), Remove(Key(record), ip))
      ensures log == old(log) + [Remove(Key(record), ip)]
      ensures ops == old(ops) + [Removed(record, ip)]
    {
      if record in a {
        a := a[record := a[record] - {ip}];
      }
      ops := ops + [Removed(record, ip)];
      log := log + [Remove(Key(record), ip)];
    }

    method HasMarker(record: string) returns (b: bool)
      ensures b <==> Key(record).marker in View().txt
    {
      b := record in markers;
    }

    method EnsureMarker(record: string)
      modifies this
      ensures View() == Step(old(View()), Mark(Key(record)))
      ensures log == old(log) + [Mark(Key(record))]
      ensures ops == old(ops)
    {
      markers := markers + {record};
      log := log + [Mark(Key(record))];
    }
  }

  // ---- a list of records with ids (Cloudflare) ----------------------------

  datatype RecordType = A | TXT

  datatype CfRecord = CfRecord(id: nat, rtype: RecordType, name: string, content: string, ttl: int)

  /** `GET dns_records?type=..&name=..` */
  function Matching(records: seq<CfRecord>, rtype: RecordType, name: string): (r: seq<CfRecord>)
    ensures forall x :: x in r <==> x in records && x.rtype == rtype && x.name == name
  {
    if records == [] then []
    else
      var head := records[0];
      assert records == [head] + records[1..];
      (if head.rtype == rtype && head.name == name then [head] else []) + Matching(records[1..], rtype, name)
  }

  /** `DELETE dns_records/id` */
  function Without(records: seq<CfRecord>, id: nat): (r: seq<CfRecord>)
    ensures forall x :: x in r <==> x in records && x.id != id
  {
    if records == [] then []
    else
      var head := records[0];
      var rest := Without(records[1..], id);
      assert records == [head] + records[1..];
      if head.id == id then rest else [head] + rest
  }

  lemma {:induction false} WithoutKeepsIds(records: seq<CfRecord>, id: nat)
    requires DistinctIds(records)
    ensures DistinctIds(Without(records, id))
  {
    if records != [] {
      WithoutKeepsIds(records[1..], id);
      IdsInFront(records[0], Without(records[1..], id));
    }
  }

  lemma IdsInFront(head: CfRecord, rest: seq<CfRecord>)
    requires DistinctIds(rest)
    ensures (forall x | x in rest :: x.id != head.id) ==> DistinctIds([head] + rest)
  {}

  lemma {:induction false} WithoutKeepsDuplicateFree(records: seq<CfRecord>, id: nat)
    requires DuplicateFree(records)
    ensures DuplicateFree(Without(records, id))
  {
    if records != [] {
      WithoutKeepsDuplicateFree(records[1..], id);
      FreshInFront(records[0], Without(records[1..], id));
    }
  }

  predicate SameAddress(x: CfRecord, y: CfRecord) {
    x.rtype == A && y.rtype == A && x.name == y.name && x.content == y.content
  }

  lemma FreshInFront(head: CfRecord, rest: seq<CfRecord>)
    requires DuplicateFree(rest)
    ensures (forall x | x in rest :: !SameAddress(head, x)) ==> DuplicateFree([head] + rest)
  {}

  ghost predicate DistinctIds(records: seq<CfRecord>) {
    forall i, j | 0 <= i < j < |records| :: records[i].id != records[j].id
  }

  /** No two A records of one name hold the same address. */
  ghost predicate DuplicateFree(records: seq<CfRecord>) {
    forall i, j | 0 <= i < j < |records| ::
      !SameAddress(records[i], records[j])
  }

  predicate Holds(x: CfRecord, name: string, ip: string) {
    x.rtype == A && x.name == name && x.content == ip
  }

  function Contents(records: seq<CfRecord>): seq<string> {
    seq(|records|, i requires 0 <= i < |records| => records[i].content)
  }

  ghost function CfAddresses(records: seq<CfRecord>, name: string): set<string> {
    set r | r in records && r.rtype == A && r.name == name :: r.content
  }

  ghost function CfZone(records: seq<CfRecord>): Zone {
    var names := set r | r in records && r.rtype == A :: r.name;
    Zone(map n | n in names :: CfAddresses(records, n),
         set r | r in records && r.rtype == TXT :: r.name)
  }

  lemma CfMembers(records: seq<CfRecord>)
    ensures Normal(CfZone(records))
    ensures forall n :: Members(CfZone(records), n) == CfAddresses(records, n)
  {
    forall n | n in CfZone(records).a ensures CfAddresses(records, n) != {} {
      var r :| r in records && r.rtype == A && r.name == n;
      assert r.content in CfAddresses(records, n);
    }
  }

  lemma ContentsAreAddresses(records: seq<CfRecord>, name: string)
    ensures Elements(Contents(Matching(records, A, name))) == CfAddresses(records, name)
  {
    var found := Matching(records, A, name);
    forall ip | ip in CfAddresses(records, name) ensures ip in Contents(found) {
      var x :| x in records && x.rtype == A && x.name == name && x.content == ip;
      assert x in found;
      var i :| 0 <= i < |found| && found[i] == x;
      assert Contents(found)[i] == ip;
    }
    forall ip | ip in Contents(found) ensures ip in CfAddresses(records, name) {
      var i :| 0 <= i < |found| && Contents(found)[i] == ip;
      assert found[i] in found;
    }
  }

  /** Two normal zones with the same members everywhere are equal. */
  lemma ZoneExtensional(y: Zone, z: Zone)
    requires Normal(y) && Normal(z) && y.txt == z.txt
    requires forall n :: Members(y, n) == Members(z, n)
    ensures y == z
  {
    forall n ensures n in y.a <==> n in z.a {
      assert Members(y, n) == Members(z, n);
    }
    assert forall n | n in y.a :: y.a[n] == Members(y, n) == Members(z, n) == z.a[n];
    assert y.a == z.a;
  }

  class CloudflareDriver {
    var records: seq<CfRecord>
    var nextId: nat
    ghost var log: seq<Event>

    ghost predicate Valid()
      reads this
    {
      DistinctIds(records) && forall r | r in records :: r.id < nextId
    }

    ghost function View(): Zone
      reads this
    {
      CfZone(records)
    }

    function Key(record: string): RecordKey {
      RecordKey(record, "_solfleet." + record)
    }

    constructor (records: seq<CfRecord>, nextId: nat)
      requires DistinctIds(records) && forall r | r in records :: r.id < nextId
      ensures Valid() && View() == CfZone(records) && log == []
    {
      this.records := records;
      this.nextId := nextId;
      log := [];
    }

    method ListMembers(record: string) returns (r: seq<string>)
      ensures Ascending(r)
      ensures multiset(r) == multiset(Contents(Matching(records, A, record)))
      ensures Elements(r) == Members(View(), Key(record).owner)
    {
      var found := Matching(records, A, record);
      r := Sort(Contents(found));
      SameMultisetSameElements(r, Contents(found));
      CfMembers(records);
      ContentsAreAddresses(records, record);
    }

    method Post(rtype: RecordType, name: string, content: string, ttl: int)
      requires Valid()
      modifies this`records, this`nextId
      ensures Valid()
      ensures records == old(records) + [CfRecord(old(nextId), rtype, name, content, ttl)]
    {
      records := records + [CfRecord(nextId, rtype, name, content, ttl)];
      nextId := nextId + 1;
    }

    /** Never creates a second record for an address that is already listed. */
    method AddMember(record: string, ip: string, ttl: int)
      requires Valid()
      modifies this
      ensures Valid()
      ensures View() == Step(old(View()), Add(Key(record), ip))
      ensures log == old(log) + [Add(Key(record), ip)]
      ensures records == old(records)
        || records == old(records) + [CfRecord(old(nextId), A, record, ip, ttl)]
      ensures ip in Members(old(View()), record) <==> records == old(records)
      ensures DuplicateFree(old(records)) ==> DuplicateFree(records)
    {
      ghost var before := records;
      log := log + [Add(Key(record), ip)];
      CfMembers(records);
      var listed := ListMembers(record);
      assert ip in listed <==> ip in Elements(listed);
      if ip in listed {
        StepKeeps(before, Add(Key(record), ip));
        return;
      }
      Post(A, record, ip, ttl);
      AppendAddressIsStep(before, records[|records| - 1], Key(record));
    }

    /** Deletes the given records that hold an address, one call each. */
    method DeleteHolding(found: seq<CfRecord>, ip: string)
      requires DistinctIds(records) && forall x | x in found :: x in records
      modifies this`records
      ensures DistinctIds(records) && (DuplicateFree(old(records)) ==> DuplicateFree(records))
      ensures forall x :: x in records <==> x in old(records) && !(x in found && x.content == ip)
    {
      ghost var before := records;
      for n := 0 to |found|
        invariant DistinctIds(records) && (DuplicateFree(before) ==> DuplicateFree(records))
        invariant forall x | x in records :: x in before
        invariant forall x | x in before && !(x in found && x.content == ip) :: x in records
        invariant forall k | 0 <= k < n && found[k].content == ip :: found[k] !in records
      {
        if found[n].content == ip {
          SameIdSameRecord(before, found[n]);
          WithoutKeepsIds(records, found[n].id);
          if DuplicateFree(before) {
            WithoutKeepsDuplicateFree(records, found[n].id);
          }
          records := Without(records, found[n].id);
        }
      }
    }

    /** Deletes every record of the name that holds the address, duplicates
        included, and no other. */
    method RemoveMember(record: string, ip: string)
      requires Valid()
      modifies this
      ensures Valid()
      ensures View() == Step(old(View()), Remove(Key(record), ip))
      ensures log == old(log) + [Remove(Key(record), ip)]
      ensures forall x ::
        x in records <==> x in old(records) && !Holds(x, record, ip)
      ensures DuplicateFree(old(records)) ==> DuplicateFree(records)
    {
      ghost var before := records;
      DeleteHolding(Matching(records, A, record), ip);
      log := log + [Remove(Key(record), ip)];
      FilterIsStep(before, records, Key(record), ip);
    }

    method HasMarker(record: string) returns (b: bool)
      ensures b <==> Key(record).marker in View().txt
    {
      var found := Matching(records, TXT, MarkerName(record));
      assert found != [] ==> found[0] in found;
      b := found != [];
    }

    method EnsureMarker(record: string)
      requires Valid()
      modifies this
      ensures Valid()
      ensures View() == Step(old(View()), Mark(Key(record)))
      ensures log == old(log) + [Mark(Key(record))]
      ensures records == old(records)
        || records == old(records) + [CfRecord(old(nextId), TXT, "_solfleet." + record, "solfleet-managed", 300)]
      ensures Key(record).marker in old(View()).txt <==> records == old(records)
    {
      ghost var before := records;
      log := log + [Mark(Key(record))];
      var marked := HasMarker(record);
      if marked {
        StepKeeps(before, Mark(Key(record)));
        return;
      }
      Post(TXT, MarkerName(record), MARKER_CONTENT, 300);
      AppendMarkerIsStep(before, records[|records| - 1], Key(record));
    }
  }

  lemma SameIdSameRecord(records: seq<CfRecord>, x: CfRecord)
    requires DistinctIds(records) && x in records
    ensures forall y | y in records && y.id == x.id :: y == x
  {}

  /** A step whose effect is already there changes nothing. */
  lemma StepKeeps(records: seq<CfRecord>, e: Event)
    requires e.Mark? ==> e.key.marker in CfZone(records).txt
    requires e.Add? ==> e.ip in Members(CfZone(records), e.key.owner)
    requires !e.Remove?
    ensures Step(CfZone(records), e) == CfZone(records)
  {
    var z := CfZone(records);
    CfMembers(records);
    StepFrame(z, e);
    if e.Mark? {
      assert z.txt + {e.key.marker} == z.txt;
    } else {
      assert Members(z, e.key.owner) + {e.ip} == Members(z, e.key.owner);
    }
    forall n ensures Members(Step(z, e), n) == Members(z, n) {}
    ZoneExtensional(Step(z, e), z);
  }

  lemma AppendAddresses(records: seq<CfRecord>, x: CfRecord, n: string)
    ensures CfAddresses(records + [x], n) ==
      CfAddresses(records, n) + if x.rtype == A && x.name == n then {x.content} else {}
    ensures CfZone(records + [x]).txt == CfZone(records).txt + if x.rtype == TXT then {x.name} else {}
  {}

  lemma AppendAddressIsStep(records: seq<CfRecord>, x: CfRecord, k: RecordKey)
    requires x.rtype == A && k.owner == x.name
    ensures CfZone(records + [x]) == Step(CfZone(records), Add(k, x.content))
  {
    var y, z := CfZone(records), CfZone(records + [x]);
    CfMembers(records);
    CfMembers(records + [x]);
    StepFrame(y, Add(k, x.content));
    forall n ensures Members(Step(y, Add(k, x.content)), n) == Members(z, n) {
      AppendAddresses(records, x, n);
    }
    AppendAddresses(records, x, k.owner);
    ZoneExtensional(Step(y, Add(k, x.content)), z);
  }

  lemma AppendMarkerIsStep(records: seq<CfRecord>, x: CfRecord, k: RecordKey)
    requires x.rtype == TXT && k.marker == x.name
    ensures CfZone(records + [x]) == Step(CfZone(records), Mark(k))
  {
    var y, z := CfZone(records), CfZone(records + [x]);
    CfMembers(records);
    CfMembers(records + [x]);
    StepFrame(y, Mark(k));
    forall n ensures Members(Step(y, Mark(k)), n) == Members(z, n) {
      AppendAddresses(records, x, n);
    }
    AppendAddresses(records, x, k.owner);
    ZoneExtensional(Step(y, Mark(k)), z);
  }

  lemma FilterIsStep(before: seq<CfRecord>, after: seq<CfRecord>, k: RecordKey, ip: string)
    requires forall x ::
      x in after <==> x in before && !Holds(x, k.owner, ip)
    ensures CfZone(after) == Step(CfZone(before), Remove(k, ip))
  {
    var y, z := CfZone(before), CfZone(after);
    var e := Remove(k, ip);
    CfMembers(before);
    CfMembers(after);
    StepFrame(y, e);
    forall n ensures Members(Step(y, e), n) == Members(z, n) {}
    assert y.txt == z.txt;
    ZoneExtensional(Step(y, e), z);
  }

  // ---- one record set per name (Route53) ----------------------------------

  datatype RecordSet = RecordSet(name: string, ttl: int, values: seq<string>)

  /** Fully qualified form: exactly one trailing dot. */
  function Fqdn(name: string): string {
    StripDots(name) + "."
  }

  /** The name up to its trailing dots, and one dot. */
  lemma FqdnIs(name: string, stem: string)
    requires stem <= name && (stem == "" || stem[|stem| - 1] != '.')
    requires forall i | |stem| <= i < |name| :: name[i] == '.'
    ensures Fqdn(name) == stem + "."
  {
    StripDotsTo(name, stem);
  }

  class Route53Driver {
    var a: map<string, RecordSet>
    var txt: map<string, RecordSet>
    ghost var log: seq<Event>

    /** The service stores no empty record set and no repeated value. */
    ghost predicate Valid()
      reads this
    {
      && (forall n | n in a :: a[n].name == n && a[n].values != [] && NoDuplicates(a[n].values))
      && (forall n | n in txt :: txt[n].name == n)
    }

    ghost function View(): Zone
      reads this
    {
      Zone(map n | n in a :: Elements(a[n].values), txt.Keys)
    }

    function Key(record: string): RecordKey {
      RecordKey(Fqdn(record), Fqdn("_solfleet." + record))
    }

    constructor (a: map<string, RecordSet>, txt: map<string, RecordSet>)
      requires forall n | n in a :: a[n].name == n && a[n].values != [] && NoDuplicates(a[n].values)
      requires forall n | n in txt :: txt[n].name == n
      ensures Valid() && log == []
      ensures View() == Zone(map n | n in a :: Elements(a[n].values), txt.Keys)
    {
      this.a := a;
      this.txt := txt;
      log := [];
    }

    /** One page of a listing that starts at a name and holds one item: the set
        of that name when there is one, otherwise whatever follows, if anything. */
    method ListFrom(sets: map<string, RecordSet>, start: string) returns (page: seq<RecordSet>)
      requires forall n | n in sets :: sets[n].name == n
      ensures start in sets ==> page == [sets[start]]
      ensures start !in sets ==> forall rs | rs in page :: rs.name != start
    {
      if start in sets {
        page := [sets[start]];
      } else if sets.Keys != {} {
        var next :| next in sets.Keys;
        page := [sets[next]];
      } else {
        page := [];
      }
    }

    method FindSet(sets: map<string, RecordSet>, name: string) returns (r: Option<RecordSet>)
      requires forall n | n in sets :: sets[n].name == n
      ensures r == if Fqdn(name) in sets then Some(sets[Fqdn(name)]) else None
    {
      var page := ListFrom(sets, Fqdn(name));
      assert Fqdn(name) in sets ==> page[0].name == Fqdn(name);
      for i := 0 to |page|
        invariant forall k | 0 <= k < i :: page[k].name != Fqdn(name)
      {
        if page[i].name == Fqdn(name) {
          return Some(page[i]);
        }
      }
      r := None;
    }

    method ListMembers(record: string) returns (r: seq<string>)
      requires Valid()
      ensures Ascending(r) && NoDuplicates(r)
      ensures Elements(r) == Members(View(), Key(record).owner)
    {
      var rs := FindSet(a, record);
      r := if rs.Some? then Sort(rs.value.values) else [];
      if rs.Some? {
        SameMultisetSameElements(r, rs.value.values);
        SortKeepsDistinct(rs.value.values);
      }
    }

    /** Rewrites the whole set; an empty set is deleted instead. */
    method Upsert(record: string, values: set<string>, ttl: int)
      requires Valid()
      modifies this`a
      ensures Valid()
      ensures View() == WithMembers(old(View()), Key(record).owner, values)
      ensures Fqdn(record) in a <==> values != {}
      ensures values != {} ==> a == old(a)[Fqdn(record) := RecordSet(Fqdn(record), ttl, SortedSet(values))]
      ensures values == {} ==> a == old(a) - {Fqdn(record)}
    {
      var fqdn := Fqdn(record);
      if values == {} {
        var rs := FindSet(a, record);
        if rs.Some? {
          a := a - {fqdn};
        }
        assert a == old(a) - {fqdn};
      } else {
        var sorted := SortedSet(values);
        assert Elements(sorted) == values && NoDuplicates(sorted) && sorted != [] by {
          SortedSetIs(values);
          SortedSetElements(values);
        }
        a := a[fqdn := RecordSet(fqdn, ttl, sorted)];
      }
    }

    method AddMember(record: string, ip: string, ttl: int)
      requires Valid()
      modifies this
      ensures Valid()
      ensures View() == Step(old(View()), Add(Key(record), ip))
      ensures log == old(log) + [Add(Key(record), ip)]
      // an address that is already there leaves the set, its TTL included, alone
      ensures ip in Members(old(View()), Key(record).owner) ==> a == old(a)
      ensures ip !in Members(old(View()), Key(record).owner) ==> Fqdn(record) in a && a[Fqdn(record)].ttl == ttl
    {
      log := log + [Add(Key(record), ip)];
      var listed := ListMembers(record);
      var members := Elements(listed);
      if ip !in members {
        Upsert(record, members + {ip}, ttl);
      } else {
        assert members + {ip} == members;
        assert View() == WithMembers(View(), Key(record).owner, members);
      }
    }

    /** The name keeps a record set exactly while an address is left. */
    method RemoveMember(record: string, ip: string)
      requires Valid()
      modifies this
      ensures Valid()
      ensures View() == Step(old(View()), Remove(Key(record), ip))
      ensures log == old(log) + [Remove(Key(record), ip)]
      ensures Fqdn(record) in a <==> Members(old(View()), Key(record).owner) - {ip} != {}
      ensures ip in Members(old(View()), Key(record).owner) && Fqdn(record) in a ==> a[Fqdn(record)].ttl == 60
    {
      log := log + [Remove(Key(record), ip)];
      var listed := ListMembers(record);
      var members := Elements(listed);
      assert Fqdn(record) in a ==> a[Fqdn(record)].values[0] in members;
      if ip in members {
        Upsert(record, members - {ip}, 60);
      } else {
        assert members - {ip} == members;
        assert View() == WithMembers(View(), Key(record).owner, members);
      }
    }

    method HasMarker(record: string) returns (b: bool)
      requires Valid()
      ensures b <==> Key(record).marker in View().txt
    {
      var rs := FindSet(txt, MarkerName(record));
      b := rs.Some?;
    }

    method EnsureMarker(record: string)
      requires Valid()
      modifies this
      ensures Valid()
      ensures View() == Step(old(View()), Mark(Key(record)))
      ensures log == old(log) + [Mark(Key(record))]
      ensures a == old(a) && old(txt.Keys) <= txt.Keys
      ensures Key(record).marker in old(View()).txt ==> txt == old(txt)
      ensures Key(record).marker !in old(View()).txt ==>
        txt == old(txt)[Key(record).marker := RecordSet(Key(record).marker, 300, ["\"solfleet-managed\""])]
    {
      log := log + [Mark(Key(record))];
      var marked := HasMarker(record);
      if marked {
        assert txt.Keys + {Key(record).marker} == txt.Keys;
        return;
      }
      var fqdn := Fqdn(MarkerName(record));
      assert "\"" + MARKER_CONTENT + "\"" == "\"solfleet-managed\"";
      txt := txt[fqdn := RecordSet(fqdn, 300, ["\"" + MARKER_CONTENT + "\""])];
    }
  }

  lemma SortKeepsDistinct(s: seq<string>)
    requires NoDuplicates(s)
    ensures NoDuplicates(Sort(s))
  {
    var r := Sort(s);
    if !NoDuplicates(r) {
      var i, j :| 0 <= i < j < |r| && r[i] == r[j];
      TwiceInMultiset(r, i, j);
      OnceInMultiset(s, r[i]);
    }
  }

  lemma TwiceInMultiset(r: seq<string>, i: nat, j: nat)
    requires i < j < |r| && r[i] == r[j]
    ensures multiset(r)[r[i]] >= 2
  {
    assert r == r[..j] + [r[j]] + r[j + 1..];
    assert r[i] in r[..j];
    assert multiset(r) == multiset(r[..j]) + multiset{r[j]} + multiset(r[j + 1..]);
  }

  lemma {:induction false} OnceInMultiset(s: seq<string>, x: string)
    requires NoDuplicates(s)
    ensures multiset(s)[x] <= 1
  {
    if s != [] {
      assert s == [s[0]] + s[1..];
      OnceInMultiset(s[1..], x);
      assert s[0] !in s[1..];
    }
  }

  // ---- names --------------------------------------------------------------

  lemma {:induction false} StripDotsPrefixed(p: string, name: string)
    ensures StripDots(p + name) == if StripDots(name) != "" then p + StripDots(name) else StripDots(p)
    decreases name
  {
    if name == "" {
      assert p + name == p;
    } else if name[|name| - 1] == '.' {
      assert (p + name)[..|p + name| - 1] == p + name[..|name| - 1];
      StripDotsPrefixed(p, name[..|name| - 1]);
    }
  }

  /** Trailing dots do not matter to Route53, and records that share an owner
      name share a marker: markers are one per owner name. */
  lemma Route53KeysMatch(r: string, s: string)
    ensures Fqdn(r) == Fqdn(s) <==> Fqdn(MarkerName(r)) == Fqdn(MarkerName(s))
  {
    StripDotsPrefixed(MARKER_PREFIX, r);
    StripDotsPrefixed(MARKER_PREFIX, s);
    assert StripDots(MARKER_PREFIX) == "_solfleet" by {
      assert MARKER_PREFIX[..9] == "_solfleet";
    }
    assert forall x: string, y: string :: x + "." == y + "." ==> x == y by {
      forall x: string, y: string | x + "." == y + "." ensures x == y {
        assert x == (x + ".")[..|x|] && y == (y + ".")[..|y|];
      }
    }
    assert forall x: string, y: string :: MARKER_PREFIX + x == MARKER_PREFIX + y ==> x == y by {
      forall x: string, y: string | MARKER_PREFIX + x == MARKER_PREFIX + y ensures x == y {
        assert x == (MARKER_PREFIX + x)[10..] && y == (MARKER_PREFIX + y)[10..];
      }
    }
    assert |MARKER_PREFIX| == 10;
  }

  // ---- the driver protocol ------------------------------------------------

  /** Any of the three drivers behind one interface. */
  datatype Driver =
    | InMemory(memory: InMemoryDnsDriver)
    | Cloudflare(cloudflare: CloudflareDriver)
    | Route53(route53: Route53Driver)
  {
    ghost function Repr(): set<object> {
      match this
      case InMemory(d) => {d}
      case Cloudflare(d) => {d}
      case Route53(d) => {d}
    }

    ghost predicate Valid()
      reads Repr()
    {
      match this
      case InMemory(_) => true
      case Cloudflare(d) => d.Valid()
      case Route53(d) => d.Valid()
    }

    ghost function View(): Zone
      reads Repr()
    {
      match this
      case InMemory(d) => d.View()
      case Cloudflare(d) => d.View()
      case Route53(d) => d.View()
    }

    /** Every call made so far that may have changed the zone. */
    ghost function Log(): seq<Event>
      reads Repr()
    {
      match this
      case InMemory(d) => d.log
      case Cloudflare(d) => d.log
      case Route53(d) => d.log
    }

    function Key(record: string): RecordKey {
      match this
      case InMemory(d) => d.Key(record)
      case Cloudflare(d) => d.Key(record)
      case Route53(d) => d.Key(record)
    }

    method ListMembers(record: string) returns (r: seq<string>)
      requires Valid()
      ensures Ascending(r) && Elements(r) == Members(View(), Key(record).owner)
    {
      match this
      case InMemory(d) => r := d.ListMembers(record);
      case Cloudflare(d) => r := d.ListMembers(record);
      case Route53(d) => r := d.ListMembers(record);
    }

    method AddMember(record: string, ip: string, ttl: int)
      requires Valid()
      modifies Repr()
      ensures Valid()
      ensures View() == Step(old(View()), Add(Key(record), ip))
      ensures Log() == old(Log()) + [Add(Key(record), ip)]
    {
      match this
      case InMemory(d) => d.AddMember(record, ip, ttl);
      case Cloudflare(d) => d.AddMember(record, ip, ttl);
      case Route53(d) => d.AddMember(record, ip, ttl);
    }

    method RemoveMember(record: string, ip: string)
      requires Valid()
      modifies Repr()
      ensures Valid()
      ensures View() == Step(old(View()), Remove(Key(record), ip))
      ensures Log() == old(Log()) + [Remove(Key(record), ip)]
    {
      match this
      case InMemory(d) => d.RemoveMember(record, ip);
      case Cloudflare(d) => d.RemoveMember(record, ip);
      case Route53(d) => d.RemoveMember(record, ip);
    }

    method EnsureMarker(record: string)
      requires Valid()
      modifies Repr()
      ensures Valid()
      ensures View() == Step(old(View()), Mark(Key(record)))
      ensures Log() == old(Log()) + [Mark(Key(record))]
    {
      match this
      case InMemory(d) => d.EnsureMarker(record);
      case Cloudflare(d) => d.EnsureMarker(record);
      case Route53(d) => d.EnsureMarker(record);
    }
  }

  /** Whatever the driver, a record's marker name follows from its owner name. */
  lemma KeysMatch(d: Driver, r: string, s: string)
    ensures d.Key(r).owner == d.Key(s).owner <==> d.Key(r).marker == d.Key(s).marker
  {
    Route53KeysMatch(r, s);
    if d.Cloudflare? {
      assert r == MarkerName(r)[10..] && s == MarkerName(s)[10..];
    }
  }
}
