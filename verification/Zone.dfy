/** What a DNS driver does to a zone, seen as values: a set of addresses per
    owner name (an RRset has no duplicates, section 5 of RFC 2181) and the set of
    names that carry a TXT ownership marker. */
module Zones {
  import opened Text

  /** Where a driver keeps a pool record: the owner name of its A records and
      the name under which its marker is stored. */
  datatype RecordKey = RecordKey(owner: string, marker: string)

  /** `a` has no entry for a name without addresses. */
  datatype Zone = Zone(a: map<string, set<string>>, txt: set<string>)

  ghost predicate Normal(z: Zone) {
    forall n | n in z.a :: z.a[n] != {}
  }

  function Members(z: Zone, owner: string): set<string> {
    if owner in z.a then z.a[owner] else {}
  }

  function WithMembers(z: Zone, owner: string, s: set<string>): Zone {
    if s == {} then z.(a := z.a - {owner}) else z.(a := z.a[owner := s])
  }

  /** One call on a driver that may change the zone. */
  datatype Event =
    | Mark(key: RecordKey)
    | Add(key: RecordKey, ip: string)
    | Remove(key: RecordKey, ip: string)

  function Step(z: Zone, e: Event): (r: Zone)
  {
    match e
    case Mark(k) => z.(txt := z.txt + {k.marker})
    case Add(k, ip) => WithMembers(z, k.owner, Members(z, k.owner) + {ip})
    case Remove(k, ip) => WithMembers(z, k.owner, Members(z, k.owner) - {ip})
  }

  function Run(z: Zone, es: seq<Event>): (r: Zone)
    decreases es
  {
    if es == [] then z else Run(Step(z, es[0]), es[1..])
  }

  lemma StepFrame(z: Zone, e: Event)
    ensures forall n | n != e.key.owner :: Members(Step(z, e), n) == Members(z, n)
    ensures Members(Step(z, e), e.key.owner) ==
      match e
      case Mark(_) => Members(z, e.key.owner)
      case Add(_, ip) => Members(z, e.key.owner) + {ip}
      case Remove(_, ip) => Members(z, e.key.owner) - {ip}
    ensures Step(z, e).txt == if e.Mark? then z.txt + {e.key.marker} else z.txt
    ensures Normal(z) ==> Normal(Step(z, e))
  {}

  lemma {:induction false} RunAppend(z: Zone, a: seq<Event>, b: seq<Event>)
    ensures Run(z, a + b) == Run(Run(z, a), b)
    decreases a
  {
    if a == [] {
      assert a + b == b;
    } else {
      assert (a + b)[1..] == a[1..] + b;
      RunAppend(Step(z, a[0]), a[1..], b);
    }
  }

  lemma RunSnoc(z: Zone, a: seq<Event>, e: Event)
    ensures Run(z, a + [e]) == Step(Run(z, a), e)
  {
    RunAppend(z, a, [e]);
    assert Run(Run(z, a), [e]) == Run(Step(Run(z, a), e), []);
  }

  /** A run leaves names it does not mention alone and never drops a marker. */
  lemma {:induction false} RunFrame(z: Zone, es: seq<Event>, n: string)
    requires forall e | e in es :: e.key.owner != n
    ensures Members(Run(z, es), n) == Members(z, n)
    decreases es
  {
    if es != [] {
      StepFrame(z, es[0]);
      RunFrame(Step(z, es[0]), es[1..], n);
    }
  }

  lemma {:induction false} MarkersGrow(z: Zone, es: seq<Event>)
    ensures z.txt <= Run(z, es).txt
    decreases es
  {
    if es != [] {
      StepFrame(z, es[0]);
      MarkersGrow(Step(z, es[0]), es[1..]);
    }
  }
}
