/** Small vocabulary shared by the model: optional values, Python's order on
    strings, and `sorted` over sets and lists. */
module Text {

  datatype Option<+T> = None | Some(value: T)

  /** Lexicographic order by code point, the order `sorted` uses. */
  predicate Leq(a: string, b: string) {
    if a == "" then true
    else if b == "" then false
    else if a[0] == b[0] then Leq(a[1..], b[1..])
    else a[0] < b[0]
  }

  lemma LeqTotal(a: string, b: string)
    ensures Leq(a, b) || Leq(b, a)
  {}

  lemma LeqTransitive(a: string, b: string, c: string)
    requires Leq(a, b) && Leq(b, c)
    ensures Leq(a, c)
  {}

  lemma {:induction false} LeqAntisymmetric(a: string, b: string)
    requires Leq(a, b) && Leq(b, a)
    ensures a == b
  {
    if a != "" && b != "" {
      LeqAntisymmetric(a[1..], b[1..]);
      assert a == [a[0]] + a[1..] && b == [b[0]] + b[1..];
    }
  }

  /** The strings agree up to here, where the first one is the smaller. */
  ghost predicate LessAt(a: string, b: string, i: nat) {
    i < |a| && i < |b| && a[..i] == b[..i] && a[i] < b[i]
  }

  lemma LessAtNext(a: string, b: string, i: nat)
    requires a != "" && b != "" && a[0] == b[0]
    ensures LessAt(a, b, i + 1) <==> LessAt(a[1..], b[1..], i)
  {
    if i < |a| - 1 && i < |b| - 1 {
      assert a[..i + 1] == [a[0]] + a[1..][..i] && b[..i + 1] == [b[0]] + b[1..][..i];
      assert a[1..][..i] == a[..i + 1][1..] && b[1..][..i] == b[..i + 1][1..];
    }
  }

  /** It is decided at the first position where the strings differ; of two that never do
      the shorter one comes first. */
  lemma {:induction false} LeqIff(a: string, b: string)
    ensures Leq(a, b) <==> a <= b || exists i: nat :: LessAt(a, b, i)
  {
    if a != "" && b != "" {
      if a[0] == b[0] {
        LeqIff(a[1..], b[1..]);
        assert a == [a[0]] + a[1..] && b == [b[0]] + b[1..];
        LessLater(a, b);
      } else if a[0] < b[0] {
        assert LessAt(a, b, 0);
      } else {
        forall i: nat ensures !LessAt(a, b, i) {
          NotLess(a, b, i);
        }
      }
    }
  }

  lemma NotLess(a: string, b: string, i: nat)
    requires a != "" && b != "" && b[0] < a[0]
    ensures !LessAt(a, b, i)
  {
    if 0 < i < |a| && i < |b| {
      assert a[..i][0] == a[0] && b[..i][0] == b[0];
    }
  }

  lemma LessLater(a: string, b: string)
    requires a != "" && b != "" && a[0] == b[0]
    ensures (exists i: nat :: LessAt(a, b, i)) <==> exists i: nat :: LessAt(a[1..], b[1..], i)
  {
    if i: nat :| LessAt(a, b, i) {
      LessAtNext(a, b, i - 1);
    }
    if i: nat :| LessAt(a[1..], b[1..], i) {
      LessAtNext(a, b, i);
    }
  }

  ghost predicate Ascending(s: seq<string>) {
    forall i, j | 0 <= i < j < |s| :: Leq(s[i], s[j])
  }

  ghost predicate NoDuplicates<T(!new)>(s: seq<T>) {
    forall i, j | 0 <= i < j < |s| :: s[i] != s[j]
  }

  lemma ConcatAssociative<T>(a: seq<T>, b: seq<T>, c: seq<T>)
    ensures (a + b) + c == a + (b + c)
  {}

  function Elements<T(==)>(s: seq<T>): set<T> {
    set x | x in s
  }

  predicate IsLeast(m: string, s: set<string>) {
    m in s && forall x | x in s :: Leq(m, x)
  }

  lemma LeastExists(s: set<string>) returns (m: string)
    requires s != {}
    ensures IsLeast(m, s)
  {
    m :| m in s;
    if s != {m} {
      var rest := s - {m};
      var n := LeastExists(rest);
      LeqTotal(m, n);
      if Leq(m, n) {
        forall x | x in s ensures Leq(m, x) {
          if x != m { LeqTransitive(m, n, x); } else { LeqTotal(m, m); }
        }
      } else {
        m := n;
      }
    } else {
      LeqTotal(m, m);
    }
  }

  /** The least element of a non-empty set. */
  function Least(s: set<string>): (m: string)
    requires s != {}
    ensures IsLeast(m, s)
  {
    assert exists m :: IsLeast(m, s) by {
      var m := LeastExists(s);
    }
    assert forall m, n | IsLeast(m, s) && IsLeast(n, s) :: m == n by {
      forall m, n | IsLeast(m, s) && IsLeast(n, s) ensures m == n {
        LeqAntisymmetric(m, n);
      }
    }
    var m :| m in s && IsLeast(m, s);
    m
  }

  /** `sorted(s)` for a set: every element once, in ascending order. */
  function SortedSet(s: set<string>): seq<string> {
    if s == {} then []
    else
      var m := Least(s);
      [m] + SortedSet(s - {m})
  }

  lemma LeastInFront(m: string, rest: seq<string>)
    requires Ascending(rest) && NoDuplicates(rest)
    requires forall x | x in rest :: Leq(m, x) && x != m
    ensures Ascending([m] + rest) && NoDuplicates([m] + rest)
  {
    var all := [m] + rest;
    forall j | 0 < j < |all| ensures Leq(all[0], all[j]) && all[0] != all[j] {
      assert all[j] == rest[j - 1] && rest[j - 1] in rest;
    }
  }

  lemma {:induction false} SortedSetIs(s: set<string>)
    ensures Ascending(SortedSet(s)) && NoDuplicates(SortedSet(s))
    ensures forall x :: x in SortedSet(s) <==> x in s
  {
    if s != {} {
      var m := Least(s);
      var rest := SortedSet(s - {m});
      SortedSetIs(s - {m});
      LeastInFront(m, rest);
      assert SortedSet(s) == [m] + rest;
    }
  }

  lemma SortedSetElements(s: set<string>)
    ensures Elements(SortedSet(s)) == s
  {
    SortedSetIs(s);
  }

  /** Insertion into an ascending list. */
  function Insert(x: string, s: seq<string>): (r: seq<string>)
    requires Ascending(s)
    ensures Ascending(r) && multiset(r) == multiset(s) + multiset{x}
  {
    if s == [] then [x]
    else if Leq(x, s[0]) then
      assert Ascending([x] + s) by {
        forall j | 0 <= j < |s| ensures Leq(x, s[j]) {
          if j > 0 { LeqTransitive(x, s[0], s[j]); }
        }
      }
      [x] + s
    else
      var rest := Insert(x, s[1..]);
      assert s == [s[0]] + s[1..];
      LeqTotal(x, s[0]);
      ConsAscending(x, s, rest);
      [s[0]] + rest
  }

  lemma ConsAscending(x: string, s: seq<string>, rest: seq<string>)
    requires s != [] && Ascending(s) && Leq(s[0], x)
    requires Ascending(rest) && multiset(rest) == multiset(s[1..]) + multiset{x}
    ensures Ascending([s[0]] + rest)
  {
    forall j | 0 <= j < |rest| ensures Leq(s[0], rest[j]) {
      assert rest[j] in multiset(rest);
      assert rest[j] in s[1..] || rest[j] == x;
    }
  }

  /** `sorted(s)` for a list: duplicates are kept. */
  function Sort(s: seq<string>): (r: seq<string>)
    ensures Ascending(r) && multiset(r) == multiset(s)
  {
    if s == [] then []
    else
      assert s == [s[0]] + s[1..];
      Insert(s[0], Sort(s[1..]))
  }

  lemma SameMultisetSameElements(r: seq<string>, s: seq<string>)
    requires multiset(r) == multiset(s)
    ensures Elements(r) == Elements(s) && |r| == |s|
  {
    forall x ensures x in r <==> x in s {
      assert x in r <==> x in multiset(r);
      assert x in s <==> x in multiset(s);
    }
    assert |multiset(r)| == |r| && |multiset(s)| == |s|;
  }

  /** `name.rstrip(".")` */
  function StripDots(name: string): (r: string)
    ensures r <= name
    ensures r == "" || r[|r| - 1] != '.'
  {
    if name == "" || name[|name| - 1] != '.' then name
    else StripDots(name[..|name| - 1])
  }

  /** Exactly the trailing dots are dropped. */
  lemma {:induction false} StripDotsTo(name: string, stem: string)
    requires stem <= name && (stem == "" || stem[|stem| - 1] != '.')
    requires forall i | |stem| <= i < |name| :: name[i] == '.'
    ensures StripDots(name) == stem
  {
    if |stem| < |name| {
      StripDotsTo(name[..|name| - 1], stem);
    }
  }

  // ---- decimal numbers ----------------------------------------------------

  predicate AllDigits(s: string) {
    forall i | 0 <= i < |s| :: '0' <= s[i] <= '9'
  }

  function Digits(s: string): nat
    requires AllDigits(s)
  {
    if s == "" then 0 else 10 * Digits(s[..|s| - 1]) + (s[|s| - 1] as int - '0' as int)
  }

  /** The decimal form of a number. */
  function Decimal(n: nat): (s: string)
    ensures s != "" && AllDigits(s)
  {
    (if n < 10 then "" else Decimal(n / 10)) + ['0' + (n % 10) as char]
  }

  lemma {:induction false} DigitsOfDecimal(n: nat)
    ensures Digits(Decimal(n)) == n
  {
    var s := Decimal(n);
    if n < 10 {
      assert s[..0] == "";
    } else {
      assert s[..|s| - 1] == Decimal(n / 10);
      DigitsOfDecimal(n / 10);
    }
  }
}
