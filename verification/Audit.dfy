/** The audit log (src/solfleet/audit.py): an append-only table. Timestamps and
    the JSON encoding of details are left out. */
module Audit {
  import opened Text
  import opened Safety

  /** The part of a row's detail that the DNS operations write: the addresses a
      pass changed, the ones it protected, the one a manual override is about.
      What the other operations write is their report. */
  datatype Detail =
    | Changed(added: seq<string>, removed: seq<string>)
    | Protected(current: seq<string>)
    | About(ip: string)
    | Reported

  datatype Row = Row(operation: string, cluster: string, node: string, mode: Mode, allowed: bool, detail: Detail)

  /** Rows of one node, or all rows when no (or an empty) name is given. */
  predicate Selected(r: Row, node: Option<string>) {
    node.None? || node.value == "" || r.node == node.value
  }

  /** `SELECT ... WHERE node = ? ORDER BY id DESC`: newest first. */
  function Newest(rows: seq<Row>, node: Option<string>): (r: seq<Row>)
  {
    if rows == [] then []
    else
      var last := rows[|rows| - 1];
      (if Selected(last, node) then [last] else []) + Newest(rows[..|rows| - 1], node)
  }

  /** `... LIMIT ?`; SQLite reads a negative limit as no limit. */
  function Recent(rows: seq<Row>, node: Option<string>, limit: int): seq<Row> {
    var all := Newest(rows, node);
    if limit < 0 || limit >= |all| then all else all[..limit]
  }

  /** The rows of the node asked for, all of them when none or an empty name is. */
  ghost function Filtered(rows: seq<Row>, node: Option<string>): seq<Row> {
    if rows == [] then []
    else
      (if node.Some? && node.value != "" && rows[0].node != node.value then [] else [rows[0]])
      + Filtered(rows[1..], node)
  }

  ghost function Reversed(s: seq<Row>): seq<Row> {
    if s == [] then [] else Reversed(s[1..]) + [s[0]]
  }

  ghost function Take(s: seq<Row>, n: int): seq<Row>
    requires n >= 0
  {
    if n <= |s| then s[..n] else s
  }

  lemma {:induction false} ReversedAppend(a: seq<Row>, b: seq<Row>)
    ensures Reversed(a + b) == Reversed(b) + Reversed(a)
  {
    if a == [] {
      assert a + b == b;
    } else {
      assert (a + b)[1..] == a[1..] + b;
      ReversedAppend(a[1..], b);
    }
  }

  lemma {:induction false} FilteredAppend(a: seq<Row>, b: seq<Row>, node: Option<string>)
    ensures Filtered(a + b, node) == Filtered(a, node) + Filtered(b, node)
  {
    if a == [] {
      assert a + b == b;
    } else {
      assert (a + b)[1..] == a[1..] + b;
      FilteredAppend(a[1..], b, node);
    }
  }

  /** Reading newest first is filtering in the order written, then reversing. */
  lemma {:induction false} NewestIsReversedFilter(rows: seq<Row>, node: Option<string>)
    ensures Newest(rows, node) == Reversed(Filtered(rows, node))
  {
    if rows != [] {
      var front, last := rows[..|rows| - 1], rows[|rows| - 1];
      NewestIsReversedFilter(front, node);
      assert rows == front + [last];
      FilteredAppend(front, [last], node);
      ReversedAppend(Filtered(front, node), Filtered([last], node));
    }
  }

  /** With a limit of n >= 0 a reader gets the first n of these rows. */
  lemma RecentIsFirstOfReversed(rows: seq<Row>, node: Option<string>, n: int)
    requires n >= 0
    ensures Recent(rows, node, n) == Take(Reversed(Filtered(rows, node)), n)
  {
    NewestIsReversedFilter(rows, node);
  }

  class AuditLog {
    var rows: seq<Row>

    constructor ()
      ensures rows == []
    {
      rows := [];
    }

    /** Appends one row and returns its id (ids count from 1). */
    method Record(operation: string, cluster: string, node: string, mode: Mode, allowed: bool, detail: Detail)
      returns (id: nat)
      modifies this
      ensures rows == old(rows) + [Row(operation, cluster, node, mode, allowed, detail)]
      ensures id == |rows|
    {
      rows := rows + [Row(operation, cluster, node, mode, allowed, detail)];
      id := |rows|;
    }

    method Read(node: Option<string>, limit: int) returns (r: seq<Row>)
      ensures limit >= 0 ==> r == Take(Reversed(Filtered(rows, node)), limit)
      ensures limit < 0 ==> r == Reversed(Filtered(rows, node))
    {
      r := Recent(rows, node, limit);
      NewestIsReversedFilter(rows, node);
    }
  }

  /** A fresh row is the first thing a reader of that node sees, in front of
      everything seen before; readers of other nodes see no change. */
  lemma RecentAfterRecord(rows: seq<Row>, r: Row, node: Option<string>, limit: int)
    ensures Selected(r, node) && limit >= 0 ==>
      Recent(rows + [r], node, limit + 1) == [r] + Recent(rows, node, limit)
    ensures !Selected(r, node) ==> Recent(rows + [r], node, limit) == Recent(rows, node, limit)
  {
    NewestAfterRecord(rows, r, node);
  }

  lemma NewestAfterRecord(rows: seq<Row>, r: Row, node: Option<string>)
    ensures Newest(rows + [r], node) == (if Selected(r, node) then [r] else []) + Newest(rows, node)
  {
    assert (rows + [r])[..|rows|] == rows;
  }

  /** The one audit row of a gated call on a known node. */
  ghost function GatedRow(operation: string, cluster: string, node: string, held: Option<Decision>): Row {
    Row(operation, cluster, node, if held.Some? then held.value.mode else Execute, held.None? || held.value.allowed,
        Reported)
  }

  /** The audit step every gated call ends with. */
  method RecordGated(audit: AuditLog?, operation: string, cluster: string, node: string, held: Option<Decision>)
    modifies audit
    ensures audit != null ==> audit.rows == old(audit.rows) + [GatedRow(operation, cluster, node, held)]
  {
    if audit != null {
      var _ := audit.Record(operation, cluster, node, if held.Some? then held.value.mode else Execute,
                            held.None? || held.value.allowed, Reported);
    }
  }
}
