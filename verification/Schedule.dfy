/** Leader-window arithmetic (src/solfleet/schedule.py). A slot lasts 0.4 s, so
    "n slots last at least s seconds" is 2n >= 5s in integers. */
module Schedule {
  import opened Text

  // ---- grouping a schedule into runs --------------------------------------

  ghost predicate Consecutive(run: seq<int>) {
    run != [] && forall i | 0 <= i < |run| :: run[i] == run[0] + i
  }

  ghost predicate AllConsecutive(runs: seq<seq<int>>) {
    forall i | 0 <= i < |runs| :: Consecutive(runs[i])
  }

  function Flatten(runs: seq<seq<int>>): seq<int> {
    if runs == [] then [] else runs[0] + Flatten(runs[1..])
  }

  /** No run continues where the one before it stopped. */
  ghost predicate Separated(runs: seq<seq<int>>)
    requires AllConsecutive(runs)
  {
    forall i | 0 <= i < |runs| - 1 :: runs[i + 1][0] != runs[i][|runs[i]| - 1] + 1
  }

  ghost predicate IsGrouping(runs: seq<seq<int>>, slots: seq<int>) {
    && Flatten(runs) == slots
    && AllConsecutive(runs)
    && Separated(runs)
  }

  lemma {:induction false} FlattenAppend(a: seq<seq<int>>, b: seq<seq<int>>)
    ensures Flatten(a + b) == Flatten(a) + Flatten(b)
  {
    if a == [] {
      assert a + b == b;
    } else {
      assert (a + b)[1..] == a[1..] + b;
      FlattenAppend(a[1..], b);
    }
  }

  lemma FlattenSnoc(a: seq<seq<int>>, r: seq<int>)
    ensures Flatten(a + [r]) == Flatten(a) + r
  {
    FlattenAppend(a, [r]);
    assert Flatten([r]) == r + Flatten([]);
  }

  /** The slot comes right after the last one of the runs. */
  predicate Continues(runs: seq<seq<int>>, s: int)
    requires AllConsecutive(runs)
  {
    runs != [] && s == runs[|runs| - 1][|runs[|runs| - 1]| - 1] + 1
  }

  lemma LastRunGrows(front: seq<seq<int>>, last: seq<int>, slots: seq<int>, s: int)
    requires IsGrouping(front + [last], slots) && Continues(front + [last], s)
    ensures IsGrouping(front + [last + [s]], slots + [s])
  {
    var was, now := front + [last], front + [last + [s]];
    assert was[|front|] == last;
    assert Consecutive(last) && Consecutive(last + [s]);
    forall i | 0 <= i < |now| ensures Consecutive(now[i]) {
      assert i < |front| ==> now[i] == was[i];
    }
    forall i | 0 <= i < |now| - 1 ensures now[i + 1][0] != now[i][|now[i]| - 1] + 1 {
      assert now[i] == was[i] && now[i + 1][0] == was[i + 1][0];
    }
    GrownFlatten(front, last, s);
  }

  lemma GrownFlatten(front: seq<seq<int>>, last: seq<int>, s: int)
    ensures Flatten(front + [last + [s]]) == Flatten(front + [last]) + [s]
  {
    FlattenSnoc(front, last);
    FlattenSnoc(front, last + [s]);
  }

  lemma NewRunStarts(runs: seq<seq<int>>, slots: seq<int>, s: int)
    requires IsGrouping(runs, slots) && !Continues(runs, s)
    ensures IsGrouping(runs + [[s]], slots + [s])
  {
    FlattenSnoc(runs, [s]);
    assert Consecutive([s]);
  }

  /** The slot joins the last run or starts one of its own. */
  function Extended(runs: seq<seq<int>>, s: int): seq<seq<int>>
    requires AllConsecutive(runs)
  {
    if Continues(runs, s) then runs[..|runs| - 1] + [runs[|runs| - 1] + [s]] else runs + [[s]]
  }

  lemma ExtendedIsGrouping(runs: seq<seq<int>>, slots: seq<int>, s: int)
    requires IsGrouping(runs, slots)
    ensures IsGrouping(Extended(runs, s), slots + [s])
  {
    if Continues(runs, s) {
      var front, last := runs[..|runs| - 1], runs[|runs| - 1];
      assert runs == front + [last];
      LastRunGrows(front, last, slots, s);
    } else {
      NewRunStarts(runs, slots, s);
    }
  }

  method Runs(slots: seq<int>) returns (runs: seq<seq<int>>)
    ensures IsGrouping(runs, slots)
  {
    runs := [];
    for n := 0 to |slots|
      invariant IsGrouping(runs, slots[..n])
    {
      assert slots[..n + 1] == slots[..n] + [slots[n]];
      ExtendedIsGrouping(runs, slots[..n], slots[n]);
      runs := Extended(runs, slots[n]);
    }
    assert slots[..|slots|] == slots;
  }

  ghost predicate StrictlyAscending(s: seq<int>) {
    forall i, j | 0 <= i < j < |s| :: s[i] < s[j]
  }

  lemma {:induction false} RunsAround(runs: seq<seq<int>>, i: nat)
    requires i < |runs|
    ensures Flatten(runs) == Flatten(runs[..i]) + runs[i] + Flatten(runs[i + 1..])
  {
    FlattenAppend(runs[..i], runs[i..]);
    assert runs == runs[..i] + runs[i..];
    assert runs[i..][1..] == runs[i + 1..];
  }

  lemma LastOfFlatten(runs: seq<seq<int>>)
    requires runs != [] && AllConsecutive(runs)
    ensures Flatten(runs) != [] && Flatten(runs)[|Flatten(runs)| - 1] == runs[|runs| - 1][|runs[|runs| - 1]| - 1]
  {
    var n := |runs| - 1;
    assert runs == runs[..n] + [runs[n]];
    FlattenSnoc(runs[..n], runs[n]);
    assert Consecutive(runs[n]);
  }

  /** On distinct sorted slots the runs are maximal: neither neighbour of a run is
      in the schedule. */
  lemma RunsAreMaximal(runs: seq<seq<int>>, slots: seq<int>, i: nat)
    requires IsGrouping(runs, slots) && StrictlyAscending(slots) && i < |runs|
    ensures runs[i][0] - 1 !in slots && runs[i][|runs[i]| - 1] + 1 !in slots
  {
    RunsAround(runs, i);
    assert Consecutive(runs[i]);
    var before, run, after := Flatten(runs[..i]), runs[i], Flatten(runs[i + 1..]);
    var p, q := |before|, |before| + |run|;
    assert slots[p] == run[0] && slots[q - 1] == run[|run| - 1];
    if i > 0 {
      LastOfFlatten(runs[..i]);
      assert slots[p - 1] == runs[i - 1][|runs[i - 1]| - 1];
      assert runs[i - 1 + 1][0] != runs[i - 1][|runs[i - 1]| - 1] + 1;
    }
    if i + 1 < |runs| {
      assert Consecutive(runs[i + 1]);
      assert after == runs[i + 1] + Flatten(runs[i + 1..][1..]);
      assert slots[q] == runs[i + 1][0];
    }
    NeighboursOutside(slots, p, q, run[0] - 1, run[|run| - 1] + 1);
  }

  lemma NeighboursOutside(slots: seq<int>, p: nat, q: nat, low: int, high: int)
    requires StrictlyAscending(slots) && p < q <= |slots| && slots[p] == low + 1 && slots[q - 1] == high - 1
    requires p > 0 ==> slots[p - 1] != low
    requires q < |slots| ==> slots[q] != high
    ensures low !in slots && high !in slots
  {
    forall k | 0 <= k < |slots| ensures slots[k] != low && slots[k] != high {
      assert k > p ==> slots[k] > slots[p];
      assert k < p - 1 ==> slots[k] < slots[p - 1] < slots[p];
      assert k < q - 1 ==> slots[k] < slots[q - 1];
      assert k > q ==> slots[k] > slots[q] > slots[q - 1];
    }
  }

  lemma {:induction false} RunPrefix(p: seq<seq<int>>, q: seq<seq<int>>, k: nat)
    requires p != [] && q != []
    requires AllConsecutive(p) && AllConsecutive(q)
    requires Separated(p)
    requires Flatten(p) == Flatten(q)
    requires k < |q[0]|
    ensures k < |p[0]|
  {
    assert Consecutive(p[0]) && Consecutive(q[0]);
    if k > 0 {
      RunPrefix(p, q, k - 1);
      var slots := Flatten(p);
      assert slots == p[0] + Flatten(p[1..]);
      assert slots == q[0] + Flatten(q[1..]);
      assert slots[0] == p[0][0] == q[0][0];
      assert slots[k] == q[0][k] == slots[0] + k;
      assert |p| > 1 ==> Consecutive(p[1]) && slots[|p[0]|] == p[1][0] by {
        if |p| > 1 {
          assert Consecutive(p[1]);
          assert Flatten(p[1..]) == p[1] + Flatten(p[1..][1..]);
        }
      }
      assert p[0][|p[0]| - 1] == slots[0] + |p[0]| - 1;
    }
  }

  lemma EmptyGrouping(p: seq<seq<int>>)
    requires AllConsecutive(p)
    ensures Flatten(p) == [] <==> p == []
  {}

  /** The grouping is determined by the slots alone. */
  lemma {:induction false} GroupingUnique(p: seq<seq<int>>, q: seq<seq<int>>, slots: seq<int>)
    requires IsGrouping(p, slots) && IsGrouping(q, slots)
    ensures p == q
  {
    EmptyGrouping(p);
    EmptyGrouping(q);
    if p != [] && q != [] {
      assert Consecutive(p[0]) && Consecutive(q[0]);
      RunPrefix(p, q, |q[0]| - 1);
      RunPrefix(q, p, |p[0]| - 1);
      GroupingTail(p, slots);
      GroupingTail(q, slots);
      GroupingUnique(p[1..], q[1..], slots[|p[0]|..]);
      assert p == [p[0]] + p[1..] && q == [q[0]] + q[1..];
    }
  }

  lemma GroupingTail(p: seq<seq<int>>, slots: seq<int>)
    requires p != [] && IsGrouping(p, slots)
    ensures |p[0]| <= |slots| && p[0] == slots[..|p[0]|] && IsGrouping(p[1..], slots[|p[0]|..])
  {
    assert slots == p[0] + Flatten(p[1..]);
  }

  // ---- the sweep ----------------------------------------------------------

  /** Slots from `start` up to but not including `end`. */
  datatype Window = Window(start: int, end: int)

  /** The gap in front of a slot, if there is one. */
  function GapBefore(cursor: int, slot: int): seq<Window> {
    if slot - cursor > 0 then [Window(cursor, slot)] else []
  }

  /** The gaps a cursor meets when it moves over the slots one at a time. */
  function Gaps(cursor: int, slots: seq<int>, end: int): seq<Window>
    decreases slots
  {
    if slots == [] then GapBefore(cursor, end)
    else GapBefore(cursor, slots[0]) + Gaps(slots[0] + 1, slots[1..], end)
  }

  predicate LongEnough(w: Window, minWindowS: int) {
    2 * (w.end - w.start) >= 5 * minWindowS
  }

  function Kept(ws: seq<Window>, minWindowS: int): seq<Window> {
    if ws == [] then []
    else (if LongEnough(ws[0], minWindowS) then [ws[0]] else []) + Kept(ws[1..], minWindowS)
  }

  /** Inside a run only the first slot can open a gap. */
  lemma {:induction false} GapsOverRun(cursor: int, run: seq<int>, rest: seq<int>, end: int)
    requires Consecutive(run)
    ensures Gaps(cursor, run + rest, end) == GapBefore(cursor, run[0]) + Gaps(run[|run| - 1] + 1, rest, end)
    decreases run
  {
    assert (run + rest)[1..] == run[1..] + rest;
    if |run| == 1 {
      assert run[1..] + rest == rest;
    } else {
      GapsOverRun(run[0] + 1, run[1..], rest, end);
    }
  }

  /** The gaps a cursor meets when it jumps from run to run. */
  function GapsOfRuns(cursor: int, runs: seq<seq<int>>, end: int): seq<Window>
    requires AllConsecutive(runs)
    decreases runs
  {
    if runs == [] then GapBefore(cursor, end)
    else
      assert Consecutive(runs[0]);
      GapBefore(cursor, runs[0][0]) + GapsOfRuns(runs[0][|runs[0]| - 1] + 1, runs[1..], end)
  }

  lemma {:induction false} RunSweepIsSlotSweep(cursor: int, runs: seq<seq<int>>, end: int)
    requires AllConsecutive(runs)
    ensures GapsOfRuns(cursor, runs, end) == Gaps(cursor, Flatten(runs), end)
    decreases runs
  {
    if runs != [] {
      assert Consecutive(runs[0]);
      RunSweepIsSlotSweep(runs[0][|runs[0]| - 1] + 1, runs[1..], end);
      FirstRunSwept(cursor, runs, end);
    }
  }

  lemma FirstRunSwept(cursor: int, runs: seq<seq<int>>, end: int)
    requires runs != [] && Consecutive(runs[0])
    ensures Gaps(cursor, Flatten(runs), end) ==
      GapBefore(cursor, runs[0][0]) + Gaps(runs[0][|runs[0]| - 1] + 1, Flatten(runs[1..]), end)
  {
    GapsOverRun(cursor, runs[0], Flatten(runs[1..]), end);
  }

  /** What was found so far and what the sweep still has to find from here make up all. */
  ghost predicate Swept(all: seq<Window>, windows: seq<Window>, cursor: int, rest: seq<seq<int>>, end: int) {
    AllConsecutive(rest) && all == windows + GapsOfRuns(cursor, rest, end)
  }

  lemma NextRun(all: seq<Window>, windows: seq<Window>, cursor: int, rest: seq<seq<int>>, end: int)
    requires rest != [] && Swept(all, windows, cursor, rest, end)
    ensures rest[0] != []
    ensures Swept(all, windows + GapBefore(cursor, rest[0][0]), rest[0][|rest[0]| - 1] + 1, rest[1..], end)
  {
    assert Consecutive(rest[0]);
  }

  /** The cursor jumps from run to run. */
  method SweepRuns(current: int, runs: seq<seq<int>>, epochEnd: int) returns (windows: seq<Window>)
    requires AllConsecutive(runs)
    ensures windows == GapsOfRuns(current, runs, epochEnd)
  {
    windows := [];
    var cursor := current;
    ghost var all := GapsOfRuns(current, runs, epochEnd);
    assert runs[0..] == runs;
    for i := 0 to |runs|
      invariant Swept(all, windows, cursor, runs[i..], epochEnd)
    {
      assert runs[i..][0] == runs[i] && runs[i..][1..] == runs[i + 1..];
      NextRun(all, windows, cursor, runs[i..], epochEnd);
      var run := runs[i];
      windows := windows + GapBefore(cursor, run[0]);
      cursor := run[|run| - 1] + 1;
    }
    assert runs[|runs|..] == [];
    windows := windows + GapBefore(cursor, epochEnd);
  }

  /** Sweeping run by run finds what sweeping slot by slot finds, for any list. */
  method FreeWindows(current: int, upcoming: seq<int>, epochEnd: int, minWindowS: int)
    returns (kept: seq<Window>)
    ensures kept == Kept(Gaps(current, upcoming, epochEnd), minWindowS)
  {
    var runs := Runs(upcoming);
    RunSweepIsSlotSweep(current, runs, epochEnd);
    var windows := SweepRuns(current, runs, epochEnd);
    kept := Kept(windows, minWindowS);
  }

  // ---- what the sweep finds ------------------------------------------------

  /** A sorted schedule ahead of the cursor; `cursor - 1` may recur when the
      schedule lists a slot twice. */
  ghost predicate Ahead(cursor: int, slots: seq<int>, end: int) {
    && cursor <= end
    && (forall s | s in slots :: cursor - 1 <= s < end)
    && (forall i, j | 0 <= i < j < |slots| :: slots[i] <= slots[j])
  }

  ghost predicate Free(w: Window, slots: seq<int>) {
    forall x | w.start <= x < w.end :: x !in slots
  }

  /** A non-empty interval of [current, end) without leader slots that cannot be
      extended on either side. */
  ghost predicate MaximalFree(w: Window, current: int, slots: seq<int>, end: int) {
    && current <= w.start < w.end <= end
    && Free(w, slots)
    && (w.start == current || w.start - 1 in slots)
    && (w.end == end || w.end in slots)
  }

  ghost predicate Covers(w: Window, x: int) {
    w.start <= x < w.end
  }

  lemma AheadTail(cursor: int, slots: seq<int>, end: int)
    requires slots != [] && Ahead(cursor, slots, end)
    ensures Ahead(slots[0] + 1, slots[1..], end)
    ensures forall x :: x in slots <==> x == slots[0] || x in slots[1..]
    ensures forall x | x in slots[1..] :: slots[0] <= x
  {
    assert slots == [slots[0]] + slots[1..];
    assert slots[0] in slots;
    forall s | s in slots[1..] ensures slots[0] <= s && s in slots {
      var j :| 0 <= j < |slots[1..]| && slots[1..][j] == s;
      assert slots[j + 1] == s;
    }
  }

  lemma {:induction false} GapsAreMaximal(cursor: int, slots: seq<int>, end: int, w: Window)
    requires Ahead(cursor, slots, end) && w in Gaps(cursor, slots, end)
    ensures cursor <= w.start < w.end <= end && Free(w, slots)
    ensures w.start == cursor || w.start - 1 in slots
    ensures w.end == end || w.end in slots
    decreases slots
  {
    if slots != [] {
      AheadTail(cursor, slots, end);
      FirstInRange(cursor, slots, end);
      GapsMember(cursor, slots, end, w);
      if w in Gaps(slots[0] + 1, slots[1..], end) {
        GapsAreMaximal(slots[0] + 1, slots[1..], end, w);
      } else {
        FrontGapIsMaximal(cursor, slots, end);
      }
    }
  }

  lemma GapsMember(cursor: int, slots: seq<int>, end: int, w: Window)
    requires slots != []
    ensures w in Gaps(cursor, slots, end)
       <==> w in Gaps(slots[0] + 1, slots[1..], end) || (w == Window(cursor, slots[0]) && cursor < slots[0])
  {}

  lemma FrontGapIsMaximal(cursor: int, slots: seq<int>, end: int)
    requires slots != [] && Ahead(cursor, slots, end) && cursor < slots[0]
    ensures Free(Window(cursor, slots[0]), slots) && slots[0] in slots && slots[0] < end
  {
    AheadTail(cursor, slots, end);
    assert slots[0] in slots;
  }

  lemma {:induction false} GapsCover(cursor: int, slots: seq<int>, end: int, x: int)
    requires Ahead(cursor, slots, end) && cursor <= x < end && x !in slots
    ensures exists w :: w in Gaps(cursor, slots, end) && Covers(w, x)
    decreases slots
  {
    if slots == [] {
      assert Window(cursor, end) in Gaps(cursor, slots, end);
      assert Covers(Window(cursor, end), x);
    } else {
      AheadTail(cursor, slots, end);
      if x < slots[0] {
        assert Gaps(cursor, slots, end)[0] == Window(cursor, slots[0]);
        assert Covers(Window(cursor, slots[0]), x);
      } else {
        GapsCover(slots[0] + 1, slots[1..], end, x);
        var w :| w in Gaps(slots[0] + 1, slots[1..], end) && Covers(w, x);
        assert w in Gaps(cursor, slots, end);
      }
    }
  }

  /** Between two windows there is at least one leader slot. */
  ghost predicate Ordered(ws: seq<Window>) {
    forall i, j | 0 <= i < j < |ws| :: ws[i].end < ws[j].start
  }

  lemma {:induction false} GapsOrdered(cursor: int, slots: seq<int>, end: int)
    requires Ahead(cursor, slots, end)
    ensures Ordered(Gaps(cursor, slots, end))
    decreases slots
  {
    if slots != [] {
      AheadTail(cursor, slots, end);
      GapsOrdered(slots[0] + 1, slots[1..], end);
      var rest := Gaps(slots[0] + 1, slots[1..], end);
      forall w | w in rest ensures slots[0] < w.start {
        GapsAreMaximal(slots[0] + 1, slots[1..], end, w);
      }
      OrderedAfter(cursor, slots[0], rest);
    }
  }

  lemma OrderedAfter(cursor: int, slot: int, rest: seq<Window>)
    requires Ordered(rest) && forall w | w in rest :: slot < w.start
    ensures Ordered(GapBefore(cursor, slot) + rest)
  {
    var all := GapBefore(cursor, slot) + rest;
    if slot - cursor > 0 {
      assert all[0].end == slot && all[1..] == rest;
    } else {
      assert all == rest;
    }
  }

  lemma {:induction false} KeptIff(ws: seq<Window>, m: int, w: Window)
    ensures w in Kept(ws, m) <==> w in ws && LongEnough(w, m)
  {
    if ws != [] {
      KeptIff(ws[1..], m, w);
      assert ws == [ws[0]] + ws[1..];
    }
  }

  lemma {:induction false} KeptOrdered(ws: seq<Window>, m: int)
    requires Ordered(ws)
    ensures Ordered(Kept(ws, m))
  {
    if ws != [] {
      KeptOrdered(ws[1..], m);
      var rest := Kept(ws[1..], m);
      forall j | 0 <= j < |rest| ensures ws[0].end < rest[j].start {
        KeptIff(ws[1..], m, rest[j]);
        var k :| 0 <= k < |ws[1..]| && ws[1..][k] == rest[j];
        assert ws[k + 1] == rest[j];
      }
    }
  }

  lemma MaximalOverlapEqual(a: Window, b: Window, x: int, current: int, slots: seq<int>, end: int)
    requires MaximalFree(a, current, slots, end) && MaximalFree(b, current, slots, end)
    requires Covers(a, x) && Covers(b, x)
    ensures a == b
  {}

  /** The kept windows are exactly the maximal leader-free intervals of
      [current, end) that are long enough: none missing, none extra. */
  lemma KeptAreMaximalIntervals(current: int, slots: seq<int>, end: int, m: int, w: Window)
    requires Ahead(current, slots, end)
    ensures w in Kept(Gaps(current, slots, end), m)
       <==> MaximalFree(w, current, slots, end) && LongEnough(w, m)
  {
    var gaps := Gaps(current, slots, end);
    KeptIff(gaps, m, w);
    if w in gaps {
      GapsAreMaximal(current, slots, end, w);
    }
    if MaximalFree(w, current, slots, end) {
      assert Covers(w, w.start);
      GapsCover(current, slots, end, w.start);
      var g :| g in gaps && Covers(g, w.start);
      GapsAreMaximal(current, slots, end, g);
      MaximalOverlapEqual(w, g, w.start, current, slots, end);
    }
  }

  lemma KeptAreOrdered(current: int, slots: seq<int>, end: int, m: int)
    requires Ahead(current, slots, end)
    ensures Ordered(Kept(Gaps(current, slots, end), m))
  {
    GapsOrdered(current, slots, end);
    KeptOrdered(Gaps(current, slots, end), m);
  }

  ghost predicate Inside(v: Window, w: Window) {
    w.start <= v.start && v.end <= w.end
  }

  /** Any long enough leader-free stretch lies inside exactly one kept window. */
  lemma FreeStretchInsideOne(current: int, slots: seq<int>, end: int, m: int, v: Window)
    requires Ahead(current, slots, end)
    requires current <= v.start < v.end <= end && Free(v, slots) && LongEnough(v, m)
    ensures exists w :: w in Kept(Gaps(current, slots, end), m) && Inside(v, w)
    ensures forall w, u | w in Kept(Gaps(current, slots, end), m) && u in Kept(Gaps(current, slots, end), m)
              && Inside(v, w) && Inside(v, u) :: w == u
  {
    var kept := Kept(Gaps(current, slots, end), m);
    GapsCover(current, slots, end, v.start);
    var g :| g in Gaps(current, slots, end) && Covers(g, v.start);
    GapsAreMaximal(current, slots, end, g);
    assert !Covers(v, g.end);
    assert Inside(v, g);
    KeptIff(Gaps(current, slots, end), m, g);
    forall w, u | w in kept && u in kept && Inside(v, w) && Inside(v, u) ensures w == u {
      KeptAreMaximalIntervals(current, slots, end, m, w);
      KeptAreMaximalIntervals(current, slots, end, m, u);
      MaximalOverlapEqual(w, u, v.start, current, slots, end);
    }
  }

  // ---- conservation -------------------------------------------------------

  function TotalLength(ws: seq<Window>): int {
    if ws == [] then 0 else ws[0].end - ws[0].start + TotalLength(ws[1..])
  }

  function Distinct(cursor: int, slots: seq<int>): set<int> {
    set s | s in slots && cursor <= s
  }

  /** The slots a cursor meets that it has not passed yet. */
  function Met(cursor: int, slots: seq<int>): int
    decreases slots
  {
    if slots == [] then 0
    else (if slots[0] >= cursor then 1 else 0) + Met(slots[0] + 1, slots[1..])
  }

  /** Before filtering, gaps and distinct leader slots tile [cursor, end). */
  lemma GapsAndSlotsTile(cursor: int, slots: seq<int>, end: int)
    requires Ahead(cursor, slots, end)
    ensures TotalLength(Gaps(cursor, slots, end)) + |Distinct(cursor, slots)| == end - cursor
  {
    GapsLength(cursor, slots, end);
    DistinctAreMet(cursor, slots, end);
  }

  lemma {:induction false} GapsLength(cursor: int, slots: seq<int>, end: int)
    requires Ahead(cursor, slots, end)
    ensures TotalLength(Gaps(cursor, slots, end)) == end - cursor - Met(cursor, slots)
    decreases slots
  {
    if slots == [] {
      assert cursor < end ==> TotalLength([Window(cursor, end)]) == end - cursor + TotalLength([]);
    } else {
      AheadTail(cursor, slots, end);
      FirstInRange(cursor, slots, end);
      GapsLength(slots[0] + 1, slots[1..], end);
      GapsLengthStep(cursor, slots, end);
    }
  }

  lemma {:induction false} DistinctAreMet(cursor: int, slots: seq<int>, end: int)
    requires Ahead(cursor, slots, end)
    ensures |Distinct(cursor, slots)| == Met(cursor, slots)
    decreases slots
  {
    if slots == [] {
      assert Distinct(cursor, slots) == {};
    } else {
      AheadTail(cursor, slots, end);
      DistinctAreMet(slots[0] + 1, slots[1..], end);
      DistinctCount(cursor, slots, end);
    }
  }

  lemma FirstInRange(cursor: int, slots: seq<int>, end: int)
    requires slots != [] && Ahead(cursor, slots, end)
    ensures cursor - 1 <= slots[0] < end
  {
    assert slots[0] in slots;
  }

  lemma GapsLengthStep(cursor: int, slots: seq<int>, end: int)
    requires slots != []
    ensures TotalLength(Gaps(cursor, slots, end)) ==
      TotalLength(Gaps(slots[0] + 1, slots[1..], end)) + if slots[0] > cursor then slots[0] - cursor else 0
  {
    var rest := Gaps(slots[0] + 1, slots[1..], end);
    if slots[0] - cursor > 0 {
      assert ([Window(cursor, slots[0])] + rest)[1..] == rest;
    } else {
      assert [] + rest == rest;
    }
  }

  lemma DistinctStep(cursor: int, slots: seq<int>, end: int)
    requires slots != [] && Ahead(cursor, slots, end)
    ensures slots[0] !in Distinct(slots[0] + 1, slots[1..])
    ensures Distinct(cursor, slots)
         == Distinct(slots[0] + 1, slots[1..]) + if slots[0] >= cursor then {slots[0]} else {}
  {
    AheadTail(cursor, slots, end);
    assert slots[0] in slots && cursor - 1 <= slots[0];
  }

  lemma DistinctCount(cursor: int, slots: seq<int>, end: int)
    requires slots != [] && Ahead(cursor, slots, end)
    ensures |Distinct(cursor, slots)|
         == |Distinct(slots[0] + 1, slots[1..])| + if slots[0] >= cursor then 1 else 0
  {
    DistinctStep(cursor, slots, end);
    var tail := Distinct(slots[0] + 1, slots[1..]);
    if slots[0] < cursor {
      assert tail + {} == tail;
    }
  }

  // ---- the RPC view -------------------------------------------------------

  datatype EpochInfo = EpochInfo(absoluteSlot: int, slotIndex: int, slotsInEpoch: int)

  function EpochStart(e: EpochInfo): int {
    e.absoluteSlot - e.slotIndex
  }

  function EpochEnd(e: EpochInfo): int {
    EpochStart(e) + e.slotsInEpoch
  }

  function InsertSlot(x: int, s: seq<int>): seq<int> {
    if s == [] || x <= s[0] then [x] + s else [s[0]] + InsertSlot(x, s[1..])
  }

  /** The sorted slots after the current one at which the identity leads. */
  function Upcoming(e: EpochInfo, indices: seq<int>): seq<int> {
    if indices == [] then []
    else
      var rest := Upcoming(e, indices[1..]);
      var slot := EpochStart(e) + indices[0];
      if slot > e.absoluteSlot then InsertSlot(slot, rest) else rest
  }

  ghost predicate SortedSlots(s: seq<int>) {
    forall i, j | 0 <= i < j < |s| :: s[i] <= s[j]
  }

  lemma {:induction false} InsertSlotSorted(x: int, s: seq<int>)
    requires SortedSlots(s)
    ensures SortedSlots(InsertSlot(x, s))
    ensures forall y :: y in InsertSlot(x, s) <==> y == x || y in s
  {
    if s != [] && x > s[0] {
      InsertSlotSorted(x, s[1..]);
      assert s == [s[0]] + s[1..];
      var rest := InsertSlot(x, s[1..]);
      forall j | 0 <= j < |rest| ensures s[0] <= rest[j] {
        assert rest[j] in rest;
      }
    }
  }

  ghost predicate Leads(e: EpochInfo, indices: seq<int>, slot: int) {
    exists i | i in indices :: e.absoluteSlot - e.slotIndex + i == slot
  }

  lemma {:induction false} InsertSlotMultiset(x: int, s: seq<int>)
    ensures multiset(InsertSlot(x, s)) == multiset{x} + multiset(s)
  {
    if s != [] && x > s[0] {
      InsertSlotMultiset(x, s[1..]);
      assert s == [s[0]] + s[1..];
    }
  }

  /** The same slots in schedule order, repetitions included. */
  function Later(e: EpochInfo, indices: seq<int>): seq<int> {
    if indices == [] then []
    else
      var slot := EpochStart(e) + indices[0];
      (if slot > e.absoluteSlot then [slot] else []) + Later(e, indices[1..])
  }

  lemma {:induction false} UpcomingIsSortedSchedule(e: EpochInfo, indices: seq<int>)
    ensures SortedSlots(Upcoming(e, indices))
    ensures forall s :: s in Upcoming(e, indices) <==> s > e.absoluteSlot && Leads(e, indices, s)
  {
    if indices != [] {
      UpcomingIsSortedSchedule(e, indices[1..]);
      assert indices == [indices[0]] + indices[1..];
      var slot := EpochStart(e) + indices[0];
      if slot > e.absoluteSlot {
        InsertSlotSorted(slot, Upcoming(e, indices[1..]));
      }
      forall s ensures Leads(e, indices, s) <==> s == slot || Leads(e, indices[1..], s) {
        assert indices[0] in indices;
        if Leads(e, indices[1..], s) {
          var i :| i in indices[1..] && EpochStart(e) + i == s;
          assert i in indices;
        }
      }
    }
  }

  /** Sorting loses and adds nothing: a slot listed twice is there twice. */
  lemma {:induction false} UpcomingKeepsMultiplicity(e: EpochInfo, indices: seq<int>)
    ensures multiset(Upcoming(e, indices)) == multiset(Later(e, indices))
  {
    if indices != [] {
      UpcomingKeepsMultiplicity(e, indices[1..]);
      UpcomingStep(e, indices);
      LaterStep(e, indices);
    }
  }

  function IfLater(e: EpochInfo, slot: int): multiset<int> {
    if slot > e.absoluteSlot then multiset{slot} else multiset{}
  }

  lemma UpcomingStep(e: EpochInfo, indices: seq<int>)
    requires indices != []
    ensures multiset(Upcoming(e, indices)) ==
      IfLater(e, EpochStart(e) + indices[0]) + multiset(Upcoming(e, indices[1..]))
  {
    var slot, rest := EpochStart(e) + indices[0], Upcoming(e, indices[1..]);
    if slot > e.absoluteSlot {
      assert Upcoming(e, indices) == InsertSlot(slot, rest);
      InsertSlotMultiset(slot, rest);
    } else {
      NothingAdded(multiset(rest));
    }
  }

  lemma NothingAdded(m: multiset<int>)
    ensures multiset{} + m == m
  {}

  lemma LaterStep(e: EpochInfo, indices: seq<int>)
    requires indices != []
    ensures multiset(Later(e, indices)) == IfLater(e, EpochStart(e) + indices[0]) + multiset(Later(e, indices[1..]))
  {}

  /** What the RPC promises: the current slot lies in the epoch and schedule
      entries are positions inside it. */
  ghost predicate InEpoch(e: EpochInfo, indices: seq<int>) {
    e.slotIndex < e.slotsInEpoch && forall i | i in indices :: i < e.slotsInEpoch
  }

  lemma UpcomingAhead(e: EpochInfo, indices: seq<int>)
    requires InEpoch(e, indices)
    ensures Ahead(e.absoluteSlot, Upcoming(e, indices), EpochEnd(e))
  {
    UpcomingIsSortedSchedule(e, indices);
    forall s | s in Upcoming(e, indices) ensures e.absoluteSlot - 1 <= s < EpochEnd(e) {
      assert Leads(e, indices, s);
    }
  }

  datatype LeaderView = LeaderView(
    leads: nat,
    nextLeader: Option<int>,
    safeNow: bool,
    windows: seq<Window>)

  method LeaderWindows(e: EpochInfo, indices: seq<int>, minWindowMinutes: int) returns (v: LeaderView)
    ensures v.leads == |indices|
    ensures v.nextLeader.None? <==> forall s | s > e.absoluteSlot :: !Leads(e, indices, s)
    ensures v.nextLeader.Some? ==>
      && v.nextLeader.value > e.absoluteSlot && Leads(e, indices, v.nextLeader.value)
      && forall s | s > e.absoluteSlot && Leads(e, indices, s) :: v.nextLeader.value <= s
    // safe now: no later leader slot starts within the minimum window
    ensures v.safeNow <==> forall s | s > e.absoluteSlot && Leads(e, indices, s) ::
              2 * (s - e.absoluteSlot) >= 5 * 60 * minWindowMinutes
    ensures InEpoch(e, indices) ==>
      var end := e.absoluteSlot - e.slotIndex + e.slotsInEpoch;
      (forall w :: w in v.windows <==>
        && MaximalFree(w, e.absoluteSlot, Upcoming(e, indices), end)
        && 2 * (w.end - w.start) >= 5 * 60 * minWindowMinutes)
    ensures InEpoch(e, indices) ==> Ordered(v.windows)
    // with a leader slot ahead, `safe_now` is the first window's verdict
    ensures InEpoch(e, indices) && v.nextLeader.Some? ==>
      (v.safeNow <==> Window(e.absoluteSlot, v.nextLeader.value) in v.windows)
    // at the end of the epoch it is not: safe, with no window that says so
    ensures InEpoch(e, indices) && v.nextLeader.None? ==>
      && v.safeNow
      && (v.windows == [] <==> 2 * (e.slotsInEpoch - e.slotIndex) < 5 * 60 * minWindowMinutes)
  {
    var upcoming := Upcoming(e, indices);
    UpcomingIsSortedSchedule(e, indices);
    var next := if upcoming != [] then Some(upcoming[0]) else None;
    assert upcoming != [] ==> upcoming[0] in upcoming;
    assert forall s | s > e.absoluteSlot && Leads(e, indices, s) :: s in upcoming;
    var minWindowS := minWindowMinutes * 60;
    var safe := next.None? || 2 * (next.value - e.absoluteSlot) >= 5 * minWindowS;
    var windows := FreeWindows(e.absoluteSlot, upcoming, EpochEnd(e), minWindowS);
    v := LeaderView(|indices|, next, safe, windows);
    if InEpoch(e, indices) {
      UpcomingAhead(e, indices);
      forall w ensures w in windows
        <==> MaximalFree(w, e.absoluteSlot, upcoming, EpochEnd(e)) && LongEnough(w, minWindowS)
      {
        KeptAreMaximalIntervals(e.absoluteSlot, upcoming, EpochEnd(e), minWindowS, w);
      }
      KeptAreOrdered(e.absoluteSlot, upcoming, EpochEnd(e), minWindowS);
      if next.Some? {
        FirstWindow(e, indices, minWindowS);
      } else {
        WholeEpochWindow(e, windows, minWindowS);
      }
    }
  }

  lemma FirstWindow(e: EpochInfo, indices: seq<int>, minWindowS: int)
    requires InEpoch(e, indices) && Upcoming(e, indices) != []
    ensures MaximalFree(Window(e.absoluteSlot, Upcoming(e, indices)[0]), e.absoluteSlot, Upcoming(e, indices),
                        EpochEnd(e))
  {
    UpcomingIsSortedSchedule(e, indices);
    UpcomingAhead(e, indices);
    var upcoming := Upcoming(e, indices);
    assert upcoming[0] in upcoming;
    assert forall x | x in upcoming :: upcoming[0] <= x;
  }

  lemma WholeEpochWindow(e: EpochInfo, windows: seq<Window>, minWindowS: int)
    requires e.slotIndex < e.slotsInEpoch
    requires forall w :: w in windows <==> MaximalFree(w, e.absoluteSlot, [], EpochEnd(e)) && LongEnough(w, minWindowS)
    ensures windows == [] <==> 2 * (EpochEnd(e) - e.absoluteSlot) < 5 * minWindowS
  {
    var whole := Window(e.absoluteSlot, EpochEnd(e));
    assert MaximalFree(whole, e.absoluteSlot, [], EpochEnd(e));
    if windows != [] {
      assert windows[0] in windows;
    }
  }

  /** Leading right now is invisible to the view: only slots strictly after the
      current one count. */
  lemma CurrentSlotIgnored(e: EpochInfo, indices: seq<int>)
    ensures Upcoming(e, [e.slotIndex] + indices) == Upcoming(e, indices)
  {}
}
