/** The catch-up loop (`wait_for_catchup` of src/solfleet/operations.py). The
    sampler is a stream: its k-th value is what the k-th poll would report. */
module Catchup {
  import opened Text

  datatype Sample = Sample(healthy: Option<bool>, nodeSlot: Option<int>, refSlot: Option<int>, lag: Option<int>)

  /** What an upgrade polls, and the lag it accepts. */
  datatype Polls = Polls(sampler: nat -> Sample, maxLag: int)

  /** The k-th sample is healthy, and its lag is known and small enough. */
  ghost predicate GoodAt(sampler: nat -> Sample, k: nat, maxLag: int) {
    sampler(k).healthy == Some(true) && sampler(k).lag.Some? && sampler(k).lag.value <= maxLag
  }

  datatype Wait = Wait(caughtUp: bool, waitedS: int, last: Option<Sample>)

  /** The k-th poll happens before the timeout is used up. */
  ghost predicate Polled(k: nat, timeoutS: int, intervalS: int) {
    k * intervalS <= timeoutS
  }

  lemma PolledEarlier(j: nat, k: nat, timeoutS: int, intervalS: int)
    requires intervalS > 0 && j <= k && Polled(k, timeoutS, intervalS)
    ensures Polled(j, timeoutS, intervalS)
  {}

  /** Waits that fit into the timeout. */
  function FullRounds(timeoutS: int, intervalS: int): nat
    requires intervalS > 0 && timeoutS >= 0
  {
    timeoutS / intervalS
  }

  /** What the wait reports: caught up exactly when one of the polls within the
      timeout says so, at the first such poll; otherwise given up at the first
      point past the timeout. */
  ghost predicate Waited(w: Wait, sampler: nat -> Sample, maxLag: int, timeoutS: int, intervalS: int)
    requires intervalS > 0
  {
    && (w.caughtUp <==> exists k: nat :: Polled(k, timeoutS, intervalS) && GoodAt(sampler, k, maxLag))
    && (w.caughtUp ==> exists k: nat ::
          && Polled(k, timeoutS, intervalS) && GoodAt(sampler, k, maxLag)
          && w.waitedS == k * intervalS && w.last == Some(sampler(k))
          && forall j: nat | j < k :: !GoodAt(sampler, j, maxLag))
    && (w.caughtUp ==>
          w.last.Some? && w.last.value.healthy == Some(true)
          && w.last.value.lag.Some? && w.last.value.lag.value <= maxLag)
    && (!w.caughtUp && timeoutS >= 0 ==>
          && timeoutS < w.waitedS <= timeoutS + intervalS
          && w.waitedS == (FullRounds(timeoutS, intervalS) + 1) * intervalS
          && w.last == Some(sampler(FullRounds(timeoutS, intervalS))))
    && (timeoutS < 0 ==> w == Wait(false, 0, None))
  }

  /** Polls until the node has caught up or the timeout is used up. */
  method WaitForCatchup(sampler: nat -> Sample, maxLag: int, timeoutS: int, intervalS: int) returns (w: Wait)
    requires intervalS > 0
    ensures Waited(w, sampler, maxLag, timeoutS, intervalS)
    // on the fields of the samples: all that were polled in vain were unhealthy, of unknown
    // lag or too far behind
    ensures !w.caughtUp ==> forall k: nat | k * intervalS <= timeoutS ::
      sampler(k).healthy != Some(true) || sampler(k).lag.None? || sampler(k).lag.value > maxLag
  {
    var waited := 0;
    var last := None;
    var n: nat := 0;  // number of polls made, the position in the stream
    while waited <= timeoutS
      invariant waited == n * intervalS
      invariant waited <= timeoutS + intervalS || n == 0
      invariant n > 0 ==> (n - 1) * intervalS <= timeoutS
      invariant last == if n == 0 then None else Some(sampler(n - 1))
      invariant forall j: nat | j < n :: !GoodAt(sampler, j, maxLag)
      decreases timeoutS - waited
    {
      last := Some(sampler(n));
      var s := sampler(n);
      if s.healthy == Some(true) && s.lag.Some? && s.lag.value <= maxLag {
        assert GoodAt(sampler, n, maxLag) && Polled(n, timeoutS, intervalS);
        return Wait(true, waited, last);
      }
      waited := waited + intervalS;
      n := n + 1;
    }
    forall k: nat | Polled(k, timeoutS, intervalS) ensures !GoodAt(sampler, k, maxLag) {
      if k >= n {
        PolledEarlier(n, k, timeoutS, intervalS);
      }
    }
    NoneGood(sampler, maxLag, timeoutS, intervalS);
    if timeoutS >= 0 {
      LastPoll(n, timeoutS, intervalS);
    }
    w := Wait(false, waited, last);
  }

  lemma NoneGood(sampler: nat -> Sample, maxLag: int, timeoutS: int, intervalS: int)
    requires forall k: nat | Polled(k, timeoutS, intervalS) :: !GoodAt(sampler, k, maxLag)
    ensures forall k: nat | k * intervalS <= timeoutS ::
      sampler(k).healthy != Some(true) || sampler(k).lag.None? || sampler(k).lag.value > maxLag
  {
    forall k: nat | k * intervalS <= timeoutS
      ensures sampler(k).healthy != Some(true) || sampler(k).lag.None? || sampler(k).lag.value > maxLag
    {
      assert Polled(k, timeoutS, intervalS);
    }
  }

  /** Giving up takes floor(timeout / interval) + 1 polls. */
  lemma LastPoll(n: nat, timeoutS: int, intervalS: int)
    requires intervalS > 0 && timeoutS >= 0 && n > 0
    requires (n - 1) * intervalS <= timeoutS < n * intervalS
    ensures n == timeoutS / intervalS + 1
  {
    var q, r := timeoutS / intervalS, timeoutS % intervalS;
    assert timeoutS == q * intervalS + r;
    Monotone(n, q, intervalS);
    Monotone(q + 1, n - 1, intervalS);
  }

  lemma Monotone(a: int, b: int, c: int)
    requires c > 0
    ensures a <= b ==> a * c <= b * c
  {}

  /** The loop is still going after n rounds: every guard held and no sample ended it. */
  ghost predicate Running(sampler: nat -> Sample, maxLag: int, timeoutS: int, intervalS: int, n: nat) {
    && Polled(n, timeoutS, intervalS)
    && (n > 0 ==> Running(sampler, maxLag, timeoutS, intervalS, n - 1) && !GoodAt(sampler, n - 1, maxLag))
  }

  lemma {:induction false} RunningIff(sampler: nat -> Sample, maxLag: int, timeoutS: int, intervalS: int, n: nat)
    ensures Running(sampler, maxLag, timeoutS, intervalS, n) <==>
      && (forall k: nat | k <= n :: Polled(k, timeoutS, intervalS))
      && forall k: nat | k < n :: !GoodAt(sampler, k, maxLag)
  {
    if n > 0 {
      RunningIff(sampler, maxLag, timeoutS, intervalS, n - 1);
    }
  }

  ghost predicate NeverEnds(sampler: nat -> Sample, maxLag: int, timeoutS: int, intervalS: int) {
    forall n: nat :: Running(sampler, maxLag, timeoutS, intervalS, n)
  }

  /** The wait promises to give up after its timeout. It never ends exactly when the
      interval is not positive, the timeout is not negative, and no sample is ever
      good: the caller can tell the first two beforehand. */
  lemma NeverEndsIff(sampler: nat -> Sample, maxLag: int, timeoutS: int, intervalS: int)
    ensures NeverEnds(sampler, maxLag, timeoutS, intervalS) <==>
      && intervalS <= 0 && timeoutS >= 0
      && forall k: nat ::
           sampler(k).healthy != Some(true) || sampler(k).lag.None? || sampler(k).lag.value > maxLag
  {
    assert forall k: nat :: GoodAt(sampler, k, maxLag) <==>
      sampler(k).healthy == Some(true) && sampler(k).lag.Some? && sampler(k).lag.value <= maxLag;
    if intervalS <= 0 && timeoutS >= 0 && forall k: nat :: !GoodAt(sampler, k, maxLag) {
      forall n: nat ensures Running(sampler, maxLag, timeoutS, intervalS, n) {
        forall k: nat | k <= n ensures Polled(k, timeoutS, intervalS) {
          NoProgressWithoutInterval(k, timeoutS, intervalS);
        }
        RunningIff(sampler, maxLag, timeoutS, intervalS, n);
      }
    }
    if NeverEnds(sampler, maxLag, timeoutS, intervalS) {
      AlwaysRunning(sampler, maxLag, timeoutS, intervalS);
      forall k: nat
        ensures sampler(k).healthy != Some(true) || sampler(k).lag.None? || sampler(k).lag.value > maxLag
      {
        assert !GoodAt(sampler, k, maxLag);
      }
    }
  }

  lemma AlwaysRunning(sampler: nat -> Sample, maxLag: int, timeoutS: int, intervalS: int)
    requires NeverEnds(sampler, maxLag, timeoutS, intervalS)
    ensures intervalS <= 0 && timeoutS >= 0 && forall k: nat :: !GoodAt(sampler, k, maxLag)
  {
    assert Running(sampler, maxLag, timeoutS, intervalS, 0);
    var far: nat := timeoutS + 1;
    assert Running(sampler, maxLag, timeoutS, intervalS, far);
    assert intervalS > 0 ==> far * intervalS >= far by {
      if intervalS > 0 {
        Monotone(1, intervalS, far);
      }
    }
    forall k: nat ensures !GoodAt(sampler, k, maxLag) {
      assert Running(sampler, maxLag, timeoutS, intervalS, k + 1);
    }
  }

  lemma NoProgressWithoutInterval(k: nat, timeoutS: int, intervalS: int)
    requires intervalS <= 0 && timeoutS >= 0
    ensures Polled(k, timeoutS, intervalS)
  {
    assert k * intervalS <= 0;
  }
}
