/** The frame-divider arithmetic of `ui_update` and the load-metering window
    it produces. */
module UiScheduler {
  import opened UiTypes

  /** One effective update of a frame-divider counter: the counter is
      pre-incremented and, on reaching its period, the group fires and the
      counter returns to 0. */
  function Advance(counter: nat, period: nat): (r: nat)
    requires counter < period
    ensures r < period
    ensures r == 0 <==> Fires(counter, period)
  {
    if counter + 1 == period then 0 else counter + 1
  }

  /** The group guarded by a counter fires on this update. */
  predicate Fires(counter: nat, period: nat)
  {
    counter + 1 == period
  }

  /** The counter after `n` effective updates from its initial value 0. */
  function AdvanceN(period: nat, n: nat): (r: nat)
    requires period > 0
    ensures r < period
  {
    if n == 0 then 0 else Advance(AdvanceN(period, n - 1), period)
  }

  /** After n effective updates the counter holds n mod period. */
  lemma {:induction false} AdvanceNIsMod(period: nat, n: nat)
    requires period > 0
    ensures AdvanceN(period, n) == n % period
  {
    if n > 0 {
      AdvanceNIsMod(period, n - 1);
      ModSucc(n - 1, period);
      assert AdvanceN(period, n) == Advance((n - 1) % period, period);
    }
  }

  lemma ModSucc(a: nat, p: nat)
    requires p > 0
    ensures (a + 1) % p == if a % p + 1 == p then 0 else a % p + 1
  {
    var q, m := a / p, a % p;
    assert a == q * p + m;
    if m + 1 == p {
      ModUnique(a + 1, p, q + 1, 0);
    } else {
      ModUnique(a + 1, p, q, m + 1);
    }
  }

  lemma ModUnique(a: nat, p: nat, q: int, m: int)
    requires p > 0 && 0 <= m < p && a == q * p + m
    ensures a % p == m
  {
    var q', m' := a / p, a % p;
    assert a == q' * p + m';
    var k := q - q';
    assert k * p == q * p - q' * p;
    assert k * p == m' - m;
    if k >= 1 {
      MulAtLeast(k, p);
    } else if k <= -1 {
      MulAtLeast(-k, p);
    }
  }

  lemma MulAtLeast(k: int, p: nat)
    requires k >= 1
    ensures k * p >= p
  {
    assert k * p == (k - 1) * p + p;
  }

  /** The n-th effective update fires the group exactly when n is a multiple
      of the period: each group fires once every `period` updates. */
  lemma FiresEveryPeriod(period: nat, n: nat)
    requires period > 0 && n > 0
    ensures Fires(AdvanceN(period, n - 1), period) <==> n % period == 0
  {
    AdvanceNIsMod(period, n);
  }

  /** The divisor `FRAMES_BEFORE_UPDATE_LOAD / FRAMES_BEFORE_UPDATE_LOAD_PERCENT`
      by which the accumulated samples are averaged. */
  const LOAD_DIVISOR: nat := FRAMES_BEFORE_UPDATE_LOAD / FRAMES_BEFORE_UPDATE_LOAD_PERCENT

  /** The load figure printLoad reports for an accumulated sum. */
  function ReportedLoad(sum: u16): (percent: u16)
    ensures percent * 3 <= sum < (percent + 1) * 3
  {
    sum / LOAD_DIVISOR
  }

  /** Number of load samples taken in the last `window` effective updates,
      when the most recent sample was taken `sinceSample` updates ago. */
  function SamplesInWindow(window: nat, sinceSample: nat): nat
  {
    if sinceSample >= window then 0
    else 1 + (window - 1 - sinceSample) / FRAMES_BEFORE_UPDATE_LOAD_PERCENT
  }

  /** One effective update lengthens the load window by one update and adds
      one sample exactly when the sampling counter fires. */
  lemma SamplesStep(window: nat, sinceSample: nat)
    requires sinceSample < FRAMES_BEFORE_UPDATE_LOAD_PERCENT
    ensures SamplesInWindow(window + 1, Advance(sinceSample, FRAMES_BEFORE_UPDATE_LOAD_PERCENT))
         == SamplesInWindow(window, sinceSample)
            + (if Fires(sinceSample, FRAMES_BEFORE_UPDATE_LOAD_PERCENT) then 1 else 0)
  {
    if Fires(sinceSample, FRAMES_BEFORE_UPDATE_LOAD_PERCENT) {
      if window > sinceSample {
        assert window / 13 == 1 + (window - 13) / 13;
      }
    }
  }

  /** A reporting window of at most 47 updates holds at most four samples. */
  lemma SamplesBound(window: nat, sinceSample: nat)
    requires window <= FRAMES_BEFORE_UPDATE_LOAD
    ensures SamplesInWindow(window, sinceSample) <= 4
  {
  }

  /** A full 47-update window holds three or four samples: four exactly when
      the last sample was taken at most seven updates before the report, so the
      divisor 3 does not always match the number of samples averaged. */
  lemma FullWindowSamples(sinceSample: nat)
    requires sinceSample < FRAMES_BEFORE_UPDATE_LOAD_PERCENT
    ensures 3 <= SamplesInWindow(FRAMES_BEFORE_UPDATE_LOAD, sinceSample) <= 4
    ensures SamplesInWindow(FRAMES_BEFORE_UPDATE_LOAD, sinceSample) == 4 <==> sinceSample <= 7
  {
  }

  /** With each sample bounded by 100, the reported load is at most 133, and
      reaches 133 when a four-sample window is fully busy. */
  lemma ReportedLoadBound(sum: u16, sinceSample: nat)
    requires sinceSample < FRAMES_BEFORE_UPDATE_LOAD_PERCENT
    requires sum <= 100 * SamplesInWindow(FRAMES_BEFORE_UPDATE_LOAD, sinceSample)
    ensures ReportedLoad(sum) <= 133
    ensures sum == 400 ==> ReportedLoad(sum) == 133
  {
    FullWindowSamples(sinceSample);
  }
}
