/** The rolling average of contribution times (ceremony/sequencer.go). */
module Average {
  import opened Basics
  import Int64

  /** One update in int64 nanoseconds; 0 means no sample yet. */
  function Update(avg: Time, sample: Time): Time {
    if avg == 0 then sample
    else Int64.Quo(Int64.Wrap(Int64.Wrap(avg * 3) + sample), 4)
  }

  function Rolling(samples: seq<Time>): Time {
    if samples == [] then 0 else Update(Rolling(samples[..|samples| - 1]), samples[|samples| - 1])
  }

  /** The average that the update rounds: 3/4 of the old value and 1/4 of the sample,
      starting from the first sample.  */
  ghost function Exact(samples: seq<Time>): real
    requires samples != []
  {
    var n := |samples| - 1;
    if n == 0 then samples[0] as real else (Exact(samples[..n]) * 3.0 + samples[n] as real) / 4.0
  }

  const MAX_SAMPLE := 0x2000_0000_0000_0000 - 1

  ghost predicate Between(lo: Time, samples: seq<Time>, hi: Time) {
    forall i :: 0 <= i < |samples| ==> lo <= samples[i] <= hi
  }

  /** Samples between any positive lo and any hi up to 2^61-1 keep the average
      between them, hence set, and less than 3 ns below the exact average.  */
  lemma {:induction false} RollingStaysClose(samples: seq<Time>, lo: Time, hi: Time)
    requires samples != [] && Between(lo, samples, hi) && 1 <= lo && hi <= MAX_SAMPLE
    ensures lo <= Rolling(samples) <= hi
    ensures 0.0 <= Exact(samples) - Rolling(samples) as real < 3.0
  {
    var n := |samples| - 1;
    if n == 0 {
      assert Rolling(samples[..0]) == 0;
    } else {
      RollingStaysClose(samples[..n], lo, hi);
      NoOverflow(Rolling(samples[..n]), samples[n]);
    }
  }

  /** Over any list of such samples no update overflows. */
  lemma RollingNeverOverflows(samples: seq<Time>, k: nat)
    requires Between(1, samples, MAX_SAMPLE) && 0 < k < |samples|
    ensures Int64.Fits(Rolling(samples[..k]) * 3) && Int64.Fits(Rolling(samples[..k]) * 3 + samples[k])
    ensures Rolling(samples[..k + 1]) == (Rolling(samples[..k]) * 3 + samples[k]) / 4
  {
    RollingStaysClose(samples[..k], 1, MAX_SAMPLE);
    NoOverflow(Rolling(samples[..k]), samples[k]);
    assert samples[..k + 1][..k] == samples[..k];
  }

  /** Within the range of the samples the int64 update is the floor of the exact one. */
  lemma NoOverflow(avg: Time, sample: Time)
    requires 1 <= avg <= MAX_SAMPLE && 1 <= sample <= MAX_SAMPLE
    ensures Int64.Fits(avg * 3) && Int64.Fits(avg * 3 + sample)
    ensures Update(avg, sample) == (avg * 3 + sample) / 4
  {
  }

  /** The bound on samples is tight: two samples of 2^61 ns make the average negative. */
  lemma OverflowsBeyond(s: Time)
    requires s == MAX_SAMPLE + 1
    ensures Rolling([s, s]) < 0
  {
    assert [s, s][..1] == [s] && [s][..0] == [];
    assert Rolling([s]) == s;
  }
}
