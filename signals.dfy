/**
 * The signal bar: a dimension's signal is shown with one of five band labels,
 * chosen by the index min(floor(signal * 5), 4).
 */
module Signals {
  import opened Wrappers

  datatype Band = Weak | Early | Emerging | Developing | Strong

  /** The band labels, indexed by band number. */
  const Labels: seq<Band> := [Weak, Early, Emerging, Developing, Strong]

  /** The band index: fifths of the signal, capped at the last band. It is
      negative for a negative signal; it has no lower cap. */
  function BandIndex(signal: real): (k: int)
    ensures k <= 4
    ensures 0.0 <= signal <==> 0 <= k
    ensures k < 4 ==> k as real <= signal * 5.0 < k as real + 1.0
    ensures k == 4 <==> 0.8 <= signal
  {
    var f := (signal * 5.0).Floor;
    if f < 4 then f else 4
  }

  /** The label shown for a signal; a negative signal indexes before the start
      of the label list and so has no label. */
  function BandLabel(signal: real): (b: Option<Band>)
    ensures b.Some? <==> 0.0 <= signal
    ensures b.Some? ==> b.value == Labels[BandIndex(signal)]
  {
    var k := BandIndex(signal);
    if 0 <= k then Some(Labels[k]) else None
  }

  /** The band index never decreases as the signal grows. */
  lemma BandIndexMonotone(x: real, y: real)
    requires x <= y
    ensures BandIndex(x) <= BandIndex(y)
  {
    var fx, fy := (x * 5.0).Floor, (y * 5.0).Floor;
    assert fx as real <= x * 5.0 <= y * 5.0 < fy as real + 1.0;
  }

  /** Band k (below the last) holds exactly the signals in [k/5, (k+1)/5). */
  lemma BandIndexExact(signal: real, k: int)
    requires 0 <= k < 4
    ensures BandIndex(signal) == k <==> k as real / 5.0 <= signal < (k as real + 1.0) / 5.0
  {
    var f := (signal * 5.0).Floor;
    if k as real / 5.0 <= signal < (k as real + 1.0) / 5.0 {
      assert k as real <= signal * 5.0 < k as real + 1.0;
      assert f == k by {
        assert f as real <= signal * 5.0 < f as real + 1.0;
      }
    }
  }

  /** A full signal is in the last band, "Strong", and so is every signal above it. */
  lemma FullSignalIsStrong(signal: real)
    requires 1.0 <= signal
    ensures BandIndex(1.0) == 4 && BandLabel(1.0) == Some(Strong)
    ensures BandLabel(signal) == Some(Strong)
  {
  }

  /** The cycle-1 signals of the simulated baseline: adoption 0.62, purpose 0.41,
      flow 0.55, trust 0.38, value 0.52, representation 0.29. */
  lemma Cycle1Bands()
    ensures BandLabel(0.62) == Some(Developing)
    ensures BandLabel(0.41) == Some(Emerging)
    ensures BandLabel(0.55) == Some(Emerging)
    ensures BandLabel(0.38) == Some(Early)
    ensures BandLabel(0.52) == Some(Emerging)
    ensures BandLabel(0.29) == Some(Early)
  {
    BandIndexExact(0.62, 3);
    BandIndexExact(0.41, 2);
    BandIndexExact(0.55, 2);
    BandIndexExact(0.38, 1);
    BandIndexExact(0.52, 2);
    BandIndexExact(0.29, 1);
  }
}
