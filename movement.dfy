/**
 * The movement tracker: for every dimension of the current cycle, in the
 * current cycle's key order, the change in signal since the previous cycle
 * and its direction, with a dead band of 0.03 on either side of zero.
 */
module Movement {
  import opened Wrappers
  import opened Dimensions

  /** Half-width of the band of deltas shown as "stable". */
  const DeadBand: real := 0.03

  datatype Direction = Up | Down | Stable

  /** One row of the tracker. */
  datatype Row = Row(delta: real, direction: Direction)

  /** A cycle's dimension signals: the entries of its `dimension_signals`
      object, in key order. */
  type Snapshot = seq<(Dimension, real)>

  /** An object holds each key at most once. */
  predicate UniqueKeys(s: Snapshot)
  {
    forall i, j :: 0 <= i < j < |s| ==> s[i].0 != s[j].0
  }

  /** Up and down exchanged, stable kept. */
  function Opposite(d: Direction): Direction
  {
    match d
    case Up => Down
    case Down => Up
    case Stable => Stable
  }

  /** Change since the previous cycle; a previous signal that is absent counts as 0. */
  function Delta(current: real, previous: Option<real>): (delta: real)
    ensures previous.None? ==> delta == current
    ensures previous.Some? ==> delta + previous.value == current
  {
    current - previous.GetOr(0.0)
  }

  /** The direction of a delta: strictly beyond the dead band is up or down,
      the band itself, boundaries included, is stable. */
  function DirectionOf(delta: real): (d: Direction)
    ensures d == Up <==> delta > 0.03
    ensures d == Down <==> delta < -0.03
    ensures d == Stable <==> -0.03 <= delta <= 0.03
  {
    if delta > DeadBand then Up
    else if delta < -DeadBand then Down
    else Stable
  }

  /** The signal a snapshot records for a dimension, if it has that key. */
  function SignalAt(s: Snapshot, d: Dimension): Option<real>
  {
    if s == [] then None
    else if s[0].0 == d then Some(s[0].1)
    else SignalAt(s[1..], d)
  }

  /** The lookup finds nothing exactly when no entry has the key, and with
      unique keys it finds the one entry that has it. */
  lemma {:induction false} SignalAtMeaning(s: Snapshot, d: Dimension)
    ensures SignalAt(s, d).None? <==> forall i :: 0 <= i < |s| ==> s[i].0 != d
    ensures UniqueKeys(s) ==> forall i :: 0 <= i < |s| && s[i].0 == d ==> SignalAt(s, d) == Some(s[i].1)
  {
    if s != [] {
      SignalAtMeaning(s[1..], d);
      assert forall i :: 1 <= i < |s| ==> s[i] == s[1..][i - 1];
    }
  }

  /** The row shown for one dimension. */
  function RowFor(current: real, previous: Option<real>): Row
  {
    var delta := Delta(current, previous);
    Row(delta, DirectionOf(delta))
  }

  /** One row per entry of the current snapshot, in the same order; keys
      only the previous snapshot has are not shown. */
  function Rows(current: Snapshot, previous: Snapshot): (rows: seq<(Dimension, Row)>)
    ensures |rows| == |current|
    ensures forall i :: 0 <= i < |current| ==> rows[i].0 == current[i].0
    ensures forall i :: 0 <= i < |current| ==> rows[i].1 == RowFor(current[i].1, SignalAt(previous, current[i].0))
  {
    if current == [] then []
    else [(current[0].0, RowFor(current[0].1, SignalAt(previous, current[0].0)))] + Rows(current[1..], previous)
  }

  /** The tracker shows nothing at all when there is no previous cycle. */
  function Track(current: Snapshot, previous: Option<Snapshot>): (r: Option<seq<(Dimension, Row)>>)
    ensures r.Some? <==> previous.Some?
    ensures r.Some? ==> r.value == Rows(current, previous.value)
  {
    match previous
    case None => None
    case Some(p) => Some(Rows(current, p))
  }

  /** Each row's direction is up exactly when the current signal exceeds the
      previous one (or 0, when absent) by more than the dead band, and down
      exactly when it falls short by more than the dead band. */
  lemma RowMeaning(current: Snapshot, previous: Snapshot, i: int)
    requires 0 <= i < |current|
    ensures var row := Rows(current, previous)[i].1;
            var before := SignalAt(previous, current[i].0).GetOr(0.0);
            && row.delta == current[i].1 - before
            && (row.direction == Up <==> current[i].1 > before + 0.03)
            && (row.direction == Down <==> current[i].1 < before - 0.03)
  {
  }

  /** Comparing a snapshot with itself: every delta is 0 and every direction stable. */
  lemma SelfComparisonIsStable(s: Snapshot)
    requires UniqueKeys(s)
    ensures forall i :: 0 <= i < |s| ==> Rows(s, s)[i] == (s[i].0, Row(0.0, Stable))
  {
    var rows := Rows(s, s);
    forall i | 0 <= i < |s| ensures rows[i] == (s[i].0, Row(0.0, Stable)) {
      SignalAtMeaning(s, s[i].0);
      assert rows[i].1 == RowFor(s[i].1, Some(s[i].1));
    }
  }

  /** Swapping the two snapshots negates each shared dimension's delta and
      exchanges up with down, keeping stable. */
  lemma SwapIsOpposite(a: Snapshot, b: Snapshot, i: int, j: int)
    requires UniqueKeys(a) && UniqueKeys(b)
    requires 0 <= i < |a| && 0 <= j < |b| && a[i].0 == b[j].0
    ensures Rows(a, b)[i].1.delta == -Rows(b, a)[j].1.delta
    ensures Rows(a, b)[i].1.direction == Opposite(Rows(b, a)[j].1.direction)
  {
    SignalAtMeaning(b, a[i].0);
    SignalAtMeaning(a, b[j].0);
  }

  /** Simulated cycle 1 and cycle 2 signals. */
  const Cycle1: Snapshot :=
    [(Adoption, 0.62), (Purpose, 0.41), (Flow, 0.55), (Trust, 0.38), (Value, 0.52), (Representation, 0.29)]
  const Cycle2: Snapshot :=
    [(Adoption, 0.68), (Purpose, 0.49), (Flow, 0.52), (Trust, 0.44), (Value, 0.56), (Representation, 0.33)]

  /** The cycle-1 signal recorded for each dimension. */
  lemma Cycle1Lookups()
    ensures SignalAt(Cycle1, Adoption) == Some(0.62)
    ensures SignalAt(Cycle1, Purpose) == Some(0.41)
    ensures SignalAt(Cycle1, Flow) == Some(0.55)
    ensures SignalAt(Cycle1, Trust) == Some(0.38)
    ensures SignalAt(Cycle1, Value) == Some(0.52)
    ensures SignalAt(Cycle1, Representation) == Some(0.29)
  {
  }

  /** From cycle 1 to cycle 2 every dimension but flow moves up, and the
      deltas are the ones typed into the cycle-2 data; flow's -0.03 sits on the
      dead-band boundary and is stable over exact reals. */
  lemma Cycle1ToCycle2()
    ensures Rows(Cycle2, Cycle1) == [
      (Adoption, Row(0.06, Up)), (Purpose, Row(0.08, Up)), (Flow, Row(-0.03, Stable)),
      (Trust, Row(0.06, Up)), (Value, Row(0.04, Up)), (Representation, Row(0.04, Up))]
  {
    Cycle1Lookups();
    var rows := Rows(Cycle2, Cycle1);
    assert rows[0] == (Adoption, RowFor(0.68, Some(0.62)));
    assert rows[1] == (Purpose, RowFor(0.49, Some(0.41)));
    assert rows[2] == (Flow, RowFor(0.52, Some(0.55)));
    assert rows[3] == (Trust, RowFor(0.44, Some(0.38)));
    assert rows[4] == (Value, RowFor(0.56, Some(0.52)));
    assert rows[5] == (Representation, RowFor(0.33, Some(0.29)));
  }
}
