/**
 * The position tracer: a fixed number of slots written in turn, a write
 * cursor that wraps around, and a flag set at the first wrap.
 */
module Tracer {
  import opened Types

  class Tracer {
    const maxPoints: nat
    var nextPosition: nat
    const points: array<Point>
    var fullyInitialized: bool

    /** Every point handed to the tracer so far, oldest first. */
    ghost var history: seq<Point>
    /** How many full rounds have been written. */
    ghost var rounds: nat

    /** The insertion index of the point written at slot 0 in the current round. */
    ghost function RoundStart(): int
      reads this
    {
      |history| - nextPosition
    }

    /**
     * The cursor stays inside the slots; the flag says whether one full
     * round has been written. Slots before the cursor hold the current
     * round in order; when the flag is set, the slots from the cursor on
     * still hold the rest of the previous round.
     */
    ghost predicate Valid()
      reads this, points
    {
      && points.Length == maxPoints
      && (maxPoints == 0 ==> nextPosition == 0 && !fullyInitialized && history == [])
      && (maxPoints > 0 ==> nextPosition < maxPoints)
      && RoundStart() == rounds * maxPoints
      && (maxPoints > 0 ==> (fullyInitialized <==> rounds > 0))
      && (forall i :: 0 <= i < nextPosition ==> points[i] == history[RoundStart() + i])
      && (fullyInitialized ==>
            forall i :: nextPosition <= i < maxPoints ==> points[i] == history[RoundStart() - maxPoints + i])
    }

    /** The insertion index of the point that slot i holds once the buffer is full. */
    ghost function LatestIndex(i: nat): int
      reads this
    {
      if i < nextPosition then RoundStart() + i else RoundStart() - maxPoints + i
    }

    constructor New(maxPoints: nat)
      ensures Valid() && fresh(points)
      ensures this.maxPoints == maxPoints && nextPosition == 0 && !fullyInitialized
      ensures history == []
    {
      this.maxPoints := maxPoints;
      points := new Point[maxPoints](_ => Point(0.0, 0.0, 0));
      nextPosition := 0;
      fullyInitialized := false;
      history := [];
      rounds := 0;
    }

    /**
     * Stores a point in the slot under the cursor and advances the cursor,
     * wrapping to 0 (and marking the buffer full) after the last slot. With
     * no slots, nothing is stored.
     */
    method ProcessPoint(point: Point)
      requires Valid()
      modifies this, points
      ensures Valid()
      ensures history == if maxPoints == 0 then old(history) else old(history) + [point]
      ensures maxPoints > 0 ==> points[old(nextPosition)] == point
      ensures forall i :: 0 <= i < points.Length && (maxPoints == 0 || i != old(nextPosition)) ==> points[i] == old(points[i])
      ensures maxPoints > 0 ==> nextPosition == if old(nextPosition) == maxPoints - 1 then 0 else old(nextPosition) + 1
      ensures old(fullyInitialized) ==> fullyInitialized
    {
      if maxPoints > 0 {
        points[nextPosition] := point;
        if nextPosition == maxPoints - 1 {
          nextPosition := 0;
          fullyInitialized := true;
          rounds := rounds + 1;
        } else {
          nextPosition := nextPosition + 1;
        }
        history := history + [point];
      }
    }

    /**
     * A copy of the stored points: before the first wrap, the points in
     * insertion order; after it, every slot in storage order, slot i
     * holding the latest point whose insertion index is i modulo maxPoints.
     */
    method GetPoints() returns (output: seq<Point>)
      requires Valid()
      ensures |output| <= maxPoints
      ensures !fullyInitialized ==> output == history
      ensures fullyInitialized ==> |output| == maxPoints
      ensures fullyInitialized ==> forall i :: 0 <= i < maxPoints ==>
                |history| - maxPoints <= LatestIndex(i) < |history| && output[i] == history[LatestIndex(i)]
    {
      if maxPoints == 0 {
        return [];
      }
      if fullyInitialized {
        output := points[..];
      } else {
        output := points[..nextPosition];
      }
    }
  }

  lemma {:induction false} MulAtLeast(d: int, n: int)
    requires d >= 1 && n > 0
    ensures d * n >= n
    decreases d
  {
    if d > 1 {
      MulAtLeast(d - 1, n);
      assert d * n == (d - 1) * n + n;
    }
  }

  /** Euclidean remainders are unique. */
  lemma ModUnique(x: int, n: int, q: int, r: int)
    requires n > 0 && x == q * n + r && 0 <= r < n
    ensures x % n == r
  {
    var q', r' := x / n, x % n;
    var d := q - q';
    assert d * n == r' - r by {
      assert x == q' * n + r';
      assert q * n - q' * n == d * n;
    }
    if d >= 1 {
      MulAtLeast(d, n);
      assert false;
    }
    if d <= -1 {
      MulAtLeast(-d, n);
      assert false;
    }
  }

  /** Adding whole rounds to a slot number does not change its residue. */
  lemma RoundOffsetResidue(rounds: nat, n: nat, i: nat)
    requires i < n
    ensures (rounds * n + i) % n == i
  {
    ModUnique(rounds * n + i, n, rounds, i);
  }

  /**
   * Once the buffer is full, slot i holds the point with the latest
   * insertion index congruent to i modulo the number of slots: that index
   * is congruent to i, and it is one of the last maxPoints insertions.
   */
  lemma SlotHoldsLatestCongruentPoint(t: Tracer, i: nat)
    requires t.Valid() && t.fullyInitialized && i < t.maxPoints
    ensures t.LatestIndex(i) % t.maxPoints == i
    ensures |t.history| - t.maxPoints <= t.LatestIndex(i) < |t.history|
    ensures t.points[i] == t.history[t.LatestIndex(i)]
  {
    if i < t.nextPosition {
      RoundOffsetResidue(t.rounds, t.maxPoints, i);
    } else {
      RoundOffsetResidue(t.rounds - 1, t.maxPoints, i);
      assert t.RoundStart() - t.maxPoints + i == (t.rounds - 1) * t.maxPoints + i;
    }
  }

  /**
   * Two slots and three points: before the wrap the output is the insertion
   * order; after it, the third point has replaced the first in slot 0, so
   * the output is in storage order, not insertion order.
   */
  method WrapsAround(p0: Point, p1: Point, p2: Point) returns (early: seq<Point>, late: seq<Point>)
    ensures early == [p0]
    ensures late == [p2, p1]
  {
    var t := new Tracer.New(2);
    t.ProcessPoint(p0);
    early := t.GetPoints();
    t.ProcessPoint(p1);
    assert t.nextPosition == 0 && t.fullyInitialized;
    t.ProcessPoint(p2);
    assert t.nextPosition == 1 && t.history == [p0, p1, p2];
    late := t.GetPoints();
    assert t.LatestIndex(0) == 2 && t.LatestIndex(1) == 1;
  }
}
