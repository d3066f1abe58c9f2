/**
 * The triangle wave that walks the colour gradient: as the offset grows the
 * sample point rises from 0 to 1 over `steps` offsets and falls back to 0 over
 * the next `steps`. Offsets and the result are exact reals here; the program
 * computes them in IEEE doubles.
 */
module Wave {

  function Abs(x: real): real {
    if x < 0.0 then -x else x
  }

  /** The offset measured in half periods. */
  function Phase(steps: int, offset: real): real
    requires steps != 0
  {
    offset / steps as real
  }

  /** Moving the offset by `d` half periods moves the phase by `d`. */
  lemma PhaseShift(steps: int, offset: real, d: real)
    requires steps != 0
    ensures Phase(steps, offset + d * steps as real) == Phase(steps, offset) + d
  {
    var s := steps as real;
    assert (d * s) / s == d;
  }

  /** `position(steps, offset)`: the phase inside the current half period, mirrored on odd half periods. */
  function Position(steps: int, offset: real): (p: real)
    requires steps != 0
    ensures 0.0 <= p <= 1.0
  {
    var cycle := (offset / steps as real).Floor;
    var current := (offset - cycle as real * steps as real) / steps as real;
    PhaseShift(steps, offset, -(cycle as real));
    assert offset - cycle as real * steps as real == offset + -(cycle as real) * steps as real;
    assert current == Phase(steps, offset) - cycle as real;
    if cycle % 2 == 0 then current else 1.0 - current
  }

  /** The wave over the phase: its fractional part, mirrored when the whole part is odd. */
  function Triangle(q: real): real {
    if q.Floor % 2 == 0 then q - q.Floor as real else 1.0 - (q - q.Floor as real)
  }

  /** The wave is the triangle of the phase. */
  lemma PositionOfPhase(steps: int, offset: real)
    requires steps != 0
    ensures Position(steps, offset) == Triangle(Phase(steps, offset))
  {
    PhaseShift(steps, offset, -(Phase(steps, offset).Floor as real));
  }

  /**
   * Reference definition, first half: the wave is no farther from the phase
   * than any even integer is.
   */
  lemma PositionIsEvenDistance(steps: int, offset: real, e: int)
    requires steps != 0
    requires e % 2 == 0
    ensures Position(steps, offset) <= Abs(Phase(steps, offset) - e as real)
  {
    var q := Phase(steps, offset);
    var c := q.Floor;
    PositionOfPhase(steps, offset);
    if c % 2 == 0 {
      if e > c {
        assert e >= c + 2;
      }
    } else {
      if e <= c {
        assert e <= c - 1;
      } else {
        assert e >= c + 1;
      }
    }
  }

  /** Reference definition, second half: the even integer the wave measures the distance to. */
  function NearestEven(steps: int, offset: real): (e: int)
    requires steps != 0
    ensures e % 2 == 0
    ensures Position(steps, offset) == Abs(Phase(steps, offset) - e as real)
  {
    PositionOfPhase(steps, offset);
    var c := Phase(steps, offset).Floor;
    if c % 2 == 0 then c else c + 1
  }

  /** The wave starts at 0. */
  lemma PositionAtZero(steps: int)
    requires steps != 0
    ensures Position(steps, 0.0) == 0.0
  {
    PositionIsEvenDistance(steps, 0.0, 0);
  }

  /** At whole multiples of the half period the wave is at an end: 0 after an even count, 1 after an odd one. */
  lemma PositionAtMultiple(steps: int, k: int)
    requires steps != 0
    ensures Position(steps, k as real * steps as real) == if k % 2 == 0 then 0.0 else 1.0
  {
    var o := k as real * steps as real;
    PhaseShift(steps, 0.0, k as real);
    assert Phase(steps, o) == k as real;
    PositionOfPhase(steps, o);
  }

  /** One half period later the wave is mirrored. */
  lemma PositionFlip(steps: int, offset: real)
    requires steps != 0
    ensures Position(steps, offset + steps as real) == 1.0 - Position(steps, offset)
  {
    var q := Phase(steps, offset);
    PhaseShift(steps, offset, 1.0);
    assert Phase(steps, offset + steps as real) == q + 1.0;
    assert (q + 1.0).Floor == q.Floor + 1;
    PositionOfPhase(steps, offset);
    PositionOfPhase(steps, offset + steps as real);
  }

  /** The wave repeats every two half periods. */
  lemma PositionPeriodic(steps: int, offset: real, k: int)
    requires steps != 0
    ensures Position(steps, offset + (2 * k) as real * steps as real) == Position(steps, offset)
  {
    var o := offset + (2 * k) as real * steps as real;
    PhaseShift(steps, offset, (2 * k) as real);
    PositionOfPhase(steps, offset);
    PositionOfPhase(steps, o);
    TrianglePeriodic(Phase(steps, offset), k);
  }

  lemma TrianglePeriodic(q: real, k: int)
    ensures Triangle(q + (2 * k) as real) == Triangle(q)
  {
    var c := q.Floor;
    FloorShift(q, 2 * k);
    assert (c + 2 * k) % 2 == c % 2 by {
      assert c + 2 * k == (c % 2) + 2 * (c / 2 + k);
    }
  }

  lemma FloorShift(q: real, m: int)
    ensures (q + m as real).Floor == q.Floor + m
  {
  }

  /** One more unit of offset moves the phase by 1/|steps|. */
  lemma PhaseStep(steps: int, offset: real)
    requires steps != 0
    ensures Abs(Phase(steps, offset + 1.0) - Phase(steps, offset)) == 1.0 / Abs(steps as real)
  {
    var s := steps as real;
    assert (offset + 1.0) / s == offset / s + 1.0 / s;
    if s < 0.0 {
      assert 1.0 / s == -(1.0 / -s);
    }
  }

  /**
   * The wave changes by at most the change of the phase, so characters at
   * neighbouring offsets get neighbouring colours.
   */
  lemma PositionLipschitz(steps: int, a: real, b: real)
    requires steps != 0
    ensures Abs(Position(steps, a) - Position(steps, b)) <= Abs(Phase(steps, a) - Phase(steps, b))
  {
    var ea := NearestEven(steps, a);
    var eb := NearestEven(steps, b);
    PositionIsEvenDistance(steps, a, eb);
    PositionIsEvenDistance(steps, b, ea);
  }
}
