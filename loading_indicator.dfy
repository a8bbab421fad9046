/**
 * The spinning indicator of `utils/loading_indicator.py`: an angle advanced by 10
 * degrees on every 50 ms timer tick, and twelve dots drawn 30 degrees apart with fading
 * alpha. The dots' pixel positions (cosines and sines) are not modelled; each dot is its
 * angle and its alpha.
 */
module LoadingIndicator {
  const Interval := 50
  const RotationStep := 10
  const DotCount := 12
  const DotSpacing := 30

  /** One of the painted dots. */
  datatype Dot = Dot(angle: int, alpha: int)

  /** The angle after one `rotate` (Python's `%` by a positive modulus, which is Dafny's). */
  function Rotated(angle: int): (a: int)
    ensures 0 <= a < 360
    ensures angle >= 0 ==> (a - angle - RotationStep) % 360 == 0
  {
    (angle + RotationStep) % 360
  }

  /** The angle after `n` rotations. */
  function Rotations(angle: int, n: nat): int
  {
    if n == 0 then angle else Rotated(Rotations(angle, n - 1))
  }

  /** After n rotations from an angle in [0, 360) the angle is the start plus 10n, reduced mod 360. */
  lemma {:induction false} RotationsAdd(angle: int, n: nat)
    requires 0 <= angle < 360
    ensures Rotations(angle, n) == (angle + RotationStep * n) % 360
  {
    if n > 0 {
      RotationsAdd(angle, n - 1);
      var b := angle + RotationStep * (n - 1);
      ModStep(b);
    }
  }

  /** Reducing before or after adding the step gives the same angle. */
  lemma ModStep(b: int)
    requires b >= 0
    ensures (b % 360 + RotationStep) % 360 == (b + RotationStep) % 360
  {
    var q := b / 360;
    assert b == 360 * q + b % 360;
    assert b + RotationStep == 360 * q + (b % 360 + RotationStep);
  }

  /** The indicator is back where it started exactly after a whole number of 36-rotation turns. */
  lemma FullTurn(angle: int, n: nat)
    requires 0 <= angle < 360
    ensures Rotations(angle, n) == angle <==> n % 36 == 0
  {
    RotationsAdd(angle, n);
    var q, r := n / 36, n % 36;
    var s := angle + RotationStep * r;
    assert angle + RotationStep * n == 360 * q + s;
    assert angle <= s < angle + 360;
    ModShift(q, s);
    if r == 0 {
      assert s % 360 == angle;
    } else if s < 360 {
      assert s % 360 == s;
    } else {
      assert s % 360 == s - 360;
    }
  }

  /** Whole turns do not change an angle mod 360. */
  lemma ModShift(q: int, s: int)
    requires q >= 0 && s >= 0
    ensures (360 * q + s) % 360 == s % 360
  {
    var t := s / 360;
    assert s == 360 * t + s % 360;
    assert 360 * q + s == 360 * (q + t) + s % 360;
  }

  /** Dot `i` sits 30 degrees further on than dot `i - 1`. */
  function DotAngle(angle: int, i: int): int
  {
    (angle + i * DotSpacing) % 360
  }

  /** `255 - int(i * 255 / 14)`: for i >= 0 the float quotient truncates to the integer quotient. */
  function DotAlpha(i: nat): int
  {
    255 - (i * 255) / 14
  }

  /** The dots fade steadily: each is strictly more transparent than the one before, all within [55, 255]. */
  lemma AlphaFades(i: nat, j: nat)
    requires i < j < DotCount
    ensures DotAlpha(i) > DotAlpha(j)
    ensures DotAlpha(0) == 255 && DotAlpha(DotCount - 1) == 55
    ensures 55 <= DotAlpha(i) <= 255 && 55 <= DotAlpha(j) <= 255
  {
    assert (i * 255) / 14 < (j * 255) / 14 by {
      assert j * 255 >= i * 255 + 255;
      DivStep(i * 255, j * 255);
    }
    assert (j * 255) / 14 <= 200 by {
      assert j * 255 <= 11 * 255;
      DivMono(j * 255, 2805);
    }
  }

  /** Division by 14 is monotone. */
  lemma DivMono(a: nat, b: nat)
    requires a <= b
    ensures a / 14 <= b / 14
  {
  }

  /** Adding at least 14 raises the quotient by at least one. */
  lemma DivStep(a: nat, b: nat)
    requires b >= a + 14
    ensures a / 14 < b / 14
  {
  }

  /** The twelve dots stand at distinct angles, each 30 degrees past the one before. */
  lemma DotsEvenlySpread(angle: int, i: nat, j: nat)
    requires 0 <= angle < 360
    requires i < j < DotCount
    ensures DotAngle(angle, i) != DotAngle(angle, j)
    ensures 0 <= DotAngle(angle, i) < 360
    ensures j == i + 1 ==> DotAngle(angle, j) == (DotAngle(angle, i) + DotSpacing) % 360
  {
    var a := angle + i * DotSpacing;
    var b := angle + j * DotSpacing;
    assert 0 < b - a < 360;
    if a % 360 == b % 360 {
      assert a == 360 * (a / 360) + a % 360;
      assert b == 360 * (b / 360) + b % 360;
      assert b - a == 360 * (b / 360 - a / 360);
    }
    if j == i + 1 {
      assert b == a + DotSpacing;
      var q := a / 360;
      assert a == 360 * q + a % 360;
      assert b == 360 * q + (a % 360 + DotSpacing);
    }
  }

  class LoadingIndicator {
    var angle: int
    /** Whether the animation timer runs. */
    var timerActive: bool
    /** The dots' colour, as the string or colour object last given. */
    var color: string
    /** Repaints asked for with `update()`. */
    var repaints: nat

    ghost predicate Valid()
      reads this
    {
      0 <= angle < 360
    }

    constructor()
      ensures Valid() && angle == 0 && !timerActive && color == "#1DB954" && repaints == 0
    {
      angle := 0;
      timerActive := false;
      color := "#1DB954";
      repaints := 0;
    }

    /** `rotate`: ten degrees further, wrapping at 360, and a repaint. */
    method Rotate()
      requires Valid()
      modifies this`angle, this`repaints
      ensures Valid()
      ensures angle == Rotated(old(angle)) && repaints == old(repaints) + 1
    {
      angle := (angle + RotationStep) % 360;
      repaints := repaints + 1;
    }

    /** `start`: the timer runs, so `isRunning` answers true. */
    method Start()
      modifies this`timerActive
      ensures timerActive
    {
      timerActive := true;
    }

    /** `stop`: the timer stops, so `isRunning` answers false. */
    method Stop()
      modifies this`timerActive
      ensures !timerActive
    {
      timerActive := false;
    }

    /** `isRunning`: whether the timer is active. */
    method IsRunning() returns (running: bool)
      ensures running == timerActive
    {
      running := timerActive;
    }

    /** `setColor`, and a repaint. */
    method SetColor(c: string)
      modifies this`color, this`repaints
      ensures color == c && repaints == old(repaints) + 1
    {
      color := c;
      repaints := repaints + 1;
    }

    /** The dots `paintEvent` draws, in drawing order. */
    method Dots() returns (dots: seq<Dot>)
      ensures |dots| == DotCount
      ensures forall i :: 0 <= i < DotCount ==> dots[i] == Dot(DotAngle(angle, i), DotAlpha(i))
    {
      dots := [];
      for i := 0 to DotCount
        invariant |dots| == i
        invariant forall k :: 0 <= k < i ==> dots[k] == Dot(DotAngle(angle, k), DotAlpha(k))
      {
        var currentAngle := (angle + i * DotSpacing) % 360;
        var alpha := 255 - (i * 255) / 14;
        dots := dots + [Dot(currentAngle, alpha)];
      }
    }
  }
}
