/**
 * The fortune wheel: eight fortunes on equal wedges. A spin picks an index,
 * turns the wheel five full turns plus the angle that brings the middle of
 * that wedge under the pointer, and reveals the fortune when the animation
 * completes. Angles are exact rationals, so `real` models them exactly.
 */
module Fortune {
  import opened Wrappers

  const Fortunes: seq<string> := [
    "Fortuna smiles upon your endeavors.",
    "A twist of fate is near, be ready.",
    "A golden opportunity lies ahead.",
    "Tread carefully, luck is a double-edged sword.",
    "Your path is favored by the gods.",
    "Expect the unexpected. Fortuna sees all.",
    "Now is the time to take a bold leap.",
    "You are guided by unseen forces of prosperity."
  ]

  /** Full turns added by every spin. */
  const FullSpins: nat := 5

  /** The angle one of `n` wedges takes. */
  function AnglePer(n: nat): (a: real)
    requires n > 0
    ensures a > 0.0 && a * n as real == 360.0
  {
    360.0 / n as real
  }

  /** `x.Floor` is the only integer `z` with `z <= x < z + 1`. */
  lemma FloorIs(x: real, z: int)
    requires z as real <= x < z as real + 1.0
    ensures x.Floor == z
  {
  }

  /** Scaling by a positive factor keeps a strict order. */
  lemma ScaleStrict(a: real, x: real, y: real)
    requires a > 0.0 && x < y
    ensures a * x < a * y && x * a < y * a
  {
  }

  /** Multiplying and then dividing by the same non-zero factor gives back the value. */
  lemma ScaleCancel(a: real, x: real)
    requires a != 0.0
    ensures (x * a) / a == x
  {
  }

  /** `d` is a whole number of turns: an integer multiple of 360. */
  predicate WholeTurns(d: real)
  {
    (d / 360.0).Floor as real * 360.0 == d
  }

  /** `z·360` is a whole number of turns. */
  lemma TurnsAreWhole(z: int)
    ensures WholeTurns(z as real * 360.0)
  {
    ScaleCancel(360.0, z as real);
  }

  /**
   * JavaScript's `%` with divisor 360: the remainder of the truncating
   * division. It differs from the dividend by whole turns and has the
   * dividend's sign.
   */
  function JsRem360(x: real): (r: real)
    ensures -360.0 < r < 360.0
    ensures WholeTurns(x - r)
    ensures 0.0 <= x ==> 0.0 <= r
    ensures x <= 0.0 ==> r <= 0.0
    ensures 0.0 <= x < 360.0 ==> r == x
  {
    if x >= 0.0 then Wrap360(x)
    else
      var w := Wrap360(-x);
      assert WholeTurns(x - -w) by {
        var z := (-x / 360.0).Floor;
        assert -x - w == z as real * 360.0;
        TurnsAreWhole(-z);
        assert x - -w == (-z) as real * 360.0;
      }
      -w
  }

  /** The remainder of the flooring division by 360, in `[0, 360)`, whole turns away from `x`. */
  function Wrap360(x: real): (r: real)
    ensures 0.0 <= r < 360.0
    ensures WholeTurns(x - r)
    ensures 0.0 <= x < 360.0 ==> r == x
  {
    var q := (x / 360.0).Floor;
    assert 0.0 <= x < 360.0 ==> q == 0 by {
      if 0.0 <= x < 360.0 {
        FloorIs(x / 360.0, 0);
      }
    }
    TurnsAreWhole(q);
    assert x - (x - 360.0 * q as real) == q as real * 360.0;
    x - 360.0 * q as real
  }

  /** Whole turns do not change the remainder: `Wrap360(z·360 + x) == x` for `x` in `[0, 360)`. */
  lemma WrapTurns(z: int, x: real)
    requires 0.0 <= x < 360.0
    ensures Wrap360(z as real * 360.0 + x) == x
  {
    FloorIs((z as real * 360.0 + x) / 360.0, z);
  }

  /**
   * `targetAngle = (360 - i·a - a/2) % 360`. For every index the dividend is
   * already strictly between 0 and 360, so the remainder changes nothing.
   */
  function TargetAngle(i: nat, n: nat): (r: real)
    requires i < n
    ensures 0.0 < r < 360.0
    ensures r == 360.0 - i as real * AnglePer(n) - AnglePer(n) / 2.0
  {
    var a := AnglePer(n);
    assert 0.0 < a * (i as real + 0.5) < 360.0 by {
      ScaleStrict(a, 0.0, i as real + 0.5);
      ScaleStrict(a, i as real + 0.5, n as real);
    }
    JsRem360(360.0 - i as real * a - a / 2.0)
  }

  /** A later index lands on a strictly smaller target angle. */
  lemma TargetAngleDecreasing(i: nat, j: nat, n: nat)
    requires i < j < n
    ensures TargetAngle(j, n) < TargetAngle(i, n)
  {
    var a := AnglePer(n);
    ScaleStrict(a, i as real, j as real);
    assert TargetAngle(i, n) == 360.0 - i as real * a - a / 2.0;
    assert TargetAngle(j, n) == 360.0 - j as real * a - a / 2.0;
    assert i as real * a < j as real * a;
    assert 360.0 - j as real * a - a / 2.0 < 360.0 - i as real * a - a / 2.0;
  }

  /** Distinct indices give distinct target angles. */
  lemma TargetAngleInjective(i: nat, j: nat, n: nat)
    requires i < n && j < n && TargetAngle(i, n) == TargetAngle(j, n)
    ensures i == j
  {
    if i < j {
      TargetAngleDecreasing(i, j, n);
    } else if j < i {
      TargetAngleDecreasing(j, i, n);
    }
  }

  /** `newRotation = rotationValueRef.current + spins·360 + targetAngle`: always forward, by over five turns and under six. */
  function NextRotation(prev: real, i: nat, n: nat): (r: real)
    requires i < n
    ensures prev + 1800.0 < r < prev + 2160.0
  {
    prev + (FullSpins * 360) as real + TargetAngle(i, n)
  }

  /** With eight fortunes the first wedge's target is 337.5 degrees, and a first spin to it ends at 2137.5. */
  lemma FirstWedgeOfEight()
    ensures TargetAngle(0, 8) == 337.5
    ensures NextRotation(0.0, 0, 8) == 2137.5
  {
  }

  /**
   * The wedge under the pointer once the wheel has turned by `rotation`
   * clockwise: wedge `w` covers `[w·a, (w+1)·a)` of the wheel, counted
   * clockwise from the pointer at rest.
   */
  function WedgeUnderPointer(rotation: real, n: nat): (w: nat)
    requires n > 0
    ensures w < n
  {
    var a := AnglePer(n);
    var p := Wrap360(360.0 - Wrap360(rotation));
    var f := (p / a).Floor;
    assert 0 <= f < n by {
      assert 0.0 <= p / a < n as real by {
        ScaleCancel(a, n as real);
        ScaleStrict(1.0 / a, p, a * n as real);
      }
    }
    f as nat
  }

  /**
   * When the wheel starts from a whole number of turns (the first spin
   * starts at 0), it stops with the middle of the chosen wedge under the pointer.
   */
  lemma PointerOnChosenWedge(turns: int, i: nat, n: nat)
    requires i < n
    ensures WedgeUnderPointer(NextRotation(turns as real * 360.0, i, n), n) == i
  {
    var a := AnglePer(n);
    var t := TargetAngle(i, n);
    var r := NextRotation(turns as real * 360.0, i, n);
    assert r == (turns + FullSpins) as real * 360.0 + t;
    WrapTurns(turns + FullSpins, t);
    WrapTurns(0, 360.0 - t);
    assert 360.0 - t == (i as real + 0.5) * a;
    ScaleCancel(a, i as real + 0.5);
    FloorIs((360.0 - t) / a, i);
  }

  /**
   * A spin adds a target angle to wherever the wheel stopped last, so from
   * the second spin on the chosen wedge is not in general the one under the
   * pointer: three spins to index 0 stop with wedge 1 under it.
   */
  lemma ThirdSpinToFirstWedge()
    ensures NextRotation(NextRotation(NextRotation(0.0, 0, 8), 0, 8), 0, 8) == 6412.5
    ensures WedgeUnderPointer(6412.5, 8) == 1
  {
    WrapTurns(17, 292.5);
    WrapTurns(0, 67.5);
    FloorIs(67.5 / 45.0, 1);
  }

  /** The animation in flight: the index chosen when it started, and the rotation it runs to. */
  datatype Spin = Spin(index: nat, target: real)

  /** Which controls the wheel screen renders. */
  datatype Controls = Controls(spinButton: bool, fortuneOverlay: bool, backButton: bool)

  /**
   * The spin button only when neither spinning nor showing a fortune; the
   * fortune (tap to spin again) while one is shown; the back button only while spinning.
   */
  function ControlsFor(isSpinning: bool, showFortune: bool): (c: Controls)
    ensures c.spinButton <==> !isSpinning && !showFortune
    ensures c.fortuneOverlay <==> showFortune
    ensures c.backButton <==> isSpinning
  {
    Controls(!showFortune && !isSpinning, showFortune, isSpinning)
  }

  /** In every state the wheel reaches, exactly one of the three controls is on screen. */
  lemma ExactlyOneControl(isSpinning: bool, showFortune: bool)
    requires isSpinning ==> !showFortune
    ensures var c := ControlsFor(isSpinning, showFortune);
      (if c.spinButton then 1 else 0) + (if c.fortuneOverlay then 1 else 0) + (if c.backButton then 1 else 0) == 1
  {
  }

  class FortuneWheel {
    var isSpinning: bool
    var showFortune: bool
    var selectedFortune: string
    /** `rotationValueRef.current`: where the wheel stopped last. */
    var rotation: real
    var animation: Option<Spin>

    ghost predicate Valid()
      reads this
    {
      && (animation.Some? <==> isSpinning)
      && (isSpinning ==> !showFortune)
      && (animation.Some? ==>
            && animation.value.index < |Fortunes|
            && animation.value.target == NextRotation(rotation, animation.value.index, |Fortunes|))
    }

    constructor ()
      ensures Valid()
      ensures !isSpinning && !showFortune && selectedFortune == "" && rotation == 0.0 && animation == None
    {
      isSpinning := false;
      showFortune := false;
      selectedFortune := "";
      rotation := 0.0;
      animation := None;
    }

    /**
     * `spinWheel` with the random pick given as `index`: ignored while
     * spinning; otherwise the wheel starts towards its next rotation and the
     * last fortune is hidden.
     */
    method SpinWheel(index: nat)
      requires Valid() && index < |Fortunes|
      modifies this
      ensures Valid()
      ensures old(isSpinning) ==> unchanged(this)
      ensures !old(isSpinning) ==>
        && isSpinning && !showFortune
        && animation == Some(Spin(index, NextRotation(old(rotation), index, |Fortunes|)))
        && selectedFortune == old(selectedFortune) && rotation == old(rotation)
    {
      if isSpinning {
        return;
      }
      var target := NextRotation(rotation, index, |Fortunes|);
      isSpinning := true;
      showFortune := false;
      animation := Some(Spin(index, target));
    }

    /**
     * The animation's completion callback: the fortune of the index chosen
     * at the start is revealed, and the rotation ref holds the end value.
     */
    method Settle()
      requires Valid() && isSpinning
      modifies this
      ensures Valid()
      ensures selectedFortune == Fortunes[old(animation).value.index]
      ensures showFortune && !isSpinning && animation == None
      ensures rotation == old(animation).value.target && rotation > old(rotation) + 1800.0
    {
      var spin := animation.value;
      rotation := spin.target;
      selectedFortune := Fortunes[spin.index];
      showFortune := true;
      isSpinning := false;
      animation := None;
    }
  }

  /** Two spins, the second to index 3: it reveals `Fortunes[3]`, and the wheel has turned further than after one. */
  method SpinTwiceScenario()
  {
    var wheel := new FortuneWheel();
    wheel.SpinWheel(0);
    wheel.SpinWheel(5);
    wheel.Settle();
    var afterOne := wheel.rotation;
    assert afterOne == 2137.5 && wheel.selectedFortune == Fortunes[0];
    wheel.SpinWheel(3);
    wheel.Settle();
    assert wheel.selectedFortune == Fortunes[3];
    assert wheel.rotation > afterOne;
  }
}
