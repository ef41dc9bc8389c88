/**
  The square-law drain-current equation solved for channel width, in its
  ideal form and with the channel-length-modulation correction. Each solver
  evaluates its expression in Python's order, left operand first, and stops
  at the first exception; the arithmetic is over the reals.
 */
module Equations {
  import opened Wrappers
  import opened Transistors

  /** Using a stored value as an arithmetic operand: None raises TypeError. */
  function Operand(v: Value): (r: Result<real, Error>)
    ensures r.Ok? <==> v.Some?
    ensures r.Ok? ==> r.value == v.value
    ensures r.Err? ==> r.error == UnsetOperand
  {
    if v.Some? then Ok(v.value) else Err(UnsetOperand)
  }

  /** Float division `x / y`: ZeroDivisionError when y is 0. */
  function Divide(x: real, y: real): (r: Result<real, Error>)
    ensures r.Ok? <==> y != 0.0
    ensures r.Ok? ==> r.value == x / y
    ensures r.Err? ==> r.error == DivisionByZero
  {
    if y == 0.0 then Err(DivisionByZero) else Ok(x / y)
  }

  /** Python's `x ** n` for a natural exponent. */
  function Pow(x: real, n: nat): real {
    if n == 0 then 1.0 else x * Pow(x, n - 1)
  }

  /** A product of reals is zero exactly when a factor is. */
  lemma ProductNonZero(a: real, b: real)
    ensures a * b != 0.0 <==> a != 0.0 && b != 0.0
  {
    if a != 0.0 && b != 0.0 {
      assert (a * b) / b == a;
    }
  }

  /** A positive power of x is zero exactly when x is. */
  lemma {:induction false} PowNonZero(x: real, n: nat)
    ensures Pow(x, n + 1) != 0.0 <==> x != 0.0
  {
    if n > 0 {
      PowNonZero(x, n - 1);
    }
    ProductNonZero(x, Pow(x, n));
  }

  /** The square of a non-zero real is positive. */
  lemma SquarePositive(v: real)
    requires v != 0.0
    ensures Pow(v, 2) > 0.0
  {
    assert Pow(v, 1) == v * Pow(v, 0) == v;
    if v > 0.0 {
      MulPositive(v, Pow(v, 1));
    } else {
      MulPositive(-v, -Pow(v, 1));
      assert (-v) * (-Pow(v, 1)) == v * Pow(v, 1);
    }
  }

  /** A product of two positive reals is positive. */
  lemma MulPositive(a: real, b: real)
    requires a > 0.0 && b > 0.0
    ensures a * b > 0.0
  {
  }

  /** The ideal denominator k·V_ov² is zero exactly when k or V_ov is. */
  lemma GainNonZero(k: real, vov: real)
    ensures k * Pow(vov, 2) != 0.0 <==> k != 0.0 && vov != 0.0
  {
    PowNonZero(vov, 1);
    ProductNonZero(k, Pow(vov, 2));
  }

  /** The corrected denominator k·V_ov²·f is zero exactly when one of its factors is. */
  lemma CorrectedGainNonZero(k: real, vov: real, f: real)
    ensures k * Pow(vov, 2) * f != 0.0 <==> k != 0.0 && vov != 0.0 && f != 0.0
  {
    GainNonZero(k, vov);
    ProductNonZero(k * Pow(vov, 2), f);
  }

  // ---------------------------------------------------------------------------
  // The closed forms and the conditions under which the solvers return them.

  /** W = 2·I·L / (k·V_ov²). */
  function IdealWidthFormula(i: real, l: real, k: real, vov: real): real
    requires k != 0.0 && vov != 0.0
  {
    GainNonZero(k, vov);
    2.0 * i * l / (k * Pow(vov, 2))
  }

  /** The correction factor 1 + V/V_A. */
  function ClmFactor(v: real, va: real): real
    requires va != 0.0
  {
    1.0 + v / va
  }

  /** W = 2·I·L / (k·V_ov²·(1 + V/V_A)). */
  function ClmWidthFormula(i: real, l: real, k: real, vov: real, v: real, va: real): real
    requires k != 0.0 && vov != 0.0 && va != 0.0 && ClmFactor(v, va) != 0.0
  {
    CorrectedGainNonZero(k, vov, ClmFactor(v, va));
    2.0 * i * l / (k * Pow(vov, 2) * ClmFactor(v, va))
  }

  /** The four attributes the ideal solver reads are present and hold floats. */
  predicate IdealInputsSet(q: Transistor) {
    IsSet(q, Current) && IsSet(q, Length) && IsSet(q, TransconductanceParameter)
    && IsSet(q, OverdriveVoltage)
  }

  /** The ideal solver returns a width: inputs set, k and V_ov non-zero. */
  predicate IdealDefined(q: Transistor) {
    IdealInputsSet(q)
    && Val(q, TransconductanceParameter) != 0.0 && Val(q, OverdriveVoltage) != 0.0
  }

  /**
    The voltage the corrected equation reads: V_SD on a PMOS, V_DS on
    everything else, the bare base class included.
   */
  function DrainVoltageField(q: Transistor): (f: Field)
    ensures f == VoltageSourceDrain <==> q.Pmos?
    ensures f == VoltageDrainSource <==> !q.Pmos?
    ensures Declares(ClassOf(q), f) <==> !q.Bare?
  {
    if q.Pmos? then VoltageSourceDrain else VoltageDrainSource
  }

  /** The six attributes the corrected solver reads are present and hold floats. */
  predicate ClmInputsSet(q: Transistor) {
    IdealInputsSet(q) && IsSet(q, DrainVoltageField(q)) && IsSet(q, EarlyVoltage)
  }

  /** The corrected solver returns a width: inputs set, no zero denominator. */
  predicate ClmDefined(q: Transistor) {
    && IdealDefined(q)
    && ClmInputsSet(q)
    && Val(q, EarlyVoltage) != 0.0
    && ClmFactor(Val(q, DrainVoltageField(q)), Val(q, EarlyVoltage)) != 0.0
  }

  // ---------------------------------------------------------------------------
  // The two solvers.

  /** `2 * Q.current * Q.length`, the numerator both solvers share. */
  function Numerator(q: Transistor): (r: Result<real, Error>)
    ensures r.Ok? <==> IsSet(q, Current) && IsSet(q, Length)
    ensures r.Ok? ==> r.value == 2.0 * Val(q, Current) * Val(q, Length)
    ensures r.Err? ==> r.error == UnsetOperand
  {
    var i :- Operand(q.common.current);
    var l :- Operand(q.common.length);
    Ok(2.0 * i * l)
  }

  /** `Q.transconductance_parameter * Q.overdrive_voltage**2`. */
  function Gain(q: Transistor): (r: Result<real, Error>)
    ensures r.Ok? <==> IsSet(q, TransconductanceParameter) && IsSet(q, OverdriveVoltage)
    ensures r.Ok? ==> r.value == Val(q, TransconductanceParameter) * Pow(Val(q, OverdriveVoltage), 2)
    ensures r == Err(MissingAttribute(TransconductanceParameter)) <==> q.Bare?
    ensures r.Err? && !q.Bare? ==> r.error == UnsetOperand
  {
    var k :- Attr(q, TransconductanceParameter);
    var vov :- Operand(q.common.overdriveVoltage);
    var kv :- Operand(k);
    Ok(kv * Pow(vov, 2))
  }

  /**
    `current_equation_solve_for_width(Q)`. It returns the ideal width exactly
    when `IdealDefined(Q)`; otherwise it raises TypeError for an unset
    operand, AttributeError on a bare `Transistor` (which has no
    transconductance parameter), or ZeroDivisionError.
   */
  function SolveWidth(q: Transistor): (r: Result<real, Error>)
    ensures r.Ok? <==> IdealDefined(q)
    ensures r.Ok? ==> r.value == IdealWidthFormula(Val(q, Current), Val(q, Length),
                                   Val(q, TransconductanceParameter), Val(q, OverdriveVoltage))
    ensures r == Err(UnsetOperand) <==>
      !IsSet(q, Current) || !IsSet(q, Length)
      || (!q.Bare? && (!IsSet(q, TransconductanceParameter) || !IsSet(q, OverdriveVoltage)))
    ensures r == Err(MissingAttribute(TransconductanceParameter)) <==>
      q.Bare? && IsSet(q, Current) && IsSet(q, Length)
    ensures r == Err(DivisionByZero) <==> IdealInputsSet(q) && !IdealDefined(q)
  {
    var num :- Numerator(q);
    var den :- Gain(q);
    GainNonZero(Val(q, TransconductanceParameter), Val(q, OverdriveVoltage));
    Divide(num, den)
  }

  /**
    `current_equation_with_channel_lenght_modulation_solve_for_width(Q)`: the
    same evaluation with the denominator multiplied by 1 + V/V_A, where V is
    `voltage_source_drain` when `Q` is a PMOS and `voltage_drain_source`
    otherwise.
   */
  function SolveWidthWithClm(q: Transistor): (r: Result<real, Error>)
    ensures r.Ok? <==> ClmDefined(q)
    ensures r.Ok? ==> r.value == ClmWidthFormula(Val(q, Current), Val(q, Length),
                                   Val(q, TransconductanceParameter), Val(q, OverdriveVoltage),
                                   Val(q, DrainVoltageField(q)), Val(q, EarlyVoltage))
    ensures r == Err(UnsetOperand) <==>
      !IsSet(q, Current) || !IsSet(q, Length) || (!q.Bare? && !ClmInputsSet(q))
    ensures r == Err(MissingAttribute(TransconductanceParameter)) <==>
      q.Bare? && IsSet(q, Current) && IsSet(q, Length)
    ensures r == Err(DivisionByZero) <==> ClmInputsSet(q) && !ClmDefined(q)
  {
    var num :- Numerator(q);
    var gain :- Gain(q);
    // Gain succeeded, so q is a variant and declares the selected voltage.
    var v :- Operand(Attr(q, DrainVoltageField(q)).value);
    var va :- Operand(q.common.earlyVoltage);
    var ratio :- Divide(v, va);
    CorrectedGainNonZero(Val(q, TransconductanceParameter), Val(q, OverdriveVoltage), 1.0 + ratio);
    Divide(num, gain * (1.0 + ratio))
  }

  // ---------------------------------------------------------------------------
  // How the two widths relate.

  /** Dividing by a product is dividing by each factor in turn. */
  lemma DivideByProduct(x: real, g: real, f: real)
    requires g != 0.0 && f != 0.0
    ensures g * f != 0.0 && x / (g * f) == (x / g) / f
  {
    ProductNonZero(g, f);
    var y := x / g;
    assert y * g == x;
    assert (y / f) * (g * f) == y * g;
  }

  /** A positive quantity divided by something greater than one shrinks. */
  lemma DivideByMoreThanOne(y: real, f: real)
    requires y > 0.0 && f > 1.0
    ensures y / f < y
  {
    var z := y / f;
    assert z * f == y;
    MulPositive(y, f - 1.0);
    assert y * (f - 1.0) == y * f - y;
    if z >= y {
      MulNonNegative(z - y, f);
      assert (z - y) * f == z * f - y * f;
    }
  }

  /** A non-negative real times a positive one is non-negative. */
  lemma MulNonNegative(a: real, b: real)
    requires a >= 0.0 && b > 0.0
    ensures a * b >= 0.0
  {
  }

  /** A positive real divided by a positive one is positive. */
  lemma DividePositive(x: real, d: real)
    requires x > 0.0 && d > 0.0
    ensures x / d > 0.0
  {
    assert (x / d) * d == x;
  }

  /** The corrected width is the ideal width divided by 1 + V/V_A. */
  lemma ClmIsIdealOverFactor(i: real, l: real, k: real, vov: real, v: real, va: real)
    requires k != 0.0 && vov != 0.0 && va != 0.0 && ClmFactor(v, va) != 0.0
    ensures ClmWidthFormula(i, l, k, vov, v, va) == IdealWidthFormula(i, l, k, vov) / ClmFactor(v, va)
  {
    GainNonZero(k, vov);
    DivideByProduct(2.0 * i * l, k * Pow(vov, 2), ClmFactor(v, va));
  }

  /** With positive inputs and V/V_A > 0 the correction strictly narrows the width. */
  lemma ClmFormulaBelowIdeal(i: real, l: real, k: real, vov: real, v: real, va: real)
    requires i > 0.0 && l > 0.0 && k > 0.0 && vov > 0.0 && va > 0.0 && v / va > 0.0
    ensures ClmWidthFormula(i, l, k, vov, v, va) < IdealWidthFormula(i, l, k, vov)
  {
    ClmIsIdealOverFactor(i, l, k, vov, v, va);
    MulPositive(2.0 * i, l);
    SquarePositive(vov);
    MulPositive(k, Pow(vov, 2));
    DividePositive(2.0 * i * l, k * Pow(vov, 2));
    DivideByMoreThanOne(IdealWidthFormula(i, l, k, vov), ClmFactor(v, va));
  }

  /** With V = 0 the correction factor is 1 and the widths agree. */
  lemma ClmFormulaAtZeroVoltage(i: real, l: real, k: real, vov: real, va: real)
    requires k != 0.0 && vov != 0.0 && va != 0.0
    ensures ClmFactor(0.0, va) == 1.0
    ensures ClmWidthFormula(i, l, k, vov, 0.0, va) == IdealWidthFormula(i, l, k, vov)
  {
    ClmIsIdealOverFactor(i, l, k, vov, 0.0, va);
  }

  /**
    Wherever the corrected solver returns a width, the ideal solver returns
    one too, and the corrected width is the ideal width over 1 + V/V_A.
   */
  lemma ClmWidthIsIdealOverFactor(q: Transistor)
    requires SolveWidthWithClm(q).Ok?
    ensures SolveWidth(q).Ok?
    ensures SolveWidthWithClm(q).value
      == SolveWidth(q).value / ClmFactor(Val(q, DrainVoltageField(q)), Val(q, EarlyVoltage))
  {
    ClmIsIdealOverFactor(Val(q, Current), Val(q, Length), Val(q, TransconductanceParameter),
                         Val(q, OverdriveVoltage), Val(q, DrainVoltageField(q)), Val(q, EarlyVoltage));
  }

  /**
    With current, length, k, V_ov and V_A positive and V/V_A > 0, both
    solvers return a width and the corrected one is strictly smaller.
   */
  lemma ClmWidthBelowIdealWidth(q: Transistor)
    requires ClmInputsSet(q)
    requires Val(q, Current) > 0.0 && Val(q, Length) > 0.0
    requires Val(q, TransconductanceParameter) > 0.0 && Val(q, OverdriveVoltage) > 0.0
    requires Val(q, EarlyVoltage) > 0.0 && Val(q, DrainVoltageField(q)) / Val(q, EarlyVoltage) > 0.0
    ensures SolveWidth(q).Ok? && SolveWidthWithClm(q).Ok?
    ensures SolveWidthWithClm(q).value < SolveWidth(q).value
  {
    ClmFormulaBelowIdeal(Val(q, Current), Val(q, Length), Val(q, TransconductanceParameter),
                         Val(q, OverdriveVoltage), Val(q, DrainVoltageField(q)), Val(q, EarlyVoltage));
  }

  /**
    With the selected voltage 0 and V_A non-zero the two solvers give the
    same outcome: the same width, or the same exception.
   */
  lemma ClmWidthAtZeroVoltage(q: Transistor)
    requires IsSet(q, DrainVoltageField(q)) && IsSet(q, EarlyVoltage)
    requires Val(q, DrainVoltageField(q)) == 0.0 && Val(q, EarlyVoltage) != 0.0
    ensures SolveWidthWithClm(q) == SolveWidth(q)
  {
    if IdealDefined(q) {
      ClmFormulaAtZeroVoltage(Val(q, Current), Val(q, Length), Val(q, TransconductanceParameter),
                              Val(q, OverdriveVoltage), Val(q, EarlyVoltage));
    }
  }

  /**
    A PMOS whose V_SD is v and an NMOS whose V_DS is v, with the same base
    scalars and transconductance parameter, get the same widths from both
    solvers, whatever their other terminal voltages.
   */
  lemma PmosNmosSymmetry(c: Common, gs: Value, gd: Value, sg: Value, dg: Value, v: Value, k: Value)
    ensures SolveWidth(Pmos(c, sg, v, dg, k)) == SolveWidth(Nmos(c, gs, v, gd, k))
    ensures SolveWidthWithClm(Pmos(c, sg, v, dg, k)) == SolveWidthWithClm(Nmos(c, gs, v, gd, k))
  {
  }

  /** A bare `Transistor` never gets a width from either solver. */
  lemma BareTransistorHasNoWidth(c: Common)
    ensures SolveWidth(Bare(c)).Err? && SolveWidthWithClm(Bare(c)).Err?
    ensures c.current.Some? && c.length.Some? ==>
      SolveWidth(Bare(c)) == SolveWidthWithClm(Bare(c)) == Err(MissingAttribute(TransconductanceParameter))
  {
  }

  /**
    NMOS(current=0.002, length=0.0001, transconductance_parameter=0.0002,
    overdrive_voltage=0.2): W = 2·0.002·0.0001 / (0.0002·0.2²) = 0.05.
   */
  lemma NmosWidthExample()
    ensures var q := NewNmos(map[Current := Some(0.002), Length := Some(0.0001),
                                 TransconductanceParameter := Some(0.0002), OverdriveVoltage := Some(0.2)]);
      q.Ok? && SolveWidth(q.value) == Ok(0.05)
  {
  }
}
