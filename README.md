# Transistor records and width solvers

A model of `code/transistors.py`. That file has two parts.

- A record hierarchy:
  - a base `Transistor` with eight optional electrical scalars;
  - the variants `NMOS` (adds V_GS, V_DS, V_GD and k_n) and `PMOS` (adds V_SG, V_SD, V_DG and k_p).
- Two closed-form solvers of the square-law MOSFET drain-current equation for the channel width:
  - the ideal form, W = 2·I·L / (k·V_ov²);
  - the channel-length-modulation (CLM) form, which divides further by 1 + V/V_A. V is V_SD on a `PMOS` and V_DS on anything else.

Files:

- `wrappers.dfy`: `Option`, and `Result` with `:-` propagation.
- `transistors.dfy`: module `Transistors`. It holds the records, the attribute lookup, the three keyword-argument constructors and dataclass equality.
- `equations.dfy`: module `Equations`. It holds the two solvers, the closed forms, and the lemmas relating them.

How the model is built:

- **Records.** A record is an immutable datatype. Every scalar is an `Option<real>`, where `None` is Python's `None`. The variant tag stands for the object's class, and `Attr` is attribute lookup. Reading a field that the class does not declare gives `MissingAttribute`, i.e. Python's AttributeError.
- **Constructors.**
  - A constructor call is modelled as a map from field names to values, i.e. the keyword arguments.
  - A keyword the class does not accept raises TypeError. The model's `UnexpectedKeywords` records every unexpected keyword, where Python's message names only the first.
  - A variant constructor keeps its own four keywords and passes the rest to the base constructor (see `Rest`), exactly as `super().__init__(**kwargs)` does.
- **Solvers.** Each solver evaluates its expression in Python's order, left operand first, and stops at the first exception:
  - arithmetic on `None` gives `UnsetOperand` (TypeError);
  - a missing attribute gives `MissingAttribute`;
  - dividing by zero gives `DivisionByZero` (ZeroDivisionError).
  
  The contracts give the exact condition for each outcome. Arithmetic is over the reals.
- **Unset inputs follow the code.** The code raises TypeError when an input is unset; it does not produce NaN, and the model follows the code.
- **The order of errors on a bare `Transistor`.** An unset `current` or `length` raises TypeError before the missing `transconductance_parameter` is looked up. The CLM solver on a bare `Transistor` takes the not-PMOS branch and fails there at `transconductance_parameter` (or earlier, with TypeError, on an unset current or length), before the branch's voltage is read. The model selects the voltage field after the gain, with the same outcome.
- **Squares.** `overdrive_voltage**2` is modelled by `Pow(x, n)`, Python's `**` for a natural exponent.

## Model

| member | source | states |
|---|---|---|
| Transistors.Attr | code/transistors.py:5-56 | An attribute lookup succeeds exactly when the instance's class declares the field. Otherwise it raises AttributeError for that field: a bare `Transistor` has no terminal voltages and no transconductance parameter. |
| Transistors.NewTransistor | code/transistors.py:15-33 | `Transistor(**kw)` succeeds exactly when every keyword is one of the eight base fields. Otherwise it raises TypeError; the model records exactly the set of unexpected keywords. On success, every declared field holds the supplied value, or `None` when it was omitted. |
| Transistors.NewNmos | code/transistors.py:43-48 | `NMOS(**kw)` succeeds exactly when every keyword is a base field or one of V_GS, V_DS, V_GD, k. Otherwise it raises TypeError; the model records the set of unexpected keywords, including those the base constructor rejects. On success, all twelve fields hold the supplied value or `None`. |
| Transistors.NewPmos | code/transistors.py:58-63 | The same for `PMOS(**kw)` with V_SG, V_SD, V_DG, k. |
| Transistors.OmittedKeywordIsUnset | code/transistors.py:15-25 | A declared field whose keyword was not supplied is `None` after construction, never 0. |
| Transistors.VariantForwardsBaseKeywords | code/transistors.py:43-44 | After a successful `NMOS`/`PMOS` construction, the eight base fields are exactly the caller's base keywords, each omitted one `None`. They are what `Transistor(**kw)` with the same base keywords would store. |
| Transistors.RebuildFromKeywords | code/transistors.py:15-33 | Every record is produced by its class's constructor, given that record's own field values as keywords. So construction misses no field and adds none. |
| Transistors.KeywordsOf | code/transistors.py:15-25 | The keywords of a record are exactly the fields its class declares. |
| Transistors.DataclassEqIsEquality | code/transistors.py:36-37 | The dataclass `__eq__` holds exactly when the two records are equal values: the same class, and every declared field is equal. |
| Equations.Numerator | code/transistors.py:67 | `2 * Q.current * Q.length` yields 2·I·L exactly when both fields are set. Otherwise it raises TypeError. |
| Equations.Gain | code/transistors.py:67 | `Q.transconductance_parameter * Q.overdrive_voltage**2` yields k·V_ov² exactly when both are set. It raises AttributeError exactly on a bare `Transistor`, and TypeError otherwise. |
| Equations.GainNonZero | code/transistors.py:67 | k·V_ov² is non-zero exactly when k and V_ov are both non-zero. |
| Equations.CorrectedGainNonZero | code/transistors.py:72 | k·V_ov²·f is non-zero exactly when k, V_ov and f are all non-zero. |
| Equations.SolveWidth | code/transistors.py:66-67 | The ideal solver returns 2·I·L/(k·V_ov²) exactly when all four inputs are set and k and V_ov are non-zero. It raises TypeError exactly when current or length is unset, or when a variant has k or V_ov unset. It raises AttributeError exactly on a bare `Transistor` with current and length set. It raises ZeroDivisionError exactly when the inputs are set but k or V_ov is 0. |
| Equations.DrainVoltageField | code/transistors.py:71-74 | The CLM voltage is `voltage_source_drain` exactly on a `PMOS`, and `voltage_drain_source` exactly on the others. The selected field exists on both variants and not on a bare `Transistor`. |
| Equations.SolveWidthWithClm | code/transistors.py:70-74 | The CLM solver returns 2·I·L/(k·V_ov²·(1+V/V_A)) with the selected V exactly when all six inputs are set, k, V_ov and V_A are non-zero, and 1+V/V_A is non-zero. Each exception is characterised as for the ideal solver. ZeroDivisionError is raised exactly when the inputs are set but k, V_ov, V_A or 1+V/V_A is 0. |
| Equations.ClmIsIdealOverFactor | code/transistors.py:72 | The CLM closed form equals the ideal closed form divided by 1 + V/V_A. |
| Equations.ClmFormulaBelowIdeal | code/transistors.py:72 | With I, L, k, V_ov and V_A positive and V/V_A > 0, the CLM closed form is strictly less than the ideal one. |
| Equations.ClmFormulaAtZeroVoltage | code/transistors.py:74 | With V = 0 the correction factor is 1 and the two closed forms are equal. |
| Equations.ClmWidthIsIdealOverFactor | code/transistors.py:70-74 | Whenever the CLM solver returns a width, the ideal solver returns one as well. The CLM width is the ideal width divided by 1 + V/V_A. |
| Equations.ClmWidthBelowIdealWidth | code/transistors.py:70-74 | For a record with positive I, L, k, V_ov and V_A and V/V_A > 0, both solvers succeed and the CLM width is strictly smaller. |
| Equations.ClmWidthAtZeroVoltage | code/transistors.py:70-74 | With the selected voltage set to 0 and V_A set and non-zero, both solvers give the same outcome whatever current, length, k and V_ov hold: the same width, or the same exception (TypeError for an unset one, ZeroDivisionError for k or V_ov zero). |
| Equations.PmosNmosSymmetry | code/transistors.py:71-74 | Take a `PMOS` with V_SD = v and an `NMOS` with V_DS = v, with equal base fields and equal k. Both solvers give them the same result, whatever their other voltages. |
| Equations.BareTransistorHasNoWidth | code/transistors.py:66-67 | Neither solver returns a width for a bare `Transistor`. With current and length set, both raise AttributeError for `transconductance_parameter`. |
| Equations.NmosWidthExample | code/transistors.py:66-67 | `NMOS(current=0.002, length=0.0001, transconductance_parameter=0.0002, overdrive_voltage=0.2)` is constructed, and its ideal width is exactly 0.05. |

## Left out

- Floating point: the arithmetic is over the reals. IEEE-754 rounding, infinities and NaN are not modelled. Only an exactly zero divisor raises ZeroDivisionError. In floats, `k * V_ov**2` can underflow to 0.0 with neither factor zero (k = 1e-200, V_ov = 1e-100) and raise ZeroDivisionError; the model's "exactly when k or V_ov is 0" does not cover that underflow.
- Overflow: Python's float `**` raises OverflowError when `overdrive_voltage**2` overflows (|V_ov| above about 1.3e154), and a float `*` overflows to infinity. `Error` has no case for OverflowError, because real arithmetic never overflows.
- The text of the TypeError for unexpected keywords: Python names only the first unexpected keyword in call order. `UnexpectedKeywords` carries the whole set, because a map of keyword arguments has no call order.
- Positional constructor arguments: only keyword arguments are modelled. With keywords, each field is assigned exactly once, just as with positional arguments.
- Keyword names other than the fifteen field names: they are not representable. Python rejects them with TypeError on every class.
- Non-float values stored in fields (ints, strings): values are `None` or a real. Python would accept any object.
- Subclasses of `PMOS` or `NMOS` other than the two classes themselves: the `isinstance` branch is modelled on the three classes' tags.
- Mutation after construction: Python allows it, but the code never does it. Records are immutable values. Python can also add an attribute the class does not declare: after `t = Transistor(); t.transconductance_parameter = 1.0`, the ideal solver returns a width for a bare instance. `BareTransistorHasNoWidth` and the AttributeError cases hold only for records as the constructors build them.
- The dataclass-generated `__repr__` and the class-level default attributes: the explicit `__init__` methods always set every instance field, so the class-level defaults are never read.
