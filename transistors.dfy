/**
  The transistor records: a base `Transistor` with eight optional electrical
  scalars, and the `NMOS` and `PMOS` variants that each add three terminal
  voltages and a transconductance parameter. Every scalar is a Python float
  or `None`; `None` means "not yet known" and is never replaced by 0.
 */
module Transistors {
  import opened Wrappers

  /** The attribute names declared by the three classes. */
  datatype Field =
    | OverdriveVoltage | Current | CurrentWithChannelLengthMod | OutputResistance
    | Width | Length | EarlyVoltage | ThresholdVoltage
    | VoltageGateSource | VoltageDrainSource | VoltageGateDrain
    | VoltageSourceGate | VoltageSourceDrain | VoltageDrainGate
    | TransconductanceParameter

  /** The class an instance was built from. */
  datatype Class = TransistorClass | NmosClass | PmosClass

  /** How a call fails: the Python exception it raises, by its cause. */
  datatype Error =
    | UnexpectedKeywords(names: set<Field>)  // TypeError from `__init__`
    | MissingAttribute(field: Field)         // AttributeError
    | UnsetOperand                           // TypeError: arithmetic on None
    | DivisionByZero                         // ZeroDivisionError

  /** A stored scalar: `Some(x)` for a float x, `None` for Python's None. */
  type Value = Option<real>

  /** Whether instances of class `c` have attribute `f`. */
  predicate Declares(c: Class, f: Field) {
    match f
    case VoltageGateSource | VoltageDrainSource | VoltageGateDrain => c == NmosClass
    case VoltageSourceGate | VoltageSourceDrain | VoltageDrainGate => c == PmosClass
    case TransconductanceParameter => c != TransistorClass
    case _ => true
  }

  /** `f` is one of the eight attributes of the base class. */
  predicate IsBaseField(f: Field) {
    Declares(TransistorClass, f)
  }

  /** `f` is declared by variant `c` itself, not inherited from the base class. */
  predicate IsOwnField(c: Class, f: Field) {
    Declares(c, f) && !IsBaseField(f)
  }

  /** The eight scalars every transistor carries. */
  datatype Common = Common(
    overdriveVoltage: Value,
    current: Value,
    currentWithChannelLengthMod: Value,
    outputResistance: Value,
    width: Value,
    length: Value,
    earlyVoltage: Value,
    thresholdVoltage: Value)

  /**
    One instance of `Transistor`, `NMOS` or `PMOS`. Datatype equality is the
    dataclass `__eq__`: same class and every field equal.
   */
  datatype Transistor =
    | Bare(common: Common)
    | Nmos(common: Common, voltageGateSource: Value, voltageDrainSource: Value,
           voltageGateDrain: Value, transconductanceParameter: Value)
    | Pmos(common: Common, voltageSourceGate: Value, voltageSourceDrain: Value,
           voltageDrainGate: Value, transconductanceParameter: Value)

  function ClassOf(q: Transistor): Class {
    match q
    case Bare(_) => TransistorClass
    case Nmos(_, _, _, _, _) => NmosClass
    case Pmos(_, _, _, _, _) => PmosClass
  }

  /** Attribute lookup `q.f`: the stored value, or AttributeError. */
  function Attr(q: Transistor, f: Field): (r: Result<Value, Error>)
    ensures r.Ok? <==> Declares(ClassOf(q), f)
    ensures r.Err? ==> r.error == MissingAttribute(f)
  {
    match f
    case OverdriveVoltage => Ok(q.common.overdriveVoltage)
    case Current => Ok(q.common.current)
    case CurrentWithChannelLengthMod => Ok(q.common.currentWithChannelLengthMod)
    case OutputResistance => Ok(q.common.outputResistance)
    case Width => Ok(q.common.width)
    case Length => Ok(q.common.length)
    case EarlyVoltage => Ok(q.common.earlyVoltage)
    case ThresholdVoltage => Ok(q.common.thresholdVoltage)
    case VoltageGateSource => if q.Nmos? then Ok(q.voltageGateSource) else Err(MissingAttribute(f))
    case VoltageDrainSource => if q.Nmos? then Ok(q.voltageDrainSource) else Err(MissingAttribute(f))
    case VoltageGateDrain => if q.Nmos? then Ok(q.voltageGateDrain) else Err(MissingAttribute(f))
    case VoltageSourceGate => if q.Pmos? then Ok(q.voltageSourceGate) else Err(MissingAttribute(f))
    case VoltageSourceDrain => if q.Pmos? then Ok(q.voltageSourceDrain) else Err(MissingAttribute(f))
    case VoltageDrainGate => if q.Pmos? then Ok(q.voltageDrainGate) else Err(MissingAttribute(f))
    case TransconductanceParameter =>
      if q.Bare? then Err(MissingAttribute(f)) else Ok(q.transconductanceParameter)
  }

  /** `q` has attribute `f` and it holds a float, not None. */
  predicate IsSet(q: Transistor, f: Field) {
    Attr(q, f).Ok? && Attr(q, f).value.Some?
  }

  /** The float held by a set attribute. */
  function Val(q: Transistor, f: Field): real
    requires IsSet(q, f)
  {
    Attr(q, f).value.value
  }

  /** A keyword argument's value; an omitted keyword defaults to None. */
  function Arg(kwargs: map<Field, Value>, f: Field): Value {
    if f in kwargs then kwargs[f] else None
  }

  /** The keywords that class `c`'s constructor does not accept. */
  function Unexpected(c: Class, kwargs: map<Field, Value>): set<Field> {
    set f | f in kwargs && !Declares(c, f)
  }

  /** The keywords a variant constructor passes on to `Transistor.__init__`. */
  function Rest(c: Class, kwargs: map<Field, Value>): map<Field, Value> {
    map f | f in kwargs && !IsOwnField(c, f) :: kwargs[f]
  }

  /** Every attribute of `q` holds exactly what `kwargs` supplied for it. */
  ghost predicate Stores(q: Transistor, kwargs: map<Field, Value>) {
    forall f :: Declares(ClassOf(q), f) ==> Attr(q, f) == Ok(Arg(kwargs, f))
  }

  /** The base part built from the base keywords, each defaulting to None. */
  function BaseArgs(kwargs: map<Field, Value>): Common {
    Common(
      Arg(kwargs, OverdriveVoltage),
      Arg(kwargs, Current),
      Arg(kwargs, CurrentWithChannelLengthMod),
      Arg(kwargs, OutputResistance),
      Arg(kwargs, Width),
      Arg(kwargs, Length),
      Arg(kwargs, EarlyVoltage),
      Arg(kwargs, ThresholdVoltage))
  }

  /** `Transistor(**kwargs)`. */
  function NewTransistor(kwargs: map<Field, Value>): (r: Result<Transistor, Error>)
    ensures r.Ok? <==> forall f :: f in kwargs ==> IsBaseField(f)
    ensures r.Err? ==> r.error == UnexpectedKeywords(Unexpected(TransistorClass, kwargs))
    ensures r.Ok? ==> ClassOf(r.value) == TransistorClass && Stores(r.value, kwargs)
  {
    var unexpected := Unexpected(TransistorClass, kwargs);
    NoneUnexpected(TransistorClass, kwargs);
    if unexpected != {} then
      Err(UnexpectedKeywords(unexpected))
    else
      BareStores(kwargs);
      Ok(Bare(BaseArgs(kwargs)))
  }

  /** `NMOS(**kwargs)`: takes its own four keywords, forwards the rest to `Transistor.__init__`. */
  function NewNmos(kwargs: map<Field, Value>): (r: Result<Transistor, Error>)
    ensures r.Ok? <==> forall f :: f in kwargs ==> Declares(NmosClass, f)
    ensures r.Err? ==> r.error == UnexpectedKeywords(Unexpected(NmosClass, kwargs))
    ensures r.Ok? ==> ClassOf(r.value) == NmosClass && Stores(r.value, kwargs)
  {
    RestUnexpected(NmosClass, kwargs);
    NoneUnexpected(NmosClass, kwargs);
    var base :- NewTransistor(Rest(NmosClass, kwargs));
    var q := Nmos(base.common,
      Arg(kwargs, VoltageGateSource),
      Arg(kwargs, VoltageDrainSource),
      Arg(kwargs, VoltageGateDrain),
      Arg(kwargs, TransconductanceParameter));
    VariantStores(q, base, kwargs);
    Ok(q)
  }

  /** `PMOS(**kwargs)`: takes its own four keywords, forwards the rest to `Transistor.__init__`. */
  function NewPmos(kwargs: map<Field, Value>): (r: Result<Transistor, Error>)
    ensures r.Ok? <==> forall f :: f in kwargs ==> Declares(PmosClass, f)
    ensures r.Err? ==> r.error == UnexpectedKeywords(Unexpected(PmosClass, kwargs))
    ensures r.Ok? ==> ClassOf(r.value) == PmosClass && Stores(r.value, kwargs)
  {
    RestUnexpected(PmosClass, kwargs);
    NoneUnexpected(PmosClass, kwargs);
    var base :- NewTransistor(Rest(PmosClass, kwargs));
    var q := Pmos(base.common,
      Arg(kwargs, VoltageSourceGate),
      Arg(kwargs, VoltageSourceDrain),
      Arg(kwargs, VoltageDrainGate),
      Arg(kwargs, TransconductanceParameter));
    VariantStores(q, base, kwargs);
    Ok(q)
  }

  /** A constructor accepts `kwargs` exactly when it declares every keyword. */
  lemma NoneUnexpected(c: Class, kwargs: map<Field, Value>)
    ensures Unexpected(c, kwargs) == {} <==> forall f :: f in kwargs ==> Declares(c, f)
  {
    if Unexpected(c, kwargs) == {} {
      forall f | f in kwargs ensures Declares(c, f) {
        assert f !in Unexpected(c, kwargs);
      }
    }
  }

  /** The base constructor rejects exactly the keywords the variant does not declare. */
  lemma RestUnexpected(c: Class, kwargs: map<Field, Value>)
    ensures Unexpected(TransistorClass, Rest(c, kwargs)) == Unexpected(c, kwargs)
  {
  }

  /** A base field reads the same on a variant as on its bare base part. */
  lemma BaseAttr(q: Transistor, f: Field)
    requires IsBaseField(f)
    ensures Attr(q, f) == Attr(Bare(q.common), f)
  {
  }

  /** A bare transistor built from `BaseArgs(kwargs)` stores `kwargs`. */
  lemma BareStores(kwargs: map<Field, Value>)
    ensures Stores(Bare(BaseArgs(kwargs)), kwargs)
  {
  }

  /**
    A variant whose base part stores the forwarded keywords and whose own
    fields hold their keywords stores all of `kwargs`.
   */
  lemma VariantStores(q: Transistor, base: Transistor, kwargs: map<Field, Value>)
    requires base == Bare(q.common)
    requires Stores(base, Rest(ClassOf(q), kwargs))
    requires q.Nmos? ==>
      && q.voltageGateSource == Arg(kwargs, VoltageGateSource)
      && q.voltageDrainSource == Arg(kwargs, VoltageDrainSource)
      && q.voltageGateDrain == Arg(kwargs, VoltageGateDrain)
    requires q.Pmos? ==>
      && q.voltageSourceGate == Arg(kwargs, VoltageSourceGate)
      && q.voltageSourceDrain == Arg(kwargs, VoltageSourceDrain)
      && q.voltageDrainGate == Arg(kwargs, VoltageDrainGate)
    requires !q.Bare? ==> q.transconductanceParameter == Arg(kwargs, TransconductanceParameter)
    ensures Stores(q, kwargs)
  {
    forall f | Declares(ClassOf(q), f) ensures Attr(q, f) == Ok(Arg(kwargs, f)) {
      if IsBaseField(f) {
        assert Attr(base, f) == Ok(Arg(Rest(ClassOf(q), kwargs), f));
        BaseAttr(q, f);
      }
    }
  }

  /** Calls the constructor of class `c`. */
  function New(c: Class, kwargs: map<Field, Value>): Result<Transistor, Error> {
    match c
    case TransistorClass => NewTransistor(kwargs)
    case NmosClass => NewNmos(kwargs)
    case PmosClass => NewPmos(kwargs)
  }

  /** The dataclass `__eq__`: same class, and every attribute equal. */
  ghost predicate DataclassEq(p: Transistor, q: Transistor) {
    ClassOf(p) == ClassOf(q) && forall f :: Declares(ClassOf(p), f) ==> Attr(p, f) == Attr(q, f)
  }

  /** Agreement on the eight base attributes makes the base parts equal. */
  lemma SameCommon(p: Transistor, q: Transistor)
    requires forall f :: IsBaseField(f) ==> Attr(p, f) == Attr(q, f)
    ensures p.common == q.common
  {
    assert Attr(p, OverdriveVoltage) == Attr(q, OverdriveVoltage);
    assert Attr(p, Current) == Attr(q, Current);
    assert Attr(p, CurrentWithChannelLengthMod) == Attr(q, CurrentWithChannelLengthMod);
    assert Attr(p, OutputResistance) == Attr(q, OutputResistance);
    assert Attr(p, Width) == Attr(q, Width);
    assert Attr(p, Length) == Attr(q, Length);
    assert Attr(p, EarlyVoltage) == Attr(q, EarlyVoltage);
    assert Attr(p, ThresholdVoltage) == Attr(q, ThresholdVoltage);
  }

  /** Equal field tuples of the same class make equal records, and conversely. */
  lemma {:induction false} DataclassEqIsEquality(p: Transistor, q: Transistor)
    ensures DataclassEq(p, q) <==> p == q
  {
    if DataclassEq(p, q) {
      SameCommon(p, q);
      match p
      case Bare(_) =>
      case Nmos(_, _, _, _, _) =>
        assert Attr(p, VoltageGateSource) == Attr(q, VoltageGateSource);
        assert Attr(p, VoltageDrainSource) == Attr(q, VoltageDrainSource);
        assert Attr(p, VoltageGateDrain) == Attr(q, VoltageGateDrain);
        assert Attr(p, TransconductanceParameter) == Attr(q, TransconductanceParameter);
      case Pmos(_, _, _, _, _) =>
        assert Attr(p, VoltageSourceGate) == Attr(q, VoltageSourceGate);
        assert Attr(p, VoltageSourceDrain) == Attr(q, VoltageSourceDrain);
        assert Attr(p, VoltageDrainGate) == Attr(q, VoltageDrainGate);
        assert Attr(p, TransconductanceParameter) == Attr(q, TransconductanceParameter);
    }
  }

  /** Every attribute name, in declaration order. */
  const AllFields: seq<Field> :=
    [OverdriveVoltage, Current, CurrentWithChannelLengthMod, OutputResistance,
     Width, Length, EarlyVoltage, ThresholdVoltage,
     VoltageGateSource, VoltageDrainSource, VoltageGateDrain,
     VoltageSourceGate, VoltageSourceDrain, VoltageDrainGate,
     TransconductanceParameter]

  /** The keyword arguments that name every attribute of `q` with its value. */
  function KeywordsOf(q: Transistor): (kwargs: map<Field, Value>)
    ensures forall f :: f in kwargs <==> Declares(ClassOf(q), f)
  {
    map f | f in AllFields && Declares(ClassOf(q), f) :: Attr(q, f).value
  }

  /** Constructing with `q`'s own attribute values rebuilds `q`: every record is reachable. */
  lemma {:induction false} RebuildFromKeywords(q: Transistor)
    ensures New(ClassOf(q), KeywordsOf(q)) == Ok(q)
  {
    var kwargs := KeywordsOf(q);
    var r := New(ClassOf(q), kwargs);
    assert r.Ok?;
    assert Stores(r.value, kwargs);
    assert DataclassEq(r.value, q) by {
      forall f | Declares(ClassOf(q), f) ensures Attr(r.value, f) == Attr(q, f) {
      }
    }
    DataclassEqIsEquality(r.value, q);
  }

  /** A field the caller does not supply is unset, never 0. */
  lemma OmittedKeywordIsUnset(c: Class, kwargs: map<Field, Value>, f: Field)
    requires New(c, kwargs).Ok? && Declares(c, f) && f !in kwargs
    ensures Attr(New(c, kwargs).value, f) == Ok(None)
  {
  }

  /**
    A variant constructor hands the keywords it does not declare to the base
    constructor unchanged, so its base part is exactly what the caller's own
    base keywords give, each omitted one None: `NMOS(current=x)` and
    `Transistor(current=x)` have the same base fields.
   */
  lemma VariantForwardsBaseKeywords(c: Class, kwargs: map<Field, Value>)
    requires c != TransistorClass && New(c, kwargs).Ok?
    ensures New(c, kwargs).value.common == BaseArgs(kwargs)
  {
    SameCommon(New(c, kwargs).value, Bare(BaseArgs(kwargs)));
  }
}
