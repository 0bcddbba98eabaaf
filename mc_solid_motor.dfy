/** The `set_attr` root validator of `McSolidMotor` (rocketpy/monte_carlo/mc_solid_motor.py):
    each Monte Carlo input of a solid motor is checked and, where needed, completed with
    the motor's nominal value into `(nominal, std)`, `(nominal, std, "distribution")` or a
    list of candidate values; a number-led tuple of another length is kept unchecked. */
module McSolidMotor {

  import opened Wrappers
  import opened PyObjects

  /** The fields the validator rewrites, in the order it visits them. */
  const ValidateFields: seq<string> := [
    "thrustSource", "burnOutTime", "grainsCenterOfMassPosition", "grainNumber",
    "grainDensity", "grainOuterRadius", "grainInitialInnerRadius", "grainInitialHeight",
    "grainSeparation", "nozzleRadius", "nozzlePosition", "throatRadius",
    "totalImpulse", "position"]

  /** Why validation stops. The first four are the failed `assert`s (one per message),
      `NotSupported` the explicit `ValueError`, `EmptyTuple` the `IndexError` of `v[0]`
      on `()`, `MissingEntry` the `KeyError` of `values[field]` and `MissingAttribute`
      the `AttributeError` of `getattr` on the motor. */
  datatype MotorError =
    | FirstItemNotNumber(field: string)
    | SecondItemInvalid(field: string)
    | ThirdItemNotString(field: string)
    | ListItemNotNumber(field: string)
    | NotSupported(field: string)
    | EmptyTuple(field: string)
    | MissingEntry(field: string)
    | MissingAttribute(field: string)

  /** The nominal value the wrapped `SolidMotor` holds for `field`; `motor` maps its
      attribute names to their values. */
  function Nominal(field: string, motor: map<string, PyValue>): Result<PyValue, MotorError> {
    if field in motor then Success(motor[field]) else Failure(MissingAttribute(field))
  }

  predicate AllNumbers(items: seq<PyValue>) {
    forall i :: 0 <= i < |items| ==> IsNumber(items[i])
  }

  /** A pair `(std, "distribution")`, which the validator completes with the nominal. */
  predicate StdAndDistribution(v: PyValue) {
    v.PyTuple? && |v.items| == 2 && IsNumber(v.items[0]) && v.items[1].PyStr?
  }

  /** One pass of the loop body for `field` with input `v`: the value stored back into
      `values[field]`, or the error raised. */
  function Normalise(field: string, v: PyValue, motor: map<string, PyValue>)
    : (r: Result<PyValue, MotorError>)
    // the rewrites that bring in the motor's nominal value
    ensures IsNumber(v) && field in motor ==> r == Success(PyTuple([motor[field], v]))
    ensures v == PyList([]) && field in motor ==> r == Success(PyList([motor[field]]))
    ensures StdAndDistribution(v) && field in motor ==>
      r == Success(PyTuple([motor[field], v.items[0], v.items[1]]))
    ensures r == Failure(MissingAttribute(field)) <==>
      field !in motor && (IsNumber(v) || v == PyList([]) || StdAndDistribution(v))
    // the failed assertions and the explicit ValueError, one condition each
    ensures r == Failure(EmptyTuple(field)) <==> v == PyTuple([])
    ensures r == Failure(FirstItemNotNumber(field)) <==>
      v.PyTuple? && |v.items| > 0 && !IsNumber(v.items[0])
    ensures r == Failure(SecondItemInvalid(field)) <==>
      v.PyTuple? && 2 <= |v.items| <= 3 && IsNumber(v.items[0]) && !IsNumber(v.items[1]) &&
      (|v.items| == 2 ==> !v.items[1].PyStr?)
    ensures r == Failure(ThirdItemNotString(field)) <==>
      v.PyTuple? && |v.items| == 3 && IsNumber(v.items[0]) && IsNumber(v.items[1]) && !v.items[2].PyStr?
    ensures r == Failure(ListItemNotNumber(field)) <==>
      v.PyList? && |v.items| > 0 && !AllNumbers(v.items)
    ensures r == Failure(NotSupported(field)) <==> !(v.PyTuple? || v.PyList? || IsNumber(v))
    ensures r.Failure? ==> r.error.field == field
    // every other input is stored as it is
    ensures r.Success? && !(IsNumber(v) || v == PyList([]) || StdAndDistribution(v)) ==> r.value == v
  {
    match v
    case PyTuple(items) =>
      if |items| == 0 then Failure(EmptyTuple(field))
      else if !IsNumber(items[0]) then Failure(FirstItemNotNumber(field))
      else if |items| == 2 then
        if IsNumber(items[1]) then Success(v)
        else if items[1].PyStr? then
          (match Nominal(field, motor)
           case Success(nominal) => Success(PyTuple([nominal, items[0], items[1]]))
           case Failure(e) => Failure(e))
        else Failure(SecondItemInvalid(field))
      else if |items| == 3 then
        if !IsNumber(items[1]) then Failure(SecondItemInvalid(field))
        else if !items[2].PyStr? then Failure(ThirdItemNotString(field))
        else Success(v)
      else Success(v)
    case PyList(items) =>
      if |items| == 0 then
        (match Nominal(field, motor)
         case Success(nominal) => Success(PyList([nominal]))
         case Failure(e) => Failure(e))
      else if AllNumbers(items) then Success(v)
      else Failure(ListItemNotNumber(field))
    case _ =>
      if IsNumber(v) then
        (match Nominal(field, motor)
         case Success(nominal) => Success(PyTuple([nominal, v]))
         case Failure(e) => Failure(e))
      else Failure(NotSupported(field))
  }

  /** The forms the docstring of `set_attr` promises: `(nominal, std)`,
      `(nominal, std, "distribution")` or a non-empty list of numbers. */
  predicate DocumentedForm(v: PyValue) {
    match v
    case PyTuple(items) =>
      (|items| == 2 && IsNumber(items[0]) && IsNumber(items[1])) ||
      (|items| == 3 && IsNumber(items[0]) && IsNumber(items[1]) && items[2].PyStr?)
    case PyList(items) => |items| > 0 && AllNumbers(items)
    case _ => false
  }

  /** What the validator stores: a documented form, or a tuple of another length led by
      a number, which no branch checks and which is kept as it is. */
  predicate StoredForm(v: PyValue) {
    DocumentedForm(v) ||
    (v.PyTuple? && |v.items| != 2 && |v.items| != 3 && |v.items| > 0 && IsNumber(v.items[0]))
  }

  /** When the motor's nominal value for the field is a number, every accepted input is
      stored in a documented form, except a number-led tuple whose length is neither 2 nor
      3, which is stored unchanged; a rewritten input leads with the nominal value; and
      validating a stored value again leaves it unchanged. */
  lemma NormaliseStoresStoredForm(field: string, v: PyValue, motor: map<string, PyValue>)
    requires field in motor && IsNumber(motor[field])
    requires Normalise(field, v, motor).Success?
    ensures var r := Normalise(field, v, motor).value;
      DocumentedForm(r) || (v.PyTuple? && |v.items| != 2 && |v.items| != 3 && r == v)
    ensures var r := Normalise(field, v, motor).value;
      r != v ==> (r.PyTuple? || r.PyList?) && r.items[0] == motor[field]
    ensures StoredForm(Normalise(field, v, motor).value)
    ensures Normalise(field, Normalise(field, v, motor).value, motor) == Normalise(field, v, motor)
  {
  }

  /** A stored value is accepted unchanged: `StoredForm` is exactly the set of fixed
      points of the validator. */
  lemma StoredFormIsFixedPoint(field: string, v: PyValue, motor: map<string, PyValue>)
    ensures StoredForm(v) <==> Normalise(field, v, motor) == Success(v)
  {
  }

  /** The outcome for one field of the validated dictionary. */
  function FieldOutcome(values: map<string, PyValue>, motor: map<string, PyValue>, field: string)
    : (r: Result<PyValue, MotorError>)
    ensures field !in values ==> r == Failure(MissingEntry(field))
    ensures field in values ==> r == Normalise(field, values[field], motor)
  {
    if field in values then Normalise(field, values[field], motor) else Failure(MissingEntry(field))
  }

  lemma ValidateFieldsDistinct()
    ensures forall i, j :: 0 <= i < j < |ValidateFields| ==> ValidateFields[i] != ValidateFields[j]
  {
  }

  /** `set_attr(values)`: visits the fields in order and rewrites each one. On success every
      listed field holds its normalised value and every other entry (`solidMotor`
      among them) is untouched; on failure the error is the first failing field's. */
  method SetAttr(values: map<string, PyValue>, motor: map<string, PyValue>)
    returns (r: Result<map<string, PyValue>, MotorError>)
    ensures r.Success? <==> forall f :: f in ValidateFields ==> FieldOutcome(values, motor, f).Success?
    ensures r.Success? ==> r.value.Keys == values.Keys
    ensures r.Success? ==> forall f :: f in ValidateFields ==> r.value[f] == FieldOutcome(values, motor, f).value
    ensures r.Success? ==> forall k :: k in values && k !in ValidateFields ==> r.value[k] == values[k]
    ensures r.Failure? ==>
      exists i :: (0 <= i < |ValidateFields| &&
        FieldOutcome(values, motor, ValidateFields[i]) == Failure(r.error) &&
        forall j :: 0 <= j < i ==> FieldOutcome(values, motor, ValidateFields[j]).Success?)
  {
    ValidateFieldsDistinct();
    var current := values;
    for n := 0 to |ValidateFields|
      invariant current.Keys == values.Keys
      invariant forall j :: 0 <= j < n ==> FieldOutcome(values, motor, ValidateFields[j]).Success?
      invariant forall j :: 0 <= j < n ==> current[ValidateFields[j]] == FieldOutcome(values, motor, ValidateFields[j]).value
      invariant forall k :: k in values && k !in ValidateFields[..n] ==> current[k] == values[k]
    {
      var field := ValidateFields[n];
      if field !in current {
        assert FieldOutcome(values, motor, ValidateFields[n]).Failure?;
        return Failure(MissingEntry(field));
      }
      assert current[field] == values[field];
      var outcome := Normalise(field, current[field], motor);
      if outcome.Failure? {
        assert FieldOutcome(values, motor, ValidateFields[n]).Failure?;
        return Failure(outcome.error);
      }
      current := current[field := outcome.value];
    }
    assert ValidateFields[..|ValidateFields|] == ValidateFields;
    return Success(current);
  }
}
