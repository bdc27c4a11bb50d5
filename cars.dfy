/**
 * The Car record edited by the form, the order of its keys, the keyed field
 * update performed by `handleChange`, and the initial form state built from
 * an optional existing record.
 */
module Cars {
  import opened Wrappers

  /** The six fields, in the order in which the record literal declares them. */
  datatype Car = Car(
    licensePlateNumber: string,
    color: string,
    manufacturer: string,
    model: string,
    year: int,
    active: bool)

  /** The field names; an element of this type is one key of the record. */
  datatype Field = LicensePlateNumber | Color | Manufacturer | Model | Year | Active

  /** `Object.keys(car)`: the keys in declaration order. */
  const Keys: seq<Field> := [LicensePlateNumber, Color, Manufacturer, Model, Year, Active]

  /** `Object.keys(car).indexOf(f)`: the position of a key, which indexes the error array. */
  function IndexOf(f: Field): (i: nat)
    ensures i < |Keys| && Keys[i] == f
    ensures forall j :: 0 <= j < |Keys| && Keys[j] == f ==> j == i
  {
    match f
    case LicensePlateNumber => 0
    case Color => 1
    case Manufacturer => 2
    case Model => 3
    case Year => 4
    case Active => 5
  }

  /** The property name of a key, as the inputs' `name` attributes spell it. */
  function Name(f: Field): string
  {
    match f
    case LicensePlateNumber => "licensePlateNumber"
    case Color => "color"
    case Manufacturer => "manufacturer"
    case Model => "model"
    case Year => "year"
    case Active => "active"
  }

  /** The key a property name denotes, if it is one of the record's keys. */
  function FieldNamed(name: string): (r: Option<Field>)
    ensures r.Some? ==> Name(r.value) == name
  {
    if name == "licensePlateNumber" then Some(LicensePlateNumber)
    else if name == "color" then Some(Color)
    else if name == "manufacturer" then Some(Manufacturer)
    else if name == "model" then Some(Model)
    else if name == "year" then Some(Year)
    else if name == "active" then Some(Active)
    else None
  }

  /** Names and keys are in one-to-one correspondence. */
  lemma NameRoundTrip(f: Field, name: string)
    ensures FieldNamed(Name(f)) == Some(f)
    ensures FieldNamed(name) == Some(f) <==> Name(f) == name
  {
  }

  /** A value stored under one key. */
  datatype FieldValue = Text(text: string) | Number(number: int) | Flag(flag: bool)

  /** Whether a value has the kind the record declares for a key. */
  predicate Fits(f: Field, v: FieldValue)
  {
    match f
    case Year => v.Number?
    case Active => v.Flag?
    case _ => v.Text?
  }

  /** `car[f]`. */
  function Get(c: Car, f: Field): (v: FieldValue)
    ensures Fits(f, v)
  {
    match f
    case LicensePlateNumber => Text(c.licensePlateNumber)
    case Color => Text(c.color)
    case Manufacturer => Text(c.manufacturer)
    case Model => Text(c.model)
    case Year => Number(c.year)
    case Active => Flag(c.active)
  }

  /** Two records with the same value under every key are the same record. */
  lemma FieldsDetermineCar(c: Car, d: Car)
    requires forall f :: Get(c, f) == Get(d, f)
    ensures c == d
  {
    assert Get(c, LicensePlateNumber) == Get(d, LicensePlateNumber);
    assert Get(c, Color) == Get(d, Color);
    assert Get(c, Manufacturer) == Get(d, Manufacturer);
    assert Get(c, Model) == Get(d, Model);
    assert Get(c, Year) == Get(d, Year);
    assert Get(c, Active) == Get(d, Active);
  }

  /** `{ ...prev, [f]: v }`: the record update performed by `handleChange`. */
  function WithField(prev: Car, f: Field, v: FieldValue): (r: Car)
    requires Fits(f, v)
    ensures Get(r, f) == v
    ensures forall g :: g != f ==> Get(r, g) == Get(prev, g)
  {
    match f
    case LicensePlateNumber => prev.(licensePlateNumber := v.text)
    case Color => prev.(color := v.text)
    case Manufacturer => prev.(manufacturer := v.text)
    case Model => prev.(model := v.text)
    case Year => prev.(year := v.number)
    case Active => prev.(active := v.flag)
  }

  /** The record update is the only record with the new value under `f` and the old values elsewhere. */
  lemma WithFieldIsUnique(prev: Car, f: Field, v: FieldValue, c: Car)
    requires Fits(f, v)
    requires Get(c, f) == v
    requires forall g :: g != f ==> Get(c, g) == Get(prev, g)
    ensures c == WithField(prev, f, v)
  {
    var r := WithField(prev, f, v);
    forall g
      ensures Get(c, g) == Get(r, g)
    {
    }
    FieldsDetermineCar(c, r);
  }

  /** Writing back the value a key already holds changes nothing. */
  lemma WithFieldOwnValue(c: Car, f: Field)
    ensures WithField(c, f, Get(c, f)) == c
  {

  }

  /** JavaScript's `x || d` on an optional string: an absent or empty string falls back to `d`. */
  function OrText(x: Option<string>, d: string): string
  {
    if x.Some? && x.value != "" then x.value else d
  }

  /** JavaScript's `x || d` on an optional number: an absent or zero number falls back to `d`. */
  function OrNumber(x: Option<int>, d: int): int
  {
    if x.Some? && x.value != 0 then x.value else d
  }

  /** JavaScript's `x || d` on an optional boolean: an absent or false flag falls back to `d`. */
  function OrFlag(x: Option<bool>, d: bool): bool
  {
    if x.Some? && x.value then x.value else d
  }

  /** What `initialCar?.field` reads for each field. */
  function Read<T>(init: Option<Car>, select: Car -> T): Option<T>
  {
    if init.Some? then Some(select(init.value)) else None
  }

  /** The record a blank form starts from. */
  const EmptyForm: Car := Car("", "", "", "", 0, true)

  /**
   * The initial `car` state: each field of the existing record, falling back
   * to a default. The fallback for `active` is `true`, so `false || true`
   * makes it `true` even for an existing inactive record.
   */
  function InitialCar(init: Option<Car>): (r: Car)
    ensures init.None? ==> r == EmptyForm
    ensures init.Some? ==> r == init.value.(active := true)
    ensures r.active
  {
    Car(
      OrText(Read(init, (c: Car) => c.licensePlateNumber), ""),
      OrText(Read(init, (c: Car) => c.color), ""),
      OrText(Read(init, (c: Car) => c.manufacturer), ""),
      OrText(Read(init, (c: Car) => c.model), ""),
      OrNumber(Read(init, (c: Car) => c.year), 0),
      OrFlag(Read(init, (c: Car) => c.active), true))
  }
}
