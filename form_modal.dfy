/**
 * The state of the CarFormModal component and its transitions: editing a
 * field, validating, and the outcome of a save once the server has replied.
 * The parent's car list and the `close` callback are modelled as fields the
 * component updates.
 */
module FormModal {
  import opened Wrappers
  import opened Cars
  import opened Validation
  import opened CarList

  /** The reply to a PUT or POST: `success` set, `success` unset with an error code, or a thrown request. */
  datatype Reply = Success | Failure(code: int) | Transport

  /** The error code the server uses for a plate that is already taken. */
  const ConflictCode := 2
  const DuplicatePlateError := Message(true, "License plate number already exists in system")

  class CarFormModal {
    /** The `initialCar` prop: present when updating an existing record. */
    const initialCar: Option<Car>
    var loading: bool
    var car: Car
    var errors: seq<Message>
    var serverError: Message
    /** The list owned by the parent, changed only through the `setCars` updaters. */
    var cars: seq<Car>
    /** Whether the `close` callback has been called. */
    var closed: bool

    /** The state on mount. */
    constructor (initialCar: Option<Car>, cars: seq<Car>)
      ensures this.initialCar == initialCar && this.cars == cars
      ensures car == InitialCar(initialCar) && car.active
      ensures |errors| == |Keys| && forall i :: 0 <= i < |errors| ==> errors[i] == Hidden
      ensures serverError == Hidden && !loading && !closed
    {
      this.initialCar := initialCar;
      this.cars := cars;
      loading := false;
      car := InitialCar(initialCar);
      errors := seq(|Keys|, _ => Hidden);
      serverError := Hidden;
      closed := false;
    }

    /** `handleChange`: replace the field the input names with the input's value. */
    method HandleChange(f: Field, v: FieldValue)
      requires Fits(f, v)
      modifies this`car
      ensures car == WithField(old(car), f, v)
      ensures Get(car, f) == v && forall g :: g != f ==> Get(car, g) == Get(old(car), g)
    {
      car := WithField(car, f, v);
    }

    /** `close`. */
    method Close()
      modifies this`closed
      ensures closed
    {
      closed := true;
    }

    /** `validate`: recompute the whole error array and report whether no slot is shown. */
    method Validate() returns (ok: bool)
      modifies this`errors
      ensures errors == FieldErrors(car)
      ensures ok <==> Submittable(car)
    {
      var newErrors := BuildErrors(car);
      errors := newErrors;
      ValidIffSubmittable(car);
      ok := !AnyShown(newErrors);
    }

    /**
     * The failure branches shared by `updateCar` and `createCar`: a conflict
     * code sets the server error, any other code or a thrown request leaves
     * it, and the loading flag is cleared in every case.
     */
    method Fail(reply: Reply)
      requires !reply.Success?
      modifies this`serverError, this`loading
      ensures serverError == if reply == Failure(ConflictCode) then DuplicatePlateError else old(serverError)
      ensures !loading
    {
      if reply.Failure? {
        if reply.code == ConflictCode {
          serverError := DuplicatePlateError;
        }
        loading := false;
      } else {
        loading := false;
      }
    }

    /** `updateCar` after the PUT has replied. */
    method UpdateCar(reply: Reply)
      modifies this`cars, this`closed, this`loading, this`serverError
      ensures reply.Success? ==>
        cars == UpdatedCars(old(cars), car) && closed && loading == old(loading) && serverError == old(serverError)
      ensures !reply.Success? ==>
        && cars == old(cars) && closed == old(closed) && !loading
        && serverError == if reply == Failure(ConflictCode) then DuplicatePlateError else old(serverError)
    {
      if reply.Success? {
        cars := UpdatedCars(cars, car);
        Close();
      } else {
        Fail(reply);
      }
    }

    /** `createCar` after the POST has replied. */
    method CreateCar(reply: Reply)
      modifies this`cars, this`closed, this`loading, this`serverError
      ensures reply.Success? ==>
        IsCreatedFrom(cars, old(cars), car) && closed && loading == old(loading) && serverError == old(serverError)
      ensures !reply.Success? ==>
        && cars == old(cars) && closed == old(closed) && !loading
        && serverError == if reply == Failure(ConflictCode) then DuplicatePlateError else old(serverError)
    {
      if reply.Success? {
        var newCars := CreatedCars(cars, car);
        cars := newCars;
        Close();
      } else {
        Fail(reply);
      }
    }

    /**
     * `handleSubmit`, with `reply` standing for what the server answers if the
     * request is sent. An invalid record only refreshes the error array; a
     * valid one sets the loading flag and is saved by PUT on update, by POST
     * on create.
     */
    method HandleSubmit(reply: Reply)
      modifies this`errors, this`cars, this`closed, this`loading, this`serverError
      ensures errors == FieldErrors(car)
      ensures !Submittable(car) ==>
        cars == old(cars) && closed == old(closed) && loading == old(loading) && serverError == old(serverError)
      ensures Submittable(car) && reply.Success? ==>
        && closed && loading && serverError == old(serverError)
        && (initialCar.Some? ==> cars == UpdatedCars(old(cars), car))
        && (initialCar.None? ==> IsCreatedFrom(cars, old(cars), car))
      ensures Submittable(car) && !reply.Success? ==>
        && cars == old(cars) && closed == old(closed) && !loading
        && serverError == if reply == Failure(ConflictCode) then DuplicatePlateError else old(serverError)
    {
      var ok := Validate();
      if !ok {
        return;
      }
      loading := true;
      if initialCar.Some? {
        UpdateCar(reply);
      } else {
        CreateCar(reply);
      }
    }
  }

  /** Creating a new car "AB123" from a blank form adds it to an empty list and closes the form. */
  method CreateScenario()
  {
    var form := new CarFormModal(None, []);
    form.HandleChange(LicensePlateNumber, Text("AB123"));
    form.HandleChange(Color, Text("Red"));
    form.HandleChange(Manufacturer, Text("BMW"));
    form.HandleChange(Model, Text("X5"));
    form.HandleChange(Year, Number(2015));
    var saved := Car("AB123", "Red", "BMW", "X5", 2015, true);
    assert form.car == saved;
    CompleteRecordIsSubmittable();
    form.HandleSubmit(Success);
    assert |form.cars| == 1 && multiset(form.cars) == multiset{saved};
    assert form.cars[0] in multiset(form.cars);
    assert form.cars == [saved];
    assert form.closed;
  }

  /** Updating the model of "AB123" replaces its entry in place. */
  method UpdateScenario()
  {
    var existing := Car("AB123", "Red", "BMW", "X5", 2015, true);
    var other := Car("ZZ9", "Green", "Audi", "A4", 2012, true);
    CompleteRecordIsSubmittable();
    var form := new CarFormModal(Some(existing), [existing, other]);
    form.HandleChange(Model, Text("X6"));
    var edited := existing.(model := "X6");
    assert form.car == edited;
    NonWhitespaceStartIsFilled("X6");
    assert Submittable(edited);
    form.HandleSubmit(Success);
    assert form.cars == [edited, other];
  }

  /** Editing the plate of "AB123" before saving leaves the list as it was, since no entry carries the new plate. */
  method RenamedPlateScenario()
  {
    var existing := Car("AB123", "Red", "BMW", "X5", 2015, true);
    var other := Car("ZZ9", "Green", "Audi", "A4", 2012, true);
    CompleteRecordIsSubmittable();
    var renaming := new CarFormModal(Some(existing), [existing, other]);
    renaming.HandleChange(LicensePlateNumber, Text("CD456"));
    var renamed := existing.(licensePlateNumber := "CD456");
    assert renaming.car == renamed;
    assert Submittable(renamed);
    assert "CD456" !in Plates([existing, other]);
    UpdateWithoutMatchIsIdentity([existing, other], renamed);
    renaming.HandleSubmit(Success);
    assert renaming.cars == [existing, other];
    assert renaming.closed;
  }

  /** A conflict reply shows the duplicate-plate banner, keeps the list and the form open, and clears the loading flag. */
  method ConflictScenario()
  {
    var form := new CarFormModal(None, []);
    form.HandleChange(LicensePlateNumber, Text("AB123"));
    form.HandleChange(Color, Text("Red"));
    form.HandleChange(Manufacturer, Text("BMW"));
    form.HandleChange(Model, Text("X5"));
    form.HandleChange(Year, Number(2015));
    CompleteRecordIsSubmittable();
    form.HandleSubmit(Failure(ConflictCode));
    assert form.serverError == DuplicatePlateError;
    assert form.cars == [] && !form.closed && !form.loading;
  }
}
