# CarFormModal, modelled in Dafny

This project models the logic inside the `CarFormModal` component of the car
management client. The component is a modal form that creates or updates one
Car record. It does four things that can be stated as rules:

- it holds the record being edited and replaces one field per input event;
- it validates the record into a six-slot error array, one slot per key;
- after the server confirms a save, it hands the parent one of two list
  updaters: append-and-sort for a create, replace-by-plate for an update;
- it moves its `loading`, `serverError` and "closed" state according to the
  server's reply.

Files:

- `wrappers.dfy`: `Option`.
- `cars.dfy` (module `Cars`): the record, its key order, `handleChange` as
  a keyed field update, and the initial state built from `initialCar`.
- `validation.dfy` (module `Validation`): the whitespace-stripping test,
  the plate pattern, the per-field rules, and the method that fills the
  error array block by block, as `validate` does.
- `car_list.dfy` (module `CarList`): the plate order, the update updater,
  an in-place sort of an array, and the create updater (copy, push, sort).
- `year_range.dfy` (module `YearRange`): `range(start, end)` and the year
  options built from it.
- `form_modal.dfy` (module `FormModal`): class `CarFormModal`. Its fields
  are the component state (`loading`, `car`, `errors`, `serverError`), the
  parent's list (`cars`) and whether `close` was called. Its methods are the
  handlers. The server's reply is a parameter. Four client methods
  (`CreateScenario`, `UpdateScenario`, `RenamedPlateScenario` and
  `ConflictScenario`) walk through a create, an update, a plate edit and a
  conflict using only the contracts.

## Behaviour as written

In these places the code behaves differently from what a reader might
expect, and the model follows the code:

- The update updater matches entries on the plate of the car being saved
  (`car.licensePlateNumber`), not on the original record's plate. The PUT URL
  is built from that plate too. If the user edits the plate to one no entry
  has, no entry matches and the list comes back unchanged, yet the form still
  closes (`RenamedPlateScenario`, `CarList.UpdateWithoutMatchIsIdentity`). If
  the user edits it to a plate another entry already has, that entry is
  overwritten with the edited car and the entry under the original plate
  stays (`CarList.UpdateToTakenPlateOverwrites`).
- `serverError` is never reset. A new submit keeps the last banner unless a
  new conflict reply sets it again.
- The empty-field message is `"Empty fld"`. The plate message is
  `"The field must contain only characters and number"`.
- `initialCar?.active || true` makes `active` always `true`, even for an
  existing inactive record (`Cars.InitialCar`).

## Model

| member | source | states |
|---|---|---|
| Cars.IndexOf | client/src/components/car-form-modal/car-form-modal.tsx:20-27 | each key has exactly one position in the key order, and that position indexes the error array |
| Cars.FieldNamed | client/src/components/car-form-modal/car-form-modal.tsx:46-49 | an input name that resolves to a key is that key's property name; name resolution is stated on its own, and `FormModal.CarFormModal.HandleChange` takes the resolved key |
| Cars.NameRoundTrip | client/src/components/car-form-modal/car-form-modal.tsx:46-49 | names and keys correspond one to one |
| Cars.WithField | client/src/components/car-form-modal/car-form-modal.tsx:46-49 | after `handleChange` the named field holds the new value and every other field keeps its old value |
| Cars.WithFieldIsUnique | client/src/components/car-form-modal/car-form-modal.tsx:46-49 | the spread update is the only record that has the new value under the named key and the old values elsewhere |
| Cars.WithFieldOwnValue | client/src/components/car-form-modal/car-form-modal.tsx:46-49 | writing back a field's current value leaves the record unchanged |
| Cars.InitialCar | client/src/components/car-form-modal/car-form-modal.tsx:20-27 | with no initial record every field takes its default; with one, every field is copied except `active`; `active` is always true |
| Validation.StripWhitespace | client/src/components/car-form-modal/car-form-modal.tsx:73 | `replace(/\s/g, "")` leaves no whitespace character and never lengthens the string |
| Validation.StripWhitespaceKeeps | client/src/components/car-form-modal/car-form-modal.tsx:73 | stripping keeps exactly the non-whitespace characters |
| Validation.StrippedEmptyIffBlank | client/src/components/car-form-modal/car-form-modal.tsx:86 | the stripped string is empty exactly when every character is whitespace |
| Validation.BlankPlateNeverMatches | client/src/components/car-form-modal/car-form-modal.tsx:73-85 | a blank plate never matches `^[a-zA-Z0-9]+$`, so the two plate messages never both apply |
| Validation.FieldErrors | client/src/components/car-form-modal/car-form-modal.tsx:67-111 | the error array has one slot per key, each slot is its field's rule, and the `active` slot is never shown |
| Validation.SlotTexts | client/src/components/car-form-modal/car-form-modal.tsx:67-111 | a shown slot carries one of the two field messages; a hidden slot is `{false, ""}` |
| Validation.PlateRules | client/src/components/car-form-modal/car-form-modal.tsx:73-85 | slot 0 shows "Empty fld" exactly for a blank plate; it shows the characters message exactly for a non-blank plate with a non-alphanumeric character; it is hidden exactly when the plate matches the pattern |
| Validation.RequiredRules | client/src/components/car-form-modal/car-form-modal.tsx:86-111 | the color, manufacturer and model slots are shown exactly when the value is blank, the year slot exactly when the year is 0, always with "Empty fld" |
| Validation.SlotDependsOnlyOnItsField | client/src/components/car-form-modal/car-form-modal.tsx:72-111 | each slot depends only on the value under its own key |
| Validation.EditTouchesOnlyItsSlot | client/src/components/car-form-modal/car-form-modal.tsx:86-111 | editing one field leaves every other field's slot unchanged |
| Validation.AnyShown | client/src/components/car-form-modal/car-form-modal.tsx:114 | `newErrors.some((err) => err.show)` holds exactly when some slot of the array is shown |
| Validation.ValidIffSubmittable | client/src/components/car-form-modal/car-form-modal.tsx:114-117 | `validate` returns true exactly when the plate is a non-empty alphanumeric string, color, manufacturer and model are not blank, and the year is not 0 |
| Validation.CheckPlate | client/src/components/car-form-modal/car-form-modal.tsx:73-85 | the plate block writes the plate rule's slot and nothing else |
| Validation.CheckRequired | client/src/components/car-form-modal/car-form-modal.tsx:86-105 | a required-field block writes that field's slot and nothing else |
| Validation.CheckYear | client/src/components/car-form-modal/car-form-modal.tsx:106-111 | the year block writes the year slot and nothing else |
| Validation.BuildErrors | client/src/components/car-form-modal/car-form-modal.tsx:67-112 | the fresh array, filled in place block by block, equals the error array of the record |
| Validation.CompleteRecordIsSubmittable | client/src/components/car-form-modal/car-form-modal.tsx:66-118 | the record AB123 / Red / BMW / X5 / 2015 passes validation |
| CarList.PlateLeIsLexicographic | client/src/components/car-form-modal/car-form-modal.tsx:164-166 | the comparator orders `a` before `b` exactly when `a` is a prefix of `b` or, at the first position where they differ, `a` has the smaller character |
| CarList.PlateLeReflexive | client/src/components/car-form-modal/car-form-modal.tsx:164-166 | every plate compares equal to itself |
| CarList.PlateLeTotal | client/src/components/car-form-modal/car-form-modal.tsx:164-166 | any two plates are ordered one way or the other |
| CarList.PlateLeAntisymmetric | client/src/components/car-form-modal/car-form-modal.tsx:164-166 | two plates ordered both ways are equal |
| CarList.PlateLeTransitive | client/src/components/car-form-modal/car-form-modal.tsx:164-166 | the plate order is transitive |
| CarList.UpdatedCars | client/src/components/car-form-modal/car-form-modal.tsx:128-134 | the list keeps its length; every entry whose plate equals the saved car's plate becomes the saved car; every other entry is unchanged |
| CarList.UpdateWithoutMatchIsIdentity | client/src/components/car-form-modal/car-form-modal.tsx:129-133 | if no entry carries the saved car's plate, the list is returned as it was |
| CarList.UpdateToTakenPlateOverwrites | client/src/components/car-form-modal/car-form-modal.tsx:129-133 | when the saved car's plate belongs to another entry, that entry becomes the saved car, an entry with a different plate stays, and the list changes unless that entry already was the saved car |
| CarList.UpdateKeepsPlates | client/src/components/car-form-modal/car-form-modal.tsx:129-133 | every position keeps its plate |
| CarList.UpdateKeepsSorted | client/src/components/car-form-modal/car-form-modal.tsx:129-133 | a list sorted by plate stays sorted after the update |
| CarList.UpdateIdempotent | client/src/components/car-form-modal/car-form-modal.tsx:129-133 | applying the update twice equals applying it once |
| CarList.SortByPlate | client/src/components/car-form-modal/car-form-modal.tsx:164-166 | the array is sorted ascending by plate and is a permutation of its old contents |
| CarList.Insert | client/src/components/car-form-modal/car-form-modal.tsx:164-166 | one insertion pass extends the sorted prefix by one car and keeps the array a permutation of its old contents |
| CarList.CreatedCars | client/src/components/car-form-modal/car-form-modal.tsx:161-167 | the create updater returns the old list plus the new car as a multiset, one entry longer, sorted by plate |
| CarList.CreatedHoldsAll | client/src/components/car-form-modal/car-form-modal.tsx:161-167 | the created list holds the new car and every car of the old list |
| YearRange.Range | client/src/components/car-form-modal/car-form-modal.tsx:186-190 | `range` fails exactly when `Array` would throw for the length; otherwise it has `end - start + 1` values |
| YearRange.RangeIsInterval | client/src/components/car-form-modal/car-form-modal.tsx:186-190 | the values are exactly the integers from `start` to `end`, in strictly increasing order |
| YearRange.YearOptionsPassYearRule | client/src/components/car-form-modal/car-form-modal.tsx:316-319 | the year select offers twelve years; each passes the year rule, and the placeholder 0 fails it |
| FormModal.CarFormModal.constructor | client/src/components/car-form-modal/car-form-modal.tsx:19-39 | the mounted state: the initial record, six hidden error slots, a hidden server error, not loading, not closed |
| FormModal.CarFormModal.HandleChange | client/src/components/car-form-modal/car-form-modal.tsx:41-50 | the component's record becomes the keyed field update of the old record; nothing else changes |
| FormModal.CarFormModal.Close | client/src/components/car-form-modal/car-form-modal.tsx:136 | calling `close` marks the form closed |
| FormModal.CarFormModal.Validate | client/src/components/car-form-modal/car-form-modal.tsx:66-118 | the whole error array is recomputed from the current record, and the result is true exactly for a submittable record |
| FormModal.CarFormModal.Fail | client/src/components/car-form-modal/car-form-modal.tsx:137-149 | on a failed save, code 2 sets the duplicate-plate banner, any other code or a thrown request leaves it, and loading is cleared |
| FormModal.CarFormModal.UpdateCar | client/src/components/car-form-modal/car-form-modal.tsx:120-151 | on success the list gets the update updater and the form closes; on failure the list and closed flag are untouched, loading is cleared and the banner follows the code |
| FormModal.CarFormModal.CreateCar | client/src/components/car-form-modal/car-form-modal.tsx:153-184 | on success the list gets the create updater and the form closes; on failure the list and closed flag are untouched, loading is cleared and the banner follows the code |
| FormModal.CarFormModal.HandleSubmit | client/src/components/car-form-modal/car-form-modal.tsx:52-64 | an invalid record only refreshes the errors; a valid one sets loading and is saved by update when an initial record exists, by create otherwise, with the outcome above |

## Left out

- JSX rendering, visibility styles, the spinner and the Bootstrap components
  (lines 192-362): presentation only. The only logic kept from the markup is
  the year options (line 317) and the input names (lines 212-311).
- `axios.put`, `axios.post` and the URL built from `REACT_APP_BASE_URL`
  (lines 122-125 and 155-158): network I/O. The reply is the parameter
  `Reply = Success | Failure(code) | Transport`.
- A reply with `success` false and no `error` object: reading `error.code`
  throws inside the `try`, so the outcome is the same as `Transport`. The
  model does not list it as a separate case.
- `console.log` calls: logging with no observable effect on state.
- React's scheduling of state setters, completion of a request after the
  modal has unmounted, and the fact that `loading` does not block a second
  submit: event-loop and concurrency concerns. Each handler runs to
  completion with the reply already known.
- `localeCompare` locale rules (line 165): the plate order is plain
  lexicographic order on characters.
- CarList.SortByPlate: does not state that the sort is stable, which
  `Array.prototype.sort` guarantees. The model's insertion sort is stable,
  but its contract only says sorted and a permutation.
- Cars.WithField: requires the value to have its key's kind (text, number or
  flag). In the source, `handleChange` stores the input's string under any
  name, and the year check `car.year == 0` coerces that string. The model
  keeps the year as an integer. The same requirement applies to
  FormModal.CarFormModal.HandleChange.
- JavaScript strings are UTF-16 code units; here a character is a Unicode
  scalar value. The whitespace and alphanumeric tests give the same verdict
  either way, because no surrogate half is whitespace or alphanumeric.
- `range` with non-integer arguments: the model takes integers only.
