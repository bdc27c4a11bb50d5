/**
 * The per-field validation run on submit: a six-slot error array parallel to
 * the record's keys, filled by one rule per field, and the verdict that no
 * slot is shown.
 */
module Validation {
  import opened Cars

  /** One `{show, text}` slot of the error array (also the shape of the server error). */
  datatype Message = Message(show: bool, text: string)

  const Hidden: Message := Message(false, "")
  const EmptyFieldText := "Empty fld"
  const PlateCharsText := "The field must contain only characters and number"

  /** The code points of the characters `\s` matches in a JavaScript regular expression. */
  const WhitespaceCodes: set<int> :=
    {0x09, 0x0A, 0x0B, 0x0C, 0x0D, 0x20, 0xA0, 0x1680,
     0x2000, 0x2001, 0x2002, 0x2003, 0x2004, 0x2005, 0x2006, 0x2007, 0x2008, 0x2009, 0x200A,
     0x2028, 0x2029, 0x202F, 0x205F, 0x3000, 0xFEFF}

  predicate IsWhitespace(c: char)
  {
    c as int in WhitespaceCodes
  }

  /** `s.replace(/\s/g, "")`: the string with every whitespace character removed, order kept. */
  function StripWhitespace(s: string): (r: string)
    ensures |r| <= |s|
    ensures forall i :: 0 <= i < |r| ==> !IsWhitespace(r[i])
  {
    if s == [] then []
    else if IsWhitespace(s[0]) then StripWhitespace(s[1..])
    else [s[0]] + StripWhitespace(s[1..])
  }

  /** Stripping keeps exactly the non-whitespace characters of the string. */
  lemma {:induction false} StripWhitespaceKeeps(s: string)
    ensures forall c :: c in StripWhitespace(s) <==> c in s && !IsWhitespace(c)
  {
    if s != [] {
      StripWhitespaceKeeps(s[1..]);
      assert s == [s[0]] + s[1..];
    }
  }

  /** A string with no character other than whitespace. */
  predicate Blank(s: string)
  {
    forall i :: 0 <= i < |s| ==> IsWhitespace(s[i])
  }

  /** The test `s.replace(/\s/g, "").length === 0` holds exactly for blank strings. */
  lemma StrippedEmptyIffBlank(s: string)
    ensures |StripWhitespace(s)| == 0 <==> Blank(s)
  {

  }

  /** The character class `[a-zA-Z0-9]`. */
  predicate IsAlphanumeric(c: char)
  {
    ('a' <= c <= 'z') || ('A' <= c <= 'Z') || ('0' <= c <= '9')
  }

  /** `/^[a-zA-Z0-9]+$/.test(s)`: one or more characters, every one alphanumeric. */
  predicate MatchesPlatePattern(s: string)
  {
    |s| > 0 && forall i :: 0 <= i < |s| ==> IsAlphanumeric(s[i])
  }

  /** A blank plate never matches the plate pattern, so at most one of the two plate messages applies. */
  lemma BlankPlateNeverMatches(s: string)
    ensures Blank(s) ==> !MatchesPlatePattern(s)
  {
    if Blank(s) && |s| > 0 {
      assert IsWhitespace(s[0]);
    }
  }

  /** Slot 0: the empty check first, the pattern check only on a non-blank plate. */
  function PlateError(plate: string): Message
  {
    if Blank(plate) then Message(true, EmptyFieldText)
    else if !MatchesPlatePattern(plate) then Message(true, PlateCharsText)
    else Hidden
  }

  /** The slot of a required text field (color, manufacturer, model). */
  function RequiredError(value: string): Message
  {
    if Blank(value) then Message(true, EmptyFieldText) else Hidden
  }

  /** The slot of the year: 0 is the "Choose year..." placeholder. */
  function YearError(year: int): Message
  {
    if year == 0 then Message(true, EmptyFieldText) else Hidden
  }

  /** The slot a field's own rule produces; `active` has no rule. */
  function SlotFor(c: Car, f: Field): Message
  {
    match f
    case LicensePlateNumber => PlateError(c.licensePlateNumber)
    case Color => RequiredError(c.color)
    case Manufacturer => RequiredError(c.manufacturer)
    case Model => RequiredError(c.model)
    case Year => YearError(c.year)
    case Active => Hidden
  }

  /** The `newErrors` array `validate` builds: one slot per key, in key order. */
  function FieldErrors(c: Car): (r: seq<Message>)
    ensures |r| == |Keys|
    ensures forall f :: r[IndexOf(f)] == SlotFor(c, f)
    ensures !r[IndexOf(Active)].show
  {
    [SlotFor(c, LicensePlateNumber), SlotFor(c, Color), SlotFor(c, Manufacturer),
     SlotFor(c, Model), SlotFor(c, Year), SlotFor(c, Active)]
  }

  /** `newErrors.some((err) => err.show)`. */
  function AnyShown(errors: seq<Message>): (r: bool)
    ensures r <==> exists i :: 0 <= i < |errors| && errors[i].show
  {
    if errors == [] then false
    else errors[0].show || AnyShown(errors[1..])
  }

  /** The conditions under which the form may be submitted, stated field by field. */
  predicate Submittable(c: Car)
  {
    && MatchesPlatePattern(c.licensePlateNumber)
    && !Blank(c.color)
    && !Blank(c.manufacturer)
    && !Blank(c.model)
    && c.year != 0
  }

  /** Every shown slot carries one of the two field messages, and every hidden slot is empty. */
  lemma SlotTexts(c: Car, i: int)
    requires 0 <= i < |Keys|
    ensures FieldErrors(c)[i].show ==> FieldErrors(c)[i].text in {EmptyFieldText, PlateCharsText}
    ensures !FieldErrors(c)[i].show ==> FieldErrors(c)[i] == Hidden
  {

  }

  /** The two plate messages and when each is shown. */
  lemma PlateRules(c: Car)
    ensures var e := FieldErrors(c)[IndexOf(LicensePlateNumber)];
      && (e == Message(true, EmptyFieldText) <==> Blank(c.licensePlateNumber))
      && (e == Message(true, PlateCharsText) <==>
            !Blank(c.licensePlateNumber) && exists i :: 0 <= i < |c.licensePlateNumber| && !IsAlphanumeric(c.licensePlateNumber[i]))
      && (!e.show <==> MatchesPlatePattern(c.licensePlateNumber))
  {
    BlankPlateNeverMatches(c.licensePlateNumber);
  }

  /** A blank color, manufacturer or model, or a zero year, shows "Empty fld" in that field's slot. */
  lemma RequiredRules(c: Car, f: Field)
    requires f in {Color, Manufacturer, Model, Year}
    ensures var e := FieldErrors(c)[IndexOf(f)];
      && (e.show ==> e.text == EmptyFieldText)
      && (e.show <==> if f == Year then c.year == 0 else Blank(Get(c, f).text))
  {
  }

  /** A slot depends only on the value under its own key. */
  lemma SlotDependsOnlyOnItsField(c: Car, d: Car, f: Field)
    requires Get(c, f) == Get(d, f)
    ensures FieldErrors(c)[IndexOf(f)] == FieldErrors(d)[IndexOf(f)]
  {
  }

  /** Editing one field leaves the slots of every other field as they were. */
  lemma EditTouchesOnlyItsSlot(c: Car, f: Field, v: FieldValue, g: Field)
    requires Fits(f, v)
    requires g != f
    ensures FieldErrors(WithField(c, f, v))[IndexOf(g)] == FieldErrors(c)[IndexOf(g)]
  {

  }

  /** `validate` returns true exactly when the record meets every field's condition. */
  lemma ValidIffSubmittable(c: Car)
    ensures !AnyShown(FieldErrors(c)) <==> Submittable(c)
  {
    var e := FieldErrors(c);
    PlateRules(c);
    if Submittable(c) {
      forall i | 0 <= i < |e|
        ensures !e[i].show
      {
        assert e[i] == e[IndexOf(Keys[i])];
      }
    } else if !MatchesPlatePattern(c.licensePlateNumber) {
      assert e[IndexOf(LicensePlateNumber)].show;
    } else if Blank(c.color) {
      assert e[IndexOf(Color)].show;
    } else if Blank(c.manufacturer) {
      assert e[IndexOf(Manufacturer)].show;
    } else if Blank(c.model) {
      assert e[IndexOf(Model)].show;
    } else {
      assert e[IndexOf(Year)].show;
    }
  }

  /** The plate block of `validate`: the empty check first, the pattern check only otherwise. */
  method CheckPlate(newErrors: array<Message>, plate: string)
    requires newErrors.Length == |Keys| && newErrors[IndexOf(LicensePlateNumber)] == Hidden
    modifies newErrors
    ensures newErrors[..] == old(newErrors[..])[IndexOf(LicensePlateNumber) := PlateError(plate)]
  {
    if Blank(plate) {
      newErrors[IndexOf(LicensePlateNumber)] := Message(true, EmptyFieldText);
    } else if !MatchesPlatePattern(plate) {
      newErrors[IndexOf(LicensePlateNumber)] := Message(true, PlateCharsText);
    }
  }

  /** The block of `validate` for a required text field: a blank value marks the field's slot. */
  method CheckRequired(newErrors: array<Message>, f: Field, value: string)
    requires newErrors.Length == |Keys| && newErrors[IndexOf(f)] == Hidden
    modifies newErrors
    ensures newErrors[..] == old(newErrors[..])[IndexOf(f) := RequiredError(value)]
  {
    if Blank(value) {
      newErrors[IndexOf(f)] := Message(true, EmptyFieldText);
    }
  }

  /** The year block of `validate`: the placeholder 0 marks the year's slot. */
  method CheckYear(newErrors: array<Message>, year: int)
    requires newErrors.Length == |Keys| && newErrors[IndexOf(Year)] == Hidden
    modifies newErrors
    ensures newErrors[..] == old(newErrors[..])[IndexOf(Year) := YearError(year)]
  {
    if year == 0 {
      newErrors[IndexOf(Year)] := Message(true, EmptyFieldText);
    }
  }

  /**
   * The body of `validate` before `setErrors`: a fresh array of hidden slots,
   * each overwritten by its field's block, at the field's key position.
   */
  method BuildErrors(c: Car) returns (errors: seq<Message>)
    ensures errors == FieldErrors(c)
  {
    var newErrors := new Message[|Keys|][Hidden, Hidden, Hidden, Hidden, Hidden, Hidden];
    CheckPlate(newErrors, c.licensePlateNumber);
    CheckRequired(newErrors, Color, c.color);
    CheckRequired(newErrors, Manufacturer, c.manufacturer);
    CheckRequired(newErrors, Model, c.model);
    CheckYear(newErrors, c.year);
    errors := newErrors[..];
  }

  /** A string whose first character is an ASCII letter or digit is not blank. */
  lemma NonWhitespaceStartIsFilled(s: string)
    requires |s| > 0 && IsAlphanumeric(s[0])
    ensures !Blank(s)
  {

  }

  /** A complete new record (AB123 / Red / BMW / X5 / 2015) passes validation. */
  lemma CompleteRecordIsSubmittable()
    ensures Submittable(Car("AB123", "Red", "BMW", "X5", 2015, true))
  {
    NonWhitespaceStartIsFilled("Red");
    NonWhitespaceStartIsFilled("BMW");
    NonWhitespaceStartIsFilled("X5");
  }
}
