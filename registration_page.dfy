/**
 * The registration page driven by the main script: the city selector that
 * follows the country selector, the mock air-quality display, the per-field
 * error slots, and the submit handler.
 *
 * Page elements become fields of `Page`; what a handler reads from an element is
 * read from the field, and what it writes to one is an assignment to the field.
 * The random AQI draw and today's date are passed in.
 */
module RegistrationPage {
  import opened Wrappers
  import opened Dates
  import opened Form
  import opened RegistrationRules
  import opened Aqi
  import opened Cities

  /** An `<option>` of the city selector. */
  datatype SelectOption = SelectOption(value: string, text: string)

  /** What the AQI value element shows: "--" or a number. */
  datatype AqiReading = Dashes | Reading(value: int)

  /** An error element: its text and whether it is displayed. */
  datatype ErrorSlot = ErrorSlot(text: string, shown: bool)

  const Cleared := ErrorSlot("", false)

  /** The placeholder after a country change. */
  const ChooseCity := SelectOption("", "Select a city")

  /** The placeholder after a successful registration. */
  const ChooseCountryFirst := SelectOption("", "Select a country first")

  const AqiPrompt := "Select a city to view AQI"

  /** The slot a validator leaves behind: its message shown, or cleared when valid. */
  function SlotFor(r: Option<string>): (slot: ErrorSlot)
    ensures slot.shown <==> r.Some?
    ensures r.Some? ==> slot.text == r.value
    ensures r.None? ==> slot == Cleared
  {
    match r
    case Some(message) => ErrorSlot(message, true)
    case None => Cleared
  }

  /**
   * The slots `validateRegistrationForm` leaves behind: each of the eight validators,
   * in form order, overwrites its own field's slot with its verdict.
   */
  function Reported(slots: seq<ErrorSlot>, v: Values, today: Date): seq<ErrorSlot>
    requires |slots| == FieldCount
  {
    slots[SlotIndex(FullName) := SlotFor(NameError(v.fullName))]
         [SlotIndex(Email) := SlotFor(EmailError(v.email))]
         [SlotIndex(Password) := SlotFor(PasswordError(v.password))]
         [SlotIndex(ConfirmPassword) := SlotFor(ConfirmError(v.password, v.confirmPassword))]
         [SlotIndex(DateOfBirth) := SlotFor(DobError(v.dateOfBirth, today))]
         [SlotIndex(Gender) := SlotFor(GenderError(v.gender))]
         [SlotIndex(Country) := SlotFor(CountryError(v.country))]
         [SlotIndex(Terms) := SlotFor(TermsError(v.termsAccepted))]
  }

  /**
   * After validation every field's slot holds its own validator's verdict, whatever
   * the slots held before: nothing from an earlier attempt survives.
   */
  lemma ReportedSlots(slots: seq<ErrorSlot>, v: Values, today: Date)
    requires |slots| == FieldCount
    ensures |Reported(slots, v, today)| == FieldCount
    ensures forall f: Field :: Reported(slots, v, today)[SlotIndex(f)] == SlotFor(FieldError(f, v, today))
    ensures forall k :: 0 <= k < FieldCount ==> Reported(slots, v, today)[k] == SlotFor(FieldError(FieldAt(k), v, today))
  {
    var r := Reported(slots, v, today);
    forall f: Field ensures r[SlotIndex(f)] == SlotFor(FieldError(f, v, today)) {
      match f
      case FullName =>
      case Email =>
      case Password =>
      case ConfirmPassword =>
      case DateOfBirth =>
      case Gender =>
      case Country =>
      case Terms =>
    }
    forall k | 0 <= k < FieldCount ensures r[k] == SlotFor(FieldError(FieldAt(k), v, today)) {
      assert SlotIndex(FieldAt(k)) == k;
    }
  }

  /** Validation overwrites every slot, so what the slots held before does not matter. */
  lemma ReportedIgnoresPrevious(a: seq<ErrorSlot>, b: seq<ErrorSlot>, v: Values, today: Date)
    requires |a| == |b| == FieldCount
    ensures Reported(a, v, today) == Reported(b, v, today)
  {
    ReportedSlots(a, v, today);
    ReportedSlots(b, v, today);
  }

  /** One option per city, in order, each with the city as both value and text. */
  function CityOptions(cities: seq<string>): (options: seq<SelectOption>)
    ensures |options| == |cities|
    ensures forall k :: 0 <= k < |cities| ==> options[k] == SelectOption(cities[k], cities[k])
  {
    seq(|cities|, k requires 0 <= k < |cities| => SelectOption(cities[k], cities[k]))
  }

  class Page {
    var values: Values
    var errors: seq<ErrorSlot>
    var cityOptions: seq<SelectOption>
    /** What the AQI value element shows. */
    var aqiReading: AqiReading
    /** The text of the AQI status element. */
    var aqiStatus: string
    /** The class list of the AQI value element (the colour classes go here). */
    var aqiClasses: set<string>
    var successVisible: bool

    /** One error slot per validated field. */
    predicate Valid()
      reads this
    {
      |errors| == FieldCount
    }

    /**
     * The freshly loaded page: every input empty, every error slot empty and hidden,
     * the city list at its "Select a country first" placeholder, no AQI reading and
     * no colour class, the success message hidden.
     */
    constructor()
      ensures Valid()
      ensures values == Blank && forall k :: 0 <= k < |errors| ==> errors[k] == Cleared
      ensures cityOptions == [ChooseCountryFirst] && aqiReading == Dashes && aqiStatus == AqiPrompt
      ensures aqiClasses == {} && !successVisible
    {
      values := Blank;
      errors := seq(FieldCount, _ => Cleared);
      cityOptions := [ChooseCountryFirst];
      aqiReading := Dashes;
      aqiStatus := AqiPrompt;
      aqiClasses := {};
      successVisible := false;
    }

    // ---- Country and city --------------------------------------------------------

    /**
     * `handleCountryChange`: reset the AQI display and rebuild the city list as the
     * placeholder followed by the selected country's cities, in catalog order.
     */
    method HandleCountryChange()
      modifies this`cityOptions, this`aqiReading, this`aqiStatus
      ensures cityOptions == [ChooseCity] + CityOptions(CitiesOf(values.country))
      ensures aqiReading == Dashes && aqiStatus == AqiPrompt
    {
      cityOptions := [ChooseCity];
      aqiReading := Dashes;
      aqiStatus := AqiPrompt;
      var country := values.country;
      if country != "" && country in CityData {
        var cities := CityData[country];
        var i := 0;
        while i < |cities|
          invariant 0 <= i <= |cities|
          invariant cityOptions == [ChooseCity] + CityOptions(cities[..i])
          invariant aqiReading == Dashes && aqiStatus == AqiPrompt
        {
          cityOptions := cityOptions + [SelectOption(cities[i], cities[i])];
          i := i + 1;
        }
        assert cities[..i] == cities;
      }
    }

    /**
     * `handleCityChange`: with a city chosen, show the drawn value (a whole number
     * in [0, 300)); with the placeholder chosen, reset the AQI display.
     */
    method HandleCityChange(city: string, draw: int)
      requires 0 <= draw < 300
      modifies this`aqiReading, this`aqiStatus, this`aqiClasses
      ensures city == "" ==> aqiReading == Dashes && aqiStatus == AqiPrompt && aqiClasses == old(aqiClasses)
      ensures city != "" ==> aqiReading == Reading(draw) && aqiStatus == StatusText(StatusOf(draw)) &&
                             StatusOf(draw) != Unknown &&
                             ColourOf(StatusOf(draw)).Some? &&
                             aqiClasses * ColourClasses == {ColourOf(StatusOf(draw)).value} &&
                             aqiClasses - ColourClasses == old(aqiClasses) - ColourClasses
    {
      if city != "" {
        DrawLandsInFirstFiveTiers(draw);
        ColourExactlyInRange(draw);
        DisplayAqiData(draw);
      } else {
        aqiReading := Dashes;
        aqiStatus := AqiPrompt;
      }
    }

    /**
     * `displayAqiData`: show the value and its tier's status line, remove every
     * colour class, then add the tier's colour class if it has one. Classes that
     * are not colour classes are left alone.
     */
    method DisplayAqiData(v: int)
      modifies this`aqiReading, this`aqiStatus, this`aqiClasses
      ensures aqiReading == Reading(v)
      ensures aqiStatus == StatusText(StatusOf(v))
      ensures aqiClasses - ColourClasses == old(aqiClasses) - ColourClasses
      ensures aqiClasses * ColourClasses == match ColourOf(StatusOf(v)) case Some(c) => {c} case None => {}
    {
      aqiReading := Reading(v);
      var status := StatusOf(v);
      aqiStatus := StatusText(status);
      aqiClasses := aqiClasses - ColourClasses;
      var colour := ColourOf(status);
      if colour.Some? {
        aqiClasses := aqiClasses + {colour.value};
      }
    }

    // ---- Error slots -------------------------------------------------------------

    /** `showError`: put `message` in field `f`'s slot and display it. */
    method ShowError(f: Field, message: string)
      requires Valid()
      modifies this`errors
      ensures Valid() && errors == old(errors)[SlotIndex(f) := ErrorSlot(message, true)]
    {
      errors := errors[SlotIndex(f) := ErrorSlot(message, true)];
    }

    /** `clearError`: empty field `f`'s slot and hide it. */
    method ClearError(f: Field)
      requires Valid()
      modifies this`errors
      ensures Valid() && errors == old(errors)[SlotIndex(f) := Cleared]
    {
      errors := errors[SlotIndex(f) := Cleared];
    }

    /** `clearErrors`: clear every error slot, one after another. */
    method ClearErrors()
      requires Valid()
      modifies this`errors
      ensures Valid() && forall k :: 0 <= k < |errors| ==> errors[k] == Cleared
    {
      var i := 0;
      while i < |errors|
        invariant 0 <= i <= |errors| == FieldCount
        invariant forall k :: 0 <= k < i ==> errors[k] == Cleared
      {
        errors := errors[i := Cleared];
        i := i + 1;
      }
    }

    /** Show a validator's message in its field's slot, or clear the slot when it passed. */
    method Report(f: Field, r: Option<string>) returns (ok: bool)
      requires Valid()
      modifies this`errors
      ensures Valid() && errors == old(errors)[SlotIndex(f) := SlotFor(r)]
      ensures ok <==> r.None?
    {
      if r.Some? {
        ShowError(f, r.value);
        return false;
      }
      ClearError(f);
      return true;
    }

    // ---- Field validators ---------------------------------------------------------
    // Each reads its field's current value (passed in) and leaves its verdict in the
    // field's slot: the rule's message shown, or the slot cleared.

    method ValidateName(name: string) returns (ok: bool)
      requires Valid()
      modifies this`errors
      ensures Valid() && errors == old(errors)[SlotIndex(FullName) := SlotFor(NameError(name))]
      ensures ok <==> NameError(name).None?
    {
      ok := Report(FullName, NameError(name));
    }

    method ValidateEmail(email: string) returns (ok: bool)
      requires Valid()
      modifies this`errors
      ensures Valid() && errors == old(errors)[SlotIndex(Email) := SlotFor(EmailError(email))]
      ensures ok <==> EmailError(email).None?
    {
      ok := Report(Email, EmailError(email));
    }

    method ValidatePassword(password: string) returns (ok: bool)
      requires Valid()
      modifies this`errors
      ensures Valid() && errors == old(errors)[SlotIndex(Password) := SlotFor(PasswordError(password))]
      ensures ok <==> PasswordError(password).None?
    {
      ok := Report(Password, PasswordError(password));
    }

    method ValidateConfirmPassword(password: string, confirm: string) returns (ok: bool)
      requires Valid()
      modifies this`errors
      ensures Valid() && errors == old(errors)[SlotIndex(ConfirmPassword) := SlotFor(ConfirmError(password, confirm))]
      ensures ok <==> ConfirmError(password, confirm).None?
    {
      ok := Report(ConfirmPassword, ConfirmError(password, confirm));
    }

    method ValidateDob(dob: Option<Date>, today: Date) returns (ok: bool)
      requires Valid()
      modifies this`errors
      ensures Valid() && errors == old(errors)[SlotIndex(DateOfBirth) := SlotFor(DobError(dob, today))]
      ensures ok <==> DobError(dob, today).None?
    {
      ok := Report(DateOfBirth, DobError(dob, today));
    }

    method ValidateGender(gender: Option<string>) returns (ok: bool)
      requires Valid()
      modifies this`errors
      ensures Valid() && errors == old(errors)[SlotIndex(Gender) := SlotFor(GenderError(gender))]
      ensures ok <==> gender.Some?
    {
      ok := Report(Gender, GenderError(gender));
    }

    method ValidateCountry(country: string) returns (ok: bool)
      requires Valid()
      modifies this`errors
      ensures Valid() && errors == old(errors)[SlotIndex(Country) := SlotFor(CountryError(country))]
      ensures ok <==> country != ""
    {
      ok := Report(Country, CountryError(country));
    }

    method ValidateTerms(accepted: bool) returns (ok: bool)
      requires Valid()
      modifies this`errors
      ensures Valid() && errors == old(errors)[SlotIndex(Terms) := SlotFor(TermsError(accepted))]
      ensures ok <==> accepted
    {
      ok := Report(Terms, TermsError(accepted));
    }

    // ---- The whole form ----------------------------------------------------------

    /**
     * `validateRegistrationForm`: run all eight validators in order, each one even
     * after an earlier one failed, and AND their verdicts. Afterwards every field's
     * slot holds what its own validator left there.
     */
    method ValidateRegistrationForm(today: Date) returns (isValid: bool)
      requires Valid()
      modifies this`errors
      ensures Valid()
      ensures isValid <==> FormValid(values, today)
      ensures errors == Reported(old(errors), values, today)
    {
      var v := values;
      isValid := true;
      var ok := ValidateName(v.fullName);
      if !ok { isValid := false; }
      ok := ValidateEmail(v.email);
      if !ok { isValid := false; }
      ok := ValidatePassword(v.password);
      if !ok { isValid := false; }
      ok := ValidateConfirmPassword(v.password, v.confirmPassword);
      if !ok { isValid := false; }
      ok := ValidateDob(v.dateOfBirth, today);
      if !ok { isValid := false; }
      ok := ValidateGender(v.gender);
      if !ok { isValid := false; }
      ok := ValidateCountry(v.country);
      if !ok { isValid := false; }
      ok := ValidateTerms(v.termsAccepted);
      if !ok { isValid := false; }
    }

    /**
     * `handleRegistrationSubmit`: clear every slot, validate the form and, when it
     * is valid, show the success message, reset the form, collapse the city list
     * to its "Select a country first" placeholder and reset the AQI display. When
     * it is not valid, nothing but the error slots changes.
     */
    method HandleRegistrationSubmit(today: Date)
      requires Valid()
      modifies this
      ensures Valid()
      ensures errors == Reported(old(errors), old(values), today)
      ensures aqiClasses == old(aqiClasses)
      ensures FormValid(old(values), today) ==>
                successVisible && values == Blank && cityOptions == [ChooseCountryFirst] &&
                aqiReading == Dashes && aqiStatus == AqiPrompt
      ensures !FormValid(old(values), today) ==>
                successVisible == old(successVisible) && values == old(values) &&
                cityOptions == old(cityOptions) && aqiReading == old(aqiReading) && aqiStatus == old(aqiStatus)
    {
      ClearErrors();
      ghost var cleared := errors;
      var ok := ValidateRegistrationForm(today);
      ReportedIgnoresPrevious(cleared, old(errors), old(values), today);
      if ok {
        successVisible := true;
        values := Blank;
        cityOptions := [ChooseCountryFirst];
        aqiReading := Dashes;
        aqiStatus := AqiPrompt;
      }
    }
  }
}
