/**
 * The field rules of the registration page's main script: one validator per
 * field, each a list of rules tried in order whose first failure gives the
 * message, and the form-level verdict that ANDs all eight. Each validator's
 * contract names, for every message, exactly the inputs that produce it.
 *
 * A validator returns `None` when the field is valid and `Some(message)` with the
 * message shown in the field's error slot otherwise.
 */
module RegistrationRules {
  import opened Wrappers
  import opened Text
  import opened Email
  import opened Dates
  import opened Form

  /** The youngest age at which one may register. */
  const MinimumAge: int := 13

  const NameRequired := "Full name is required"
  const NameTooShort := "Name must be at least 3 characters"
  const NameBadCharacter := "Name can only contain letters and spaces"
  const EmailRequired := "Email is required"
  const EmailInvalid := "Please enter a valid email address"
  const PasswordRequired := "Password is required"
  const PasswordTooShort := "Password must be at least 8 characters"
  const PasswordNoUpper := "Password must contain at least one uppercase letter"
  const PasswordNoDigit := "Password must contain at least one number"
  const ConfirmRequired := "Please confirm your password"
  const ConfirmMismatch := "Passwords do not match"
  const DobRequired := "Date of birth is required"
  const DobTooYoung := "You must be at least 13 years old"
  const GenderRequired := "Please select a gender"
  const CountryRequired := "Please select a country"
  const TermsRequired := "You must agree to the terms and conditions"

  /** `[a-zA-Z\s]` */
  predicate IsNameChar(c: char) { IsLetter(c) || IsSpace(c) }

  predicate AllNameChars(s: string) { forall i :: 0 <= i < |s| ==> IsNameChar(s[i]) }

  predicate HasUpper(s: string) { exists i :: 0 <= i < |s| && IsUpper(s[i]) }

  predicate HasDigit(s: string) { exists i :: 0 <= i < |s| && IsDigit(s[i]) }

  // ---- Full name (trimmed: required, at least 3 characters, `[a-zA-Z\s]+`) ------

  function NameError(name: string): Option<string>
  {
    var t := Trim(name);
    if t == [] then Some(NameRequired)
    else if |t| < 3 then Some(NameTooShort)
    else if !AllNameChars(t) then Some(NameBadCharacter)
    else None
  }

  /**
   * The name rule, message by message: blank reports "required"; a trimmed value
   * of one or two characters reports "too short"; a longer one with a character
   * outside `[a-zA-Z\s]` reports the character rule; anything else is valid.
   */
  lemma NameErrorMeaning(name: string)
    ensures NameError(name).None? <==> |Trim(name)| >= 3 && AllNameChars(Trim(name))
    ensures NameError(name) == Some(NameRequired) <==> AllSpace(name)
    ensures NameError(name) == Some(NameTooShort) <==> 0 < |Trim(name)| < 3
    ensures NameError(name) == Some(NameBadCharacter) <==> |Trim(name)| >= 3 && !AllNameChars(Trim(name))
  {
    TrimEmptyIffBlank(name);
  }

  /** An accepted name, once trimmed, begins and ends with a letter. */
  lemma AcceptedNameEndsWithLetters(name: string)
    requires NameError(name).None?
    ensures var t := Trim(name); IsLetter(t[0]) && IsLetter(t[|t| - 1])
  {
    var t := Trim(name);
    TrimSpec(name);
    assert IsNameChar(t[0]) && IsNameChar(t[|t| - 1]);
  }

  // ---- E-mail (trimmed: required, then the e-mail pattern) -----------------------

  function EmailError(email: string): Option<string>
  {
    var t := Trim(email);
    if t == [] then Some(EmailRequired)
    else if !IsEmailAddress(t) then Some(EmailInvalid)
    else None
  }

  /**
   * The e-mail rule: a blank value reports "required"; otherwise the trimmed value
   * is valid exactly when it is in the language of the e-mail pattern.
   */
  lemma EmailErrorMeaning(email: string)
    ensures EmailError(email).None? <==> MatchesEmailPattern(Trim(email))
    ensures EmailError(email) == Some(EmailRequired) <==> AllSpace(email)
    ensures EmailError(email) == Some(EmailInvalid) <==> !AllSpace(email) && !MatchesEmailPattern(Trim(email))
  {
    TrimEmptyIffBlank(email);
    IsEmailAddressIff(Trim(email));
  }

  // ---- Password (not trimmed: required, 8 long, an upper-case letter, a digit) ----

  function PasswordError(password: string): Option<string>
  {
    if password == [] then Some(PasswordRequired)
    else if |password| < 8 then Some(PasswordTooShort)
    else if !HasUpper(password) then Some(PasswordNoUpper)
    else if !HasDigit(password) then Some(PasswordNoDigit)
    else None
  }

  /**
   * The password rule, message by message: the first of empty, shorter than 8, no
   * upper-case letter, no digit that applies is reported; valid exactly when none does.
   */
  lemma PasswordErrorMeaning(password: string)
    ensures PasswordError(password).None? <==> |password| >= 8 && HasUpper(password) && HasDigit(password)
    ensures PasswordError(password) == Some(PasswordRequired) <==> password == []
    ensures PasswordError(password) == Some(PasswordTooShort) <==> 0 < |password| < 8
    ensures PasswordError(password) == Some(PasswordNoUpper) <==> |password| >= 8 && !HasUpper(password)
    ensures PasswordError(password) == Some(PasswordNoDigit) <==> |password| >= 8 && HasUpper(password) && !HasDigit(password)
  {
  }

  // ---- Confirm password (required, then identical to the password) ---------------

  function ConfirmError(password: string, confirm: string): Option<string>
  {
    if confirm == [] then Some(ConfirmRequired)
    else if password != confirm then Some(ConfirmMismatch)
    else None
  }

  /** The confirmation rule: empty reports "confirm"; otherwise valid exactly when identical. */
  lemma ConfirmErrorMeaning(password: string, confirm: string)
    ensures ConfirmError(password, confirm).None? <==> confirm != [] && confirm == password
    ensures ConfirmError(password, confirm) == Some(ConfirmRequired) <==> confirm == []
    ensures ConfirmError(password, confirm) == Some(ConfirmMismatch) <==> confirm != [] && confirm != password
  {
  }

  // ---- Date of birth (required, then at least `MinimumAge` years old) -------------

  function DobError(dob: Option<Date>, today: Date): Option<string>
  {
    match dob
    case None => Some(DobRequired)
    case Some(birth) =>
      if Age(birth, today) < MinimumAge then Some(DobTooYoung) else None
  }

  /**
   * The date-of-birth rule: no date reports "required"; otherwise valid exactly when
   * the 13th birthday is today or earlier. A date after today always fails.
   */
  lemma DobErrorMeaning(dob: Option<Date>, today: Date)
    ensures DobError(dob, today).None? <==> dob.Some? && !Before(today, AddYears(dob.value, MinimumAge))
    ensures DobError(dob, today) == Some(DobRequired) <==> dob.None?
    ensures DobError(dob, today) == Some(DobTooYoung) <==> dob.Some? && Before(today, AddYears(dob.value, MinimumAge))
    ensures dob.Some? && Before(today, dob.value) ==> DobError(dob, today) == Some(DobTooYoung)
  {
    if dob.Some? {
      AgeAtLeastIff(dob.value, today, MinimumAge);
      FutureBirthNegativeAge(dob.value, today);
    }
  }

  // ---- Gender, country, terms ------------------------------------------------------

  function GenderError(gender: Option<string>): (r: Option<string>)
    ensures r.None? <==> gender.Some?
    ensures r.Some? ==> r.value == GenderRequired
  {
    if gender.None? then Some(GenderRequired) else None
  }

  function CountryError(country: string): (r: Option<string>)
    ensures r.None? <==> country != []
    ensures r.Some? ==> r.value == CountryRequired
  {
    if country == [] then Some(CountryRequired) else None
  }

  function TermsError(accepted: bool): (r: Option<string>)
    ensures r.None? <==> accepted
    ensures r.Some? ==> r.value == TermsRequired
  {
    if !accepted then Some(TermsRequired) else None
  }

  // ---- The whole form --------------------------------------------------------

  /** The outcome of the validator of field `f` on the form's current values. */
  function FieldError(f: Field, v: Values, today: Date): Option<string> {
    match f
    case FullName => NameError(v.fullName)
    case Email => EmailError(v.email)
    case Password => PasswordError(v.password)
    case ConfirmPassword => ConfirmError(v.password, v.confirmPassword)
    case DateOfBirth => DobError(v.dateOfBirth, today)
    case Gender => GenderError(v.gender)
    case Country => CountryError(v.country)
    case Terms => TermsError(v.termsAccepted)
  }

  /** `validateRegistrationForm`'s verdict: all eight validators pass. */
  predicate FormValid(v: Values, today: Date) {
    NameError(v.fullName).None? && EmailError(v.email).None? &&
    PasswordError(v.password).None? && ConfirmError(v.password, v.confirmPassword).None? &&
    DobError(v.dateOfBirth, today).None? && GenderError(v.gender).None? &&
    CountryError(v.country).None? && TermsError(v.termsAccepted).None?
  }

  /** The form is valid exactly when no field's validator reports an error. */
  lemma FormValidIffNoFieldError(v: Values, today: Date)
    ensures FormValid(v, today) <==> forall f: Field :: FieldError(f, v, today).None?
  {
    if FormValid(v, today) {
      forall f: Field ensures FieldError(f, v, today).None? {
        match f
        case FullName =>
        case Email =>
        case Password =>
        case ConfirmPassword =>
        case DateOfBirth =>
        case Gender =>
        case Country =>
        case Terms =>
      }
    } else {
      assert exists f: Field :: FieldError(f, v, today).Some? by {
        if NameError(v.fullName).Some? { assert FieldError(FullName, v, today).Some?; }
        else if EmailError(v.email).Some? { assert FieldError(Email, v, today).Some?; }
        else if PasswordError(v.password).Some? { assert FieldError(Password, v, today).Some?; }
        else if ConfirmError(v.password, v.confirmPassword).Some? { assert FieldError(ConfirmPassword, v, today).Some?; }
        else if DobError(v.dateOfBirth, today).Some? { assert FieldError(DateOfBirth, v, today).Some?; }
        else if GenderError(v.gender).Some? { assert FieldError(Gender, v, today).Some?; }
        else if CountryError(v.country).Some? { assert FieldError(Country, v, today).Some?; }
        else { assert FieldError(Terms, v, today).Some?; }
      }
    }
  }

  /** The form-level verdict spelled out: all eight rule sets hold. */
  lemma FormValidIff(v: Values, today: Date)
    ensures FormValid(v, today) <==>
      |Trim(v.fullName)| >= 3 && AllNameChars(Trim(v.fullName)) &&
      MatchesEmailPattern(Trim(v.email)) &&
      |v.password| >= 8 && HasUpper(v.password) && HasDigit(v.password) &&
      v.confirmPassword == v.password &&
      v.dateOfBirth.Some? && !Before(today, AddYears(v.dateOfBirth.value, MinimumAge)) &&
      v.gender.Some? && v.country != [] && v.termsAccepted
  {
    NameErrorMeaning(v.fullName);
    EmailErrorMeaning(v.email);
    PasswordErrorMeaning(v.password);
    ConfirmErrorMeaning(v.password, v.confirmPassword);
    DobErrorMeaning(v.dateOfBirth, today);
  }

  /** Every error message is non-empty, so a shown slot is never blank. */
  lemma MessagesNonEmpty(f: Field, v: Values, today: Date)
    ensures FieldError(f, v, today).Some? ==> FieldError(f, v, today).value != []
  {
  }

  /** A blank form fails every one of the eight validators. */
  lemma BlankFormFailsEveryField(f: Field, today: Date)
    ensures FieldError(f, Blank, today).Some?
  {
    NameErrorMeaning(Blank.fullName);
    EmailErrorMeaning(Blank.email);
  }
}
