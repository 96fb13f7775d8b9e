/**
 * The field rules of the registration page's stand-alone submit handler, and how
 * they differ from the main script's rules.
 *
 * The handler checks the same eight fields in the same order, but with a looser
 * policy: a name need only be non-blank, a password need only be 8 characters
 * long, and a date of birth need only lie strictly before the present moment
 * (there is no minimum age). Each check reports at most one message, chosen by
 * an `if / else if` chain. The confirm-password, gender, country and terms checks
 * are the main script's, message for message.
 */
module HandlerRules {
  import opened Wrappers
  import opened Text
  import opened Email
  import opened Dates
  import opened Form
  import opened RegistrationRules

  const EmailMalformed := "Please enter a valid email"
  const DobNotPast := "Date must be in the past"

  function SignupNameError(name: string): Option<string> {
    if Trim(name) == [] then Some(NameRequired) else None
  }

  /** Full name: only a blank value is rejected; there is no length or character rule. */
  lemma SignupNameErrorMeaning(name: string)
    ensures SignupNameError(name).None? <==> !AllSpace(name)
    ensures SignupNameError(name).Some? ==> SignupNameError(name).value == NameRequired
  {
    TrimEmptyIffBlank(name);
  }

  function SignupEmailError(email: string): Option<string> {
    var t := Trim(email);
    if t == [] then Some(EmailRequired)
    else if !IsEmailAddress(t) then Some(EmailMalformed)
    else None
  }

  /** E-mail: required, then the shared pattern; the second message is worded differently. */
  lemma SignupEmailErrorMeaning(email: string)
    ensures SignupEmailError(email).None? <==> MatchesEmailPattern(Trim(email))
    ensures SignupEmailError(email) == Some(EmailRequired) <==> AllSpace(email)
    ensures SignupEmailError(email) == Some(EmailMalformed) <==> !AllSpace(email) && !MatchesEmailPattern(Trim(email))
  {
    TrimEmptyIffBlank(email);
    IsEmailAddressIff(Trim(email));
  }

  function SignupPasswordError(password: string): Option<string> {
    if password == [] then Some(PasswordRequired)
    else if |password| < 8 then Some(PasswordTooShort)
    else None
  }

  /** Password: at most one message, "required" when empty, else "too short" under 8; nothing else. */
  lemma SignupPasswordErrorMeaning(password: string)
    ensures SignupPasswordError(password).None? <==> |password| >= 8
    ensures SignupPasswordError(password) == Some(PasswordRequired) <==> password == []
    ensures SignupPasswordError(password) == Some(PasswordTooShort) <==> 0 < |password| < 8
  {
  }

  function SignupDobError(dob: Option<Date>, now: Instant): Option<string> {
    if dob.None? then Some(DobRequired)
    else if !InstantBefore(Midnight(dob.value), now) then Some(DobNotPast)
    else None
  }

  /**
   * Date of birth: "required" when absent; otherwise "not in the past" exactly when
   * its midnight is not strictly before `now`. A date of birth equal to today's date
   * therefore passes at every moment but midnight itself.
   */
  lemma SignupDobErrorMeaning(dob: Option<Date>, now: Instant)
    ensures SignupDobError(dob, now).None? <==> dob.Some? && InstantBefore(Midnight(dob.value), now)
    ensures SignupDobError(dob, now) == Some(DobRequired) <==> dob.None?
    ensures SignupDobError(dob, now) == Some(DobNotPast) <==> dob.Some? && !InstantBefore(Midnight(dob.value), now)
    ensures dob.Some? && dob.value == now.date ==> (SignupDobError(dob, now).None? <==> now.millis > 0)
  {
  }

  /** The outcome of the handler's check of field `f`. */
  function SignupFieldError(f: Field, v: Values, now: Instant): Option<string> {
    match f
    case FullName => SignupNameError(v.fullName)
    case Email => SignupEmailError(v.email)
    case Password => SignupPasswordError(v.password)
    case ConfirmPassword => ConfirmError(v.password, v.confirmPassword)
    case DateOfBirth => SignupDobError(v.dateOfBirth, now)
    case Gender => GenderError(v.gender)
    case Country => CountryError(v.country)
    case Terms => TermsError(v.termsAccepted)
  }

  /** The handler's final `isValid`: none of the eight checks reported an error. */
  predicate SignupValid(v: Values, now: Instant) {
    SignupNameError(v.fullName).None? && SignupEmailError(v.email).None? &&
    SignupPasswordError(v.password).None? && ConfirmError(v.password, v.confirmPassword).None? &&
    SignupDobError(v.dateOfBirth, now).None? && GenderError(v.gender).None? &&
    CountryError(v.country).None? && TermsError(v.termsAccepted).None?
  }

  /** The handler accepts the form exactly when no field's check reports an error. */
  lemma SignupValidIffNoFieldError(v: Values, now: Instant)
    ensures SignupValid(v, now) <==> forall f: Field :: SignupFieldError(f, v, now).None?
  {
    if SignupValid(v, now) {
      forall f: Field ensures SignupFieldError(f, v, now).None? {
        match f
        case FullName =>
        case Email =>
        case Password =>
        case ConfirmPassword =>
        case DateOfBirth =>
        case Gender =>
        case Country =>
        case Terms =>
      }
    } else {
      assert exists f: Field :: SignupFieldError(f, v, now).Some? by {
        if SignupNameError(v.fullName).Some? { assert SignupFieldError(FullName, v, now).Some?; }
        else if SignupEmailError(v.email).Some? { assert SignupFieldError(Email, v, now).Some?; }
        else if SignupPasswordError(v.password).Some? { assert SignupFieldError(Password, v, now).Some?; }
        else if ConfirmError(v.password, v.confirmPassword).Some? { assert SignupFieldError(ConfirmPassword, v, now).Some?; }
        else if SignupDobError(v.dateOfBirth, now).Some? { assert SignupFieldError(DateOfBirth, v, now).Some?; }
        else if GenderError(v.gender).Some? { assert SignupFieldError(Gender, v, now).Some?; }
        else if CountryError(v.country).Some? { assert SignupFieldError(Country, v, now).Some?; }
        else { assert SignupFieldError(Terms, v, now).Some?; }
      }
    }
  }

  /** The handler's verdict spelled out: all eight of its rule sets hold. */
  lemma SignupValidIff(v: Values, now: Instant)
    ensures SignupValid(v, now) <==>
      !AllSpace(v.fullName) && MatchesEmailPattern(Trim(v.email)) && |v.password| >= 8 &&
      v.confirmPassword != [] && v.confirmPassword == v.password &&
      v.dateOfBirth.Some? && InstantBefore(Midnight(v.dateOfBirth.value), now) &&
      v.gender.Some? && v.country != [] && v.termsAccepted
  {
    SignupNameErrorMeaning(v.fullName);
    SignupEmailErrorMeaning(v.email);
    SignupPasswordErrorMeaning(v.password);
    ConfirmErrorMeaning(v.password, v.confirmPassword);
    SignupDobErrorMeaning(v.dateOfBirth, now);
  }

  // ---- The two policies compared ------------------------------------------------

  /** Names: the main script adds a length and a character-class rule on top. */
  lemma NamePolicies(name: string)
    ensures NameError(name).None? <==>
            SignupNameError(name).None? && |Trim(name)| >= 3 && AllNameChars(Trim(name))
  {
    NameErrorMeaning(name);
    SignupNameErrorMeaning(name);
  }

  /** E-mail: both accept exactly the same addresses; only one message differs. */
  lemma EmailPolicies(email: string)
    ensures EmailError(email).None? <==> SignupEmailError(email).None?
    ensures EmailError(email) == Some(EmailRequired) <==> SignupEmailError(email) == Some(EmailRequired)
  {
    EmailErrorMeaning(email);
    SignupEmailErrorMeaning(email);
  }

  /** Passwords: the main script adds the upper-case and digit rules on top. */
  lemma PasswordPolicies(password: string)
    ensures PasswordError(password).None? <==>
            SignupPasswordError(password).None? && HasUpper(password) && HasDigit(password)
  {
    PasswordErrorMeaning(password);
  }

  /**
   * Dates of birth: the main script's age floor implies the handler's "in the past"
   * rule, whatever the time of day; the handler adds nothing the floor misses.
   */
  lemma DobPolicies(dob: Option<Date>, now: Instant)
    ensures DobError(dob, now.date).None? <==>
            SignupDobError(dob, now).None? && Age(dob.value, now.date) >= MinimumAge
  {
    if dob.Some? {
      AgeAtLeastIff(dob.value, now.date, MinimumAge);
    }
  }

  /** A date of birth the handler accepts although the main script rejects it: yesterday. */
  lemma YesterdayPassesOnlyTheHandler()
    ensures var now := Instant(Date(2024, 6, 15), 0);
            var dob := Some(Date(2024, 6, 14));
            SignupDobError(dob, now).None? && DobError(dob, now.date) == Some(DobTooYoung)
  {
  }

  /** Every form the main script accepts, the handler accepts too. */
  lemma MainPolicyIsStricter(v: Values, now: Instant)
    requires FormValid(v, now.date)
    ensures SignupValid(v, now)
  {
    NamePolicies(v.fullName);
    EmailPolicies(v.email);
    PasswordPolicies(v.password);
    DobPolicies(v.dateOfBirth, now);
  }
}
