/**
 * The registration page's stand-alone submit handler: it clears every error
 * element, checks the eight fields one after another with its own `if / else if`
 * chains, writes each failing check's message into that field's error element, and
 * shows the success message and resets the form when nothing failed.
 *
 * The reading of the clock is passed in as `now`, read in UTC. The half-second delay before
 * the success message appears is not modelled: the handler's last step is taken
 * at once.
 */
module HandlerPage {
  import opened Wrappers
  import opened Text
  import opened Email
  import opened Dates
  import opened Form
  import opened RegistrationRules
  import opened HandlerRules

  /** The text an error element holds after a check: its message, or nothing. */
  function Shown(r: Option<string>): string {
    match r
    case Some(message) => message
    case None => ""
  }

  /** The outcomes of the handler's eight checks, in form order. */
  function SignupOutcomes(v: Values, now: Instant): seq<Option<string>> {
    [SignupNameError(v.fullName), SignupEmailError(v.email),
     SignupPasswordError(v.password), ConfirmError(v.password, v.confirmPassword),
     SignupDobError(v.dateOfBirth, now), GenderError(v.gender),
     CountryError(v.country), TermsError(v.termsAccepted)]
  }

  /** Outcome `k` is the outcome of the check of the field whose slot is `k`. */
  lemma SignupOutcomesAt(v: Values, now: Instant)
    ensures |SignupOutcomes(v, now)| == FieldCount
    ensures forall f: Field :: SignupOutcomes(v, now)[SlotIndex(f)] == SignupFieldError(f, v, now)
  {
    var rs := SignupOutcomes(v, now);
    forall f: Field ensures rs[SlotIndex(f)] == SignupFieldError(f, v, now) {
      match f
      case FullName =>
      case Email =>
      case Password =>
      case ConfirmPassword =>
      case DateOfBirth =>
      case Gender =>
      case Country =>
      case Terms =>
    }
  }

  /** The texts a list of outcomes puts in the error elements. */
  function Messages(rs: seq<Option<string>>): seq<string> {
    seq(|rs|, k requires 0 <= k < |rs| => Shown(rs[k]))
  }

  /** The eight error texts the handler leaves behind, in form order. */
  function SignupMessages(v: Values, now: Instant): seq<string> {
    Messages(SignupOutcomes(v, now))
  }

  /**
   * Every message is non-empty, so after a submit a field's error element holds
   * text exactly when that field's check failed, and then holds its message.
   */
  lemma SignupMessageShownIffFailed(v: Values, now: Instant, f: Field)
    ensures |SignupMessages(v, now)| == FieldCount
    ensures SignupMessages(v, now)[SlotIndex(f)] != "" <==> SignupFieldError(f, v, now).Some?
    ensures SignupFieldError(f, v, now).Some? ==>
              SignupMessages(v, now)[SlotIndex(f)] == SignupFieldError(f, v, now).value
  {
    SignupOutcomesAt(v, now);
  }

  /**
   * Every message is non-empty, so the form is accepted exactly when every error
   * element is left empty.
   */
  lemma SignupValidIffNoMessage(v: Values, now: Instant)
    ensures |SignupMessages(v, now)| == FieldCount
    ensures SignupValid(v, now) <==> forall k :: 0 <= k < FieldCount ==> SignupMessages(v, now)[k] == ""
  {
    var rs, m := SignupOutcomes(v, now), SignupMessages(v, now);
    SignupOutcomesAt(v, now);
    SignupValidIffNoFieldError(v, now);
    if forall k :: 0 <= k < FieldCount ==> m[k] == "" {
      forall f: Field ensures SignupFieldError(f, v, now).None? {
        assert m[SlotIndex(f)] == Shown(rs[SlotIndex(f)]) == "";
      }
    } else {
      var k :| 0 <= k < FieldCount && m[k] != "";
      assert SignupFieldError(FieldAt(k), v, now).Some?;
    }
  }

  /** An element's text after a check: the check's message if it failed, else what it held. */
  function Over(text: string, r: Option<string>): string {
    match r
    case Some(message) => message
    case None => text
  }

  /**
   * What one check does to the error elements: a failing check writes its message
   * into its field's element; a passing one leaves the element as it was.
   */
  function Posted(slots: seq<string>, f: Field, r: Option<string>): seq<string>
    requires |slots| == FieldCount
  {
    slots[SlotIndex(f) := Over(slots[SlotIndex(f)], r)]
  }

  /** The error elements after checks with outcomes `rs` have run, in form order, over `slots`. */
  function PostAll(slots: seq<string>, rs: seq<Option<string>>): seq<string>
    requires |slots| == |rs| == FieldCount
  {
    var s1 := Posted(slots, FullName, rs[0]);
    var s2 := Posted(s1, Email, rs[1]);
    var s3 := Posted(s2, Password, rs[2]);
    var s4 := Posted(s3, ConfirmPassword, rs[3]);
    var s5 := Posted(s4, DateOfBirth, rs[4]);
    var s6 := Posted(s5, Gender, rs[5]);
    var s7 := Posted(s6, Country, rs[6]);
    Posted(s7, Terms, rs[7])
  }

  /**
   * Run over emptied elements, the checks leave each field's own message, or
   * nothing, in that field's element.
   */
  lemma PostAllOnCleared(slots: seq<string>, rs: seq<Option<string>>)
    requires |slots| == |rs| == FieldCount
    requires forall k :: 0 <= k < |slots| ==> slots[k] == ""
    ensures PostAll(slots, rs) == Messages(rs)
  {
    forall k | 0 <= k < FieldCount ensures PostAll(slots, rs)[k] == Messages(rs)[k] {
      assert slots[k] == "";
    }
  }

  class Page {
    var values: Values
    var errors: seq<string>
    var successVisible: bool

    /** One error element per checked field. */
    predicate Valid()
      reads this
    {
      |errors| == FieldCount
    }

    /** The freshly loaded page: every input empty, every error element empty, no success message. */
    constructor()
      ensures Valid()
      ensures values == Blank && !successVisible
      ensures forall k :: 0 <= k < |errors| ==> errors[k] == ""
    {
      values := Blank;
      errors := seq(FieldCount, _ => "");
      successVisible := false;
    }

    /** `showError`: write `message` into field `f`'s error element. */
    method ShowError(f: Field, message: string)
      requires Valid()
      modifies this`errors
      ensures Valid() && errors == old(errors)[SlotIndex(f) := message]
    {
      errors := errors[SlotIndex(f) := message];
    }

    /** `clearErrors`: empty every error element, one after another. */
    method ClearErrors()
      requires Valid()
      modifies this`errors
      ensures Valid() && forall k :: 0 <= k < |errors| ==> errors[k] == ""
    {
      var i := 0;
      while i < |errors|
        invariant 0 <= i <= |errors| == FieldCount
        invariant forall k :: 0 <= k < i ==> errors[k] == ""
      {
        errors := errors[i := ""];
        i := i + 1;
      }
    }

    // ---- The eight checks, in the handler's order ----------------------------------
    // Each check reads its field's value (passed in), writes its message into the
    // field's error element when it fails, and says whether it passed.

    /** Full name, trimmed: required. */
    method CheckName(name: string) returns (ok: bool)
      requires Valid()
      modifies this`errors
      ensures Valid() && errors == Posted(old(errors), FullName, SignupNameError(name))
      ensures ok <==> SignupNameError(name).None?
    {
      var fname := Trim(name);
      ok := true;
      if fname == "" {
        ShowError(FullName, NameRequired);
        ok := false;
      }
    }

    /** E-mail, trimmed: required, then the e-mail pattern. */
    method CheckEmail(address: string) returns (ok: bool)
      requires Valid()
      modifies this`errors
      ensures Valid() && errors == Posted(old(errors), Email, SignupEmailError(address))
      ensures ok <==> SignupEmailError(address).None?
    {
      var email := Trim(address);
      ok := true;
      if email == "" {
        ShowError(Email, EmailRequired);
        ok := false;
      } else if !IsEmailAddress(email) {
        ShowError(Email, EmailMalformed);
        ok := false;
      }
    }

    /** Password, not trimmed: required, then at least 8 characters. */
    method CheckPassword(password: string) returns (ok: bool)
      requires Valid()
      modifies this`errors
      ensures Valid() && errors == Posted(old(errors), Password, SignupPasswordError(password))
      ensures ok <==> SignupPasswordError(password).None?
    {
      ok := true;
      if password == "" {
        ShowError(Password, PasswordRequired);
        ok := false;
      } else if |password| < 8 {
        ShowError(Password, PasswordTooShort);
        ok := false;
      }
    }

    /** Confirmation: required, then identical to the password. */
    method CheckConfirmPassword(password: string, repass: string) returns (ok: bool)
      requires Valid()
      modifies this`errors
      ensures Valid() && errors == Posted(old(errors), ConfirmPassword, ConfirmError(password, repass))
      ensures ok <==> ConfirmError(password, repass).None?
    {
      ok := true;
      if repass == "" {
        ShowError(ConfirmPassword, ConfirmRequired);
        ok := false;
      } else if repass != password {
        ShowError(ConfirmPassword, ConfirmMismatch);
        ok := false;
      }
    }

    /** Date of birth: required, then its midnight strictly before `now`. */
    method CheckDob(dob: Option<Date>, now: Instant) returns (ok: bool)
      requires Valid()
      modifies this`errors
      ensures Valid() && errors == Posted(old(errors), DateOfBirth, SignupDobError(dob, now))
      ensures ok <==> SignupDobError(dob, now).None?
    {
      ok := true;
      if dob.None? {
        ShowError(DateOfBirth, DobRequired);
        ok := false;
      } else if !InstantBefore(Midnight(dob.value), now) {
        ShowError(DateOfBirth, DobNotPast);
        ok := false;
      }
    }

    /** Gender: a choice must be checked. */
    method CheckGender(gender: Option<string>) returns (ok: bool)
      requires Valid()
      modifies this`errors
      ensures Valid() && errors == Posted(old(errors), Gender, GenderError(gender))
      ensures ok <==> gender.Some?
    {
      ok := true;
      if gender.None? {
        ShowError(Gender, GenderRequired);
        ok := false;
      }
    }

    /** Country: a country must be selected. */
    method CheckCountry(country: string) returns (ok: bool)
      requires Valid()
      modifies this`errors
      ensures Valid() && errors == Posted(old(errors), Country, CountryError(country))
      ensures ok <==> country != ""
    {
      ok := true;
      if country == "" {
        ShowError(Country, CountryRequired);
        ok := false;
      }
    }

    /** Terms: the box must be ticked. */
    method CheckTerms(termsChecked: bool) returns (ok: bool)
      requires Valid()
      modifies this`errors
      ensures Valid() && errors == Posted(old(errors), Terms, TermsError(termsChecked))
      ensures ok <==> termsChecked
    {
      ok := true;
      if !termsChecked {
        ShowError(Terms, TermsRequired);
        ok := false;
      }
    }

    /**
     * The handler's checks (everything between clearing the error elements and the
     * final test of `isValid`): run the eight checks in order, each one even after an
     * earlier one failed, and AND their verdicts.
     */
    method RunChecks(v: Values, now: Instant) returns (isValid: bool)
      requires Valid()
      modifies this`errors
      ensures Valid() && errors == PostAll(old(errors), SignupOutcomes(v, now))
      ensures isValid <==> SignupValid(v, now)
    {
      isValid := true;
      var ok := CheckName(v.fullName);
      if !ok { isValid := false; }
      ok := CheckEmail(v.email);
      if !ok { isValid := false; }
      ok := CheckPassword(v.password);
      if !ok { isValid := false; }
      ok := CheckConfirmPassword(v.password, v.confirmPassword);
      if !ok { isValid := false; }
      ok := CheckDob(v.dateOfBirth, now);
      if !ok { isValid := false; }
      ok := CheckGender(v.gender);
      if !ok { isValid := false; }
      ok := CheckCountry(v.country);
      if !ok { isValid := false; }
      ok := CheckTerms(v.termsAccepted);
      if !ok { isValid := false; }
    }

    /**
     * The submit handler: empty every error element, run the checks and, when none
     * failed, show the success message and reset the form. Afterwards each error
     * element holds its field's message or nothing; when a check failed the form
     * keeps its values.
     */
    method Submit(now: Instant)
      requires Valid()
      modifies this
      ensures Valid()
      ensures errors == SignupMessages(old(values), now)
      ensures SignupValid(old(values), now) ==> successVisible && values == Blank
      ensures !SignupValid(old(values), now) ==>
                successVisible == old(successVisible) && values == old(values)
    {
      var v := values;
      ClearErrors();
      PostAllOnCleared(errors, SignupOutcomes(v, now));
      var isValid := RunChecks(v, now);
      if isValid {
        successVisible := true;
        values := Blank;
      }
    }
  }
}
