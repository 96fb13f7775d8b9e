/**
 * The registration form: its eight validated fields, the values the user has
 * entered, and the per-field error slots the page shows messages in.
 */
module Form {
  import opened Wrappers
  import opened Dates

  /** The validated fields, in the order both scripts check them. */
  datatype Field = FullName | Email | Password | ConfirmPassword | DateOfBirth | Gender | Country | Terms

  const FieldCount: nat := 8

  /** The position of a field's error slot on the page (`fnameError` … `termsError`). */
  function SlotIndex(f: Field): (i: nat)
    ensures i < FieldCount
  {
    match f
    case FullName => 0
    case Email => 1
    case Password => 2
    case ConfirmPassword => 3
    case DateOfBirth => 4
    case Gender => 5
    case Country => 6
    case Terms => 7
  }

  /** The field whose error slot sits at position `i`. */
  function FieldAt(i: nat): (f: Field)
    requires i < FieldCount
    ensures SlotIndex(f) == i
  {
    [FullName, Email, Password, ConfirmPassword, DateOfBirth, Gender, Country, Terms][i]
  }

  /**
   * What the user has entered. An empty date input is `None`; `gender` is the value
   * of the checked radio button, if any; `country` is the country selector's value.
   */
  datatype Values = Values(
    fullName: string,
    email: string,
    password: string,
    confirmPassword: string,
    dateOfBirth: Option<Date>,
    gender: Option<string>,
    country: string,
    termsAccepted: bool)

  /** The values after `form.reset()`: every input empty, nothing selected or checked. */
  const Blank := Values("", "", "", "", None, None, "", false)
}
