/**
 * Validation of the edit-profile form: every field must be acceptable and at
 * least one of the stored profile fields must differ from its original.
 * Unlike registration, these fields are not trimmed (only the email, inside
 * isEmailValid).
 */
module EditProfile {
  import opened Wrappers
  import opened KotlinNumbers
  import opened KotlinText
  import opened AuthValidation

  /** The form as entered. */
  datatype ProfileInput = ProfileInput(email: string, password: string, age: string, gender: string,
                                       height: string, weight: string, skinTone: string)

  /** The values the form was opened with; there is no original password. */
  datatype OriginalProfile = OriginalProfile(email: string, age: string, gender: string,
                                             height: string, weight: string, skinTone: string)

  /** The `valid` conjunction. */
  predicate FieldsValid(p: ProfileInput, pattern: EmailPattern, toDouble: DoubleParser) {
    p.email != [] && IsEmailValid(p.email, pattern) &&
    p.password != [] &&
    p.age != [] && PositiveInt(p.age) &&
    p.gender != [] &&
    p.height != [] && PositiveInt(p.height) &&
    p.weight != [] && PositiveDouble(p.weight, toDouble) &&
    p.skinTone != []
  }

  /** The `changed` disjunction; the password takes no part in it. */
  predicate Changed(p: ProfileInput, o: OriginalProfile) {
    p.email != o.email || p.age != o.age || p.gender != o.gender ||
    p.height != o.height || p.weight != o.weight || p.skinTone != o.skinTone
  }

  /** isUpdateProfileInputValid: false when a field is invalid, otherwise whether something changed. */
  function IsUpdateProfileInputValid(p: ProfileInput, o: OriginalProfile, pattern: EmailPattern, toDouble: DoubleParser): (ok: bool)
    ensures ok ==> FieldsValid(p, pattern, toDouble) && Changed(p, o)
    ensures !FieldsValid(p, pattern, toDouble) ==> !ok
  {
    if !FieldsValid(p, pattern, toDouble) then false
    else Changed(p, o)
  }

  /** The stored fields the form shows for an original profile, with a new password. */
  function Unchanged(o: OriginalProfile, password: string): (p: ProfileInput)
    ensures !Changed(p, o)
  {
    ProfileInput(o.email, password, o.age, o.gender, o.height, o.weight, o.skinTone)
  }

  /** Changing only the password is never accepted, whatever the password. */
  lemma PasswordAloneIsNoChange(o: OriginalProfile, password: string, pattern: EmailPattern, toDouble: DoubleParser)
    ensures !IsUpdateProfileInputValid(Unchanged(o, password), o, pattern, toDouble)
  {
  }

  /** Two non-empty passwords lead to the same verdict: only the password's emptiness is checked. */
  lemma PasswordOnlyNeedsContent(p: ProfileInput, password: string, o: OriginalProfile, pattern: EmailPattern, toDouble: DoubleParser)
    requires p.password != [] && password != []
    ensures IsUpdateProfileInputValid(p.(password := password), o, pattern, toDouble)
         == IsUpdateProfileInputValid(p, o, pattern, toDouble)
  {
  }

  /** An age or height that is not a positive Int, including one with surrounding spaces, is rejected. */
  lemma NumbersMustParse(p: ProfileInput, o: OriginalProfile, pattern: EmailPattern, toDouble: DoubleParser)
    requires !PositiveInt(p.age) || !PositiveInt(p.height) || !PositiveDouble(p.weight, toDouble)
    ensures !IsUpdateProfileInputValid(p, o, pattern, toDouble)
  {
  }

  /**
   * The two forms disagree on padding: an age written as a space and a
   * positive number passes registration, which trims it, and fails the edit
   * form, which does not.
   */
  lemma PaddedAgeAcceptedOnlyAtRegistration(p: ProfileInput, digits: string, o: OriginalProfile, pattern: EmailPattern, toDouble: DoubleParser)
    requires digits != [] && forall i :: 0 <= i < |digits| ==> IsDigit(digits[i])
    requires 0 < DigitsValue(digits) <= INT_MAX
    requires p.age == " " + digits
    ensures Trim(p.age) == digits && PositiveInt(Trim(p.age))
    ensures !IsUpdateProfileInputValid(p, o, pattern, toDouble)
  {
    assert IsDigit(digits[0]) && IsDigit(digits[|digits| - 1]);
    TrimOfSpacePrefixed(digits);
    ParsePositiveDigits(digits);
    PaddedNotInt(digits, p.age);
  }

  lemma PaddedNotInt(digits: string, padded: string)
    requires padded == " " + digits
    ensures !PositiveInt(padded)
  {
    assert IsWhitespace(padded[0]);
  }

  /** A blank password of spaces passes the edit form though the login form would refuse it. */
  lemma BlankPasswordAcceptedOnEdit(p: ProfileInput, o: OriginalProfile, pattern: EmailPattern, toDouble: DoubleParser)
    requires FieldsValid(p.(password := "x"), pattern, toDouble) && Changed(p, o)
    requires p.password == "  "
    ensures IsUpdateProfileInputValid(p, o, pattern, toDouble)
    ensures !IsLoginInputValid(p.email, p.password, pattern)
  {
    TrimOfBlank(p.password);
  }
}
