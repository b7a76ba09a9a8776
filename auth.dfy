/**
 * Input validation of the register and login forms. Android's email pattern
 * and Kotlin's String.toDoubleOrNull are outside the model and are passed in.
 */
module AuthValidation {
  import opened Wrappers
  import opened KotlinText

  /** `Patterns.EMAIL_ADDRESS.matcher(s).matches()`. */
  type EmailPattern = string -> bool

  /** `String.toDoubleOrNull()`. */
  type DoubleParser = string -> Option<real>

  /** `toIntOrNull()?.let { it > 0 } == true`. */
  predicate PositiveInt(s: string) {
    ParseInt(s).Some? && ParseInt(s).value > 0
  }

  /** `toDoubleOrNull()?.let { it > 0.0 } == true`. */
  predicate PositiveDouble(s: string, toDouble: DoubleParser) {
    toDouble(s).Some? && toDouble(s).value > 0.0
  }

  /** isEmailValid: the pattern applied to the trimmed address. */
  predicate IsEmailValid(email: string, pattern: EmailPattern) {
    pattern(Trim(email))
  }

  /** Whitespace around an address never changes whether it is valid. */
  lemma EmailIgnoresPadding(w1: string, email: string, w2: string, pattern: EmailPattern)
    requires AllWhitespace(w1) && AllWhitespace(w2)
    ensures IsEmailValid(w1 + email + w2, pattern) == IsEmailValid(email, pattern)
  {
    TrimIgnoresSurroundingWhitespace(w1, email, w2);
  }

  /** The eight register fields, trimmed. */
  datatype RegisterForm = RegisterForm(username: string, email: string, password: string, age: string,
                                       gender: string, height: string, weight: string, skinTone: string)

  /** `data[0].trim()` .. `data[7].trim()`. */
  function ReadRegisterForm(data: seq<string>): RegisterForm
    requires |data| >= 8
  {
    RegisterForm(Trim(data[0]), Trim(data[1]), Trim(data[2]), Trim(data[3]),
                 Trim(data[4]), Trim(data[5]), Trim(data[6]), Trim(data[7]))
  }

  /** The conjunction isRegisterInputValid returns, over the trimmed fields. */
  predicate RegisterFormValid(f: RegisterForm, pattern: EmailPattern, toDouble: DoubleParser) {
    f.username != [] &&
    f.email != [] && IsEmailValid(f.email, pattern) &&
    f.password != [] &&
    f.age != [] && PositiveInt(f.age) &&
    f.gender != [] &&
    f.height != [] && PositiveInt(f.height) &&
    f.weight != [] && PositiveDouble(f.weight, toDouble) &&
    f.skinTone != []
  }

  /**
   * isRegisterInputValid: fields 0..7 are username, email, password, age,
   * gender, height, weight and skin tone, each trimmed. A list shorter than
   * eight makes `data[i]` throw, modelled as None; further fields are ignored.
   */
  function IsRegisterInputValid(data: seq<string>, pattern: EmailPattern, toDouble: DoubleParser): (r: Option<bool>)
    ensures r.None? <==> |data| < 8
  {
    if |data| < 8 then None
    else Some(RegisterFormValid(ReadRegisterForm(data), pattern, toDouble))
  }

  /** isLoginInputValid: a valid address and a password that is not blank. */
  predicate IsLoginInputValid(email: string, password: string, pattern: EmailPattern) {
    IsEmailValid(email, pattern) && Trim(password) != []
  }

  /** Fields that trim to the same text give the same verdict, and fields past the eighth do not matter. */
  lemma RegisterDependsOnTrimmedFields(data: seq<string>, other: seq<string>, pattern: EmailPattern, toDouble: DoubleParser)
    requires |data| >= 8 && |other| >= 8
    requires forall i :: 0 <= i < 8 ==> Trim(data[i]) == Trim(other[i])
    ensures IsRegisterInputValid(data, pattern, toDouble) == IsRegisterInputValid(other, pattern, toDouble)
  {
    assert Trim(data[0]) == Trim(other[0]);
    assert Trim(data[1]) == Trim(other[1]);
    assert Trim(data[2]) == Trim(other[2]);
    assert Trim(data[3]) == Trim(other[3]);
    assert Trim(data[4]) == Trim(other[4]);
    assert Trim(data[5]) == Trim(other[5]);
    assert Trim(data[6]) == Trim(other[6]);
    assert Trim(data[7]) == Trim(other[7]);
    var f := ReadRegisterForm(data);
    assert f == ReadRegisterForm(other);
  }

  /** An accepted registration has a positive age and height and a positive weight. */
  lemma RegisteredNumbersPositive(data: seq<string>, pattern: EmailPattern, toDouble: DoubleParser)
    requires IsRegisterInputValid(data, pattern, toDouble) == Some(true)
    ensures ParseInt(Trim(data[3])).Some? && ParseInt(Trim(data[3])).value > 0
    ensures ParseInt(Trim(data[5])).Some? && ParseInt(Trim(data[5])).value > 0
    ensures toDouble(Trim(data[6])).Some? && toDouble(Trim(data[6])).value > 0.0
  {
  }

  /** A blank password fails both registration and login. */
  lemma BlankPasswordRejected(data: seq<string>, email: string, password: string, pattern: EmailPattern, toDouble: DoubleParser)
    requires |data| >= 8 && AllWhitespace(data[2]) && AllWhitespace(password)
    ensures IsRegisterInputValid(data, pattern, toDouble) == Some(false)
    ensures !IsLoginInputValid(email, password, pattern)
  {
    TrimOfBlank(data[2]);
    TrimOfBlank(password);
  }

  /** The email and password of an accepted registration are accepted by the login form. */
  lemma RegisteredCredentialsLogIn(data: seq<string>, pattern: EmailPattern, toDouble: DoubleParser)
    requires IsRegisterInputValid(data, pattern, toDouble) == Some(true)
    ensures IsLoginInputValid(data[1], data[2], pattern)
  {
    TrimIdempotent(data[1]);
  }
}
