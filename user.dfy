/**
 * The user profile record and the parsing of its two enum fields from the
 * strings stored in the database.
 */
module Users {
  import opened Wrappers
  import opened KotlinText

  datatype Gender = Male | Female
  datatype SkinTone = Light | Medium | Dark

  /** A profile; `height` in centimetres, `weight` in kilograms. */
  datatype User = User(username: string, email: string, password: string, age: int,
                       gender: Gender, height: int, weight: real, skinTone: SkinTone)

  /** `User()` with every default: empty strings, zeros, Male, Light. */
  function DefaultUser(): (u: User)
    ensures u.username == [] && u.email == [] && u.password == []
    ensures u.age == 0 && u.height == 0 && u.weight == 0.0
    ensures u.gender == Male && u.skinTone == Light
  {
    User("", "", "", 0, Male, 0, 0.0, Light)
  }

  /** The enum constants' `name`. */
  function GenderName(g: Gender): string {
    match g
    case Male => "Male"
    case Female => "Female"
  }

  function SkinToneName(t: SkinTone): string {
    match t
    case Light => "Light"
    case Medium => "Medium"
    case Dark => "Dark"
  }

  /**
   * genderFromString: "male" or "female" in any ASCII case; anything else is
   * the IllegalArgumentException "Invalid gender value".
   */
  function GenderFromString(gender: string): (r: Result<Gender, string>)
    ensures r.Ok? <==> Lower(gender) in {"male", "female"}
    ensures r.Ok? ==> Lower(GenderName(r.value)) == Lower(gender)
    ensures r.Err? ==> r.error == "Invalid gender value"
  {
    match Lower(gender)
    case "male" => LowerNames(); Ok(Male)
    case "female" => LowerNames(); Ok(Female)
    case _ => Err("Invalid gender value")
  }

  /**
   * skinToneFromString: "light", "medium" or "dark" in any ASCII case; anything
   * else is the IllegalArgumentException "Invalid skin tone value".
   */
  function SkinToneFromString(skinTone: string): (r: Result<SkinTone, string>)
    ensures r.Ok? <==> Lower(skinTone) in {"light", "medium", "dark"}
    ensures r.Ok? ==> Lower(SkinToneName(r.value)) == Lower(skinTone)
    ensures r.Err? ==> r.error == "Invalid skin tone value"
  {
    match Lower(skinTone)
    case "light" => LowerNames(); Ok(Light)
    case "medium" => LowerNames(); Ok(Medium)
    case "dark" => LowerNames(); Ok(Dark)
    case _ => Err("Invalid skin tone value")
  }

  lemma LowerNames()
    ensures Lower("Male") == "male" && Lower("Female") == "female"
    ensures Lower("Light") == "light" && Lower("Medium") == "medium" && Lower("Dark") == "dark"
  {
    assert Lower("Male") == "male";
    assert Lower("Female") == "female";
    assert Lower("Light") == "light";
    assert Lower("Medium") == "medium";
    assert Lower("Dark") == "dark";
  }

  /** Parsing gives back the constant whose name was written, and its lowercase spelling too. */
  lemma GenderRoundTrip(g: Gender)
    ensures GenderFromString(GenderName(g)) == Ok(g)
    ensures GenderFromString(Lower(GenderName(g))) == Ok(g)
  {
    LowerNames();
    LowerIdempotent(GenderName(g));
  }

  lemma SkinToneRoundTrip(t: SkinTone)
    ensures SkinToneFromString(SkinToneName(t)) == Ok(t)
    ensures SkinToneFromString(Lower(SkinToneName(t))) == Ok(t)
  {
    LowerNames();
    LowerIdempotent(SkinToneName(t));
  }

  /** Two spellings that agree up to case parse to the same result. */
  lemma ParsingIgnoresCase(s1: string, s2: string)
    requires Lower(s1) == Lower(s2)
    ensures GenderFromString(s1) == GenderFromString(s2)
    ensures SkinToneFromString(s1) == SkinToneFromString(s2)
  {
  }
}
