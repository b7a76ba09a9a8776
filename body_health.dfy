/**
 * The body-health calculator: BMI, ideal weight (Devine-style, 50 / 45.5 kg
 * at 152 cm plus 0.9 kg per cm), daily calories from the Mifflin-St Jeor BMR
 * times an activity factor, and the BMI band shown on the result cards.
 */
module BodyHealth {
  import opened Wrappers
  import opened KotlinText

  /** The calculator's input; `activityLevel` defaults to 1.2 (sedentary). */
  datatype UserHealthData = UserHealthData(weightKg: real, heightCm: real, age: int, gender: string, activityLevel: real)

  function DefaultActivity(weightKg: real, heightCm: real, age: int, gender: string): (d: UserHealthData)
    ensures d.activityLevel == 1.2
    ensures d.weightKg == weightKg && d.heightCm == heightCm && d.age == age && d.gender == gender
  {
    UserHealthData(weightKg, heightCm, age, gender, 1.2)
  }

  /** The male formulas apply exactly to "male" in any ASCII case. */
  predicate IsMale(gender: string) {
    Lower(gender) == "male"
  }

  /**
   * calculateBMI: weight over the square of the height in metres. A height of
   * zero divides by zero, which gives an infinity or NaN in Double arithmetic;
   * the model reports it as None.
   */
  function CalculateBmi(weightKg: real, heightCm: real): (bmi: Option<real>)
    ensures bmi.None? <==> heightCm == 0.0
    ensures bmi.Some? ==> bmi.value * (heightCm / 100.0) * (heightCm / 100.0) == weightKg
    ensures bmi.Some? && weightKg > 0.0 ==> bmi.value > 0.0
  {
    var heightM := heightCm / 100.0;
    if heightM == 0.0 then None else Some(weightKg / (heightM * heightM))
  }

  /** calculateIdealWeight. */
  function IdealWeight(heightCm: real, gender: string): real {
    if IsMale(gender) then 50.0 + 0.9 * (heightCm - 152.0) else 45.5 + 0.9 * (heightCm - 152.0)
  }

  /** For the same height the male ideal weight is 4.5 kg above any other gender string's. */
  lemma IdealWeightGenderGap(heightCm: real, male: string, other: string)
    requires IsMale(male) && !IsMale(other)
    ensures IdealWeight(heightCm, male) - IdealWeight(heightCm, other) == 4.5
  {
  }

  /** Ideal weight rises by 0.9 kg per centimetre, so it is strictly increasing in height. */
  lemma IdealWeightIncreasing(h1: real, h2: real, gender: string)
    ensures IdealWeight(h2, gender) - IdealWeight(h1, gender) == 0.9 * (h2 - h1)
    ensures h1 < h2 ==> IdealWeight(h1, gender) < IdealWeight(h2, gender)
  {
  }

  /** The Mifflin-St Jeor basal metabolic rate, +5 for men and -161 otherwise. */
  function Bmr(data: UserHealthData): real {
    if IsMale(data.gender) then 10.0 * data.weightKg + 6.25 * data.heightCm - 5.0 * data.age as real + 5.0
    else 10.0 * data.weightKg + 6.25 * data.heightCm - 5.0 * data.age as real - 161.0
  }

  /** calculateDailyCalories. */
  function DailyCalories(data: UserHealthData): real {
    Bmr(data) * data.activityLevel
  }

  /** With all else equal, the male BMR is 166 kcal above the other one, and the calories 166 times the activity level. */
  lemma CaloriesGenderGap(male: UserHealthData, other: UserHealthData)
    requires IsMale(male.gender) && !IsMale(other.gender)
    requires male.weightKg == other.weightKg && male.heightCm == other.heightCm
    requires male.age == other.age && male.activityLevel == other.activityLevel
    ensures Bmr(male) - Bmr(other) == 166.0
    ensures DailyCalories(male) - DailyCalories(other) == 166.0 * male.activityLevel
  {
    assert DailyCalories(male) - DailyCalories(other) == (Bmr(male) - Bmr(other)) * male.activityLevel;
  }

  /** With a positive activity level, more weight means more calories: 10 kcal per kg before the factor. */
  lemma CaloriesIncreaseWithWeight(d: UserHealthData, heavier: real)
    requires d.activityLevel > 0.0 && heavier > d.weightKg
    ensures DailyCalories(d.(weightKg := heavier)) - DailyCalories(d) == 10.0 * (heavier - d.weightKg) * d.activityLevel
    ensures DailyCalories(d) < DailyCalories(d.(weightKg := heavier))
  {
    var d2 := d.(weightKg := heavier);
    assert Bmr(d2) - Bmr(d) == 10.0 * (heavier - d.weightKg);
    assert DailyCalories(d2) - DailyCalories(d) == (Bmr(d2) - Bmr(d)) * d.activityLevel;
  }

  const UNDERWEIGHT: string := "\U{26A0}\U{FE0F} Underweight"
  const HEALTHY: string := "\U{1F49A} Healthy"
  const OVERWEIGHT: string := "\U{1F9E1} Overweight"
  const OBESE: string := "\U{2764}\U{FE0F}\U{200D}\U{1F525} Obese"

  /** getBMIEmoji: the band label; the four bands split the whole real line at 18.5, 25 and 30. */
  function BmiEmoji(bmi: real): (band: string)
    ensures band in {UNDERWEIGHT, HEALTHY, OVERWEIGHT, OBESE}
    ensures band == UNDERWEIGHT <==> bmi < 18.5
    ensures band == HEALTHY <==> 18.5 <= bmi < 25.0
    ensures band == OVERWEIGHT <==> 25.0 <= bmi < 30.0
    ensures band == OBESE <==> bmi >= 30.0
  {
    if bmi < 18.5 then UNDERWEIGHT
    else if bmi < 25.0 then HEALTHY
    else if bmi < 30.0 then OVERWEIGHT
    else OBESE
  }

  /** Compose's named colours and the orange literal, as ARGB. */
  const YELLOW: int := 0xFFFFFF00
  const GREEN: int := 0xFF00FF00
  const ORANGE: int := 0xFFFFA500
  const RED: int := 0xFFFF0000
  const BLUE: int := 0xFF0000FF
  const MAGENTA: int := 0xFFFF00FF
  const GRAY: int := 0xFF888888

  /** getCardColor: the BMI card by band, the other two cards a fixed colour, anything else grey. */
  function CardColor(title: string, value: real): (argb: int)
    ensures title == "BMI" ==> argb in {YELLOW, GREEN, ORANGE, RED}
    ensures title == "Ideal Weight (kg)" ==> argb == BLUE
    ensures title == "Daily Calories" ==> argb == MAGENTA
    ensures title !in {"BMI", "Ideal Weight (kg)", "Daily Calories"} ==> argb == GRAY
  {
    if title == "BMI" then
      if value < 18.5 then YELLOW
      else if value < 25.0 then GREEN
      else if value < 30.0 then ORANGE
      else RED
    else if title == "Ideal Weight (kg)" then BLUE
    else if title == "Daily Calories" then MAGENTA
    else GRAY
  }

  /** The BMI card's colour follows the label's band: yellow, green, orange, red in order. */
  lemma BmiCardMatchesEmoji(bmi: real)
    ensures BmiEmoji(bmi) == UNDERWEIGHT <==> CardColor("BMI", bmi) == YELLOW
    ensures BmiEmoji(bmi) == HEALTHY <==> CardColor("BMI", bmi) == GREEN
    ensures BmiEmoji(bmi) == OVERWEIGHT <==> CardColor("BMI", bmi) == ORANGE
    ensures BmiEmoji(bmi) == OBESE <==> CardColor("BMI", bmi) == RED
  {
  }

  /** Two BMI values share a label exactly when they share a card colour. */
  lemma BmiBandsAgree(b1: real, b2: real)
    ensures BmiEmoji(b1) == BmiEmoji(b2) <==> CardColor("BMI", b1) == CardColor("BMI", b2)
  {
    BmiCardMatchesEmoji(b1);
    BmiCardMatchesEmoji(b2);
  }

  /** A larger BMI never moves to a lighter band. */
  lemma BmiBandMonotone(b1: real, b2: real)
    requires b1 <= b2
    ensures BmiEmoji(b2) == UNDERWEIGHT ==> BmiEmoji(b1) == UNDERWEIGHT
    ensures BmiEmoji(b1) == OBESE ==> BmiEmoji(b2) == OBESE
    ensures BmiEmoji(b1) == OVERWEIGHT ==> BmiEmoji(b2) in {OVERWEIGHT, OBESE}
    ensures BmiEmoji(b1) == HEALTHY ==> BmiEmoji(b2) != UNDERWEIGHT
  {
  }
}
