/**
 * A stored heart-rate / SpO2 measurement, its condition label, and the colour
 * the history list shows for a label.
 */
module Measurements {
  import opened KotlinText

  /** One saved reading; `timestamp` is Unix time in milliseconds. */
  datatype Measurement = Measurement(bpm: int, spo2: int, condition: string, timestamp: int, formattedTime: string)

  /** `Measurement()` with every default: 0, 0, "", the current time, "". */
  function DefaultMeasurement(now: int): (m: Measurement)
    ensures m.bpm == 0 && m.spo2 == 0 && m.condition == [] && m.formattedTime == []
    ensures m.timestamp == now
  {
    Measurement(0, 0, "", now, "")
  }

  /**
   * determineCondition: the first matching rule of Dangerous, Bad, Good and
   * Very Good, else Unknown. The contract gives each label's inputs directly:
   * a Bad SpO2 band of 90..92 leaves Good only 93..95, and an SpO2 of exactly 89
   * or a rate of 50..59 falls through every rule.
   */
  function DetermineCondition(bpm: int, spo2: int): (c: string)
    ensures c in {"Dangerous", "Bad", "Good", "Very Good", "Unknown"}
    ensures c == "Dangerous" <==> spo2 < 89 || bpm < 40 || bpm > 120
    ensures c == "Bad" <==> spo2 >= 89 && 40 <= bpm <= 120
                            && (90 <= spo2 <= 92 || bpm <= 49 || bpm >= 101)
    ensures c == "Good" <==> 93 <= spo2 <= 95 && 60 <= bpm <= 100
    ensures c == "Very Good" <==> spo2 > 95 && 60 <= bpm <= 100
    ensures c == "Unknown" <==> (50 <= bpm <= 59 && (spo2 == 89 || spo2 >= 93))
                                || (spo2 == 89 && 50 <= bpm <= 100)
  {
    if spo2 < 89 || bpm < 40 || bpm > 120 then "Dangerous"
    else if 90 <= spo2 <= 92 || 40 <= bpm <= 49 || 101 <= bpm <= 120 then "Bad"
    else if 90 <= spo2 <= 95 && 60 <= bpm <= 100 then "Good"
    else if spo2 > 95 && 60 <= bpm <= 100 then "Very Good"
    else "Unknown"
  }

  /** Every rate from 60 to 100 with an SpO2 of 93 or more is Good or Very Good. */
  lemma NormalReadingsAreGood(bpm: int, spo2: int)
    requires 60 <= bpm <= 100 && spo2 >= 93
    ensures DetermineCondition(bpm, spo2) in {"Good", "Very Good"}
    ensures spo2 > 95 <==> DetermineCondition(bpm, spo2) == "Very Good"
  {
  }

  const VERY_GOOD_COLOR: int := 0xFF285602
  const GOOD_COLOR: int := 0xFF41A903
  const BAD_COLOR: int := 0xFFFF9100
  const DANGEROUS_COLOR: int := 0xFFD50000
  const UNKNOWN_COLOR: int := 0xFFB0BEC5

  /** getConditionColor: the ARGB colour of a label, matched case-insensitively. */
  function ConditionColor(condition: string): (argb: int)
    ensures argb in {VERY_GOOD_COLOR, GOOD_COLOR, BAD_COLOR, DANGEROUS_COLOR, UNKNOWN_COLOR}
    ensures argb != UNKNOWN_COLOR <==> Lower(condition) in {"very good", "good", "bad", "dangerous"}
  {
    match Lower(condition)
    case "very good" => VERY_GOOD_COLOR
    case "good" => GOOD_COLOR
    case "bad" => BAD_COLOR
    case "dangerous" => DANGEROUS_COLOR
    case _ => UNKNOWN_COLOR
  }

  /** Only the lowercase form of a label decides its colour. */
  lemma ColorIgnoresCase(c1: string, c2: string)
    requires Lower(c1) == Lower(c2)
    ensures ConditionColor(c1) == ConditionColor(c2)
  {
  }

  /** The colour of a lowercased label is the colour of the label. */
  lemma ColorOfLowered(c: string)
    ensures ConditionColor(Lower(c)) == ConditionColor(c)
  {
    LowerIdempotent(c);
  }

  /**
   * Each label determineCondition produces gets its own colour: the four named
   * conditions four different colours, Unknown the grey default.
   */
  lemma ConditionColorsDistinct(bpm1: int, spo21: int, bpm2: int, spo22: int)
    ensures var c1, c2 := DetermineCondition(bpm1, spo21), DetermineCondition(bpm2, spo22);
      ConditionColor(c1) == ConditionColor(c2) <==> c1 == c2
    ensures ConditionColor(DetermineCondition(bpm1, spo21)) == UNKNOWN_COLOR
      <==> DetermineCondition(bpm1, spo21) == "Unknown"
  {
    var c1, c2 := DetermineCondition(bpm1, spo21), DetermineCondition(bpm2, spo22);
    LabelColor(c1);
    LabelColor(c2);
  }

  lemma LabelColor(c: string)
    requires c in {"Dangerous", "Bad", "Good", "Very Good", "Unknown"}
    ensures c == "Very Good" ==> ConditionColor(c) == VERY_GOOD_COLOR
    ensures c == "Good" ==> ConditionColor(c) == GOOD_COLOR
    ensures c == "Bad" ==> ConditionColor(c) == BAD_COLOR
    ensures c == "Dangerous" ==> ConditionColor(c) == DANGEROUS_COLOR
    ensures c == "Unknown" ==> ConditionColor(c) == UNKNOWN_COLOR
  {
    if c == "Very Good" {
      assert Lower(c) == "very good";
    } else if c == "Good" {
      assert Lower(c) == "good";
    } else if c == "Bad" {
      assert Lower(c) == "bad";
    } else if c == "Dangerous" {
      assert Lower(c) == "dangerous";
    } else {
      assert Lower(c) == "unknown";
    }
  }
}
