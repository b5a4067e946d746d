/** The Bootstrap colour classes chosen by the `AgeValue` and `GenderSetting`
    cells of the user table, and the capitalised gender label. */
module Styles {

  /** The five colour tones the table uses; every one is rendered bold. */
  datatype Color = Dark | Success | Danger | Warning | Info

  /** The `className` string written into the cell for a colour. */
  function ClassName(c: Color): string
  {
    match c
    case Dark => "text-dark fw-bold"
    case Success => "text-success fw-bold"
    case Danger => "text-danger fw-bold"
    case Warning => "text-warning fw-bold"
    case Info => "text-info fw-bold"
  }

  /** Different tones never share a class string, so a class string
      identifies its tone. */
  lemma ClassNameInjective(a: Color, b: Color)
    ensures ClassName(a) == ClassName(b) <==> a == b
  {
  }

  // ---------------------------------------------------------------- age

  /** The age at which the colour switches; exactly this age keeps the default. */
  const AgeThreshold := 35

  /** Tone of the age cell: younger than the threshold is success, older is
      danger, and exactly the threshold keeps the default dark tone. */
  function AgeColor(score: int): (c: Color)
    ensures c == Success <==> score < AgeThreshold
    ensures c == Danger <==> score > AgeThreshold
    ensures c == Dark <==> score == AgeThreshold
  {
    if score < AgeThreshold then Success
    else if score > AgeThreshold then Danger
    else Dark
  }

  /** The class string of the age cell: exactly one of the three classes is
      chosen for every score, each on its own range. */
  function AgeClass(score: int): (cls: string)
    ensures cls == "text-success fw-bold" <==> score < AgeThreshold
    ensures cls == "text-danger fw-bold" <==> score > AgeThreshold
    ensures cls == "text-dark fw-bold" <==> score == AgeThreshold
  {
    ClassName(AgeColor(score))
  }

  /** The tone only moves from success through dark to danger as the age grows. */
  lemma AgeColorMonotone(a: int, b: int)
    requires a <= b
    ensures AgeColor(b) == Success ==> AgeColor(a) == Success
    ensures AgeColor(a) == Danger ==> AgeColor(b) == Danger
  {
  }

  // ------------------------------------------------------------- gender

  predicate IsLower(c: char) { 'a' <= c <= 'z' }

  predicate IsUpper(c: char) { 'A' <= c <= 'Z' }

  /** Upper-casing of one character, restricted to the ASCII letters:
      a lower-case letter becomes its capital, every other character stays. */
  function Upper(c: char): (u: char)
    ensures !IsLower(u)
    ensures IsLower(c) ==> IsUpper(u) && u as int + 32 == c as int
    ensures !IsLower(c) ==> u == c
  {
    if IsLower(c) then (c as int - 32) as char else c
  }

  /** The displayed gender: the first character upper-cased, the rest kept
      as it is; the empty string stays empty. */
  function GenderLabel(gender: string): (shown: string)
    ensures |shown| == |gender|
    ensures |gender| > 0 ==> shown[0] == Upper(gender[0])
    ensures |gender| > 0 ==> shown[1..] == gender[1..]
  {
    if gender == [] then [] else [Upper(gender[0])] + gender[1..]
  }

  /** Tone of the gender cell, decided on the raw string (not on the label):
      "female" is warning, "male" is info, anything else dark. */
  function GenderColor(gender: string): (c: Color)
    ensures c == Warning <==> gender == "female"
    ensures c == Info <==> gender == "male"
    ensures c == Dark <==> gender != "female" && gender != "male"
  {
    if gender == "female" then Warning
    else if gender == "male" then Info
    else Dark
  }

  /** A label is never one of the two coloured tokens, because its first
      character is never a lower-case letter: colouring by the label instead of
      the raw string would make every cell dark. */
  lemma LabelNeverColored(gender: string)
    ensures GenderColor(GenderLabel(gender)) == Dark
  {
  }

  /** Capitalising twice is the same as capitalising once. */
  lemma GenderLabelIdempotent(gender: string)
    ensures GenderLabel(GenderLabel(gender)) == GenderLabel(gender)
  {
  }

  /** The label leaves the string alone exactly when it is empty or does not
      start with a lower-case letter. */
  lemma GenderLabelFixedPoints(gender: string)
    ensures GenderLabel(gender) == gender <==> gender == [] || !IsLower(gender[0])
  {
  }

  /** The two tokens the API sends come out as "Female" and "Male", in the
      warning and info tones. */
  lemma KnownGenders()
    ensures GenderLabel("female") == "Female" && GenderColor("female") == Warning
    ensures GenderLabel("male") == "Male" && GenderColor("male") == Info
    ensures GenderColor("Female") == Dark
  {
  }
}
