/**
 * The password-strength meter shown under the sign-up password field. The score
 * (0 to 4) comes from the zxcvbn estimator, which is not part of this model:
 * here the score is an input.
 */
module PasswordStrength {

  /** The MUI palette colours the meter uses. */
  datatype Color = Error | Warning | Info | Success | Primary

  /** The label shown under the bar. */
  function Label(score: int): (word: string)
    ensures word == "Weak" <==> score == 0 || score == 1
    ensures word == "Fair" <==> score == 2
    ensures word == "Good" <==> score == 3
    ensures word == "Strong" <==> score == 4
    ensures word == "" <==> score < 0 || score > 4
  {
    match score
    case 0 => "Weak"
    case 1 => "Weak"
    case 2 => "Fair"
    case 3 => "Good"
    case 4 => "Strong"
    case _ => ""
  }

  /** The colour of the bar and of the label. */
  function BarColor(score: int): (c: Color)
    ensures c == Error <==> score == 0 || score == 1
    ensures c == Warning <==> score == 2
    ensures c == Info <==> score == 3
    ensures c == Success <==> score == 4
    ensures c == Primary <==> score < 0 || score > 4
  {
    match score
    case 0 => Error
    case 1 => Error
    case 2 => Warning
    case 3 => Info
    case 4 => Success
    case _ => Primary
  }

  /** Label and colour come from the same bands: equal labels always mean equal colours, and back. */
  lemma LabelAndColorAgree(a: int, b: int)
    ensures Label(a) == Label(b) <==> BarColor(a) == BarColor(b)
  {
  }

  /** `(score / 4) * 100`, the filled share of the bar. */
  function Progress(score: int): (value: real)
    ensures value == 25.0 * score as real
    ensures 0 <= score <= 4 ==> 0.0 <= value <= 100.0
    ensures score == 4 ==> value == 100.0
  {
    (score as real / 4.0) * 100.0
  }

  /** A higher score never fills less of the bar. */
  lemma ProgressMonotonic(a: int, b: int)
    requires a <= b
    ensures Progress(a) <= Progress(b)
  {
  }

  /** The caption `{password && label}`: an empty password renders nothing. */
  function Caption(password: string, score: int): (text: string)
    ensures password == "" ==> text == ""
    ensures password != "" ==> text == Label(score)
    ensures text != "" <==> password != "" && 0 <= score <= 4
  {
    if password == "" then "" else Label(score)
  }
}
