/**
 * Unit normalisation of the typed values (`converter_unidade`): the value is
 * halved for kg/ha and passed through unchanged for every other label,
 * including labels it does not recognise. It never fails.
 */
module Units {

  /** The units the page offers, plus any other label, which is carried as is. */
  datatype Unit = MgPerDm3 | Ppm | MgPerL | KgPerHa | Other(text: string)

  /** The labels the unit selector offers, in its order. */
  const Offered: seq<string> := ["mg/dm\U{00B3}", "ppm", "mg/L", "kg/ha"]

  /** The text of a unit, as the selector shows it. */
  function Label(u: Unit): string {
    match u
    case MgPerDm3 => "mg/dm\U{00B3}"
    case Ppm => "ppm"
    case MgPerL => "mg/L"
    case KgPerHa => "kg/ha"
    case Other(l) => l
  }

  /**
   * The chain of label comparisons: a known label gives its unit, anything
   * else gives `Other` carrying the label.
   */
  function Classify(text: string): (u: Unit)
    ensures Label(u) == text
    ensures u.Other? <==> text !in Offered
  {
    if text == "mg/dm\U{00B3}" then MgPerDm3
    else if text == "ppm" then Ppm
    else if text == "mg/L" then MgPerL
    else if text == "kg/ha" then KgPerHa
    else Other(text)
  }

  /** Classifying the label of a recognised unit gives that unit back. */
  lemma ClassifyLabel(u: Unit)
    requires !u.Other? || u.text !in Offered
    ensures Classify(Label(u)) == u
  {
  }

  /** Normalises a value given in unit `u` to the reference basis. */
  function Convert(value: real, u: Unit): (r: real)
    ensures u == KgPerHa ==> 2.0 * r == value
    ensures u != KgPerHa ==> r == value
  {
    match u
    case KgPerHa => value / 2.0
    case _ => value
  }

  /** `converter_unidade`: normalises a value whose unit is given by its label. */
  function ConvertUnit(value: real, text: string): (r: real)
    ensures text == "kg/ha" ==> 2.0 * r == value
    ensures text != "kg/ha" ==> r == value
    ensures 0.0 <= value ==> 0.0 <= r <= value
  {
    Convert(value, Classify(text))
  }

  /** The conversion is linear in the value, whatever the label. */
  lemma ConvertUnitLinear(a: real, b: real, c: real, text: string)
    ensures ConvertUnit(c * a + b, text) == c * ConvertUnit(a, text) + ConvertUnit(b, text)
  {
  }

  /** Converting twice with an identity unit is converting once. */
  lemma ConvertUnitIdempotent(value: real, text: string)
    requires text != "kg/ha"
    ensures ConvertUnit(ConvertUnit(value, text), text) == ConvertUnit(value, text) == value
  {
  }
}
