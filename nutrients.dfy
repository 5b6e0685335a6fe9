/**
 * The seven soil nutrients the evaluator knows, their canonical order, the
 * three crops and the table of ideal values per crop (`valores_ideais`).
 */
module Nutrients {

  /** pH, phosphorus, potassium, calcium, magnesium, sulphur and organic matter (M.O). */
  datatype Nutrient = PH | P | K | Ca | Mg | S | MO

  datatype Crop = Soja | Milho | Trigo

  /**
   * The key order of the measurement dictionary, which is the order in which
   * the ratios are produced, drawn and scanned for the minimum.
   */
  const Canonical: seq<Nutrient> := [PH, P, K, Ca, Mg, S, MO]

  /** Position of a nutrient in the canonical order; it is the only such position. */
  function Rank(n: Nutrient): (i: nat)
    ensures i < |Canonical| && Canonical[i] == n
    ensures forall j :: 0 <= j < |Canonical| && Canonical[j] == n ==> j == i
  {
    match n
    case PH => 0
    case P => 1
    case K => 2
    case Ca => 3
    case Mg => 4
    case S => 5
    case MO => 6
  }

  /** A sequence of nutrients listed strictly in canonical order (hence without repeats). */
  predicate InCanonicalOrder(s: seq<Nutrient>) {
    forall a, b :: 0 <= a < b < |s| ==> Rank(s[a]) < Rank(s[b])
  }

  /** A dictionary keyed by nutrients that has every one of the seven keys. */
  predicate Total(m: map<Nutrient, real>) {
    forall n: Nutrient :: n in m
  }

  /** A table of ideal values that has every nutrient, each strictly positive. */
  predicate ValidProfile(ideal: map<Nutrient, real>) {
    Total(ideal) && forall n: Nutrient :: ideal[n] > 0.0
  }

  /**
   * The ideal value of every nutrient for a crop. Every crop has all seven
   * keys, so a ratio can be taken for every measured nutrient, and every
   * ideal value is strictly positive, so that division never fails.
   */
  function Profile(crop: Crop): (ideal: map<Nutrient, real>)
    ensures ValidProfile(ideal)
  {
    var ideal := ProfileTable(crop);
    SevenKeysAreTotal(ideal);
    ideal
  }

  function ProfileTable(crop: Crop): map<Nutrient, real> {
    match crop
    case Soja => map[PH := 6.0, P := 12.0, K := 80.0, Ca := 3.0, Mg := 1.0, S := 10.0, MO := 30.0]
    case Milho => map[PH := 6.0, P := 15.0, K := 100.0, Ca := 4.0, Mg := 1.5, S := 12.0, MO := 30.0]
    case Trigo => map[PH := 6.0, P := 12.0, K := 80.0, Ca := 3.5, Mg := 1.3, S := 10.0, MO := 30.0]
  }

  /** A dictionary holding the seven keys written out holds every nutrient. */
  lemma SevenKeysAreTotal(m: map<Nutrient, real>)
    requires PH in m && P in m && K in m && Ca in m && Mg in m && S in m && MO in m
    ensures Total(m)
  {
    forall n: Nutrient ensures n in m {
      match n
      case PH =>
      case P =>
      case K =>
      case Ca =>
      case Mg =>
      case S =>
      case MO =>
    }
  }

  /** The canonical order lists every nutrient exactly once, in its own order. */
  lemma CanonicalIsComplete()
    ensures InCanonicalOrder(Canonical)
    ensures forall n: Nutrient :: n in Canonical
  {
    forall n: Nutrient ensures n in Canonical {
      assert Canonical[Rank(n)] == n;
    }
  }
}
