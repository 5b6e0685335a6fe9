/**
 * One press of the report button: the seven typed values are assembled into
 * the measurement dictionary (only P and K go through unit conversion), then
 * evaluated against the chosen crop's profile.
 */
module SoilApp {
  import opened Nutrients
  import opened Units
  import opened LawOfMinimum
  import opened IdealHint

  /** The seven values as typed; the page's inputs are at least 0, which this type does not impose. */
  datatype Reading = Reading(ph: real, p: real, k: real, ca: real, mg: real, s: real, mo: real)

  /** The value typed for one nutrient. */
  function Typed(r: Reading, n: Nutrient): real {
    match n
    case PH => r.ph
    case P => r.p
    case K => r.k
    case Ca => r.ca
    case Mg => r.mg
    case S => r.s
    case MO => r.mo
  }

  /**
   * The measurement dictionary (`valores_digitados`): every nutrient is
   * present; P and K are normalised from the selected unit, every other
   * nutrient is used exactly as typed.
   */
  function Measurements(r: Reading, unitLabel: string): (m: map<Nutrient, real>)
    ensures Total(m)
    ensures forall n: Nutrient :: n != P && n != K ==> m[n] == Typed(r, n)
    ensures m[P] == ConvertUnit(r.p, unitLabel) && m[K] == ConvertUnit(r.k, unitLabel)
  {
    var m := map[PH := r.ph, P := ConvertUnit(r.p, unitLabel), K := ConvertUnit(r.k, unitLabel),
                 Ca := r.ca, Mg := r.mg, S := r.s, MO := r.mo];
    SevenKeysAreTotal(m);
    m
  }

  /** With any unit but kg/ha, every nutrient is measured exactly as typed. */
  lemma MeasurementsAsTyped(r: Reading, unitLabel: string)
    requires unitLabel != "kg/ha"
    ensures forall n: Nutrient :: Measurements(r, unitLabel)[n] == Typed(r, n)
  {
  }

  /** One press of the button: assemble the measurements, then evaluate them against the crop. */
  function Press(crop: Crop, r: Reading, unitLabel: string): (e: Evaluation)
    ensures Total(e.levels)
    ensures forall n: Nutrient :: e.levels[n] == Ratio(Measurements(r, unitLabel)[n], Profile(crop)[n])
    ensures forall n: Nutrient :: e.levels[e.limiting] <= e.levels[n]
    ensures forall n: Nutrient :: n in e.deficient <==> Measurements(r, unitLabel)[n] < Profile(crop)[n]
    ensures InCanonicalOrder(e.deficient)
  {
    Evaluate(Profile(crop), Measurements(r, unitLabel))
  }

  /** The reading whose every value is the ideal value of its nutrient. */
  function AtIdeal(ideal: map<Nutrient, real>): (r: Reading)
    requires Total(ideal)
    ensures forall n: Nutrient :: Typed(r, n) == ideal[n]
  {
    Reading(ideal[PH], ideal[P], ideal[K], ideal[Ca], ideal[Mg], ideal[S], ideal[MO])
  }

  /** The reading whose every value is the crop's ideal value. */
  function IdealReading(crop: Crop): Reading {
    AtIdeal(Profile(crop))
  }

  /**
   * Typing the ideal values, in any unit but kg/ha, gives level 100 for
   * every nutrient and no deficient nutrient.
   */
  lemma IdealReadingIsSufficient(crop: Crop, unitLabel: string)
    requires unitLabel != "kg/ha"
    ensures forall n: Nutrient :: Press(crop, IdealReading(crop), unitLabel).levels[n] == 100.0
    ensures Press(crop, IdealReading(crop), unitLabel).deficient == []
  {
    var ideal := Profile(crop);
    var measured := Measurements(AtIdeal(ideal), unitLabel);
    MeasurementsAsTyped(AtIdeal(ideal), unitLabel);
    assert forall n: Nutrient :: measured[n] == 1.0 * ideal[n];
    ScaledMeasurements(ideal, measured, 1.0);
  }

  /** A reading with every value 0. */
  const Zero: Reading := Reading(0.0, 0.0, 0.0, 0.0, 0.0, 0.0, 0.0)

  /**
   * With every value 0, in any unit, all levels are 0, so every nutrient is
   * deficient and the tie is broken in favour of the first nutrient, pH.
   */
  lemma ZeroReadingLimitedByPH(crop: Crop, unitLabel: string)
    ensures forall n: Nutrient :: Press(crop, Zero, unitLabel).levels[n] == 0.0
    ensures Press(crop, Zero, unitLabel).limiting == PH
    ensures Press(crop, Zero, unitLabel).deficient == Canonical
  {
    var ideal := Profile(crop);
    var measured := Measurements(Zero, unitLabel);
    assert forall n: Nutrient :: measured[n] == 0.0;
    NothingMeasured(ideal, measured);
  }

  /** The example reading for maize: half the ideal phosphorus, everything else ideal. */
  const MaizeExample: Reading := Reading(6.0, 7.5, 100.0, 4.0, 1.5, 12.0, 30.0)

  /**
   * Maize with half its ideal phosphorus in mg/dm3: phosphorus is at 50, the
   * rest at 100, and phosphorus is both the only deficient nutrient and the
   * limiting one.
   */
  lemma MaizeExampleLimitedByP()
    ensures Press(Milho, MaizeExample, Offered[0]).levels[P] == 50.0
    ensures forall n: Nutrient :: n != P ==> Press(Milho, MaizeExample, Offered[0]).levels[n] == 100.0
    ensures Press(Milho, MaizeExample, Offered[0]).limiting == P
    ensures Press(Milho, MaizeExample, Offered[0]).deficient == [P]
  {
    var ideal := Profile(Milho);
    var measured := Measurements(MaizeExample, Offered[0]);
    forall n: Nutrient | n != P ensures measured[n] == 1.0 * ideal[n] {
      match n
      case PH =>
      case K =>
      case Ca =>
      case Mg =>
      case S =>
      case MO =>
    }
    assert measured[P] == 0.5 * ideal[P];
    forall n: Nutrient | n != P ensures Ratio(measured[n], ideal[n]) == 100.0 {
      RatioOfScaled(measured[n], ideal[n], 1.0);
    }
    RatioOfScaled(measured[P], ideal[P], 0.5);
    SingleDeficiency(ideal, measured, P);
  }

  /**
   * Any soil reported in kg/ha, with its P and K values doubled, gives the
   * same measurement dictionary, hence the same evaluation, as in mg/dm3.
   */
  lemma KgPerHaHalvesPAndK(r: Reading)
    ensures Measurements(r.(p := 2.0 * r.p, k := 2.0 * r.k), "kg/ha") == Measurements(r, Offered[0])
  {
  }

  /** The maize example entered in kg/ha (phosphorus 15, potassium 200) evaluates as in mg/dm3. */
  lemma KgPerHaMaizeExample()
    ensures Press(Milho, Reading(6.0, 15.0, 200.0, 4.0, 1.5, 12.0, 30.0), "kg/ha")
         == Press(Milho, MaizeExample, Offered[0])
  {
    KgPerHaHalvesPAndK(MaizeExample);
    assert MaizeExample.(p := 2.0 * MaizeExample.p, k := 2.0 * MaizeExample.k)
        == Reading(6.0, 15.0, 200.0, 4.0, 1.5, 12.0, 30.0);
  }

  /**
   * The hint beside each input compares the value as typed, before unit
   * conversion, while the chart uses the converted value: in kg/ha, a
   * phosphorus value between the ideal and twice the ideal gets an "OK" hint,
   * yet its bar is red and phosphorus is reported deficient.
   */
  lemma HintIgnoresUnit(crop: Crop, r: Reading)
    requires Profile(crop)[P] <= r.p < 2.0 * Profile(crop)[P]
    ensures GreenBalloon(Profile(crop)[P], r.p) == Ok
    ensures BarColour(Press(crop, r, "kg/ha").levels[P]) == Red
    ensures P in Press(crop, r, "kg/ha").deficient
  {
    var measured := Measurements(r, "kg/ha");
    assert measured[P] < Profile(crop)[P];
  }
}
