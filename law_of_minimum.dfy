/**
 * The "Law of the Minimum" evaluation: the level of each nutrient as a
 * percentage of the crop's ideal value, the limiting nutrient (the first one
 * with the lowest level), the list of deficient nutrients (level below 100),
 * the colour of each bar and the choice of report.
 */
module LawOfMinimum {
  import opened Nutrients

  /** One percentage-of-ideal level: `(measured / ideal) * 100`. */
  function Ratio(measured: real, ideal: real): (r: real)
    requires ideal > 0.0
    ensures r < 100.0 <==> measured < ideal
    ensures 0.0 <= measured ==> 0.0 <= r
  {
    (measured / ideal) * 100.0
  }

  /** A measurement `c` times the ideal value is at level `100 * c`. */
  lemma RatioOfScaled(measured: real, ideal: real, c: real)
    requires ideal > 0.0 && measured == c * ideal
    ensures Ratio(measured, ideal) == 100.0 * c
  {
  }

  /** The level is the measured value as a percentage of the ideal one. */
  lemma RatioTimesIdeal(measured: real, ideal: real)
    requires ideal > 0.0
    ensures Ratio(measured, ideal) * ideal == 100.0 * measured
  {
  }

  /**
   * The level of every measured nutrient against the crop's profile
   * (`niveis`): the same keys as the measurements, each level the ratio of
   * the measured to the ideal value of that nutrient.
   */
  function Levels(ideal: map<Nutrient, real>, measured: map<Nutrient, real>): (levels: map<Nutrient, real>)
    requires ValidProfile(ideal)
    ensures levels.Keys == measured.Keys
    ensures forall n :: n in levels ==> levels[n] == Ratio(measured[n], ideal[n])
  {
    map n | n in measured :: Ratio(measured[n], ideal[n])
  }

  /** Measurements equal to the ideal values give a level of exactly 100 everywhere. */
  lemma LevelsAtIdeal(ideal: map<Nutrient, real>)
    requires ValidProfile(ideal)
    ensures Total(Levels(ideal, ideal))
    ensures forall n: Nutrient :: Levels(ideal, ideal)[n] == 100.0
  {
  }

  /**
   * Measurements that are the ideal values scaled by `c` give the level
   * `100 * c` everywhere, whatever the size of the ideal values.
   */
  lemma LevelsScaled(ideal: map<Nutrient, real>, measured: map<Nutrient, real>, c: real)
    requires ValidProfile(ideal)
    requires forall n :: n in measured ==> measured[n] == c * ideal[n]
    ensures forall n :: n in Levels(ideal, measured) ==> Levels(ideal, measured)[n] == 100.0 * c
  {
    forall n | n in Levels(ideal, measured) ensures Levels(ideal, measured)[n] == 100.0 * c {
      RatioOfScaled(measured[n], ideal[n], c);
    }
  }

  /**
   * The scan that `min` with a key function performs over the keys of a
   * dictionary: `best` is the position of the first smallest level among
   * `keys[..i]`, and it is replaced only by a strictly smaller level. The
   * result is the position of the first smallest level of all `keys`.
   */
  function MinScan(keys: seq<Nutrient>, levels: map<Nutrient, real>, i: nat, best: nat): (m: nat)
    requires best < i <= |keys|
    requires forall j :: 0 <= j < |keys| ==> keys[j] in levels
    requires forall j :: 0 <= j < i ==> levels[keys[best]] <= levels[keys[j]]
    requires forall j :: 0 <= j < best ==> levels[keys[best]] < levels[keys[j]]
    ensures m < |keys|
    ensures forall j :: 0 <= j < |keys| ==> levels[keys[m]] <= levels[keys[j]]
    ensures forall j :: 0 <= j < m ==> levels[keys[m]] < levels[keys[j]]
    decreases |keys| - i
  {
    if i == |keys| then best
    else if levels[keys[i]] < levels[keys[best]] then MinScan(keys, levels, i + 1, i)
    else MinScan(keys, levels, i + 1, best)
  }

  /**
   * The limiting nutrient (`nutriente_lim`): its level is at most every
   * other level, and every nutrient before it in canonical order has a
   * strictly higher level, so ties go to the earliest nutrient.
   */
  function Limiting(levels: map<Nutrient, real>): (lim: Nutrient)
    requires Total(levels)
    ensures forall n: Nutrient :: levels[lim] <= levels[n]
    ensures forall n: Nutrient :: Rank(n) < Rank(lim) ==> levels[lim] < levels[n]
  {
    var m := MinScan(Canonical, levels, 1, 0);
    assert forall n: Nutrient :: levels[Canonical[m]] <= levels[n] by {
      forall n: Nutrient ensures levels[Canonical[m]] <= levels[n] {
        assert Canonical[Rank(n)] == n;
      }
    }
    Canonical[m]
  }

  /**
   * The two properties of `Limiting` determine it: a nutrient with the lowest
   * level and no equally low nutrient before it is the limiting one.
   */
  lemma LimitingIsUnique(levels: map<Nutrient, real>, x: Nutrient)
    requires Total(levels)
    requires forall n: Nutrient :: levels[x] <= levels[n]
    requires forall n: Nutrient :: Rank(n) < Rank(x) ==> levels[x] < levels[n]
    ensures Limiting(levels) == x
  {
  }

  /** pH, first in canonical order, is limiting exactly when no level is below its level. */
  lemma LimitingIsPH(levels: map<Nutrient, real>)
    requires Total(levels)
    ensures Limiting(levels) == PH <==> forall n: Nutrient :: levels[PH] <= levels[n]
  {
    if forall n: Nutrient :: levels[PH] <= levels[n] {
      LimitingIsUnique(levels, PH);
    }
  }

  /**
   * The nutrients of `keys` whose level is below 100, in the order of
   * `keys` (`deficientes`).
   */
  function BelowIdeal(keys: seq<Nutrient>, levels: map<Nutrient, real>): (d: seq<Nutrient>)
    requires forall j :: 0 <= j < |keys| ==> keys[j] in levels
    ensures forall n :: n in d <==> n in keys && levels[n] < 100.0
    ensures |d| <= |keys|
  {
    if keys == [] then []
    else if levels[keys[0]] < 100.0 then [keys[0]] + BelowIdeal(keys[1..], levels)
    else BelowIdeal(keys[1..], levels)
  }

  /** Filtering keeps every nutrient ranked above `low` when all the keys are. */
  lemma {:induction false} BelowIdealAbove(keys: seq<Nutrient>, levels: map<Nutrient, real>, low: int)
    requires forall j :: 0 <= j < |keys| ==> keys[j] in levels
    requires forall j :: 0 <= j < |keys| ==> low < Rank(keys[j])
    ensures forall b :: 0 <= b < |BelowIdeal(keys, levels)| ==> low < Rank(BelowIdeal(keys, levels)[b])
  {
    if keys != [] {
      BelowIdealAbove(keys[1..], levels, low);
    }
  }

  /** Filtering keys given in canonical order gives a list in canonical order. */
  lemma {:induction false} BelowIdealInOrder(keys: seq<Nutrient>, levels: map<Nutrient, real>)
    requires forall j :: 0 <= j < |keys| ==> keys[j] in levels
    requires InCanonicalOrder(keys)
    ensures InCanonicalOrder(BelowIdeal(keys, levels))
  {
    if keys != [] {
      BelowIdealInOrder(keys[1..], levels);
      BelowIdealAbove(keys[1..], levels, Rank(keys[0]));
    }
  }

  /** When every key is below 100, the filter keeps them all. */
  lemma {:induction false} BelowIdealKeepsAll(keys: seq<Nutrient>, levels: map<Nutrient, real>)
    requires forall j :: 0 <= j < |keys| ==> keys[j] in levels && levels[keys[j]] < 100.0
    ensures BelowIdeal(keys, levels) == keys
  {
    if keys != [] {
      BelowIdealKeepsAll(keys[1..], levels);
    }
  }

  /** When no key is below 100, the filter keeps none of them. */
  lemma {:induction false} BelowIdealDropsAll(keys: seq<Nutrient>, levels: map<Nutrient, real>)
    requires forall j :: 0 <= j < |keys| ==> keys[j] in levels && levels[keys[j]] >= 100.0
    ensures BelowIdeal(keys, levels) == []
  {
    if keys != [] {
      BelowIdealDropsAll(keys[1..], levels);
    }
  }

  /**
   * When exactly one of the keys, given in canonical order, is below 100,
   * the filter gives that nutrient alone.
   */
  lemma {:induction false} BelowIdealSingle(keys: seq<Nutrient>, levels: map<Nutrient, real>, x: Nutrient)
    requires forall j :: 0 <= j < |keys| ==> keys[j] in levels
    requires forall j :: 0 <= j < |keys| ==> (levels[keys[j]] < 100.0 <==> keys[j] == x)
    requires InCanonicalOrder(keys)
    requires x in keys
    ensures BelowIdeal(keys, levels) == [x]
  {
    if keys[0] == x {
      assert forall j :: 1 <= j < |keys| ==> Rank(keys[0]) < Rank(keys[j]);
      BelowIdealDropsAll(keys[1..], levels);
    } else {
      BelowIdealSingle(keys[1..], levels, x);
    }
  }

  /** The deficient nutrients of a complete set of levels, in canonical order. */
  function Deficient(levels: map<Nutrient, real>): (d: seq<Nutrient>)
    requires Total(levels)
    ensures forall n: Nutrient :: n in d <==> levels[n] < 100.0
    ensures InCanonicalOrder(d)
  {
    CanonicalIsComplete();
    BelowIdealInOrder(Canonical, levels);
    BelowIdeal(Canonical, levels)
  }

  /** Whenever some nutrient is deficient, the limiting nutrient is one of them. */
  lemma LimitingIsDeficient(levels: map<Nutrient, real>)
    requires Total(levels)
    requires Deficient(levels) != []
    ensures Limiting(levels) in Deficient(levels)
  {
    var n := Deficient(levels)[0];
    assert levels[n] < 100.0;
  }

  /** What one evaluation computes: the levels, the limiting nutrient and the deficient list. */
  datatype Evaluation = Evaluation(levels: map<Nutrient, real>, limiting: Nutrient, deficient: seq<Nutrient>)

  /**
   * The computation behind the chart and the report, on a complete
   * measurement dictionary. Every nutrient has a level, the percentage of
   * the ideal that was measured; the limiting nutrient has the lowest level
   * and is the first such in canonical order; the deficient list holds
   * exactly the nutrients below 100, which are those measured below their
   * ideal value, in canonical order, and it contains the limiting nutrient
   * whenever it is not empty.
   */
  function Evaluate(ideal: map<Nutrient, real>, measured: map<Nutrient, real>): (e: Evaluation)
    requires ValidProfile(ideal)
    requires Total(measured)
    ensures Total(e.levels)
    ensures forall n: Nutrient :: e.levels[n] == Ratio(measured[n], ideal[n])
    ensures forall n: Nutrient :: e.levels[e.limiting] <= e.levels[n]
    ensures forall n: Nutrient :: Rank(n) < Rank(e.limiting) ==> e.levels[e.limiting] < e.levels[n]
    ensures forall n: Nutrient :: n in e.deficient <==> e.levels[n] < 100.0
    ensures forall n: Nutrient :: n in e.deficient <==> measured[n] < ideal[n]
    ensures InCanonicalOrder(e.deficient)
    ensures e.deficient != [] ==> e.limiting in e.deficient
  {
    var levels := Levels(ideal, measured);
    assert Deficient(levels) != [] ==> Limiting(levels) in Deficient(levels) by {
      if Deficient(levels) != [] {
        LimitingIsDeficient(levels);
      }
    }
    Evaluation(levels, Limiting(levels), Deficient(levels))
  }

  /**
   * Measurements that are the ideal values scaled by `c` give level `100 * c`
   * for every nutrient, so all levels tie and pH, the first nutrient, is the
   * limiting one.
   */
  lemma ScaledMeasurements(ideal: map<Nutrient, real>, measured: map<Nutrient, real>, c: real)
    requires ValidProfile(ideal)
    requires Total(measured)
    requires forall n: Nutrient :: measured[n] == c * ideal[n]
    ensures forall n: Nutrient :: Evaluate(ideal, measured).levels[n] == 100.0 * c
    ensures Evaluate(ideal, measured).limiting == PH
  {
    var levels := Levels(ideal, measured);
    assert Evaluate(ideal, measured).levels == levels;
    LevelsScaled(ideal, measured, c);
    LimitingIsPH(levels);
  }

  /** Measurements below the ideal value for every nutrient make every nutrient deficient. */
  lemma AllBelowIdeal(ideal: map<Nutrient, real>, measured: map<Nutrient, real>)
    requires ValidProfile(ideal)
    requires Total(measured)
    requires forall n: Nutrient :: measured[n] < ideal[n]
    ensures Evaluate(ideal, measured).deficient == Canonical
  {
    EvaluateParts(ideal, measured);
    BelowIdealKeepsAll(Canonical, Levels(ideal, measured));
  }

  /**
   * With nothing measured every level is 0: all nutrients tie, so pH, the
   * first one, is limiting, and every nutrient is deficient.
   */
  lemma NothingMeasured(ideal: map<Nutrient, real>, measured: map<Nutrient, real>)
    requires ValidProfile(ideal)
    requires Total(measured)
    requires forall n: Nutrient :: measured[n] == 0.0
    ensures forall n: Nutrient :: Evaluate(ideal, measured).levels[n] == 0.0
    ensures Evaluate(ideal, measured).limiting == PH
    ensures Evaluate(ideal, measured).deficient == Canonical
  {
    assert forall n: Nutrient :: measured[n] == 0.0 * ideal[n];
    ScaledMeasurements(ideal, measured, 0.0);
    AllBelowIdeal(ideal, measured);
  }

  /** An evaluation is made of the levels, their limiting nutrient and their deficient list. */
  lemma EvaluateParts(ideal: map<Nutrient, real>, measured: map<Nutrient, real>)
    requires ValidProfile(ideal)
    requires Total(measured)
    ensures Total(Levels(ideal, measured))
    ensures Evaluate(ideal, measured).levels == Levels(ideal, measured)
    ensures Evaluate(ideal, measured).limiting == Limiting(Levels(ideal, measured))
    ensures Evaluate(ideal, measured).deficient == Deficient(Levels(ideal, measured))
  {
  }

  /** When exactly one level is below 100, that nutrient alone is deficient. */
  lemma DeficientSingle(levels: map<Nutrient, real>, x: Nutrient)
    requires Total(levels)
    requires forall n: Nutrient :: levels[n] < 100.0 <==> n == x
    ensures Deficient(levels) == [x]
  {
    CanonicalIsComplete();
    BelowIdealSingle(Canonical, levels, x);
  }

  /**
   * When exactly one nutrient is below its ideal value, it is both the only
   * deficient nutrient and the limiting one.
   */
  lemma SingleDeficiency(ideal: map<Nutrient, real>, measured: map<Nutrient, real>, x: Nutrient)
    requires ValidProfile(ideal)
    requires Total(measured)
    requires forall n: Nutrient :: measured[n] < ideal[n] <==> n == x
    ensures Evaluate(ideal, measured).limiting == x
    ensures Evaluate(ideal, measured).deficient == [x]
  {
    EvaluateParts(ideal, measured);
    var levels := Levels(ideal, measured);
    LimitingIsUnique(levels, x);
    DeficientSingle(levels, x);
  }

  /** The colour of one bar of the chart. */
  datatype Colour = Red | Green

  function BarColour(level: real): (c: Colour)
    ensures c == Red <==> level < 100.0
    ensures c == Green <==> level >= 100.0
  {
    if level < 100.0 then Red else Green
  }

  /** A bar is red exactly when its nutrient is listed as deficient. */
  lemma RedExactlyWhenDeficient(ideal: map<Nutrient, real>, measured: map<Nutrient, real>, n: Nutrient)
    requires ValidProfile(ideal)
    requires Total(measured)
    ensures BarColour(Evaluate(ideal, measured).levels[n]) == Red <==> n in Evaluate(ideal, measured).deficient
  {
  }

  /** Which of the two reports the page shows. */
  datatype Report =
    | NoDeficiency
    | Deficiency(nutrients: seq<Nutrient>, limiting: Nutrient)

  /**
   * The report: "no deficiencies" exactly when every level reaches 100,
   * otherwise the deficient list of the evaluation and its limiting
   * nutrient, which is among them.
   */
  function ReportOf(ideal: map<Nutrient, real>, measured: map<Nutrient, real>): (rep: Report)
    requires ValidProfile(ideal)
    requires Total(measured)
    ensures rep.NoDeficiency? <==> forall n: Nutrient :: Evaluate(ideal, measured).levels[n] >= 100.0
    ensures rep.NoDeficiency? <==> forall n: Nutrient :: measured[n] >= ideal[n]
    ensures rep.Deficiency? ==> rep.nutrients == Evaluate(ideal, measured).deficient
    ensures rep.Deficiency? ==> rep.limiting == Evaluate(ideal, measured).limiting
    ensures rep.Deficiency? ==> rep.limiting in rep.nutrients
  {
    var e := Evaluate(ideal, measured);
    if |e.deficient| == 0 then NoDeficiency
    else Deficiency(e.deficient, e.limiting)
  }
}
