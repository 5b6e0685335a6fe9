# Law of the Minimum soil evaluator

A model of the evaluation core of the Streamlit page in `app.py.py`. The page
takes seven soil-nutrient readings (pH, P, K, Ca, Mg, S and organic matter
M.O), compares each one with the ideal value for the chosen crop (soy, maize
or wheat), and reports two things. The first is the "limiting" nutrient: the
nutrient with the lowest percentage of its ideal. The second is the list of
nutrients below 100 % of their ideal.

The model has five modules:

- `Nutrients` (`nutrients.dfy`): the seven nutrients, in their fixed order
  pH, P, K, Ca, Mg, S, M.O, and the three crops. It holds the table of ideal
  values (`valores_ideais`) and proves that every crop has all seven
  nutrients and that each ideal value is strictly positive.
- `Units` (`units.dfy`): unit normalisation (`converter_unidade`). A value in
  kg/ha is halved. A value with any other label passes through unchanged,
  including a label the selector does not offer. The conversion never fails.
- `IdealHint` (`hint.dfy`): the green hint beside each input
  (`balao_verde`). It shows the shortfall `round(ideal - typed, 2)` when that
  is positive, and "OK" otherwise.
- `LawOfMinimum` (`law_of_minimum.dfy`): the evaluation itself:
  - the levels (`niveis`), each one measured / ideal × 100;
  - the limiting nutrient: `min` with a key function, modelled as the
    left-to-right scan that `min` performs, which keeps the first minimum;
  - the deficient list (`deficientes`);
  - the colour of each bar;
  - which report is shown.
- `SoilApp` (`soil_app.dfy`): one press of the button. It builds the
  measurement dictionary (`valores_digitados`) from the typed values, sends
  only P and K through unit conversion, and evaluates the result against the
  crop's profile. It also holds concrete scenarios: the ideal reading, the
  all-zero reading, maize with half its ideal phosphorus, and the same soil
  entered in kg/ha.

Quantities are Dafny `real`s. Dictionaries keyed by nutrient are
`map<Nutrient, real>`. Their key order, which decides both the tie-break of
`min` and the order of the deficient list, is the insertion order of the
measurement dictionary. That order is the sequence `Nutrients.Canonical`.

The model follows the code where the code's behaviour could be read as an
error case. There is no failure for an unknown unit: the code's `else`
branch passes the value through, and `Units.Classify` keeps the label in
`Other`. There is no failure for an invalid profile, a key-set mismatch or an
unknown crop. The code cannot reach any of these:
- the crop comes from a fixed selector (`Crop` is an enumeration);
- every ideal value is positive (proved by `Nutrients.Profile`);
- the measurement dictionary always has the same seven keys
  (`SoilApp.Measurements`).

One behaviour is worth knowing. The hint compares the value as typed, before
unit conversion, while the chart and the report use the converted P and K.
So in kg/ha, a phosphorus value between the ideal and twice the ideal gets an
"OK" hint, yet its bar is red and phosphorus is listed as deficient
(`SoilApp.HintIgnoresUnit`). The source does not make it evident whether this
is intended, so it is recorded here as an observation of the page's behaviour.

## Model

| member | source | states |
|---|---|---|
| `Nutrients.Rank` | app.py.py:105-110 | Each nutrient has exactly one position in the key order of the measurement dictionary. |
| `Nutrients.Profile` | app.py.py:11-15 | Every crop's table has all seven nutrients, and every ideal value is strictly positive, so every ratio is defined. |
| `Nutrients.CanonicalIsComplete` | app.py.py:105-110 | The measurement key order lists every nutrient once, in strictly increasing rank. |
| `Units.Classify` | app.py.py:29-39 | The if/elif chain on the label never fails. It gives a unit whose label is the input, and it falls to the pass-through case exactly when the label is not one of the four offered. |
| `Units.ClassifyLabel` | app.py.py:29-39 | Classifying the label of a recognised unit gives that unit back. |
| `Units.Convert` | app.py.py:30-39 | kg/ha gives exactly half the value; every other unit, known or not, gives the value unchanged. `Other` stands only for labels outside the four offered, which is the only way `Units.Classify` builds it. |
| `Units.ConvertUnit` | app.py.py:29-39 | The label "kg/ha" halves the value and every other label leaves it unchanged. A non-negative value stays between 0 and itself. |
| `Units.ConvertUnitLinear` | app.py.py:29-39 | The conversion is linear in the value for every label. |
| `Units.ConvertUnitIdempotent` | app.py.py:29-39 | For every label but kg/ha, converting twice is converting once and gives the value itself. |
| `IdealHint.RoundHalfEven` | app.py.py:71 | The result is an integer within 0.5 of the input, the even one on a tie, and positive exactly when the input exceeds 0.5. |
| `IdealHint.Round2` | app.py.py:71 | `round(x, 2)` is within 0.005 of x, and positive exactly when x exceeds 0.005. |
| `IdealHint.GreenBalloon` | app.py.py:70-75 | The hint shows a shortfall exactly when the ideal exceeds the typed value by more than 0.005, and always shows OK once the typed value reaches the ideal. A shown shortfall is positive and within 0.005 of the true difference. |
| `LawOfMinimum.Ratio` | app.py.py:118 | A level is below 100 exactly when the measured value is below the ideal, and a non-negative measurement gives a non-negative level. |
| `LawOfMinimum.RatioOfScaled` | app.py.py:118 | A measurement of c times the ideal is at level 100·c, whatever the ideal. |
| `LawOfMinimum.RatioTimesIdeal` | app.py.py:118 | A level times the ideal value is 100 times the measured value, so the level is the measurement as a percentage of the ideal. |
| `LawOfMinimum.Levels` | app.py.py:118 | The level map has exactly the keys of the measurements, and each level is the ratio of that nutrient's measured value to its ideal value. |
| `LawOfMinimum.LevelsAtIdeal` | app.py.py:118 | Measuring exactly the ideal values gives level 100 for every nutrient. |
| `LawOfMinimum.LevelsScaled` | app.py.py:118 | Measuring c times every ideal value gives level 100·c for every nutrient. |
| `LawOfMinimum.MinScan` | app.py.py:119 | The scan done by `min` with a key ends at a position whose level is at most every level and strictly below every level before it. |
| `LawOfMinimum.Limiting` | app.py.py:119 | The limiting nutrient's level is at most every other level. Every nutrient earlier in the order has a strictly higher level, so a tie goes to the earliest nutrient. |
| `LawOfMinimum.LimitingIsUnique` | app.py.py:119 | Those two properties determine the limiting nutrient: a nutrient that has them is the one `min` returns. |
| `LawOfMinimum.LimitingIsPH` | app.py.py:119 | pH, the first key, is limiting exactly when no level is below pH's level. |
| `LawOfMinimum.BelowIdeal` | app.py.py:138 | The filter keeps exactly those keys whose level is below 100, and it never gets longer. |
| `LawOfMinimum.BelowIdealAbove` | app.py.py:138 | Filtering keeps every kept key above any rank bound that all the keys exceed. |
| `LawOfMinimum.BelowIdealInOrder` | app.py.py:138 | Filtering keys in order gives a list in the same order, with no repeats. |
| `LawOfMinimum.BelowIdealKeepsAll` | app.py.py:138 | When every key is below 100, the filter returns all the keys, in order. |
| `LawOfMinimum.BelowIdealDropsAll` | app.py.py:138 | When no key is below 100, the filter returns the empty list. |
| `LawOfMinimum.BelowIdealSingle` | app.py.py:138 | When exactly one key is below 100, the filter returns that key alone. |
| `LawOfMinimum.Deficient` | app.py.py:138 | The deficient list holds exactly the nutrients whose level is below 100, in key order and without repeats. |
| `LawOfMinimum.DeficientSingle` | app.py.py:138 | When exactly one level is below 100, the deficient list is that nutrient alone. |
| `LawOfMinimum.LimitingIsDeficient` | app.py.py:118-138 | Whenever the deficient list is not empty, the limiting nutrient is in it. |
| `LawOfMinimum.Evaluate` | app.py.py:118-138 | Every nutrient gets a level, the percentage of its ideal that was measured. The limiting nutrient has the lowest level and is the first such in order. A nutrient is deficient exactly when its level is below 100, which is exactly when its measured value is below its ideal. The deficient list is in order and includes the limiting nutrient whenever it is not empty. |
| `LawOfMinimum.ScaledMeasurements` | app.py.py:118-119 | Measuring c times every ideal value gives level 100·c everywhere, and the tie makes pH limiting. |
| `LawOfMinimum.AllBelowIdeal` | app.py.py:118-138 | Measuring below the ideal for every nutrient makes the deficient list all seven nutrients, in order. |
| `LawOfMinimum.NothingMeasured` | app.py.py:118-138 | All-zero measurements give level 0 everywhere, pH as the limiting nutrient, and every nutrient deficient. |
| `LawOfMinimum.SingleDeficiency` | app.py.py:118-138 | When exactly one nutrient is below its ideal, it is both the limiting nutrient and the only deficient one. |
| `LawOfMinimum.RedExactlyWhenDeficient` | app.py.py:128-138 | A bar is red exactly when its nutrient is in the deficient list. |
| `LawOfMinimum.BarColour` | app.py.py:130-133 | A level below 100 gives a red bar and any other level a green one; `LawOfMinimum.RedExactlyWhenDeficient` ties the colour to the deficient list. |
| `LawOfMinimum.ReportOf` | app.py.py:138-145 | The "no deficiencies" report is shown exactly when every level reaches 100, which is exactly when every measurement reaches its ideal. Otherwise the report lists exactly the evaluation's deficient nutrients and names its limiting nutrient, which is among them. |
| `SoilApp.Measurements` | app.py.py:105-110 | The measurement dictionary has all seven nutrients. Only P and K go through unit conversion; pH, Ca, Mg, S and M.O are used as typed. |
| `SoilApp.Press` | app.py.py:60-119 | One press evaluates the assembled measurements against the selected crop's profile: each level is the converted measurement as a percentage of the crop's ideal, the limiting nutrient has the lowest level, and the deficient nutrients, in key order, are exactly those measured below the crop's ideal. |
| `SoilApp.MeasurementsAsTyped` | app.py.py:105-110 | With any unit label but kg/ha, every nutrient is measured exactly as typed. |
| `SoilApp.IdealReadingIsSufficient` | app.py.py:105-138 | Typing a crop's ideal values, in any unit but kg/ha, gives level 100 everywhere and no deficient nutrient. |
| `SoilApp.ZeroReadingLimitedByPH` | app.py.py:105-138 | Typing all zeros, in any unit, gives level 0 everywhere, pH as the limiting nutrient, and all seven nutrients deficient. |
| `SoilApp.MaizeExampleLimitedByP` | app.py.py:105-138 | Maize with half its ideal phosphorus in mg/dm³ gives phosphorus level 50 and the rest 100. Phosphorus is both limiting and the only deficient nutrient. |
| `SoilApp.KgPerHaHalvesPAndK` | app.py.py:105-110 | Any soil entered in kg/ha, with P and K doubled, gives the same measurement dictionary as in mg/dm³. |
| `SoilApp.KgPerHaMaizeExample` | app.py.py:105-119 | The maize example entered in kg/ha (P 15, K 200) gives the same evaluation as in mg/dm³. |
| `SoilApp.HintIgnoresUnit` | app.py.py:84-138 | In kg/ha, a phosphorus value between the ideal and twice the ideal gets an OK hint, yet its bar is red and phosphorus is deficient. |

## Left out

- The Streamlit page (layout, widgets, markdown and HTML, footer) is not modelled. It is presentation, not behaviour. The `min_value=0.0` of the number inputs is not imposed on `SoilApp.Reading`; the lemmas that need a bound state it.
- Drawing the chart with matplotlib (figure, axes, reference line) is left out. Only each bar's colour is modelled, as `LawOfMinimum.BarColour`.
- The file uploader and the `aliases` table are left out. The uploaded file is never read and the aliases are never used.
- The report and hint texts are left out. Only the branch taken (`LawOfMinimum.Report`, `IdealHint.Hint`) and the shortfall value are modelled.
- The page's interactive cycle (re-running on every widget change, the button press) is left out. One press is the function `SoilApp.Press`.
- IEEE double arithmetic is not modelled. Quantities are exact reals, so binary representation effects in the division at line 118 and in `round` at line 71 are not modelled.
- IdealHint.Round2: states the 0.005 error bound and the sign, not the tie-to-even rule at two decimals; `IdealHint.RoundHalfEven` states that rule.
- LawOfMinimum.Evaluate: requires all seven measurement keys. The page always builds all seven, so the key-set mismatch that would make `ideais[n]` fail is not reachable and is not modelled.
