# tfo_sensitivity in Dafny

This project models the computational core of `tfo_sensitivity`, a library that studies how sensitive
transabdominal fetal oximetry (TFO) measurements are to the haemoglobin concentration and the oxygen
saturation of the mother and of the fetus. It works on Monte-Carlo photon tables: one row per detected
photon, with the source-detector distance (SDD) and the partial path travelled in each tissue layer.

The modelled parts are these.

- **Intensity generation** (`Intensity`, `intensity.dfy`). Each photon's intensity is the product over
  layers of `exp(-mu_a * path)`. It is optionally divided by the detector's photon counts. The
  column-wise rewrite is kept as an imperative method over a two-dimensional array, proved against a
  functional specification.
- **Jacobian shared types** (`JacobianBase`, `jacobian_base.dfy`). These are the four derivative axes
  `MC`, `MS`, `FC` and `FS` (maternal or fetal, concentration or saturation), and the operating point.
- **Derivative mu-map generators** (`MuAEquations`, `mu_a_equations.dfy`). They build a mu_a map at the
  operating point, plus the two maps where one quantity is moved by `+delta` and `-delta`.
- **Numerical Jacobian calculators**. `NumericalFormulae` (`numerical.dfy`) holds the regular,
  logarithmic and normalised central differences and their calculator class. `Formulae`
  (`legacy_formulae.dfy`) is the older calculator, which inlines the map generation.
- **Analytical Jacobian calculators** (`AnalyticalFormulae`, `analytical.dfy`). These are the
  closed-form derivatives with respect to the fetal concentration and saturation, for full-blood and
  partial-blood layers.
- **The ToF class** (`ToFBase`, `tof.dfy`). It bins intensity by quantised time of flight, drops weak
  bins and fills the gaps log-linearly. It also has the arithmetic between two ToF objects.
- **The two-pointer optimiser** (`Optimization`, `optimization.dfy`).
- **The FMCW quantisers** (`Fmcw`, `fmcw.dfy`). They replace each photon's time of flight by the centre
  of its `linspace` bin.

`Common` (`common.dfy`) holds the shared vocabulary:

- one error constructor per Python exception the library lets escape;
- a `Result` type used with `:-`;
- an `Env` record of the collaborators the model cannot see.

The collaborators in `Env` are:

- `exp`, `ln` and `log10`;
- the absorption-coefficient formulas;
- the detector tables;
- the value IEEE arithmetic gives to `x / 0`;
- pandas' linear interpolation.

Python objects whose fields change in place become Dafny classes with `modifies` clauses:

- the calculators, whose constructors fill in the mu maps or `eps`;
- the ToF object, whose constructor fills the data gaps;
- the photon frame, which gets new `Total Path` and `ToF` columns.

Each such class has a static `Create` method. It returns a `Result` for the exceptions the Python
constructor can raise.

## Model

| member | source | states |
|---|---|---|
| Intensity.ColumnOf | tfo_sensitivity/calculate_intensity/photon_manipulation.py:47-48 | the numpy column `layer - 1` selected by a layer key, with negative indices counted from the end, always lies inside the table |
| Intensity.AttenuatedRow | tfo_sensitivity/calculate_intensity/photon_manipulation.py:46-48 | rewriting a photon's row keeps one entry per layer |
| Intensity.IntensityColumn | tfo_sensitivity/calculate_intensity/photon_manipulation.py:22-53 | AssertionError exactly when the map and the layer count differ; success exactly when they agree and every layer key indexes a column (IndexError otherwise); one intensity per photon |
| Intensity.GenerateIntensity | tfo_sensitivity/calculate_intensity/photon_manipulation.py:8-19 | the total intensity fails exactly when the column fails, with the same exception |
| Intensity.LayerTermStep | tfo_sensitivity/calculate_intensity/photon_manipulation.py:46-48 | applying the next layer in sorted key order attenuates exactly its own column and leaves the others |
| Intensity.AttenuateColumns | tfo_sensitivity/calculate_intensity/photon_manipulation.py:42-48 | the in-place loop over the sorted map succeeds exactly when every key is in range, and then every column holds its attenuated paths |
| Intensity.KeySplitStep | tfo_sensitivity/calculate_intensity/photon_manipulation.py:42 | taking the least remaining key keeps the applied keys below the remaining ones |
| Intensity.PathArray | tfo_sensitivity/calculate_intensity/photon_manipulation.py:45 | the fresh array holds the partial paths untouched |
| Intensity.ApplyKey | tfo_sensitivity/calculate_intensity/photon_manipulation.py:46-48 | one loop iteration moves the array from "keys applied so far" to "that set plus the next key" |
| Intensity.LeastKey | tfo_sensitivity/calculate_intensity/photon_manipulation.py:42 | the key returned is the smallest remaining, the order `sorted(mu_map.items())` visits |
| Intensity.AttenuateColumn | tfo_sensitivity/calculate_intensity/photon_manipulation.py:47-48 | entry `[i, c]` becomes `exp(-mu * old)` and every other entry is unchanged |
| Intensity.RowProducts | tfo_sensitivity/calculate_intensity/photon_manipulation.py:49 | the fresh column holds each photon's product of layer factors |
| Intensity.DivideInPlace | tfo_sensitivity/calculate_intensity/photon_manipulation.py:50-52 | every entry is divided by the divisor in place |
| Intensity.GenerateIntensityColumn | tfo_sensitivity/calculate_intensity/photon_manipulation.py:22-53 | the imperative column computation equals the functional specification on every input, errors included |
| Intensity.StandardRow | tfo_sensitivity/calculate_intensity/photon_manipulation.py:46-48 | the closed-form row for layer keys 1..n keeps one factor per layer |
| Intensity.StandardLayerTerms | tfo_sensitivity/calculate_intensity/photon_manipulation.py:46-48 | for keys 1..n the loop's rewrite equals `exp(-mu[c+1] * path[c])` in every column |
| Intensity.StandardMapIntensity | tfo_sensitivity/calculate_intensity/photon_manipulation.py:46-52 | for keys 1..n the column succeeds and each photon's intensity is the normalised product of `exp(-mu * path)` |
| Intensity.ZeroAbsorptionGivesUnitIntensity | tfo_sensitivity/calculate_intensity/photon_manipulation.py:46-49 | with all absorption coefficients zero and no normalisation every photon has intensity 1 |
| Intensity.NormalisedColumn | tfo_sensitivity/calculate_intensity/photon_manipulation.py:50-52 | normalising fails exactly when the raw column fails, and otherwise divides each photon by the detector count and then by the photon count |
| Intensity.NormalisedTotal | tfo_sensitivity/calculate_intensity/photon_manipulation.py:17-18 | the normalised total is the raw total divided by both detector constants |
| JacobianBase.Tag | tfo_sensitivity/jacobian/base.py:10 | each derivative axis is the two-letter tag: `M`/`F` for maternal or fetal, then `C`/`S` for concentration or saturation |
| JacobianBase.ParseDx | tfo_sensitivity/jacobian/base.py:10 | a string names an axis exactly when it is one of the four literals |
| JacobianBase.ParseTag | tfo_sensitivity/jacobian/base.py:10 | parsing a tag gives back its axis |
| JacobianBase.TagOfParse | tfo_sensitivity/jacobian/base.py:10 | a parsed string is the tag of its axis |
| JacobianBase.TagLetters | tfo_sensitivity/jacobian/base.py:10 | the tag contains `M`, `C` or `S` exactly for the maternal, concentration or saturation axes |
| JacobianBase.OperatingPoint.constructor | tfo_sensitivity/jacobian/base.py:13-30 | the operating point stores the two haemoglobin concentrations, the two saturations and the wavelength |
| MuAEquations.AffectedLayer | tfo_sensitivity/jacobian/mu_a_equations.py:43-45 | the moved layer is 1 (maternal) exactly when the tag contains `M`, and 4 (fetal) otherwise |
| MuAEquations.OperatingMap | tfo_sensitivity/jacobian/mu_a_equations.py:37-39 | the operating map is the base map with layers 1 and 4 set to the maternal and fetal mu_a and all other layers kept |
| MuAEquations.DerivativeMuMapGen | tfo_sensitivity/jacobian/mu_a_equations.py:36-54 | NotImplementedError exactly when the tag contains neither `C` nor `S` |
| MuAEquations.DerivativeMapsMoveOnlyTheAffectedLayer | tfo_sensitivity/jacobian/mu_a_equations.py:36-89 | the plus and minus maps share the operating map's keys, agree with it except at the affected layer, and there move concentration (`C`) or saturation (otherwise) by plus and minus delta |
| MuAEquations.DeclaredTagsAreImplemented | tfo_sensitivity/jacobian/mu_a_equations.py:43-53 | every declared axis is accepted, and `MC`/`MS` move layer 1 while `FC`/`FS` move layer 4 |
| MuAEquations.NegatedDeltaSwapsMaps | tfo_sensitivity/jacobian/mu_a_equations.py:46-51 | negating delta swaps the plus and minus maps and keeps the operating map |
| MuAEquations.ZeroDeltaMapsCoincide | tfo_sensitivity/jacobian/mu_a_equations.py:46-51 | with delta zero both perturbed maps equal the operating map |
| NumericalFormulae.ParseFormat | tfo_sensitivity/jacobian/numerical_formulae.py:134-136 | the format lookup succeeds exactly for `regular`, `norm_der` and `log`, and raises KeyError otherwise |
| NumericalFormulae.FormatNameRoundTrip | tfo_sensitivity/jacobian/numerical_formulae.py:134-136 | format names and formats are mutually inverse |
| NumericalFormulae.Derivative | tfo_sensitivity/jacobian/numerical_formulae.py:93-127 | the derivative succeeds exactly when the intensities it needs succeed (the operating one only for the normalised form), and fails only with their errors |
| NumericalFormulae.RegularIsCentralDifference | tfo_sensitivity/jacobian/numerical_formulae.py:109-112 | the regular derivative times `2*delta` is `I(+) - I(-)` |
| NumericalFormulae.LogIsCentralDifference | tfo_sensitivity/jacobian/numerical_formulae.py:124-127 | the log derivative times `2*delta` is `log10 I(+) - log10 I(-)` |
| NumericalFormulae.NormalizedIsCentralDifference | tfo_sensitivity/jacobian/numerical_formulae.py:93-97 | the normalised derivative times `2*delta*I(0)` is `I(+) - I(-)` |
| NumericalFormulae.QuotientOfQuotient | tfo_sensitivity/jacobian/numerical_formulae.py:93-97 | dividing by two non-zero values in turn is undone by multiplying by both |
| NumericalFormulae.CentralDifferenceIsEven | tfo_sensitivity/jacobian/numerical_formulae.py:93-127 | with maps generated for `-delta` and the step `-delta`, every format gives the same derivative as for `+delta` |
| NumericalFormulae.SwappedMapsAndStep | tfo_sensitivity/jacobian/numerical_formulae.py:93-127 | swapping the plus and minus maps and negating the step leaves each format's derivative unchanged |
| NumericalFormulae.SameKeysSameIntensityOutcome | tfo_sensitivity/calculate_intensity/photon_manipulation.py:38-48 | whether the intensity succeeds, and with which error, depends only on the map's keys |
| NumericalFormulae.DerivativeOfIntensities | tfo_sensitivity/jacobian/numerical_formulae.py:93-127 | each format's derivative depends on the maps only through the three intensity outcomes I1, I2 and I0 |
| NumericalFormulae.SwappedIntensities | tfo_sensitivity/jacobian/numerical_formulae.py:93-127 | exchanging I1 and I2, when they fail alike, and negating the step leaves each format's result or error unchanged |
| NumericalFormulae.SwappedQuotients | tfo_sensitivity/jacobian/numerical_formulae.py:93-127 | each format's quotient is unchanged when both the difference and the step change sign |
| NumericalFormulae.NegatedQuotient | tfo_sensitivity/jacobian/numerical_formulae.py:109-112 | sign rules of real division used by the even-difference proofs |
| NumericalFormulae.NumericalJacobianCalculator.constructor | tfo_sensitivity/jacobian/numerical_formulae.py:39-60 | the constructor stores its arguments, copies the operating point's five numbers, defaults the equation to full blood and leaves the three maps unset |
| NumericalFormulae.NumericalJacobianCalculator.DeriveMuMaps | tfo_sensitivity/jacobian/numerical_formulae.py:61-77 | the maps stored are exactly the generator's, the maps are untouched on failure, and nothing else changes |
| NumericalFormulae.NumericalJacobianCalculator.Create | tfo_sensitivity/jacobian/numerical_formulae.py:29-61 | construction fails exactly when map generation fails, with its exception, and otherwise yields a valid calculator whose maps are the generated ones |
| NumericalFormulae.NumericalJacobianCalculator.CalculateJacobian | tfo_sensitivity/jacobian/numerical_formulae.py:93-127 | the method returns the formula of the chosen format on the stored maps |
| NumericalFormulae.MapsFor | tfo_sensitivity/jacobian/numerical_formulae.py:63-77 | an equation argument without the generator method raises AttributeError, a non-string axis raises TypeError, and otherwise the result is the generator's |
| NumericalFormulae.OperatingPointChangesAreIgnored | tfo_sensitivity/jacobian/numerical_formulae.py:49-53 | changing the shared operating point after construction does not change the derivative, because the constructor copied its fields |
| NumericalFormulae.UniqueValues | tfo_sensitivity/jacobian/numerical_formulae.py:175-176 | `unique()` keeps exactly the values present, each once |
| NumericalFormulae.UniqueValuesKeepFirstAppearanceOrder | tfo_sensitivity/jacobian/numerical_formulae.py:175-176 | `unique()` lists values in order of first appearance: wherever a later entry occurs in the column, every earlier entry has occurred before it |
| NumericalFormulae.SddColumn | tfo_sensitivity/jacobian/numerical_formulae.py:176 | the SDD column has one entry per row, holding that row's SDD |
| NumericalFormulae.RowsWithSdd | tfo_sensitivity/jacobian/numerical_formulae.py:178 | the boolean mask keeps every row with the chosen SDD as often as it occurs, and no other row |
| NumericalFormulae.RowsWithSddKeepsOrder | tfo_sensitivity/jacobian/numerical_formulae.py:178 | the mask keeps row order: filtering a concatenation concatenates the filtered parts |
| NumericalFormulae.RowsWithSddSnoc | tfo_sensitivity/jacobian/numerical_formulae.py:178 | a row appended at the end is kept, at the end, exactly when it matches |
| NumericalFormulae.RowsWithSddOfOneRow | tfo_sensitivity/jacobian/numerical_formulae.py:178 | a single row is kept exactly when its SDD matches |
| NumericalFormulae.FilterTable | tfo_sensitivity/jacobian/numerical_formulae.py:178 | the filtered table keeps the layers, keeps every row at the SDD with its multiplicity and no other row, and stays well formed |
| NumericalFormulae.SelectSdd | tfo_sensitivity/jacobian/numerical_formulae.py:175-177 | `sdd_list[sdd_index]` over the given list, or the table's distinct SDDs when none is given: it succeeds exactly for `-len <= index < len`, picks that entry (negative indices from the end), and raises IndexError otherwise; a distance picked from the data is one of its SDDs |
| NumericalFormulae.FirstIndexSelectsFirstRow | tfo_sensitivity/jacobian/numerical_formulae.py:175-177 | without a list, index 0 selects the first photon row's distance, not necessarily the smallest |
| NumericalFormulae.CalculatorOutcome | tfo_sensitivity/jacobian/numerical_formulae.py:29-127 | constructing and calculating raises AttributeError when the mu_a_eqn slot holds neither None nor an equation, TypeError when dx is not a string, NotImplementedError for a tag without `C` or `S`, and otherwise gives the format's derivative on the generated maps |
| NumericalFormulae.RunCalculator | tfo_sensitivity/jacobian/numerical_formulae.py:29-127 | running the calculator class (construction, then calculate_jacobian) with any slot values gives the outcome above, the misbound call included |
| NumericalFormulae.NumericalWrapperAsWritten | tfo_sensitivity/jacobian/numerical_formulae.py:139-190 | the wrapper as written raises IndexError on a bad SDD index |
| NumericalFormulae.AsWrittenWrapperAlwaysFails | tfo_sensitivity/jacobian/numerical_formulae.py:187-189 | the wrapper as written never returns a value, and past the lookups it always raises AttributeError |
| NumericalFormulae.NumericalWrapper | tfo_sensitivity/jacobian/numerical_formulae.py:139-190 | IndexError for a bad SDD index, KeyError for an unknown format, NotImplementedError for an unsupported axis, and otherwise the derivative on the rows at that SDD |
| NumericalFormulae.IntendedWrapperComputes | tfo_sensitivity/jacobian/numerical_formulae.py:139-190 | for every declared axis and format the corrected wrapper computes the derivative |
| NumericalFormulae.CalculateJacobianNumerical | tfo_sensitivity/jacobian/numerical_formulae.py:139-190 | the method returns the corrected wrapper's result on every input |
| NumericalFormulae.CalculateJacobianNumericalAsWritten | tfo_sensitivity/jacobian/numerical_formulae.py:139-190 | the method that runs the calculator with the arguments as written returns the as-written wrapper's result on every input |
| Formulae.JacobianCalculator.constructor | tfo_sensitivity/jacobian/formulae.py:19-36 | the legacy constructor stores its arguments and leaves the maps unset |
| Formulae.JacobianCalculator.DeriveMuMaps | tfo_sensitivity/jacobian/formulae.py:56-77 | the stored maps are the full-blood generator's; on failure all three hold the operating map, as the inline code leaves them |
| Formulae.JacobianCalculator.Create | tfo_sensitivity/jacobian/formulae.py:19-37 | construction fails exactly when full-blood map generation fails, and otherwise holds the generated maps |
| Formulae.JacobianCalculator.CalculateJacobian | tfo_sensitivity/jacobian/formulae.py:94-135 | the method returns the chosen format's derivative on the stored maps |
| Formulae.InlineMaps | tfo_sensitivity/jacobian/formulae.py:56-77 | the inlined map construction equals the full-blood generator, and the maps it leaves behind on failure are the operating map |
| Formulae.LegacyWrapper | tfo_sensitivity/jacobian/formulae.py:150-185 | IndexError for a bad SDD index, KeyError for an unknown format, and success only for an implemented axis |
| Formulae.LegacyAgreesWithIntendedNumerical | tfo_sensitivity/jacobian/formulae.py:150-185 | the legacy wrapper equals the corrected numerical wrapper on every input |
| Formulae.CalculateJacobian | tfo_sensitivity/jacobian/formulae.py:150-185 | the method returns the legacy wrapper's result |
| AnalyticalFormulae.LayerColumn | tfo_sensitivity/jacobian/analytical_formulae.py:113-130 | a layer's partial-path column exists exactly for layers 1..n (KeyError otherwise) and holds each photon's path in that layer |
| AnalyticalFormulae.AnalyticalDerivative | tfo_sensitivity/jacobian/analytical_formulae.py:110-130 | any axis other than `FC`/`FS` raises NotImplementedError; otherwise the result succeeds exactly when the intensity column does and a fourth layer exists |
| AnalyticalFormulae.NormalisedIsRelative | tfo_sensitivity/jacobian/analytical_formulae.py:132-141 | the normalised derivative is the raw one divided by the total intensity |
| AnalyticalFormulae.PartialSaturationScalesFullBlood | tfo_sensitivity/jacobian/analytical_formulae.py:206-218 | the partial-blood saturation derivative is the full-blood one scaled by `(vsrf + 1) * avf` |
| AnalyticalFormulae.AnalyticalJacobianCalculator.constructor | tfo_sensitivity/jacobian/analytical_formulae.py:55-68 | the constructor stores its arguments and defaults the equation to full blood |
| AnalyticalFormulae.AnalyticalJacobianCalculator.ModifyMuMap | tfo_sensitivity/jacobian/analytical_formulae.py:74-87 | the generator's result is returned; on success the stored map becomes the operating map; nothing else changes |
| AnalyticalFormulae.AnalyticalJacobianCalculator.CalculateEps | tfo_sensitivity/jacobian/analytical_formulae.py:89-96 | the three extinction values become those of the fetal saturation and wavelength and nothing else changes |
| AnalyticalFormulae.AnalyticalJacobianCalculator.Create | tfo_sensitivity/jacobian/analytical_formulae.py:21-72 | construction raises NotImplementedError exactly when map generation fails, and otherwise holds the operating map and the extinction values |
| AnalyticalFormulae.AnalyticalJacobianCalculator.CalculateJacobian | tfo_sensitivity/jacobian/analytical_formulae.py:132-141 | the result is the analytical Jacobian of the current fields; the operating map and the extinction values are refreshed first |
| AnalyticalFormulae.AnalyticalJacobian | tfo_sensitivity/jacobian/analytical_formulae.py:132-141 | any axis other than `FC`/`FS` raises NotImplementedError |
| AnalyticalFormulae.FetalSaturationChangeTakesEffect | tfo_sensitivity/jacobian/analytical_formulae.py:132-141 | after the fetal saturation field is changed, the next calculation uses the new value |
| ToFBase.BinBracketsTimeOfFlight | tfo_sensitivity/tof/base.py:118-128 | for a positive resolution the quantised bin `k` satisfies `k*res <= tof < (k+1)*res` |
| ToFBase.FloorBrackets | tfo_sensitivity/tof/base.py:128 | floor brackets its argument at any positive scale |
| ToFBase.PhotonBins | tfo_sensitivity/tof/base.py:39 | one bin per photon |
| ToFBase.BinCountPositive | tfo_sensitivity/tof/base.py:40 | a bin's photon count is positive exactly when some photon falls in it |
| ToFBase.EmptyBinHasNoIntensity | tfo_sensitivity/tof/base.py:41 | a bin no photon falls in sums to zero |
| ToFBase.SingleBinHoldsEverything | tfo_sensitivity/tof/base.py:40-41 | when every photon falls in one bin, that bin holds the whole intensity and all the photons |
| ToFBase.BinnedCounts | tfo_sensitivity/tof/base.py:40-44 | counts and sums keep the same bins after the low-intensity cut |
| ToFBase.Filled | tfo_sensitivity/tof/base.py:136-143 | the filled series covers exactly the contiguous range |
| ToFBase.FillKeepsPresentBins | tfo_sensitivity/tof/base.py:136-143 | filling keeps every present bin, and keeps its value when it is positive |
| ToFBase.ShortIffGaps | tfo_sensitivity/tof/base.py:132-135 | keys inside `[lo, hi]` are fewer than `hi - lo + 1` exactly when some bin is missing |
| ToFBase.Bounds | tfo_sensitivity/tof/base.py:46-47 | the bounds are the smallest and largest bin |
| ToFBase.Combine | tfo_sensitivity/tof/base.py:88-91 | an operation between two series keeps exactly the common bins and applies the operation to their two values |
| ToFBase.RangeIntersection | tfo_sensitivity/tof/base.py:88 | two contiguous bin ranges share the range from the later start to the earlier end |
| ToFBase.SelfQuotientIsOne | test/test_tof.py:35-42 | dividing a series with no zero bin by itself gives 1 in every bin |
| ToFBase.GapFillIsContiguous | tfo_sensitivity/tof/base.py:130-144 | after filling, the data covers exactly `[min, max]`, the flag is raised exactly when a bin was missing, and the counts are reindexed too when it is |
| ToFBase.GapFillKeepsBins | tfo_sensitivity/tof/base.py:136-143 | a bin present before filling is still present, with its positive value kept in both series |
| ToFBase.Settle | tfo_sensitivity/tof/base.py:46-48 | settling fails with ValueError exactly when no bin survived the cut |
| ToFBase.InitialState | tfo_sensitivity/tof/base.py:36-48 | the constructor propagates intensity errors, and otherwise fails only with ValueError |
| ToFBase.InitialStateIsContiguous | tfo_sensitivity/tof/base.py:36-48 | a constructed ToF covers a contiguous range bounded by the kept bins, with counts over the same bins, and is flagged exactly when a kept bin was missing |
| ToFBase.KeptBinsKeepTheirSums | tfo_sensitivity/tof/base.py:40-44 | a bin above the bound keeps its photon count and its summed intensity |
| ToFBase.FillSeries | tfo_sensitivity/tof/base.py:132-144 | the gap-filling computation returns the filled series, and returns the input unchanged when nothing is missing |
| ToFBase.BinnedSeries | tfo_sensitivity/tof/base.py:37-44 | binning fails exactly when the intensity column fails, and otherwise yields sums and counts over the same bins, whose settled state is the constructor's |
| ToFBase.SettledStateIsValid | tfo_sensitivity/tof/base.py:46-48 | a settled state has its bounds among its bins and every bin between them |
| ToFBase.ToF.constructor | tfo_sensitivity/tof/base.py:36-47 | the constructor stores resolution, data, counts and bounds, with the interpolation flag down |
| ToFBase.ToF.Len | tfo_sensitivity/tof/base.py:97-98 | the length is at most the bound range, and equals it exactly when no bin is missing |
| ToFBase.ToF.FillDataGaps | tfo_sensitivity/tof/base.py:130-144 | ValueError with no change on empty data; otherwise the data and counts become the filled series and the flag is raised when a bin was missing; the resolution and bounds are kept |
| ToFBase.ToF.CheckOperationCompatibility | tfo_sensitivity/tof/base.py:146-158 | compatible exactly when the resolutions are equal and the bin ranges overlap |
| ToFBase.ToF.Operate | tfo_sensitivity/tof/base.py:83-93 | ValueError when incompatible or when no bin is shared; otherwise a fresh valid ToF over the common bins at the same resolution |
| ToFBase.ToF.OperateScalar | tfo_sensitivity/tof/base.py:94-95 | a scalar operand is applied to every bin and the bins are kept |
| ToFBase.ToF.TrueDiv | tfo_sensitivity/tof/base.py:71-72 | ValueError when the operands are incompatible or share no bin; otherwise a fresh valid ToF at this resolution whose bins are the common bins, each holding the division of the two values |
| ToFBase.ToF.Mul | tfo_sensitivity/tof/base.py:74-75 | ValueError when the operands are incompatible or share no bin; otherwise a fresh valid ToF at this resolution whose bins are the common bins, each holding the multiplication of the two values |
| ToFBase.ToF.Add | tfo_sensitivity/tof/base.py:77-78 | ValueError when the operands are incompatible or share no bin; otherwise a fresh valid ToF at this resolution whose bins are the common bins, each holding the addition of the two values |
| ToFBase.ToF.Sub | tfo_sensitivity/tof/base.py:80-81 | ValueError when the operands are incompatible or share no bin; otherwise a fresh valid ToF at this resolution whose bins are the common bins, each holding the subtraction of the two values |
| ToFBase.ToF.FromData | tfo_sensitivity/tof/base.py:50-69 | ValueError exactly for an empty series; otherwise the ToF holds the given series with its own minimum and maximum as bounds |
| ToFBase.ToF.Create | tfo_sensitivity/tof/base.py:18-48 | construction fails exactly when the constructor's state does, with the same exception, and otherwise holds that state |
| ToFBase.CompatibilityIsSymmetric | tfo_sensitivity/tof/base.py:146-158 | compatibility is symmetric |
| ToFBase.ContiguousCompatibilityIsOverlap | tfo_sensitivity/tof/base.py:146-158 | for gap-free objects, compatible exactly when the resolutions agree and a bin is shared, and the shared bins are the range intersection |
| Optimization.TiesAreNotBetter | tfo_sensitivity/tof/optimization.py:31-39 | an equal value never counts as better |
| Optimization.Greedy | tfo_sensitivity/tof/optimization.py:41-56 | the pointers stay inside the initial range, and the value is the target at the final pointers, or the initial value when they never moved |
| Optimization.TwoPointerDiscreteOptimize | tfo_sensitivity/tof/optimization.py:7-56 | the loop returns the greedy result; the value is the target at the returned pointers; neither inward step is better at the end; the value improves on the start for `max` and for `min` |
| Optimization.OtherOptimaTypeKeepsInitialRange | tfo_sensitivity/tof/optimization.py:35-39 | for an optima type other than `max` or `min` the pointers never move |
| Optimization.MaxKeepsShrinkingRange | tfo_sensitivity/tof/optimization.py:44-54 | when every inward step strictly lowers the target, `max` keeps the initial range |
| Optimization.MinCollapsesShrinkingRange | tfo_sensitivity/tof/optimization.py:44-54 | when every inward step strictly lowers the target, `min` walks the left pointer onto the right one |
| Optimization.SumOfFirstAndRest | test/test_tof.py:72-87 | a sum splits into its first term and the rest |
| Optimization.PositiveSeriesShrinks | test/test_tof.py:72-87 | window sums of a positive series strictly drop on every inward step |
| Optimization.PositiveSeriesOptima | test/test_tof.py:72-87 | on a positive series, window-sum `max` keeps the whole range and `min` ends with equal pointers |
| Fmcw.Ceil | tfo_sensitivity/calculate_intensity/fmcw.py:57 | the ceiling is the least integer at or above its argument |
| Fmcw.Linspace | tfo_sensitivity/calculate_intensity/fmcw.py:30 | ValueError exactly for a negative count; otherwise `num` points, from `start` and ending at `stop` |
| Fmcw.LinspaceIsSorted | tfo_sensitivity/calculate_intensity/fmcw.py:30 | increasing endpoints give sorted points |
| Fmcw.CountAtMost | tfo_sensitivity/calculate_intensity/fmcw.py:31 | the count is between 0 and the number of edges |
| Fmcw.CountAbove | tfo_sensitivity/calculate_intensity/fmcw.py:31 | the count is between 0 and the number of edges |
| Fmcw.Digitize | tfo_sensitivity/calculate_intensity/fmcw.py:31 | the bin index is between 0 and the number of edges |
| Fmcw.DigitizeFindsTheBin | tfo_sensitivity/calculate_intensity/fmcw.py:31 | for sorted edges the index splits them into those at most `x` and those above |
| Fmcw.QuantileCentres | tfo_sensitivity/calculate_intensity/fmcw.py:64-77 | IndexError exactly for no quantiles; otherwise one more centre than quantiles |
| Fmcw.GetQuantileCenters | tfo_sensitivity/calculate_intensity/fmcw.py:64-77 | the loop's result is the specification's, starting at the first quantile, ending at the last, each centre halfway between the previous centre and the quantile |
| Fmcw.QuantileCentresRecurrence | tfo_sensitivity/calculate_intensity/fmcw.py:73-76 | the centres satisfy the running-average recurrence and end with the last quantile |
| Fmcw.CentresStayInRange | tfo_sensitivity/calculate_intensity/fmcw.py:74-75 | for sorted quantiles each centre lies between the first quantile and its own |
| Fmcw.CentresAreNotMidpoints | tfo_sensitivity/calculate_intensity/fmcw.py:64-77 | for quantiles 0, 1, 2 the third centre is 1.25, not the midpoint 1.5 the docstring describes |
| Fmcw.TotalPaths | tfo_sensitivity/calculate_intensity/fmcw.py:26 | one total path per photon |
| Fmcw.MaxOf | tfo_sensitivity/calculate_intensity/fmcw.py:29 | the maximum is an element of the column and at least every element |
| Fmcw.CentreColumn | tfo_sensitivity/calculate_intensity/fmcw.py:33 | one centre per photon |
| Fmcw.BinColumn | tfo_sensitivity/calculate_intensity/fmcw.py:31-33 | one entry per photon |
| Fmcw.QuantisedColumn | tfo_sensitivity/calculate_intensity/fmcw.py:31-33 | the bin-centre replacement succeeds exactly when there is at least one edge |
| Fmcw.RequiredBinCount | tfo_sensitivity/calculate_intensity/fmcw.py:57 | a zero resolution fails (ValueError for `0/0`, OverflowError for an infinite quotient); otherwise the bins cover the maximum for a positive resolution |
| Fmcw.QuantiseWithEdgeCount | tfo_sensitivity/calculate_intensity/fmcw.py:29-33 | ToF is replaced by the bin-centre column of the linspace edges, or left as total path when linspace raises ValueError |
| Fmcw.CreateQuantizedTof | tfo_sensitivity/calculate_intensity/fmcw.py:9-33 | `Total Path` is set to the totals and ToF to the quantised column for `bin_count + 1` edges |
| Fmcw.CreateQuantizedTofConstRes | tfo_sensitivity/calculate_intensity/fmcw.py:36-61 | like the fixed-count version, with `ceil(max / resolution) + 1` edges and that computation's errors |
| Fmcw.QuantisedToFWithinRange | tfo_sensitivity/calculate_intensity/fmcw.py:26-33 | with a non-negative maximum every quantised ToF lies between 0 and the maximum total path |

## Left out

- Column-name discovery is not modelled: the filters on `L`/`ppath` names and the sort of those names. A
  photon table is a sequence of rows whose partial paths are already in layer order, plus its layer count.
- Floating point is modelled as exact real arithmetic. `inf` and `NaN` appear only through `Env.divByZero`
  for a zero divisor. Rounding, overflow and NaN propagation are not modelled.
- Fmcw.QuantiseWithEdgeCount, Fmcw.CreateQuantizedTof, Fmcw.CreateQuantizedTofConstRes: these require a
  non-empty photon table, because pandas' `max()` of an empty column is `NaN` and NaN is not a real number.
- ToFBase.Filled: log-linear interpolation is the uninterpreted `Env.interpolate` applied to the log
  series. What it puts in a missing bin is not modelled, and neither are the values `np.log` gives for
  non-positive intensities.
- ToFBase.ToF.FromData: this does not run the full constructor on the synthetic one-layer table that
  `from_data` builds. The counts become empty and the interpolation flag stays down. Errors raised only
  by that synthetic construction are not modelled.
- The abstract `JacobianMuAEqn` interface in `tfo_sensitivity/jacobian/base.py:33-65` is not modelled: the
  operating-point form of `derivative_mu_map_gen`, `get_mu_map` and `__str__`. Nothing in the repository
  implements it. The implemented equations follow the separate interface in `mu_a_equations.py`, which
  the model uses.
- `two_pointer_brute_force_optimize` is left out: the tests call it (test/test_tof.py:98-124), but no
  module defines it.
- Optimization.TwoPointerDiscreteOptimize: exceptions raised by the target function are not modelled. The
  target is a total function.
- `test/test_numerical_formulae.py` and the unmodelled modules (`fmcw/photon_manipulation.py`,
  `pathlength_distribution`, `paste_to_debug.py`, `setup.py`) are not part of this model.
- ToFBase.ToF.Operate and ToFBase.ToF.OperateScalar: Python's `isinstance` dispatch in `_operate` becomes
  two members. The scalar branch returns the mapped series, not a ToF object.
- The detector constants `EQUIDISTANCE_DETECTOR_COUNT` and `EQUIDISTANCE_DETECTOR_PHOTON_COUNT`, and
  `get_mu_a`/`get_tissue_mu_a`, come from modules outside this repository. They are fields of `Env`,
  which also makes an out-of-range detector index out of scope.
- Default arguments (`sdd_index=None`, `lower_intensity_bound=1e-30`, `optima_type="max"`) are explicit
  parameters. `DEFAULT_LOWER_INTENSITY_BOUND` records the ToF default.
- pandas mechanics are not modelled: index names, series names, copies and `groupby` sort order. Series
  become maps from bin to value.

## Findings

| source | as written | input that shows it | evidently intended | confidence | as-written member | corrected member |
|---|---|---|---|---|---|---|
| tfo_sensitivity/jacobian/numerical_formulae.py:187-189 | the calculator is constructed positionally, so `delta` lands in the `dx` slot and `dx` in the `mu_a_eqn` slot of the signature at lines 29-37 | any call whose SDD index and format are valid: the string axis, now in the equation slot, has no `derivative_mu_map_gen`, so AttributeError is raised | pass `dx` and `delta` by keyword, so the wrapper computes the chosen derivative as `formulae.py:150-185` does | not executed | NumericalFormulae.NumericalWrapperAsWritten | NumericalFormulae.NumericalWrapper |
