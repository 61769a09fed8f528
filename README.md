# Probabilistic capacity-factor forecasts: a Dafny model

This project models the core of a pipeline that forecasts the capacity factors of renewable generators.
The pipeline has these stages:

- It reduces the ERA5 weather grid to regional mean time series. Each grid point goes to the first onshore region and the first offshore region whose polygon contains it. Each region's ten weather variables are the mean over its points.
- It parses the capacity-factor column names, of the form `"<region> <index> <suffix>"`, into a region name and an energy type.
- For each region and energy type it assembles the training data: the target column and the configured weather variables at the region's key `"<region> 0 on|off"`.
- For every column it skips or trains one probabilistic model. Then it writes one table per quantile, first as predicted and then clipped to [0, 1.02].
- It scores interval forecasts by their coverage fraction.

The modules follow the source files:

- `Results` (`results.dfy`): `Option` and `Result`, shared by all modules.
- `EnergyTypes` (`energy_type.dfy`): `src/energy_type.py`.
- `Features` (`features.dfy`): `src/features.py`.
- `Era5Mapper` (`era5_mapper.dfy`): `src/era5_mapper.py`, that is the point-to-region mapping, region naming, the lookup key and the height broadcast.
- `Era5RegionData` (`era5_region_data.dfy`): `era5_mapper.py`, that is the explicit averaging loop over zero-initialised arrays.
- `ForecastData` (`forecast_data.dfy`): `src/forecast_data.py`.
- `Forecasting` (`forecasting.dfy`): `src/forecast.py`.
- `Metrics` (`metrics.dfy`): `coverage_fraction` in `metrics.py`.

The grid-to-region mapping and `get_era5_region_name` are identical in `era5_mapper.py` and `src/era5_mapper.py`. Each is modelled once, in `Era5Mapper`, and `Era5RegionData` uses them.

Several outside collaborators are modelled as parameters:

- Polygon containment (`point.within(polygon)`) is a function `within(point, regionIndex)`.
- The raw weather grid is a function `sample(channel, point, timeIndex)`, keyed by the raw channel name of the grid file.
- The fitted model's predictive distribution is a function `ppf(column, quantile, row)`.
- The configured `feature_set` and `default_quantiles` are parameters, because the configuration file defines neither.
- The loaded files are values: a `RegionalDataset` and a `Capfacts` table.
- The files the pipeline writes form a sequence `saved` of (file name, table) pairs on the `Forecast` object.

Where the source changes state in place, the model does too:

- The ten `np.zeros((n_regions, n_time))` arrays are one `array3<real>` indexed by feature. The averaging loop updates it row by row.
- The region-name arrays are suffixed in place.
- `_clip_and_save` clips a `Frame` object between its two writes.

Two consequences of the code that are easy to miss:

- `get_energy_type` matches the suffix `"onwind"` exactly. A well-formed column (three space-separated tokens) whose suffix is ONWIND's own value `"onwind-dc"` therefore decodes to `NOT_DEFINED` and is skipped by the forecaster (`ForecastData.ParseOnwindValueExample`, `Forecasting.OnwindValueColumnSkipped`). A name that does not parse, such as `"DE0 onwind-dc"`, is not skipped; it fails in `get_training_data` (`Forecasting.MalformedColumnNotSkipped`).
- Column names are split on a single space (`str.split(" ")`). A tab stays inside a token (`ForecastData.ParseTabExample`). A doubled space adds an empty token: `"DE0  0 onwind"` has four tokens and fails (`ForecastData.ParseDoubleSpaceExample`), while `"DE0  onwind"` has three and parses as ("DE0", ONWIND) (`ForecastData.ParseEmptyMiddleExample`).

## Model

| member | source | states |
|---|---|---|
| EnergyTypes.GetEnergyType | src/energy_type.py:14-32 | each of the five recognised strings decodes to its member and only that string does; every other string decodes to NOT_DEFINED |
| EnergyTypes.DecodeOwnValue | src/energy_type.py:7-32 | decoding a member's own value gives the member back, except ONWIND whose value "onwind-dc" decodes to NOT_DEFINED |
| EnergyTypes.DecodeIsExact | src/energy_type.py:20-32 | matching is exact and case-sensitive: "onwind-dc", "Solar" and "" decode to NOT_DEFINED |
| EnergyTypes.ValuesDistinct | src/energy_type.py:7-12 | the six member values are pairwise distinct, and there are six members |
| Features.FeatureOf | src/features.py:3-16 | value-to-member lookup is a well-defined inverse: it returns the member whose value is the string whenever one exists |
| Features.TenDistinctFeatures | src/features.py:7-16 | there are exactly ten features, every feature is listed, and their values are pairwise distinct |
| Features.ValueInjective | src/features.py:7-16 | two features with the same value are the same feature |
| Era5Mapper.ScanOrderLength | src/era5_mapper.py:61-63 | the scan visits dim_x * dim_y points |
| Era5Mapper.ScanOrderPoint | src/era5_mapper.py:61-63 | y is the outer loop and x the inner: visit y*dim_x+x is the point (xs[x], ys[y]) |
| Era5Mapper.FirstContaining | src/era5_mapper.py:69-73 | the result is the lowest region index whose polygon contains the point, or none when no region contains it |
| Era5Mapper.FindRegion | src/era5_mapper.py:69-79 | the loop with `break` finds exactly the first containing region |
| Era5Mapper.AssignedMembership | src/era5_mapper.py:61-79 | a point is in region r's list iff it was scanned and r is the first region containing it |
| Era5Mapper.AssignedDisjoint | src/era5_mapper.py:69-73 | no point is in two lists of one side; a listed point lies in its region and in no lower-index region |
| Era5Mapper.AssignmentTotalBound | src/era5_mapper.py:61-79 | the lists of one side together hold at most dim_x * dim_y points |
| Era5Mapper.AppendToFirst | src/era5_mapper.py:69-79 | appending one scanned point to its first containing region keeps every list equal to the scan-order list of its region |
| Era5Mapper.MapCoordinatesToRegions | src/era5_mapper.py:45-81 | one list per region and side; each list is exactly its region's points in scan order, assigned independently onshore and offshore; each side holds at most dim_x * dim_y entries |
| Era5Mapper.AppendSuffix | src/era5_mapper.py:97-102 | every name of the array gets the suffix in place, in order |
| Era5Mapper.CreateRegionNames | src/era5_mapper.py:93-103 | the region names are the onshore names with " on" followed by the offshore names with " off", and both name arrays are updated in place |
| Era5Mapper.SuffixCancels | src/era5_mapper.py:95-103 | a common suffix can be removed: names that differ stay different after suffixing |
| Era5Mapper.RegionNames | src/era5_mapper.py:93-103 | one name per shapefile name: the onshore names with " on", then the offshore names with " off" |
| Era5Mapper.RegionNamesDistinct | src/era5_mapper.py:93-103 | the region names are distinct iff the onshore names and the offshore names each are, one per region of regions_onshore + regions_offshore |
| Era5Mapper.GetEra5RegionName | src/era5_mapper.py:151-165 | the key is region + " 0 on" for ONWIND, SOLAR and ROR, region + " 0 off" for the two offshore types, region + " 0" for NOT_DEFINED; it always starts with region + " 0" |
| Era5Mapper.KeyMatchesRegionNames | src/era5_mapper.py:151-165 | the key of an onshore or offshore type names a region of the regional dataset when the base name is there; a NOT_DEFINED key never does |
| Era5Mapper.HeightBroadcast | src/era5_mapper.py:126-128 | one row per region, and each region's mean height at every timestep, for any number of regions and timesteps |
| Era5Mapper.HeightBroadcastAsWritten | src/era5_mapper.py:126-128 | the hard-coded reshape succeeds iff there are 65 regions and 8760 timesteps, and then equals the general broadcast |
| Era5Mapper.HeightBroadcastRejectsOtherShapes | src/era5_mapper.py:128 | 37 regions, or 8784 timesteps (a leap year), make the hard-coded reshape fail while the general broadcast succeeds |
| Era5RegionData.VariablesAreFeatureValues | era5_mapper.py:162-173 | the ten data variables written to the regional dataset are the ten feature values, in feature order |
| Era5RegionData.FeatureValueIsVariable | era5_mapper.py:162-173 | every feature value names a variable of the regional dataset |
| Era5RegionData.RawChannelDiffersOnlyForSoilTemperature | era5_mapper.py:131-140 | a feature's raw grid channel differs from its value only for soil temperature ("soil temperature" against "soil_temperature") |
| Era5RegionData.PointSumBounds | era5_mapper.py:131-150 | a sum of n values within [lo, hi] lies within [n*lo, n*hi] |
| Era5RegionData.RegionValue | era5_mapper.py:123-160 | a region's value times its number of points is the sum of its points' values of the variable's raw channel, taken at t, or at time index 0 for height |
| Era5RegionData.RegionValueBounds | era5_mapper.py:123-160 | a regional mean lies within any bounds its points' values lie within |
| Era5RegionData.HeightTimeInvariant | era5_mapper.py:123-129 | a region's height is the same at every timestep |
| Era5RegionData.AddToRow | era5_mapper.py:142-150 | adding one point adds its channel value at every timestep of one row and changes nothing else |
| Era5RegionData.DivideRow | era5_mapper.py:152-160 | every timestep of one row is divided by the point count and nothing else changes |
| Era5RegionData.FillRow | era5_mapper.py:129 | `height[region_idx, :] = height_mean` sets one row and changes nothing else |
| Era5RegionData.AddPoint | era5_mapper.py:131-150 | one point's nine time-varying channels are added to the region's rows; the height row and the other regions are unchanged |
| Era5RegionData.DivideRows | era5_mapper.py:152-160 | the nine time-varying rows of the region are divided by the point count; the height row and the other regions are unchanged |
| Era5RegionData.AverageRegion | era5_mapper.py:118-160 | with points, every row of the region holds its mean (height at time index 0, broadcast); without points it fails at the height division and leaves the arrays unchanged; only this region's rows are written |
| Era5RegionData.ToNetcdf | era5_mapper.py:162-184 | the dataset receives every array cell unchanged |
| Era5RegionData.CreateEra5RegionData | era5_mapper.py:79-184 | fails iff some region has no point, reporting the first such region; otherwise the regions are named as above and every cell data[k][r][t] is the mean of feature k over region r's points |
| Era5RegionData.AggregatedWellFormed | src/era5_mapper.py:93-103 | a dataset labelled with the suffixed names is well formed (one row per label) iff each shapefile's names are distinct |
| Era5RegionData.CreateEra5Region | era5_mapper.py:14-100 | mapping then aggregation: the dataset exists iff every region received a grid point, and each value is the mean over exactly the points assigned to the region; afterwards the onshore name array holds each name with " on" appended and the offshore array each name with " off" |
| Era5RegionData.HeightPlaneIsBroadcast | era5_mapper.py:123-129 | the height plane of the aggregation is the per-region mean height broadcast over time, as `src/era5_mapper.py` intends |
| ForecastData.Split | src/forecast_data.py:61 | `split(" ")` yields one more token than there are spaces; no token holds a space; joining the tokens with spaces restores the name |
| ForecastData.SplitAfterToken | src/forecast_data.py:61 | splitting a + " " + b, where a has no space, gives a followed by the tokens of b |
| ForecastData.SplitNoSeparator | src/forecast_data.py:61 | a name without a space splits into itself |
| ForecastData.Find | src/forecast_data.py:51 | `find` gives the lowest index where the substring occurs, and -1 iff it does not occur |
| ForecastData.ParseCapfacCol | src/forecast_data.py:55-66 | a name parses iff it has exactly two spaces; the region name holds no space |
| ForecastData.ParseFormatted | src/forecast_data.py:61-66 | formatting "region index suffix" and parsing gives back the region and the decoded suffix, whatever the index token |
| ForecastData.ParsedIsFormatted | src/forecast_data.py:61-66 | every name that parses is "region index suffix" with the parsed region and a suffix that decodes to the parsed type |
| ForecastData.ParseOnwindExample | src/forecast_data.py:61-66 | "DE0 0 onwind" parses to ("DE0", ONWIND) |
| ForecastData.ParseOnwindValueExample | src/forecast_data.py:61-66 | "DE0 0 onwind-dc" parses to ("DE0", NOT_DEFINED) |
| ForecastData.ParseNoSpaceExample | src/forecast_data.py:61-66 | "invalid" and "" do not parse |
| ForecastData.ParseDoubleSpaceExample | src/forecast_data.py:61-66 | "DE0  0 onwind" (a doubled space) does not parse |
| ForecastData.ParseEmptyMiddleExample | src/forecast_data.py:61-66 | "DE0  onwind" parses to ("DE0", ONWIND): the doubled space yields an empty middle token, which is ignored |
| ForecastData.ParseTabExample | src/forecast_data.py:61-66 | "DE0\t1 0 onwind" parses with region name "DE0\t1": a tab does not separate tokens |
| ForecastData.FindCountriesInCapfacts | src/forecast_data.py:43-53 | the result is the columns containing the country name, in table order, the first column included |
| ForecastData.MatchingMembers | src/forecast_data.py:49-53 | a column is returned iff it contains the country name; no more names are returned than there are columns |
| ForecastData.MatchingEmptyKeepsAll | src/forecast_data.py:43-53 | the default empty country name returns every column in order |
| ForecastData.IndexOf | src/forecast_data.py:84 | the position of a label in the coordinate: the first one that carries it |
| ForecastData.IndexOfDistinct | src/forecast_data.py:84 | in a coordinate without repeated labels, a label's position is its only position |
| ForecastData.Sel | src/forecast_data.py:84 | a lookup succeeds iff the region key and the variable exist, and then gives a series of nTime values |
| ForecastData.Lookup | src/forecast_data.py:83-84 | one series per feature key, each of nTime values, all read at the same region key |
| ForecastData.SelReadsLabelledRow | src/forecast_data.py:84 | in a well-formed dataset, selecting region r's label and variable k reads exactly row r of variable k |
| ForecastData.DistinctFeaturesDistinctChannels | src/forecast_data.py:84 | lookups are keyed by feature value, so different features read different variables |
| ForecastData.DedupMembers | src/forecast_data.py:82-85 | the keys of X are the configured features, each once |
| ForecastData.DedupOfDistinct | src/forecast_data.py:82-85 | for a list without repetitions the keys of X are the list, in order |
| ForecastData.DedupEmpty | src/forecast_data.py:82-85 | X is empty iff the configured feature list is empty |
| ForecastData.PutStep | src/forecast_data.py:83-84 | one assignment `X[feature] = ...` extends the dict of the features so far to the dict of one more feature |
| ForecastData.CollectFeatures | src/forecast_data.py:82-85 | the loop fails iff the feature list is non-empty and the region key is missing; otherwise X holds each configured feature once, with the series at the region key |
| ForecastData.GetTrainingData | src/forecast_data.py:68-86 | the loop computes exactly the specified training data or the first error, in the order the source evaluates |
| ForecastData.TrainingDataOf | src/forecast_data.py:77-86 | a success needs a parsable name and a present column; Y is that column, and X has one series per key |
| ForecastData.TrainingDataContents | src/forecast_data.py:77-86 | Y is the named column; the keys of X are the configured features (in list order when the list has no repetition); each series is the dataset variable named by the feature's value at the region key |
| ForecastData.TrainingDataErrors | src/forecast_data.py:77-85 | a malformed name fails at the key; a missing column fails at Y; a type without a feature list fails; a type whose feature list is empty never consults the dataset and yields Y with an empty X |
| ForecastData.ShapeMultiFeatureData | src/forecast_data.py:88-96 | stacking succeeds iff there is at least one series and all series have one length; the result has one row per timestep and one value per series |
| ForecastData.StackColumns | src/forecast_data.py:95-96 | column j of the stacked matrix is series j, so out[i][j] == arrays[j][i] |
| Forecasting.Clip | src/forecast.py:131 | the clipped value lies in [0, 1.02]; values in range are kept; values below go to 0 and values above to 1.02 |
| Forecasting.ClipTable | src/forecast.py:130-131 | the snapshot column and the names are kept, the number of columns too, and every numeric value ends up in [0, 1.02] |
| Forecasting.ClipColumns | src/forecast.py:130-131 | clipping keeps the number of columns and clips each column element by element |
| Forecasting.ClipIdempotent | src/forecast.py:131 | clipping twice is clipping once |
| Forecasting.ClipMonotone | src/forecast.py:131 | clipping preserves order |
| Forecasting.ClipTableProperties | src/forecast.py:130-131 | clipping keeps the snapshot column, the names and the shape; afterwards every numeric cell lies in [0, 1.02], and cells already in range keep their value |
| Forecasting.ClipTableIdempotent | src/forecast.py:130-131 | clipping a clipped table changes nothing, and a table already in range is left as it is |
| Forecasting.Frame.constructor | src/forecast.py:42-45 | a frame is built holding exactly the given table |
| Forecasting.Frame.ClipNumeric | src/forecast.py:130-131 | the frame's contents become the clipped table |
| Forecasting.Trunc | src/forecast.py:126 | `int(x)` truncates toward zero |
| Forecasting.NatToString | src/forecast.py:126 | decimal digits, at least one, at least two from 10 upward |
| Forecasting.IntToString | src/forecast.py:126 | `str(i)` is non-empty and ends with a decimal digit |
| Forecasting.IntToStringSign | src/forecast.py:126 | `str(i)` starts with '-' exactly for negative i |
| Forecasting.NatToStringInjective | src/forecast.py:126 | different numbers have different decimal strings |
| Forecasting.IntToStringInjective | src/forecast.py:126 | different integers have different `str` forms |
| Forecasting.UnclippedFileName | src/forecast.py:126 | "capfacts_pred_q", then `str(int(q * 100))`, then ".csv" |
| Forecasting.ClippedFileName | src/forecast.py:133 | "capfacts_pred_q", then `str(int(q * 100))`, then "_clipped.csv" |
| Forecasting.FileNames | src/forecast.py:126-133 | two quantiles share a file name iff they have the same whole percent; an unclipped file never takes the name of a clipped one |
| Forecasting.FileNameExamples | src/forecast.py:126-133 | q=0.5 writes "capfacts_pred_q50.csv", q=0.05 writes "capfacts_pred_q5_clipped.csv", and 0.401 and 0.405 write the same file |
| Forecasting.ScoreKeys | src/forecast.py:97-113 | one to three keys, each ending in " clipped" when the predictions are clipped |
| Forecasting.ScoreKeyMembership | src/forecast.py:97-113 | the median gets RMSE and MAE, any other quantile its pinball loss, NLL only when unclipped and a distribution is given, and the number of keys follows |
| Forecasting.PinballKeyNamesQuantile | src/forecast.py:102-113 | a non-median quantile's key is "PL " + str(q), with " clipped" appended when clipped |
| Forecasting.ScoreKeysClippedVariant | src/forecast.py:97-113 | the clipped keys are the unclipped keys without NLL, each with " clipped" appended; the keys of a call are distinct |
| Forecasting.Skipped | src/forecast.py:56 | only a parsed column can be skipped; a parsed onwind, solar or offshore column is not |
| Forecasting.TrainColumn | src/forecast.py:62-65 | a failure of `get_training_data` is the column's failure; a trained column predicts one row per value of Y |
| Forecasting.ColumnPass | src/forecast.py:47-80 | a successful pass trains at most one entry per column |
| Forecasting.ColumnPassNames | src/forecast.py:50-80 | a successful pass trains exactly one entry per unskipped column, each named after a visited column |
| Forecasting.UnskippedIn | src/forecast.py:50-58 | every column the pass does not skip is one of the visited columns |
| Forecasting.ColumnPassSucceeds | src/forecast.py:47-80 | the pass succeeds iff every column after the first is skipped or trains |
| Forecasting.ColumnPassProcessesUnskipped | src/forecast.py:50-80 | when the pass succeeds, the processed columns are exactly the unskipped ones, in visit order |
| Forecasting.ColumnPassFirstError | src/forecast.py:50-65 | a failing pass reports the error of the first unskipped column that fails to train |
| Forecasting.ColumnPassPrefixError | src/forecast.py:50-65 | once a column fails, the later columns do not matter |
| Forecasting.TrainColumnRows | src/forecast.py:62-65 | a trained column has one row per snapshot row, which is also one per timestep of the regional dataset |
| Forecasting.MalformedColumnNotSkipped | src/forecast.py:54-62 | every name that does not parse is not skipped; it reaches `get_training_data` and fails there |
| Forecasting.OnwindValueColumnSkipped | src/forecast.py:54-58 | every well-formed column with suffix "onwind-dc" is skipped |
| Forecasting.RorColumnSkipped | src/forecast.py:54-58 | a run-of-river column is skipped |
| Forecasting.ModelledColumnNotSkipped | src/forecast.py:54-62 | onwind, solar and offshore columns are processed |
| Forecasting.SavedFilesLength | src/forecast.py:82-85 | the closing loop writes exactly two files per quantile |
| Forecasting.ColumnPassAt | src/forecast.py:50-80 | visiting one more column after a successful pass keeps the result, adds the trained column, or fails with that column's error |
| Forecasting.SavedFilesLayout | src/forecast.py:82-85 | quantile k writes files 2k and 2k+1: its table under the unclipped name, then the clipped table under the clipped name |
| Forecasting.QuantileTableShape | src/forecast.py:42-45 | each quantile's table is the snapshot column, then one column per processed column in visit order holding its prediction; when each model predicts one value per snapshot row, every column lines up with the snapshot rows |
| Forecasting.Forecast.constructor | src/forecast.py:17-29 | the quantiles are the given ones, or the configured defaults when none are given; nothing is saved yet |
| Forecasting.Forecast.ClipAndSave | src/forecast.py:116-135 | the unclipped table is written first, then the frame is clipped in place and written again |
| Forecasting.Forecast.AddPredictions | src/forecast.py:76-78 | each quantile's entry gains the new column's prediction, and the map keeps exactly the keys it had |
| Forecasting.Forecast.TrainOne | src/forecast.py:62-65 | training a column fails exactly as its training data, the stacking or the sample-count check fails |
| Forecasting.Forecast.EmptyColumns | src/forecast.py:42-45 | the keys are exactly the quantiles, and each starts empty |
| Forecasting.Forecast.VisitColumn | src/forecast.py:54-78 | one visit advances the pass by exactly one column (its outcome is the pass over the columns so far plus this one); a skipped column changes nothing; another column fails with its training error, or is appended to the trained columns with its predictions recorded under every quantile; the map's keys stay the same |
| Forecasting.Forecast.TrainColumns | src/forecast.py:47-80 | the column loop fails with the pass's error, or ends with the pass's trained columns and, under every quantile, exactly their predictions, with the keys it started with |
| Forecasting.Forecast.SaveQuantile | src/forecast.py:82-85 | one quantile appends its unclipped and clipped files and nothing else |
| Forecasting.Forecast.SaveAll | src/forecast.py:82-85 | one table per quantile is clipped and saved, in quantile order |
| Forecasting.Forecast.ForecastColumns | src/forecast.py:40-85 | the outcome is the column pass; a failure writes no file; a success appends the two files of every quantile |
| Forecasting.Forecast.ForecastRegression | src/forecast.py:31-85 | as ForecastColumns, with the early-stopping model as `ppf` |
| Forecasting.Forecast.ForecastRegressionGridSearch | src/forecast.py:137-202 | as ForecastColumns, with the grid-searched model as `ppf` |
| Metrics.CoveredCount | metrics.py:23 | the number of covered observations is at most n |
| Metrics.CoverageFraction | metrics.py:12-23 | the fraction exists iff there are observations; it lies in [0, 1] and times n is the count of covered observations |
| Metrics.CoveredCountExtremes | metrics.py:23 | the count is n iff every observation is covered, and 0 iff none is |
| Metrics.CoverageExtremes | metrics.py:23 | the fraction is 1 iff every observation lies in its interval, and 0 iff none does |
| Metrics.BoundsInclusive | metrics.py:23 | an observation equal to either end of its interval counts as covered |
| Metrics.InvertedIntervalsCoverNothing | metrics.py:23 | intervals with the lower end above the upper end cover nothing |
| Metrics.CoveredCountMonotone | metrics.py:23 | widening intervals never lowers the count |
| Metrics.CoverageMonotone | metrics.py:23 | lowering any lower bound or raising any upper bound never decreases the fraction |

## Left out

- File I/O and existence checks are not modelled: `open_dataset`, `read_csv`, `to_netcdf`, `to_csv`, `mkdir`, `Path.is_file` and the configured paths. The loaded data are parameters, and writes are recorded in `saved`.
- The `print` progress output and the progress counter `i` are not modelled.
- The shapely `within` test is a parameter. The geopandas shapefile reading and the `sizes.values()` unpacking are not modelled.
- The xarray `sel(...).mean(dim="points")` and `concat` of `src/era5_mapper.py:109-122` are not modelled separately. The explicit averaging loop of `era5_mapper.py` gives the regional means, and only the height broadcast of `src/era5_mapper.py` is modelled on its own.
- NGBoost `fit`, `pred_dist` and `ppf`, `train_test_split` and `GridSearchCV` are not modelled. The model is an opaque `ppf(column, quantile, row)`, and the split keeps only its check that X and Y have the same number of rows.
- Forecasting.TrainColumn: does not model `train_test_split`'s failure on too few rows, such as one sample at test size 0.25. `GridSearchCV(cv=5)` fails in the same way when there are fewer training rows than folds, and that failure is not modelled either. The test size, the random state and the other grid-search parameters are left out; they only affect the opaque model.
- Forecasting.Forecast.ForecastColumns: requires pairwise distinct quantiles, as do `Forecasting.Forecast.AddPredictions`, `Forecasting.Forecast.VisitColumn`, `Forecasting.Forecast.TrainColumns`, `Forecasting.Forecast.ForecastRegression` and `Forecasting.Forecast.ForecastRegressionGridSearch`. `results` and `new_columns` are dicts keyed by the quantile, and a repeated quantile would make the source append its columns twice.
- The scores themselves (RMSE, MAE, pinball loss, NLL) are not modelled: they are thin wrappers over sklearn and ngboost. Only the choice of score keys is modelled, and `str(q)` is a text parameter.
- Floating point is not modelled; values are `real`. In particular, `int(q * 100)` is exact truncation here. In binary floating point, `int(0.29 * 100)` is 28.
- Metrics.CoverageFraction: requires three sequences of one length and does not model numpy's broadcasting of length-1 arrays. NaN inputs are not modelled, and the NaN mean of no observations is `None`.
- ForecastData.Capfacts: the snapshot column is kept as text and never clipped. A snapshot column that pandas reads as numeric, which `select_dtypes` would then clip, is not modelled.
- ForecastData.TrainingDataOf: the column must be one of the numeric series; reading the non-numeric snapshot column as Y is not modelled.
- Sel (`ForecastData.Sel`): requires a well-formed dataset, whose region labels are distinct. For a repeated label, xarray's `sel(region=key)` returns every row carrying it, and the model does not represent that result. The aggregation's labels are distinct exactly when each shapefile's names are (`Era5RegionData.AggregatedWellFormed`).
- IndexOf (`ForecastData.IndexOf`): gives the first position of a label; with distinct labels (`ForecastData.IndexOfDistinct`) that is the only one. Repeated labels are outside the model, as for `Sel`.
- ForecastData.Capfacts: a well-formed table has "snapshot" as its first column. The source reads `capfacts["snapshot"]` by name and skips column 0 by position; a table without that first column, where the name lookup raises `KeyError`, is not modelled.
- Era5Mapper.CreateRegionNames: requires the onshore and offshore name arrays to be different objects, as the two shapefiles' name columns are.
- `src/daytime_checker.py` (astronomy with ephem) and `src/_helper.py` (a `strptime` wrapper) are not part of this model.
- `main.py` (entry-point sequencing) and `config.py` (paths and constants) are not part of this model.

## Findings

| source | as written | input that shows it | evidently intended | confidence | as-written member | corrected member |
|---|---|---|---|---|---|---|
| src/era5_mapper.py:128 | the region heights are repeated 8760 times and reshaped to a fixed 65 x 8760 | 37 regions, or a leap-year dataset with 8784 hourly steps: the reshape fails | broadcast each region's mean height over all n_time steps of n_regions regions | medium, not executed | Era5Mapper.HeightBroadcastAsWritten | Era5Mapper.HeightBroadcast |
