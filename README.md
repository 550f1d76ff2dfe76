# Dengue CDSS feature engineering in Dafny

This project models the deterministic core of a dengue clinical decision-support
dashboard. Two programs make up that core:

- `train_model.py` prepares a table of lab results for two models. It fixes the
  Age and Sex column names, cleans Age, Sex and the symptom text, derives a
  season score from the test date, turns symptom keywords into 0/1 flag columns
  and codes Sex as 0/1. It then adds a synthetic risk label from three lab
  thresholds and a synthetic platelet trajectory (Day1, Day2, Delta, Day3). It
  selects the two feature matrices with NaN filled as 0.
- `app.py` is the dashboard. It scores the chosen date's season and shows its
  label. It builds a one-row input frame from the patient form, aligns it to
  the feature list the models were trained on, and shows a status and a trend
  colour for a forecast.

The modules are:

- `Results`: `Option` and `Result`.
- `Text`: ASCII models of Python's `lower`, `capitalize`, `title` and `strip`, and of `k in s`.
- `Frames`: the pandas pieces the programs use. It has a cell type (number, text or NaN) and a `Table` value. Its `DataFrame` class changes in place with `df[name] = column` and `rename`. It also models `df[features]`, `.fillna(0)` and `pd.DataFrame([dict])`.
- `TrainModel`: each step of `main` as a function on tables. The `DataFrame` methods (`FixColumn`, `AddFlags`, `CleanTable`, `AddLabel`, `AddTrajectory`, `Train`) run those steps in place and are proved equal to them.
- `App`: the dashboard's rules.

Training and the dashboard are tied together by lemmas:

- Both season lookups agree.
- The form's Sex_Code matches training's coding.
- Each view's frame covers exactly its model's feature list, so the zero-fill loop adds nothing.
- Each feature lands where the model expects it.
- The forecast's velocity is training's `Delta_Day1_Day2`.

## Model

| member | source | states |
|---|---|---|
| TrainModel.Season | train_model.py:7-12 | The season score of any month lies in 0..3. |
| TrainModel.SeasonOfMonth | train_model.py:7-12 | Score 3 exactly for months 6-9, 2 for 10-11, 1 for 3-5, and 0 for every other number (month 0, 12, out-of-range values). |
| TrainModel.SeasonCell | train_model.py:38-39 | A row's Season_Risk is a number in 0..3, and an unparsed date (NaT, filled as month 0) scores 0. |
| TrainModel.Candidates | train_model.py:24 | A name is a candidate iff it is a column whose lower-cased name contains the keyword. |
| TrainModel.FirstCandidate | train_model.py:25 | The renamed candidate is the first column, in column order, whose lower-cased name contains the keyword. |
| TrainModel.Fixed | train_model.py:23-31 | After the fixer the target column exists and the row count is unchanged. |
| TrainModel.FixedColumns | train_model.py:23-31 | Existing target: table unchanged. Otherwise the first candidate keeps its cells and position under the new name. With no candidate, a column of the default is appended. Every other column is untouched. |
| TrainModel.FixerProvidesAgeAndSex | train_model.py:23-31 | Running the Age fixer and then the Sex fixer always leaves both Age and Sex columns. |
| TrainModel.FixColumn | train_model.py:23-31 | The in-place fixer leaves the frame equal to `Fixed` of its old contents. |
| TrainModel.CleanAge | train_model.py:34 | A cleaned Age is always a number: numbers are kept, parseable text becomes its number, anything else becomes 30. |
| TrainModel.ToNumeric | train_model.py:34 | `to_numeric(errors='coerce')` never leaves text and keeps numbers. Its effect on Age is stated by `CleanAge`. |
| Frames.FillNa | train_model.py:34 | `fillna(v)` replaces NaN by `v` and keeps every other cell. |
| TrainModel.AsStr | train_model.py:35 | The model's text for a number (its integer digits and ".0") contains no cased letter. |
| TrainModel.CleanSex | train_model.py:35 | A cleaned Sex value is text with no white space at either end. Its coding is stated by `SexCodeIsCaseInsensitiveMale`. |
| TrainModel.SexCode | train_model.py:46 | Sex_Code is 0 or 1, and 1 iff the cleaned Sex is exactly "Male". "Female" and unmapped values get 0. |
| TrainModel.CleanSymptoms | train_model.py:42 | Cleaned symptoms are text with no upper-case letter, and missing symptoms become the empty text. |
| TrainModel.Flag | train_model.py:44 | A flag is 0 or 1, and 1 iff the keyword occurs in the symptom text (see also `FlagIsSubstring`). |
| TrainModel.SexCodeIsCaseInsensitiveMale | train_model.py:46 | After the line-35 cleaning, Sex_Code is 1 iff the raw value, stripped and lower-cased, is "male"; it is 0 otherwise. |
| TrainModel.FlagName | train_model.py:44 | The flag column name is "Has_" followed by the capitalized keyword (longer than 4 for a non-empty keyword). |
| TrainModel.FlagIsSubstring | train_model.py:42-44 | A flag is 1 iff the keyword occurs in the lower-cased symptom text, 0 iff it does not; missing symptoms raise no flag. |
| TrainModel.FlagNames | train_model.py:43-44 | One generated flag name per keyword. |
| TrainModel.FlagNamesSpelled | train_model.py:41-44 | The six keywords generate exactly Has_Fever, Has_Headache, Has_Pain, Has_Vomit, Has_Nausea, Has_Rash, in order. |
| TrainModel.FlagNameOf | train_model.py:44 | The name generated for the i-th keyword is the i-th spelled flag column. |
| TrainModel.FlagNamesFresh | train_model.py:43-44 | The generated flag names are distinct and all start with "Has_". |
| TrainModel.FlagColumnsFresh | train_model.py:44 | The spelled flag names are distinct and all start with "Has_". |
| TrainModel.DengueLabel | train_model.py:50-55 | The label of a row is 0 or 1. Its thresholds are stated by `DengueLabelThresholds` and `DengueLabelMonotone`. |
| TrainModel.DengueLabelThresholds | train_model.py:50-55 | The label is 1 iff platelets < 100000, hematocrit > 50 or haemoglobin < 7, and 0 iff none of them holds. |
| TrainModel.DengueLabelMonotone | train_model.py:50-55 | Lower platelets, higher hematocrit or lower haemoglobin never turn a positive label negative. |
| TrainModel.DengueLabelOfMissing | train_model.py:50-55 | NaN compares false, so a row without readings is labelled 0. |
| TrainModel.LabelCells | train_model.py:50-55 | The label column holds each row's label, row by row. |
| TrainModel.LabError | train_model.py:50-53 | The label expression raises no error iff all three lab columns exist and hold no text. Otherwise it raises a KeyError or TypeError for the first column that fails, in evaluation order. |
| TrainModel.FeatureListsDistinct | train_model.py:57-87 | `clf_features` names 11 distinct columns and `reg_features` 13. |
| TrainModel.FeatureFlagsGenerated | train_model.py:57-87 | The Has_* features of both lists are generated flag columns (Fever, Headache, Pain, Vomit; the regressor in its own order). |
| TrainModel.Day1Cell | train_model.py:77 | Day1 is a number iff Day2 is, and a non-negative count stays non-negative. Its direction is stated by `SyntheticTrend`. |
| TrainModel.Delta | train_model.py:78 | Delta is a number iff both counts are, and then Day1 + Delta = Day2. |
| TrainModel.Day3Cell | train_model.py:79 | Day3 is a number iff Day2 and Delta are, so a NaN platelet count gives a NaN target. |
| TrainModel.SyntheticTrend | train_model.py:74-78 | For a positive count and a volatility in [0.10, 0.25], Delta is positive iff the row was drawn as recovering and negative iff not. |
| TrainModel.WithFlags | train_model.py:43-44 | The flag loop keeps every existing column and the Symptoms column itself. |
| TrainModel.WithFlagsAdds | train_model.py:43-44 | After j iterations the flag of each of the first j keywords is computed from the Symptoms text. |
| TrainModel.WithFlagsKeeps | train_model.py:43-44 | The flag loop changes no non-flag column and adds no column other than flags. |
| TrainModel.AddFlags | train_model.py:43-44 | The in-place flag loop leaves the frame equal to `WithFlags` of its old contents for all six keywords. |
| TrainModel.FixedAgeSex | train_model.py:22-31 | After both fixers the table has Age and Sex columns. |
| TrainModel.Prepared | train_model.py:22-42 | Fixing and cleaning keep the row count. They fail only with a KeyError (missing date or symptoms column). |
| TrainModel.Cleaning | train_model.py:22-46 | Sections 0 and 1 keep the row count and fail only with a KeyError. |
| TrainModel.CleaningFails | train_model.py:38-42 | Cleaning fails iff the fixed table lacks the date column or the Symptoms column. |
| TrainModel.PreparedColumns | train_model.py:33-42 | Age, Sex, Season_Risk and Symptoms are the cleaned forms of the fixed table's columns. Every column cleaning does not write is kept. |
| TrainModel.CleaningColumns | train_model.py:43-46 | Sex_Code is the coding of the cleaned Sex. Only flag columns and Sex_Code are added. Every other column is kept. |
| TrainModel.CleaningFlags | train_model.py:43-44 | Each of the six flag columns of the cleaned table is computed from its cleaned Symptoms. |
| TrainModel.CleanTable | train_model.py:22-46 | The in-place sections 0-1 return the same error as `Cleaning`, or leave the frame equal to its result. |
| TrainModel.Labelled | train_model.py:50-55 | Labelling fails exactly when `LabError` reports an error. On success it keeps the row count and adds Dengue_Label. |
| TrainModel.LabelledColumns | train_model.py:50-55 | Dengue_Label is the per-row label of the three lab columns; every other column is kept. |
| TrainModel.AddLabel | train_model.py:50-55 | The in-place labelling returns `Labelled`'s error or leaves the frame equal to its result. |
| TrainModel.Forecasting | train_model.py:74-79 | The trajectory section keeps the row count. |
| TrainModel.ForecastingColumns | train_model.py:74-79 | Day2 copies the platelet column. Is_Recovering, Day1, Delta and Day3 are each computed from the columns before them. Every other column is kept. |
| TrainModel.AddTrajectory | train_model.py:74-79 | The in-place trajectory section leaves the frame equal to `Forecasting` of its old contents. |
| TrainModel.Training | train_model.py:22-90 | A cleaning error is the run's error. A successful run yields 11 classifier and 13 regressor columns and one target per row. `TrainingSteps`, `TrainingLabels` and `TrainingDelta` state the rest. |
| TrainModel.TrainingSteps | train_model.py:65-90 | A successful run passed cleaning and labelling. Its matrices are the zero-filled selections and its targets are the label and Day3 columns. |
| TrainModel.TrainingLabels | train_model.py:66 | The risk target is the synthetic label of the cleaned lab readings on every row. |
| TrainModel.FilledDelta | train_model.py:77-89 | After `fillna(0)`, Delta is still Day2 - Day1 on a row, including a NaN platelet count. |
| TrainModel.TrajectoryMatrixDelta | train_model.py:89 | In a regression matrix of such a table, Day2 is the platelet count (0 for NaN) and Delta = Day2 - Day1 on every row. |
| TrainModel.TrainingDelta | train_model.py:74-89 | In the matrix handed to the regressor, Day2 is the cleaned platelet count (0 for NaN) and Delta = Day2 - Day1 on every row. |
| TrainModel.Train | train_model.py:22-97 | `main`, run in place, returns exactly what the functional `Training` gives for the frame it was handed. |
| Text.Lower | train_model.py:42 | `lower()` keeps the length and leaves no upper-case letter. |
| Text.Capitalize | train_model.py:44 | `capitalize()` keeps the length, makes the first character non-lower-case and leaves no upper-case letter after it. |
| Text.Title | train_model.py:35 | `title()` keeps the length. Its relation to `capitalize` and `strip` is stated by `TitleMatchesCapitalized` and `StripTitle`. |
| Text.Strip | train_model.py:35 | `strip()` never lengthens the text and leaves no white space at either end. |
| Text.Contains | train_model.py:44 | `k in s` is true iff `k` occurs in `s` at some position. |
| Text.StripTitle | train_model.py:35 | Stripping after title-casing equals title-casing after stripping. |
| Text.TitleMatchesCapitalized | train_model.py:35 | A title-cased value equals "Male" iff the value lower-cased is "male" (for any lower-case word). |
| Frames.Table.With | train_model.py:26 | `df[name] = column` keeps the table well formed (names match columns, equal lengths). |
| Frames.Table.Renamed | train_model.py:25 | `rename` keeps the table well formed. |
| Frames.WithKeepsDistinct | train_model.py:26 | Assigning a column never duplicates a column name. |
| Frames.RenamedKeepsDistinct | train_model.py:25 | Renaming to an absent name never duplicates a column name. |
| Frames.DataFrame.Assign | train_model.py:26 | In-place assignment leaves the frame equal to `With` of its old contents. |
| Frames.DataFrame.Rename | train_model.py:25 | In-place rename leaves the frame equal to `Renamed` of its old contents. |
| Frames.Absent | train_model.py:65 | A name is reported missing iff it is listed and has no column. |
| Frames.Select | train_model.py:65 | `df[features]` succeeds iff every listed name is a column. It then gives the listed columns in list order; otherwise it raises a KeyError naming only missing names. |
| Frames.FillZeroCell | train_model.py:65 | `fillna(0)` turns NaN into 0 and keeps every other cell. |
| Frames.FillZero | train_model.py:65 | `.fillna(0)` on selected columns keeps names and lengths, turns each NaN into 0 and keeps every other cell. |
| Frames.Matrix | train_model.py:65 | `df[features].fillna(0)` fails iff a name is missing. Otherwise column i is feature i with each cell zero-filled. |
| Frames.Fill | app.py:112 | A broadcast scalar gives `rows` copies of the value. |
| Frames.FillOne | app.py:112 | On a one-row frame a broadcast scalar is the one-cell column. |
| Frames.RecordTable | app.py:111 | `pd.DataFrame([dict])` is a well-formed one-row table. |
| Frames.RecordTableColumns | app.py:111 | With distinct keys, each key's column holds that key's value. |
| Frames.RecordTableNames | app.py:111 | With distinct keys, the columns are the keys in insertion order. |
| Frames.RecordTableAppend | app.py:112-113 | Assigning a new scalar column to the one-row frame is the frame of the dict extended by that item. |
| App.SeasonScore | app.py:37-43 | The dashboard's season score lies in 0..3. |
| App.SeasonScoreAgrees | app.py:37-43 | The dashboard scores every month as training's `get_season` does, and the Season_Risk cell it feeds equals training's for that month. |
| App.PyIndex | app.py:102 | Python list indexing succeeds iff -len <= i < len, and a non-negative index picks that element. |
| App.LabelIndex | app.py:102 | The guarded index is at most 3, and within the four names for any non-negative score. |
| App.SeasonName | app.py:102 | A score from 0 to 3 shows its own name, and any score of 3 or more shows "Monsoon (High)". |
| App.SeasonNameOfMonth | app.py:102 | For every month the guarded index is in range and equals the score. The caption is the score's name, and "Monsoon (High)" iff the score is 3. |
| App.SeasonNameGuard | app.py:102 | Any score of 3 or more reads "Monsoon (High)", and the lookup succeeds iff the score is at least -4. |
| App.Bit | app.py:69-70 | `int(flag)` is 0 or 1, and 1 iff the box is ticked. |
| App.SexBit | app.py:66 | The form's Sex_Code is 0 or 1, and 1 iff "Male" is selected. |
| App.PatientRecord | app.py:65-71 | The form's dict has 9 items, all numeric. Their keys and order are used by `RiskPicked`, `ForecastPicked` and the vector lemmas. |
| App.SexBitAgrees | app.py:66 | For both selections, the form's Sex_Code equals training's cleaning and coding of the same Sex value. |
| App.SelectionStripped | app.py:50 | The form's two choices have no white space to strip. |
| App.ZeroFilled | app.py:115-116 | The zero-fill loop keeps the table well formed and its row count. |
| App.ZeroFilledColumns | app.py:115-116 | After the loop, the columns are the old ones plus the listed names. Old columns are unchanged and added ones are all zeros. |
| App.Aligned | app.py:115-117 | The aligned vector has one entry per listed name, in order. Each entry is the frame's column if present, zeros otherwise. |
| App.AlignedBySelect | app.py:115-117 | After the loop, `input_df[features]` never raises and yields the aligned vector. |
| App.AlignTo | app.py:115-117 | The in-place loop and selection return the aligned vector of the frame's old contents and leave the frame zero-filled. |
| App.AlignedRecord | app.py:111-117 | Aligning a dict's frame to a list naming only its keys gives each listed key's value. |
| App.RecordCovers | app.py:111-117 | A dict's frame has a column for exactly the listed names when keys and names correspond both ways. |
| App.RiskRecord | app.py:111-113 | The risk frame's dict has 11 numeric items. `RiskKeysDistinct` and `RiskCoverage` state its keys. |
| App.RiskRecordBuilt | app.py:111-113 | The frame built from the form plus the platelet and season columns is the frame of the extended dict. |
| App.RiskVector | app.py:111-117 | The risk view's input is the aligned vector of the extended dict's frame, with the season scored from the chosen month. |
| App.RiskKeysDistinct | app.py:65-71 | The risk dict's 11 keys are distinct. |
| App.RiskOrderMatches | app.py:111-117 | Every classifier feature is a key of the risk dict, and every key is a classifier feature. |
| App.RiskPicked | app.py:115-117 | Each entry of the classifier's vector is the risk dict's value for that feature. |
| App.RiskCoverage | app.py:111-116 | The risk frame has a column for exactly the classifier's features, so no name is zero-filled and no input is dropped. |
| App.RiskAlignedLabs | app.py:111-117 | The classifier's vector starts with the platelet count, haemoglobin, RBC, hematocrit and age from the form. |
| App.RiskAlignedFlags | app.py:111-117 | It continues with Sex_Code, the four symptom checkboxes and the season score. |
| App.Velocity | app.py:142 | Yesterday's count plus the velocity is today's count. |
| App.ForecastRecord | app.py:148-152 | The forecast frame's dict has 13 numeric items. `ForecastKeysDistinct` and `ForecastCoverage` state its keys. |
| App.ForecastKeysDistinct | app.py:148-152 | The forecast dict's 13 keys are distinct. |
| App.ForecastRecordBuilt | app.py:148-152 | The frame built from the form plus the two counts, velocity and season is the frame of the extended dict. |
| App.ForecastVector | app.py:148-156 | The forecast view's input is the aligned vector of the extended dict's frame, with the season scored from the chosen month. |
| App.ForecastOrderMatches | app.py:148-156 | Every regressor feature is a key of the forecast dict, and every key is a regressor feature. |
| App.ForecastCoverage | app.py:148-155 | The forecast frame has a column for exactly the regressor's features, so no name is zero-filled and no input is dropped. |
| App.ForecastPicked | app.py:154-156 | Each entry of the regressor's vector is the forecast dict's value for that feature. |
| App.ForecastAlignedCounts | app.py:148-156 | The regressor's vector starts with Day1 = yesterday, Day2 = today and Delta = velocity, and ends with the season score. |
| App.ForecastAlignedLabs | app.py:148-156 | Entries 3-6 are haemoglobin, RBC, hematocrit and age from the form. |
| App.ForecastAlignedFlags | app.py:148-156 | Entries 7-11 are Sex_Code and the Fever, Vomit, Pain and Headache checkboxes, in the regressor's order. |
| App.ForecastDeltaAgrees | app.py:149-151 | In the forecast vector, Delta_Day1_Day2 is Day2 - Day1 by training's own definition of the column. |
| App.ForecastStatus | app.py:163-165 | The status shown for a prediction. Its contract is stated by `StatusCases`. |
| App.StatusCases | app.py:163-165 | Critical iff the prediction is below 20000. Declining iff it is at least 20000 and below today's count. Recovering iff it is at least 20000 and at least today's count. |
| App.TrendColour | app.py:169 | The colour of the trend line. Its contract is stated by `TrendColourRule`. |
| App.TrendColourRule | app.py:169 | The line is red iff the prediction is below today's count and green otherwise. Declining is always red and Recovering always green. |
| App.CriticalCanBeGreen | app.py:163-169 | A Critical prediction above an even lower count of today is drawn green. |

## Left out

- Reading the CSV file, `FileNotFoundError` and the early all-`None` return of `main` are I/O and are not modelled. `Train` starts from a loaded frame.
- Printing, progress messages and all Streamlit widgets, layout, session state and page switching are not modelled. The widget values are the parameters of `RiskVector` and `ForecastVector`.
- `load_ai_engine`'s catch-all `except` is not modelled.
- Model fitting and prediction (`train_test_split`, `RandomForestClassifier`, `GradientBoostingRegressor`, `predict`, `predict_proba`) are opaque library code. `Train` returns the matrices and targets `main` hands to fitting. `ForecastStatus` and `TrendColour` take the prediction as a parameter.
- TrainModel.Training: an `Ok` result means `main` reached model fitting, not that fitting succeeds. Several inputs make the library code raise, and `load_ai_engine`'s catch-all then reports the models as missing:
  - a NaN platelet count makes that row's Day3 target NaN, and `regressor.fit` rejects it when that row lands in the training split;
  - text in a selected column other than the three lab columns (RBC, say) survives `fillna(0)`, and `classifier.fit` rejects it;
  - a table with fewer than two rows makes `train_test_split` raise.

  These failures are not modelled.
- The confidence percentages and the trajectory plot are display only; only the line colour is modelled.
- `pd.to_datetime(..., dayfirst=True)` is a parameter `monthOf` giving each cell's month or `None` (NaT). The `Date_Obj` column it creates is not stored: Season_Risk is computed from the same months.
- `pd.to_numeric` on text is a parameter `parse`.
- The random draws (`Is_Recovering`, volatility, noise) are a parameter `Draws`. `DrawsFit` asks for volatilities in the closed range [0.10, 0.25], a superset of what `np.random.uniform` draws.
- float64 and int64 values are idealised as exact reals. Rounding, overflow and the int/float dtype distinction are not modelled.
- Case mapping covers ASCII letters only. Non-ASCII letters are treated as uncased.
- TrainModel.AsStr: a number's text is approximated as its integer part followed by ".0", which has no letters. Python's own text can contain letters: scientific notation such as `1e-05` or `1e+16`, and `inf`. Those letters (`e`, `i`, `n`, `f`) cannot spell "Male" after `title()` or any symptom keyword after `lower()`, so Sex_Code and the flags are as modelled. The exact float formatting is not modelled.
- The widget bounds (age 0-100, counts 0-1000000, lab ranges) are not enforced. The lemmas hold for every value.
- App.RiskVector and App.ForecastVector take the feature list as a parameter, as `load_ai_engine` supplies it. The lemmas about the vectors are stated for `clf_features` and `reg_features`, which `main` returns.
- Month is the type 1..12, since `date.month` is always a calendar month. `get_season`'s handling of other numbers is proved by `TrainModel.SeasonOfMonth`.
