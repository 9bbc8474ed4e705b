# Service-ticket resolution-time predictor, modelled in Dafny

This project models the logic of a small demo web service. The service predicts how many hours a service ticket will take to resolve and shows the result as text. It models three pieces:

- **`format_time`** (module `TimeFormat`, with `Decimal` for integer text). It turns a number of hours into "N minutes", "N hours" or "N day(s) [M hour(s)]". `Classify` makes the numeric decisions: branch, truncation, day/remainder split and plural choice. `Render` writes them out. `Parse` reads the whole-number forms back, which proves the text carries exactly what `Classify` decided.
- **The argument handling of `/api/predict`** (module `RequestCheck`). The four required keys are checked in a fixed order, and the first missing one is reported. The numeric fields are then converted, and the two optional ones default to 0.
- **`ServiceRequestPredictor`** (modules `Tickets`, `LabelEncoder`, `SampleData`, `ResolutionModel`). It covers:
  - the synthetic training table and its label formula;
  - label encoders that are fitted once, with a fixed fallback code for unseen values;
  - the six-column feature layout;
  - training, saving and loading;
  - the lazy load-or-train step before a prediction;
  - the 0.5-hour floor on every prediction.

  The regressor is a value of an abstract type `M`. Its fitting and its prediction are function parameters (`fit`, `run`). What `load_model` finds on disk is an input (`Disk`), and the random draws of `generate_sample_data` are inputs (`Draw`).

All quantities are exact (`real`, `int`). Python floats are not modelled.

## Model

| member | source | states |
|---|---|---|
| Decimal.ParseIntText | main.py:15 | The decimal text `str(int(x))` writes for any integer reads back as that integer. |
| TimeFormat.Trunc | main.py:15 | `int()` truncates toward zero. For x ≥ 0 the result is the largest whole number not above x. For x < 0 it is the smallest whole number not below x. |
| TimeFormat.DaySplit | main.py:19-20 | `hours // 24` and `hours % 24` give a day count and a remainder in [0, 24) with 24·days + remainder = hours. |
| TimeFormat.DaySplitUnique | main.py:19-20 | That day/remainder pair is the only one with the remainder in [0, 24). |
| TimeFormat.Classify | main.py:12-24 | Below 1 hour: minutes, counting `int(hours*60)`, which lies in [0, 60) and is at most hours·60 for 0 ≤ hours < 1. From 1 to 24 hours: a whole count exactly when hours is whole. From 24 hours on: days ≥ 1. The hour part is dropped exactly when the remainder is below 1. In the minutes form for hours ≥ 0, and in the days form, the shown values never exceed the input and miss it by less than one unit. The day noun is plural iff days > 1. The hour noun is plural iff the real remainder is > 1. |
| TimeFormat.FormatTime | main.py:17 | A non-whole value between 1 and 24 is rendered by the one-decimal formatter followed by " hours". |
| TimeFormat.ParseRender | main.py:15-24 | Every whole-number form (minutes, hours, days with or without an hour part) reads back as itself, plural choices included. |
| TimeFormat.FormatTimeReadsBack | main.py:12-24 | Apart from fractional hours, the text `format_time` returns reads back as exactly the form `Classify` chose. So every property of `Classify` holds of the text. |
| TimeFormat.OneHourIsPlural | main.py:16-17 | 1.0 hours renders as "1 hours". |
| TimeFormat.WholeHoursAlwaysPlural | main.py:16-17 | Every whole number of hours n from 1 to 23 renders as the decimal text of n followed by " hours": the noun is plural even for 1. |
| TimeFormat.RemainderPluralFollowsReal | main.py:24 | 25.5 hours renders as "1 day 1 hours". The hour noun follows the real remainder 1.5, not the shown 1. |
| TimeFormat.WholeDaysOnly | main.py:21-22 | 48.5 hours renders as "2 days": a remainder under 1 hour leaves no hour part. |
| RequestCheck.FirstMissing | main.py:385-388 | Returns the position of the first field absent from the request. Every earlier field is present. The position equals the field count when all are present. |
| RequestCheck.CheckRequest | main.py:385-397 | A missing-field error is returned iff some required key is absent. It names the first absent key in the order category, priority, assigned_team, complexity_score. Conversions run only when all four keys are present, in argument order. A call is made iff every key is present and every conversion succeeds. It carries the request's values, with age and interactions 0 when absent. |
| Tickets.AtLeastMin | prediction_model.py:73 | `max(x, 0.5)` is never below 0.5 and equals x whenever x ≥ 0.5. |
| LabelEncoder.Fit | prediction_model.py:83-85 | The fitted classes are strictly ascending, hence distinct. They are exactly the values that occur in the column. |
| LabelEncoder.Transform | prediction_model.py:90 | `transform` succeeds iff every value of the column is a class. On success it gives one code per row, and each code indexes the row's own value among the classes. |
| LabelEncoder.EncodeOr | prediction_model.py:89-102 | A fully known column gets its class codes. A column with any unseen value gets the fallback in every row. |
| LabelEncoder.InverseOfTransform | prediction_model.py:90 | Decoding the codes of a known column gives the column back. |
| LabelEncoder.TransformOfInverse | prediction_model.py:83-85 | Encoding the classes that valid codes stand for gives those codes back, so codes and classes correspond one to one. |
| LabelEncoder.CodesFollowOrder | prediction_model.py:83-85 | One value's code is below another's iff it sorts below it. |
| SampleData.Generate | prediction_model.py:25-75 | One row per draw. Categoricals come only from the fixed lists. Numerics are copied from the draws. Every label is ≥ 0.5 and equals the noise-free formula plus the noise whenever that sum is ≥ 0.5. |
| SampleData.PriorityOrdersLabel | prediction_model.py:45-68 | With the other inputs fixed, the noise-free label strictly increases from Critical to High to Medium to Low. |
| ResolutionModel.FitAll | prediction_model.py:82-86 | All three encoders are fitted, each on its own column. |
| ResolutionModel.EncodeRows | prediction_model.py:87-114 | One feature row per ticket. Columns come in the fixed order: category, priority and team codes, then complexity, age, interactions. Each categorical column falls back on its own: 0 for category, 1 for priority, 0 for team. |
| ResolutionModel.PrepareFeatures | prediction_model.py:77-114 | Afterwards the flag is set and the model is untouched. Fitted encoders are never changed. When the flag was unset, the encoders are fitted on the tickets and nothing falls back. The rows are always the tickets encoded with the resulting encoders. |
| ResolutionModel.Train | prediction_model.py:116-151 | Training succeeds iff the table has at least two rows. Either way the encoders are fitted afterwards: kept when already fitted, else fitted on the table. On success a model is present, and it is the one fitted on the table as encoded by the final encoders. The disk then holds exactly that model and those encoders. With fewer than two rows the split raises after the encoding: no model is assigned and the disk is untouched. |
| ResolutionModel.Load | prediction_model.py:191-205 | Reports success iff both files were read. Success restores the model and encoders and sets the fitted flag. Failure never raises. It keeps the encoders and the flag, and keeps a model read before the failure. |
| ResolutionModel.EnsureModel | prediction_model.py:156-160 | Afterwards a model is present. An existing model means nothing happens. With no model, loading is tried first and nothing is trained when it succeeds. Only when loading fails is a model trained on the generated table, and that model is saved. |
| ResolutionModel.Predict | prediction_model.py:153-178 | The result is ≥ 0.5. It equals the regressor's output on the ticket's encoding (unseen values take the fallback codes) whenever that output is ≥ 0.5. Afterwards a model is present and the encoders are fitted. A ready predictor is left unchanged. |
| ResolutionModel.SingleRowEncoding | prediction_model.py:163-173 | The one-row table built from a ticket encodes each column to its class code, or to the fallback when that value was never fitted. |
| ResolutionModel.PredictDefaultsToZero | prediction_model.py:153-154 | A ticket given without age or interactions is predicted as one with both 0: the result is at least 0.5 and equals the regressor's output on that encoding whenever it is at least 0.5. |
| ResolutionModel.SaveLoadRoundTrip | prediction_model.py:180-205 | Loading what a ready predictor saved restores exactly that predictor, into any instance. |
| ResolutionModel.RestoredPredictsAlike | prediction_model.py:153-205 | A new instance that loads the saved files predicts exactly what the saved predictor predicts. |
| ResolutionModel.PredictRepeatable | prediction_model.py:153-178 | A second identical call returns the same hours and leaves the state and the disk as the first call left them. |
| ResolutionModel.CodesStableAcrossCalls | prediction_model.py:82-102 | After the first call the encoders no longer change. In each of the three categorical columns, a value keeps the code it had in the earlier call whenever both calls encode that column without falling back. |
| ResolutionModel.FirstPredictionTrains | prediction_model.py:17-23 | On a newly constructed predictor with no saved files, the first prediction trains. The encoders end up fitted on the generated table, and the disk then holds the trained model with those encoders. |
| ResolutionModel.UnseenCategoryFallsBack | prediction_model.py:89-92 | Once fitted, a single unseen category sends the whole category column to code 0. |
| ResolutionModel.ColumnsIndependent | prediction_model.py:82-102 | Two tables that agree on a categorical column get the same codes in it, whatever the other columns hold. This holds while fitting and after. |

## Left out

- The Flask routes, the HTML page, `/api/hello` and `main` (main.py:27-375, 399-428) are left out. They are I/O and UI.
- The response built after the prediction (main.py:400-407) is left out. It is JSON plumbing. So is the generic 500 answer when `request.json` is not a JSON object.
- The float arithmetic is not modelled: all numbers are exact reals, so rounding in `hours * 60`, `hours // 24` and `hours % 24` is absent. NaN and infinity are not modelled either.
- TimeFormat.FormatTime: `f"{hours:.1f}"` is the parameter `oneDecimal`. Its text is not modelled, so `Parse` covers only the whole-number forms.
- RequestCheck.CheckRequest: Python's `float(...)` and `int(...)` on a JSON value are the parameters `toFloat` and `toInt`. The exception text of a failed conversion is reduced to the field it came from.
- The random draws of `generate_sample_data` are inputs: the seed, the uniform choices and the Gaussian noise (prediction_model.py:27-40, 69). The model only requires that the categorical draws index the fixed lists.
- The label encoder's classes are modelled as strings in ascending code-point order, as the library sorts them. Non-string values in a categorical column are not modelled.
- The forest regressor's fitting, with `train_test_split`, is the abstract `fit`, and its prediction is `run`. The library's scoring is not modelled.
- ResolutionModel.Train: it does not return the two R² scores, which are library diagnostics that only get printed. The failed split is reported as `ok = false` rather than as an exception. `fit` is total on every table of at least two rows.
- The joblib file formats, `os.path.exists`, and write failures in `save_model` are left out. They are persistence; only what `load_model` ends up with is modelled (`Disk`).
- ResolutionModel.Load: a dictionary in the encoders file that lacks a key is not modelled. Loading would fail after replacing only some encoders. When the flag was unset it stays unset, and the training `predict` then runs refits all three. When it was already set, the partly replaced encoders stay in use. Only `save_model` writes this file, and it always writes all three keys.
- `print` logging is left out. So is the module-level predictor with its training at import time (prediction_model.py:208-214).
- setup.py is packaging metadata, with no logic.
- Whether a Critical ticket gets a smaller prediction than a Low one depends on the trained regressor. Only the ordering of the synthetic label formula is proved (`SampleData.PriorityOrdersLabel`).
- ResolutionModel.Load: when the model file reads but the encoders file then fails (prediction_model.py:195-196, 203-205), the model that was read stays in memory, and `Load` keeps it. The failure is still reported as `false`.
