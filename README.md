# Loan approval pipeline — a Dafny model

This project models the core of the Loan-Approval repository, which has three stages:

- **Data transformation.** Drop the label (and, for the training frame, the record id). Fit a label encoder on the training labels and apply it to the test labels. Fit a column transformer on the training inputs only: median imputation and standard scaling for five numeric columns, and most-frequent imputation with a one-hot encoder that ignores unknown values for six categorical columns. Append each record's label code as the last column, and pickle the fitted transformer to `artifacts/preprocessor.pkl`.
- **Model training.** Split each array back into features and label. Tune, refit and score a fixed menu of seven classifiers. Keep the first best test accuracy found by a strict `>` scan that starts from 0. Refuse a best score under 0.6. Pickle the winner to `artifacts/model.pkl` and return its test accuracy and classification report.
- **Serving.** The prediction endpoint encodes a loan request into an eleven-slot feature vector and answers "Approved" or "Rejected" by the classifier's first prediction.

The modules, in dependency order:

- `Errors`: `Result`/`Option`, for the exceptions each step can raise.
- `Arrays`: numpy's `np.c_` and `[:, :-1]` / `[:, -1]`.
- `Categories`: the sorted vocabularies of scikit-learn's encoders, and the most-frequent value.
- `Artifacts`: the artifact directory and the keyword binding of `save_object`.
- `Estimators`: estimator instances, and the library calls as a `Library` value.
- `Evaluation`: `evaluate_models`.
- `ModelTraining`: `ModelTrainer`.
- `DataTransformation`: `DataTransformation`.
- `Serving`: the FastAPI endpoint.

Code that updates objects is modelled as classes with methods:

- `Estimator`, with `set_params` and `fit`.
- `LabelEncoder`.
- The column transformer (`Preprocessor`).
- `ArtifactStore`.
- `ModelTrainer` and `DataTransformation`.

Loops are `while`/`for` loops with invariants. Each such method is proved against a function that specifies the whole run (`Evaluate`, `TrainingOn`, `Training`, `Transformation`), and the lemmas state what the source promises about those functions.

The library's own numerics are parameters: grid search, fitting, prediction, `accuracy_score`, `classification_report`, and the median/scaling statistics. The model proves what the pipeline does with their results.

## Model

| member | source | states |
|---|---|---|
| Arrays.AppendColumn | src/components/data_transformation.py:94-95 | `np.c_` succeeds exactly when the row counts agree; each row is the feature row followed by its label, and the width grows by one |
| Arrays.DropLastColumn | src/components/model_trainer.py:40 | `[:, :-1]` keeps the row count and each row's prefix, one column narrower |
| Arrays.LastColumn | src/components/model_trainer.py:41 | `[:, -1]` raises exactly when there is no column; otherwise entry i is the last cell of row i |
| Arrays.SplitFeaturesLabel | src/components/model_trainer.py:39-44 | the `X, y` split succeeds exactly when the array has a column; X is one column narrower and has as many rows as y |
| Arrays.SplitAfterAppend | src/components/model_trainer.py:39-44 | splitting an array built by `np.c_[features, labels]` gives back exactly those features and labels |
| Arrays.AppendAfterSplit | src/components/data_transformation.py:94-95 | appending the split-off label column rebuilds the array |
| Categories.LessIrreflexive | src/components/data_transformation.py:84 | Python string order, which sorts `classes_`, is irreflexive |
| Categories.LessTransitive | src/components/data_transformation.py:84 | Python string order is transitive |
| Categories.LessTotal | src/components/data_transformation.py:84 | any two distinct strings are ordered |
| Categories.LessAsymmetric | src/components/data_transformation.py:84 | Python string order is asymmetric |
| Categories.CardinalityOfStrictSubset | src/components/data_transformation.py:84 | a proper subset of a vocabulary is smaller (helper for positions) |
| Categories.RankBelowSize | src/components/data_transformation.py:84 | a known value's position in the sorted classes is below the number of classes |
| Categories.RankStrictlyMonotone | src/components/data_transformation.py:84 | positions in the sorted vocabulary follow string order |
| Categories.RankInjective | src/components/data_transformation.py:84 | distinct known values get distinct positions |
| Categories.OneHot | src/components/data_transformation.py:45 | a block as wide as the vocabulary: a single 1 at the sorted position of a known value, all zeros for an unknown one (`handle_unknown='ignore'`) |
| Categories.OneHotDistinguishes | src/components/data_transformation.py:45 | one-hot blocks of a known value are shared by no other value |
| Categories.BestOf | src/components/data_transformation.py:44 | the chosen candidate is preferred to every other candidate: a higher count, or an equal count and the smaller string |
| Categories.PreferredTransitiveFrom | src/components/data_transformation.py:44 | "preferred as most frequent" is transitive (helper) |
| Categories.PreferredTotal | src/components/data_transformation.py:44 | of two distinct values one is preferred (helper) |
| Categories.MostFrequent | src/components/data_transformation.py:44 | no imputation value exactly when the column has no value; otherwise it is a most frequent value, the smallest one on a tie |
| Categories.MostFrequentUnique | src/components/data_transformation.py:44 | the most frequent value is unique, so the imputer's choice is determined by the training column |
| Artifacts.ArtifactStore.constructor | src/utils.py:6-29 | the artifact directory starts empty |
| Artifacts.ArtifactStore.Save | src/utils.py:6-29 | `save_object` overwrites the object at its path, leaves every other path alone, and a later load returns that object |
| Artifacts.ArtifactStore.Load | api/main.py:9-10 | `pickle.load` succeeds exactly when something was saved at the path |
| Artifacts.IndexOf | src/utils.py:6 | the position returned holds the keyword |
| Artifacts.BindKeywords | src/utils.py:6 | a keyword-only call binds exactly when every keyword names a parameter and every parameter is supplied; each parameter is bound to the position of its keyword |
| Artifacts.SaveObjectCallAsWritten | src/components/model_trainer.py:107-110 | the trainer's call with `obj=` raises TypeError, because `save_object` has no parameter `obj` |
| Artifacts.SaveObjectCallCorrected | src/components/data_transformation.py:99-102 | the call with `object=` binds the path and the object to the intended parameters |
| Estimators.Predict | src/evaluate.py:88-89 | predicting with an unfitted instance raises; a fitted one predicts with its fitted model |
| Estimators.Estimator.constructor | src/components/model_trainer.py:45-53 | a fresh instance has its class, its explicit parameters, and no fit |
| Estimators.Estimator.SetParams | src/evaluate.py:82 | `set_params` overrides exactly the given parameters and keeps the fit |
| Estimators.Estimator.Fit | src/evaluate.py:85 | `fit` succeeds exactly when the library does not raise; the instance is then the model of its class and parameters fitted on exactly these rows; on failure the old fit stays |
| Evaluation.GridFor | src/evaluate.py:73 | `params.get(model_name, {})`: the named grid when there is one, the empty grid otherwise |
| Evaluation.Tune | src/evaluate.py:73-95 | an iteration succeeds exactly when the grid search, the refit, the train and test predictions and both accuracy scores succeed; a successful iteration's parameters are the old ones overridden by the grid search's best parameters, found on the training split with 3 folds; the refit uses the whole training split, and the two scores are the accuracies of the train and test predictions |
| Evaluation.Outcomes | src/evaluate.py:71 | one outcome per menu entry |
| Evaluation.Gather | src/evaluate.py:70-98 | a report after n iterations has n entries and n states |
| Evaluation.Evaluate | src/evaluate.py:69-102 | a successful evaluation reports every candidate and updates every instance |
| Evaluation.GatherIsPointwise | src/evaluate.py:71-98 | the loop succeeds exactly when every iteration does; entry j and state j then come from iteration j alone |
| Evaluation.GatherFailsAtFirstFailure | src/evaluate.py:101-102 | the loop raises the error of its first failing iteration |
| Evaluation.EvaluateIsPointwise | src/evaluate.py:69-100 | evaluation succeeds exactly when each candidate's tuning does; the report names each candidate with its own test score; candidates do not influence each other |
| Evaluation.EvaluateFailsAtFirstFailure | src/evaluate.py:101-102 | the first candidate whose tuning raises decides the error, and no partial report is returned |
| Evaluation.TuningIgnoresTestSplit | src/evaluate.py:76-85 | grid search and refit see the training split only: two evaluations that differ in the test split leave the instances in the same states (with fitting modelled as deterministic, see "Left out") |
| Evaluation.EvaluateReadsMenuGrids | src/evaluate.py:73 | only the grids of the menu's names matter |
| Evaluation.MissingGridIsEmptyGrid | src/evaluate.py:73 | a name without a grid is tuned as if its grid were `{}` |
| Evaluation.TuneInstance | src/evaluate.py:73-95 | the loop body on an instance returns what `Tune` returns for it and leaves the instance in the tuned state |
| Evaluation.TuneNext | src/evaluate.py:71-98 | one iteration extends the report and the states as `Gather` does, touches only its own instance, or returns the failure that aborts the whole loop |
| Evaluation.EvaluateModels | src/evaluate.py:69-102 | `evaluate_models` returns the report of `Evaluate` or its failure, and on success leaves every instance in the state `Evaluate` gives it |
| ModelTraining.RunningBest | src/components/model_trainer.py:92-98 | after any prefix of the report the running best is non-negative and no smaller than any score seen |
| ModelTraining.Select | src/components/model_trainer.py:92-98 | the scan's best bounds every score, and a chosen name belongs to an entry whose score is the best |
| ModelTraining.FirstMaximumUnique | src/components/model_trainer.py:92-98 | a report has at most one first maximum |
| ModelTraining.RunningBestIsFirstMaximum | src/components/model_trainer.py:92-98 | on every prefix the scan's best is non-negative and bounds every score seen; no name exactly when no score is positive; otherwise the name and score of the first maximum |
| ModelTraining.SelectIsFirstMaximum | src/components/model_trainer.py:92-98 | over the whole report: a name is chosen exactly when some score is positive, and it is the first entry with the highest score |
| ModelTraining.GatePassedHasName | src/components/model_trainer.py:100-103 | a best score that passes the 0.6 gate always comes with a model name |
| ModelTraining.PickBest | src/components/model_trainer.py:92-98 | the scan loop computes `Select`: no name exactly when no score is positive, otherwise the first maximum and its score |
| ModelTraining.Subscript | src/components/model_trainer.py:95 | subscripting a float raises; subscripting a dict succeeds exactly when the key is there |
| ModelTraining.ScanAsWritten | src/components/model_trainer.py:92-98 | the scan as written succeeds exactly when every value is a dict that has an 'accuracy' key |
| ModelTraining.AsPython | src/evaluate.py:98 | the report `evaluate_models` returns maps each name to a bare float |
| ModelTraining.ScanAsWrittenFailsOnEveryReport | src/components/model_trainer.py:94-95 | as written, `metrics['accuracy']` raises on the first entry of any non-empty report |
| ModelTraining.ParamGrids | src/components/model_trainer.py:54-85 | seven grids; logistic regression's grid is empty, and every listed parameter has at least one candidate value |
| ModelTraining.InitialCandidates | src/components/model_trainer.py:45-53 | seven candidates, all unfitted |
| ModelTraining.EveryCandidateHasItsGrid | src/components/model_trainer.py:45-85 | every menu name has a grid |
| ModelTraining.GridsCoverExactlyTheMenu | src/components/model_trainer.py:45-85 | the grids are keyed by exactly the menu names |
| ModelTraining.MenuNamesDistinct | src/components/model_trainer.py:45-53 | the seven menu names are distinct |
| ModelTraining.Names | src/components/model_trainer.py:45-53 | the dict's keys in insertion order |
| ModelTraining.Lookup | src/components/model_trainer.py:103 | `models[best_model_name]` finds the first entry with that name; `None` or an unknown name raises KeyError |
| ModelTraining.Score | src/components/model_trainer.py:112-117 | succeeds exactly when predict, `accuracy_score` and `classification_report` do; the returned accuracy and report are those of the winner's predictions on the test split |
| ModelTraining.TrainingOn | src/components/model_trainer.py:87-120 | a run that saves nothing raises; an evaluation failure aborts the run before anything is saved; a saved winner is what the run scores on the test split |
| ModelTraining.Training | src/components/model_trainer.py:36-120 | a run that saves nothing raises; on arrays with a column, the run is `TrainingOn` of the features `[:, :-1]` and the labels `[:, -1]` |
| ModelTraining.TrainingNeedsALabelColumn | src/components/model_trainer.py:39-44 | an array without a column makes the run raise before anything is saved |
| ModelTraining.TrainingOnAssembledArrays | src/components/model_trainer.py:39-44 | on arrays assembled as features then label, the trainer evaluates exactly those features and labels |
| ModelTraining.LookupFindsWinner | src/components/model_trainer.py:103 | with distinct names, `models[best_model_name]` is the instance at the first maximum of the report |
| ModelTraining.GateDecidesPersistence | src/components/model_trainer.py:100-110 | a model is persisted exactly when the evaluation succeeds and the best score is at least 0.6 |
| ModelTraining.PersistedIsRefitWinner | src/components/model_trainer.py:103-110 | the persisted object is the winner as the evaluation left it: tuned and refitted on the training split |
| ModelTraining.ReturnedAccuracyIsBestScore | src/components/model_trainer.py:112-117 | a successful run returns the report's best score, which is at least 0.6, and has persisted a model |
| ModelTraining.BuildMenu | src/components/model_trainer.py:45-53 | seven fresh, distinct instances that match the menu's candidates |
| ModelTraining.ModelTrainer.constructor | src/components/model_trainer.py:27 | the model path is `artifacts/model.pkl` |
| ModelTraining.ModelTrainer.InitiateModelTrainer | src/components/model_trainer.py:36-120 | returns or raises what `Training` says, and writes the model path exactly when `Training` persists a model, with that model |
| ModelTraining.ModelTrainer.TrainOn | src/components/model_trainer.py:87-117 | after the split: the result of `TrainingOn`, with the store written exactly when a model is persisted |
| ModelTraining.ModelTrainer.PersistAndScore | src/components/model_trainer.py:107-117 | saves the winner at the model path, then returns its test accuracy and report |
| DataTransformation.ColumnCells | src/components/data_transformation.py:78 | one cell per record, NaN where the record has no entry |
| DataTransformation.Drop | src/components/data_transformation.py:77 | `drop` succeeds exactly when every name is a column; it keeps the records and removes exactly those names |
| DataTransformation.Column | src/components/data_transformation.py:78 | `df[name]` succeeds exactly when the name is a column |
| DataTransformation.ColumnsPartition | src/components/data_transformation.py:33-34 | eleven distinct feature columns, none of them the label or the id |
| DataTransformation.LabelValues | src/components/data_transformation.py:84 | labels are read exactly when all are strings |
| DataTransformation.ClassesOf | src/components/data_transformation.py:84 | `classes_` is exactly the set of labels seen |
| DataTransformation.EncodeLabels | src/components/data_transformation.py:85 | encoding succeeds exactly when every label is a known class; each code is the label's position in the sorted classes, in `[0, number of classes)` |
| DataTransformation.LabelCodesDistinguish | src/components/data_transformation.py:84-85 | equal codes mean equal labels, so the encoding can be inverted |
| DataTransformation.FitLabels | src/components/data_transformation.py:84 | `fit_transform` learns the classes of the labels and encodes them with those classes |
| DataTransformation.LabelsWith | src/components/data_transformation.py:85 | `transform` succeeds exactly when each label is a string among the classes, and codes each one by its sorted position |
| DataTransformation.LabelEncoder.constructor | src/components/data_transformation.py:15 | a new encoder has no classes |
| DataTransformation.LabelEncoder.FitTransform | src/components/data_transformation.py:84 | on success the encoder's classes are those learned, and the result is the codes; on failure the classes are unchanged |
| DataTransformation.LabelEncoder.Transform | src/components/data_transformation.py:85 | raises before a fit; otherwise encodes with the frozen classes |
| DataTransformation.CategoryValues | src/components/data_transformation.py:43-46 | the column's non-missing values, read exactly when no cell is numeric, each as often as it occurs in the column |
| DataTransformation.CategoryValuesCounts | src/components/data_transformation.py:44 | each value occurs among the values the imputer counts exactly as often as in the column, so the most frequent value is counted on the column itself |
| DataTransformation.FitCategory | src/components/data_transformation.py:43-46 | a categorical column can be fitted exactly when no cell is numeric |
| DataTransformation.FitCategoryMeaning | src/components/data_transformation.py:44-45 | the vocabulary is every value seen; the imputation value lies in the vocabulary and is the most frequent value; there is none only when the column is all NaN |
| DataTransformation.Learn | src/components/data_transformation.py:52-55 | a fit succeeds exactly when the selected columns are there, there is a row, the numeric pipeline does not raise and every categorical column can be fitted; numeric columns keep their training cells; each categorical column gets its own fit |
| DataTransformation.CategoryBlock | src/components/data_transformation.py:43-46 | a categorical cell encodes exactly when it is not numeric, to a block as wide as its vocabulary |
| DataTransformation.CategoricalBlocks | src/components/data_transformation.py:52-55 | the blocks of the first n categorical columns encode exactly when none of those cells is numeric, and their width is the sum of the vocabulary sizes |
| DataTransformation.NumericBlock | src/components/data_transformation.py:37-40 | each numeric value is scaled with statistics from its own training column only |
| DataTransformation.NumericFailure | src/components/data_transformation.py:37-40 | the numeric pipeline's transform raises on a record exactly when it raises on one of its five numeric cells, and the error is that cell's |
| DataTransformation.EncodeRow | src/components/data_transformation.py:52-55 | a record encodes exactly when the numeric pipeline accepts each numeric cell and no categorical cell is numeric; the numeric values come first and the total width is fixed by the fit |
| DataTransformation.EncodeRows | src/components/data_transformation.py:90-91 | the rows encode exactly when each record does, row by row |
| DataTransformation.TransformWith | src/components/data_transformation.py:90-91 | `transform` succeeds exactly when the selected columns are there, there is at least one row (the imputers refuse an empty frame) and every record encodes; it returns one row per record, each that record's encoding, with the fitted width |
| DataTransformation.RejectedNumericCellAborts | src/components/data_transformation.py:91 | a numeric cell the median imputer cannot convert, such as text in an income column, makes the record and the whole `transform` raise |
| DataTransformation.BlockLayout | src/components/data_transformation.py:52-55 | column j's block follows the blocks of the columns before it |
| DataTransformation.WidthMonotone | src/components/data_transformation.py:52-55 | the width of the concatenated blocks grows with the column count |
| DataTransformation.RowLayout | src/components/data_transformation.py:52-55 | in a transformed record, categorical column j's block starts after the numeric values and the earlier blocks |
| DataTransformation.MissingCategoryTakesMode | src/components/data_transformation.py:44 | a missing categorical value encodes as the most frequent training value of its column |
| DataTransformation.UnseenCategoryEncodesAsZeros | src/components/data_transformation.py:45 | a value the fit never saw encodes to zeros instead of raising |
| DataTransformation.SeenCategoryDistinguished | src/components/data_transformation.py:45 | a value seen in the fit gets a block no other value shares |
| DataTransformation.ExtraColumnsIgnored | src/components/data_transformation.py:52-55 | columns beyond the selected ones do not change the transform (`remainder='drop'`) |
| DataTransformation.Preprocessor.constructor | src/components/data_transformation.py:52-56 | a new transformer has no fitted state |
| DataTransformation.Preprocessor.FitTransform | src/components/data_transformation.py:90 | on success the state is the one learned from the frame, and the result is the frame transformed with it; on failure the state stays |
| DataTransformation.Preprocessor.Transform | src/components/data_transformation.py:91 | raises before a fit; otherwise transforms with the fitted state |
| DataTransformation.Transformation | src/components/data_transformation.py:61-111 | the preprocessor is saved exactly when the run returns, and it returns the preprocessor path; a failed drop raises before the label encoder is touched |
| DataTransformation.LabelStage | src/components/data_transformation.py:84-108 | from the label encoder's fit onward: the preprocessor is saved exactly when the run returns, with the preprocessor path |
| DataTransformation.LabelStageRows | src/components/data_transformation.py:84-108 | a successful run from the label stage, on the label columns of its records, learns the classes from the training labels and the state from the training inputs; each output row is the record's features followed by its label's code |
| DataTransformation.TransformationAfterDrops | src/components/data_transformation.py:77-81 | the drops keep every record, and the run continues with the remaining inputs and the two `Loan_Status` columns |
| DataTransformation.FeatureStage | src/components/data_transformation.py:90-108 | from the preprocessor's fit onward: the label classes are already refitted, and the preprocessor is saved exactly when the run returns, with the preprocessor path |
| DataTransformation.Assembly | src/components/data_transformation.py:94-108 | assembly succeeds exactly when rows and codes agree in number; the fitted state is then saved and the preprocessor path returned; otherwise nothing is saved |
| DataTransformation.FeatureStageRows | src/components/data_transformation.py:90-102 | a successful stage saves the state learned from the training inputs; each output row is that record's encoding followed by its code |
| DataTransformation.LabelStageCodes | src/components/data_transformation.py:84-85 | a successful run encodes the training labels and the test labels with the classes of the training labels |
| DataTransformation.RowsAreFeaturesThenLabel | src/components/data_transformation.py:61-108 | a successful run learns the state and classes from the training frame alone; each output row is the record's transformed features followed by its label's code |
| DataTransformation.OneRowFramesTransform | src/components/data_transformation.py:61-111 | a one-record training frame and a one-record test frame carrying every CSV column make the step return two one-row arrays, so the statements about successful runs are about runs that happen |
| DataTransformation.UnseenTestLabelAborts | src/components/data_transformation.py:85 | a test label absent from the training labels makes the run raise after the encoder is refitted, before anything is saved |
| DataTransformation.TrainingFrameNeedsId | src/components/data_transformation.py:77 | a training frame without `Loan_ID` makes the run raise before the label encoder is touched |
| DataTransformation.TestIdColumnIgnored | src/components/data_transformation.py:80 | the test frame keeps `Loan_ID`, which changes nothing in its features |
| DataTransformation.DataTransformation.GetDataTransformerObject | src/components/data_transformation.py:31-56 | a fresh, unfitted transformer |
| DataTransformation.DataTransformation.InitiateDataTransformation | src/components/data_transformation.py:61-111 | returns or raises what `Transformation` says; the label encoder's classes and the preprocessor path in the store change exactly as `Transformation` says |
| DataTransformation.DataTransformation.FitAndAssemble | src/components/data_transformation.py:90-108 | fits on the training inputs only, transforms both, assembles and saves as `FeatureStage` says |
| DataTransformation.DataTransformation.AppendAndSave | src/components/data_transformation.py:94-108 | appends the codes and saves the state exactly when `Assembly` succeeds |
| Serving.Home | api/main.py:12-14 | the greeting, distinct from both verdicts |
| Serving.Flag | api/main.py:20-24 | 1 exactly on an exact, case-sensitive match, 0 otherwise |
| Serving.PropertyAreaCode | api/main.py:30 | the code is 0, 1 or 2: 1 exactly for "Urban", 2 exactly for "Semiurban" |
| Serving.RStrip | api/main.py:22 | `rstrip("+")` keeps a prefix that does not end in the character, and removes only copies of it |
| Serving.RStripUnique | api/main.py:22 | those properties determine the stripped string |
| Serving.RStripIdempotent | api/main.py:22 | stripping twice strips nothing more |
| Serving.ParseInt | api/main.py:22 | `int()` succeeds exactly on a non-empty run of digits, and then gives a non-negative number |
| Serving.ShowNat | api/main.py:22 | decimal text is a non-empty run of digits |
| Serving.ParseShowNat | api/main.py:22 | reading back the decimal text of a number gives the number |
| Serving.StrippedParses | api/main.py:22 | `int(s.rstrip("+"))` succeeds exactly when `s` is digits followed only by '+' signs, and the stripping leaves exactly the digits |
| Serving.ParseDependents | api/main.py:22 | the dependents field reads exactly when it is a count followed by '+' signs, and then reads as the count |
| Serving.DependentsIgnoresTrailingPlus | api/main.py:22 | any number of trailing '+' after a count reads as the count: "3+" is 3 |
| Serving.DependentsExamples | api/main.py:22 | "3+" reads 3, "2" reads 2; "+", "" and "1+2" raise |
| Serving.EncodeFeatures | api/main.py:20-32 | the request encodes exactly when dependents parses, into eleven slots in the model's order, each stated |
| Serving.CheckLoanStatus | api/main.py:16-39 | the reply is one of the two verdicts |
| Serving.ApprovedIffPredictionIsOne | api/main.py:34-39 | approval exactly when the first prediction is 1; rejection exactly when there is a first prediction and it is not 1 |
| Serving.SchemaExampleEncoding | app/schemas.py:18-30 | the schema's example request encodes to [1, 1, 2, 1, 0, 5000, 3000, 10000, 12, 1, 1] |
| Serving.FlagExamples | api/main.py:20-30 | matching is exact: "Female" and "male" give 0 for gender, "Rural" gives 0 for the area |

## Left out

- Reading the CSV files (`pd.read_csv`), pickling, file-system errors, logging and `print`: the frames arrive as values, and the artifact directory is a map from path to object.
- The numeric pipeline's arithmetic (median, mean, standard deviation) and every estimator's internals (grid search, fitting, prediction, accuracy, classification report): floating point and library code, so they are supplied as the uninterpreted `NumericScaler` and `Library` values.
- `CustomException`'s message formatting (src/exception.py): the model keeps the original failure. The one-argument call `CustomException("No best model found")` at src/components/model_trainer.py:101 itself raises `TypeError`, because `CustomException.__init__` also requires `error_detail`. The `except` at line 119 wraps that `TypeError`, so the model's gate failure (`ModelTraining.GateFailure`) is that `TypeError`.
- FastAPI routing, pydantic validation and loading `classifier.pkl` at import time: the classifier is a parameter of `Serving.CheckLoanStatus`.
- Serving.ParseInt, Serving.ParseDependents, Serving.EncodeFeatures: `int()` is modelled on ASCII digits only. The model rejects `" 2"`, `"+2"` and `"1_0"`, which Python accepts, and non-ASCII digits.
- Serving.EncodeFeatures: the endpoint's hand-written encoding differs from the training pipeline's (ordinal codes versus scaled and one-hot columns). The model states each encoding separately and does not relate the two.
- DataTransformation.LabelValues: the model rejects a label column that holds NaN or numbers. scikit-learn raises only when numbers are mixed with strings. NaN among string labels becomes one more class, sorted last, and the model does not capture that. A column of numbers only, which scikit-learn also accepts, is not modelled either.
- DataTransformation.CategoryValues: a number in a categorical training column is treated as an error. scikit-learn raises only when numbers are mixed with strings. `pd.read_csv` reads a categorical column as numbers when every value looks numeric, for example a `Dependents` column without "3+", and scikit-learn then fits numeric categories. The model does not capture that case.
- DataTransformation.EncodeRow, DataTransformation.TransformWith: the numeric block is always five values wide. scikit-learn's median imputer drops a numeric column that was all NaN at fit time, so the real output is one column narrower per such column; the model does not capture that. Which text cells the imputer's float conversion accepts ("12" converts, "abc" raises) is supplied by the `NumericScaler` value, not modelled.
- DataTransformation.CategoryBlock: a number met at transform time is treated as an error. Against string categories scikit-learn encodes it as unknown, an all-zero block under `handle_unknown='ignore'`. A categorical column that is all NaN during the fit gets no imputation value and an empty vocabulary; scikit-learn's exact behaviour there is not modelled.
- Estimators.Estimator.Fit, Evaluation.Tune, Evaluation.TuningIgnoresTestSplit: grid search and fitting are modelled as deterministic functions of the estimator class, its parameters and the training rows. The random forest, decision tree (whose grid tries `splitter='random'`), gradient boosting, XGBoost and AdaBoost instances are built without `random_state` (src/components/model_trainer.py:45-53), so two real fits on the same rows can differ. `TuningIgnoresTestSplit` is the no-leak statement: the test split is not an argument of the search or the fit.
- Evaluation.EvaluateModels: when an iteration fails, the instances already tuned keep their new states. The contract states the instances' states only on success.
- The data ingestion step (src/components/data_ingestion.py) and the training script (app.py) only chain the modelled steps together with I/O.
- Arrays.Array2: numpy's element dtype and the object array `np.c_` builds from a sparse matrix are not modelled. All cells are reals.
- Hyper-parameter values are tagged values. How a classifier interprets them is library code.

## Findings

| source | as written | input that shows it | evidently intended | confidence | as-written member | corrected member |
|---|---|---|---|---|---|---|
| src/components/model_trainer.py:95 | `metrics['accuracy']` subscripts each report value, but `evaluate_models` stores a bare float score | any report with at least one model, which is every run | compare the stored score itself | not executed | ModelTraining.ScanAsWrittenFailsOnEveryReport | ModelTraining.SelectIsFirstMaximum |
| src/components/model_trainer.py:107-110 | `save_object(file_path=..., obj=best_model)`, but the parameter is named `object` (src/utils.py:6) | any run that passes the 0.6 gate | `object=best_model`, as src/components/data_transformation.py:99-102 writes it | not executed | Artifacts.SaveObjectCallAsWritten | Artifacts.SaveObjectCallCorrected |
