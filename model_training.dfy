/** `ModelTrainer.initiate_model_trainer` (src/components/model_trainer.py):
    split both arrays into features and label, evaluate the fixed menu of
    seven classifiers, pick the best test score with a strict `>` scan that
    starts from 0, refuse a best score under 0.6, persist the winning
    instance (already refitted by the evaluation) and return its test
    accuracy and classification report.

    The report that `evaluate_models` returns maps each name to a bare score,
    and the model reads it that way; the source reads `metrics['accuracy']`
    instead, which `ScanAsWritten` models separately. */
module ModelTraining {
  import opened Errors
  import opened Arrays
  import opened Estimators
  import opened Evaluation
  import opened Artifacts

  /** `if best_accuracy < 0.6: raise ...`: the lowest acceptable test score. */
  const AcceptanceThreshold: real := 0.6

  /** `ModelTrainerConfig.trained_model_file_path`. */
  const TrainedModelFilePath: string := "artifacts/model.pkl"

  // ---------------------------------------------------------------------
  // The best-model scan

  /** `best_accuracy` and `best_model_name` after the first `n` entries of
      the report: a strictly greater score takes over, starting from 0 and
      no name. */
  function RunningBest(report: Report, n: nat): (r: (real, Option<string>))
    requires n <= |report|
    ensures r.0 >= 0.0
    ensures forall j :: 0 <= j < n ==> report[j].score <= r.0
    decreases n
  {
    if n == 0 then (0.0, None)
    else
      var (best, name) := RunningBest(report, n - 1);
      if report[n - 1].score > best then (report[n - 1].score, Some(report[n - 1].name))
      else (best, name)
  }

  /** The scan over the whole report. */
  function Select(report: Report): (r: (real, Option<string>))
    ensures forall j :: 0 <= j < |report| ==> report[j].score <= r.0
    ensures r.1.Some? ==> exists j :: 0 <= j < |report| && report[j].name == r.1.value && report[j].score == r.0
  {
    RunningBestIsFirstMaximum(report, |report|);
    RunningBest(report, |report|)
  }

  /** Entry `k` is the first maximum of the first `n` entries, and positive:
      it beats every earlier entry strictly and is not beaten by a later
      one. */
  predicate FirstMaximum(report: Report, n: nat, k: int) {
    && 0 <= k < n <= |report|
    && report[k].score > 0.0
    && (forall j :: 0 <= j < k ==> report[j].score < report[k].score)
    && (forall j :: k < j < n ==> report[j].score <= report[k].score)
  }

  /** A report has at most one first maximum. */
  lemma FirstMaximumUnique(report: Report, n: nat, k1: int, k2: int)
    requires FirstMaximum(report, n, k1) && FirstMaximum(report, n, k2)
    ensures k1 == k2
  {
  }

  /** What the scan computes, on every prefix: the running best is never
      negative and bounds every score seen; no name is chosen exactly when no
      score is positive; otherwise the name is that of the first maximum and
      the running best is its score. */
  lemma {:induction false} RunningBestIsFirstMaximum(report: Report, n: nat)
    requires n <= |report|
    ensures var (best, name) := RunningBest(report, n);
            && best >= 0.0
            && (forall j :: 0 <= j < n ==> report[j].score <= best)
            && (name.None? <==> forall j :: 0 <= j < n ==> report[j].score <= 0.0)
            && (name.None? ==> best == 0.0)
            && (name.Some? ==> exists k :: FirstMaximum(report, n, k) && report[k].name == name.value && report[k].score == best)
    decreases n
  {
    if n > 0 {
      RunningBestIsFirstMaximum(report, n - 1);
      var (best, name) := RunningBest(report, n - 1);
      if report[n - 1].score > best {
        assert FirstMaximum(report, n, n - 1);
      } else if name.Some? {
        var k :| FirstMaximum(report, n - 1, k) && report[k].name == name.value && report[k].score == best;
        assert FirstMaximum(report, n, k);
      }
    }
  }

  /** The scan over the whole report: a name is chosen exactly when some
      score is positive, and it is the first entry with the highest score. */
  lemma SelectIsFirstMaximum(report: Report)
    ensures var (best, name) := Select(report);
            && best >= 0.0
            && (name.None? <==> forall j :: 0 <= j < |report| ==> report[j].score <= 0.0)
            && (name.None? ==> best == 0.0)
            && (name.Some? ==> exists k :: FirstMaximum(report, |report|, k) && report[k].name == name.value && report[k].score == best)
  {
    RunningBestIsFirstMaximum(report, |report|);
  }

  /** A best score that passes the gate always comes with a name. */
  lemma GatePassedHasName(report: Report)
    requires Select(report).0 >= AcceptanceThreshold
    ensures Select(report).1.Some?
  {
    SelectIsFirstMaximum(report);
  }

  /** The loop over `model_report.items()`. */
  method PickBest(report: Report) returns (best: real, name: Option<string>)
    ensures (best, name) == Select(report)
    ensures name.None? <==> forall j :: 0 <= j < |report| ==> report[j].score <= 0.0
    ensures name.Some? ==> exists k :: FirstMaximum(report, |report|, k) && report[k].name == name.value && report[k].score == best
  {
    best, name := 0.0, None;
    for i := 0 to |report|
      invariant (best, name) == RunningBest(report, i)
    {
      if report[i].score > best {
        best, name := report[i].score, Some(report[i].name);
      }
    }
    SelectIsFirstMaximum(report);
  }

  // ---------------------------------------------------------------------
  // The scan as written: `metrics['accuracy']` on a bare score

  /** A value stored in the report: `evaluate_models` stores a float. */
  datatype PyValue = PyFloat(f: real) | PyDict(entries: map<string, real>)

  /** `value[key]`: a float cannot be subscripted; a dict without the key
      raises KeyError. */
  function Subscript(value: PyValue, key: string): (r: Result<real>)
    ensures value.PyFloat? ==> r.Err?
    ensures value.PyDict? ==> (r.Ok? <==> key in value.entries)
  {
    match value
    case PyFloat(_) => Err(Failure("invalid index to scalar variable."))
    case PyDict(entries) =>
      if key in entries then Ok(entries[key]) else Err(Failure("KeyError: " + key))
  }

  /** The scan of src/components/model_trainer.py as written: each entry's
      value is subscripted with 'accuracy' before it is compared. */
  function ScanAsWritten(items: seq<(string, PyValue)>, n: nat): (r: Result<(real, Option<string>)>)
    requires n <= |items|
    ensures r.Ok? <==> forall j :: 0 <= j < n ==> items[j].1.PyDict? && "accuracy" in items[j].1.entries
    decreases n
  {
    if n == 0 then Ok((0.0, None))
    else
      match ScanAsWritten(items, n - 1)
      case Err(e) => Err(e)
      case Ok((best, name)) =>
        match Subscript(items[n - 1].1, "accuracy")
        case Err(e) => Err(e)
        case Ok(accuracy) =>
          if accuracy > best then Ok((accuracy, Some(items[n - 1].0))) else Ok((best, name))
  }

  /** The report as `evaluate_models` returns it: name to bare float. */
  function AsPython(report: Report): (items: seq<(string, PyValue)>)
    ensures |items| == |report|
    ensures forall j :: 0 <= j < |report| ==> items[j] == (report[j].name, PyFloat(report[j].score))
  {
    seq(|report|, j requires 0 <= j < |report| => (report[j].name, PyFloat(report[j].score)))
  }

  /** As written, the scan fails on the first entry of any non-empty report,
      so no run can get past it. */
  lemma {:induction false} ScanAsWrittenFailsOnEveryReport(report: Report, n: nat)
    requires 0 < n <= |report|
    ensures ScanAsWritten(AsPython(report), n).Err?
    decreases n
  {
    if n > 1 {
      ScanAsWrittenFailsOnEveryReport(report, n - 1);
    } else {
      assert ScanAsWritten(AsPython(report), 0) == Ok((0.0, None));
      assert AsPython(report)[0].1 == PyFloat(report[0].score);
    }
  }

  // ---------------------------------------------------------------------
  // The fixed menu

  /** The grids of `params`, in the order they are written. */
  function ParamGrids(): (grids: map<string, Grid>)
    ensures |grids| == 7
    ensures "Logistic Regression" in grids && grids["Logistic Regression"] == map[]
    ensures forall name, p :: name in grids && p in grids[name] ==> |grids[name][p]| > 0
  {
    var estimators := [IntParam(8), IntParam(16), IntParam(32), IntParam(64), IntParam(128), IntParam(256)];
    var boostingRates := [RealParam(0.1), RealParam(0.01), RealParam(0.05), RealParam(0.001)];
    var boostingDepths := [IntParam(3), IntParam(5), IntParam(7), IntParam(9)];
    map[
      "Random Forest" := map[
        "n_estimators" := estimators,
        "criterion" := [StrParam("gini"), StrParam("entropy")],
        "max_depth" := [NoneParam, IntParam(5), IntParam(10), IntParam(15)]],
      "Decision Tree" := map[
        "criterion" := [StrParam("gini"), StrParam("entropy")],
        "splitter" := [StrParam("best"), StrParam("random")],
        "max_depth" := [NoneParam, IntParam(5), IntParam(10), IntParam(15)]],
      "Gradient Boosting" := map[
        "learning_rate" := boostingRates,
        "n_estimators" := estimators,
        "max_depth" := boostingDepths],
      "Logistic Regression" := map[],
      "XGBClassifier" := map[
        "learning_rate" := boostingRates,
        "n_estimators" := estimators,
        "max_depth" := boostingDepths],
      "CatBoostClassifier" := map[
        "depth" := [IntParam(6), IntParam(8), IntParam(10)],
        "learning_rate" := [RealParam(0.01), RealParam(0.05), RealParam(0.1)],
        "iterations" := [IntParam(30), IntParam(50), IntParam(100)]],
      "AdaBoost Classifier" := map[
        "learning_rate" := [RealParam(0.1), RealParam(0.01), RealParam(0.5), RealParam(0.001)],
        "n_estimators" := estimators]
    ]
  }

  /** The `models` dict as values: name, estimator class, and the fresh
      instance's state (only CatBoost gets a parameter, `verbose=False`). */
  function InitialCandidates(): (cs: seq<Candidate>)
    ensures |cs| == 7
    ensures forall j :: 0 <= j < |cs| ==> cs[j].state.fitted.None?
  {
    [ Candidate("Random Forest", "RandomForestClassifier", EstimatorState(map[], None)),
      Candidate("Decision Tree", "DecisionTreeClassifier", EstimatorState(map[], None)),
      Candidate("Gradient Boosting", "GradientBoostingClassifier", EstimatorState(map[], None)),
      Candidate("Logistic Regression", "LogisticRegression", EstimatorState(map[], None)),
      Candidate("XGBClassifier", "XGBClassifier", EstimatorState(map[], None)),
      Candidate("CatBoostClassifier", "CatBoostClassifier", EstimatorState(map["verbose" := BoolParam(false)], None)),
      Candidate("AdaBoost Classifier", "AdaBoostClassifier", EstimatorState(map[], None)) ]
  }

  /** Every menu name has a grid. */
  lemma EveryCandidateHasItsGrid()
    ensures forall j :: 0 <= j < |InitialCandidates()| ==> InitialCandidates()[j].name in ParamGrids()
  {
    GridsCoverExactlyTheMenu();
  }

  /** The grids are keyed by exactly the menu names. */
  lemma GridsCoverExactlyTheMenu()
    ensures ParamGrids().Keys == set j | 0 <= j < |InitialCandidates()| :: InitialCandidates()[j].name
  {
    var cs := InitialCandidates();
    var names := set j | 0 <= j < |cs| :: cs[j].name;
    assert names == {cs[0].name, cs[1].name, cs[2].name, cs[3].name, cs[4].name, cs[5].name, cs[6].name} by {
      forall x | x in names ensures x in {cs[0].name, cs[1].name, cs[2].name, cs[3].name, cs[4].name, cs[5].name, cs[6].name} {
        var j :| 0 <= j < |cs| && x == cs[j].name;
        assert j == 0 || j == 1 || j == 2 || j == 3 || j == 4 || j == 5 || j == 6;
      }
    }
  }

  /** The menu names are distinct, so the dict has seven entries. */
  lemma MenuNamesDistinct()
    ensures forall a, b :: 0 <= a < b < |InitialCandidates()| ==> InitialCandidates()[a].name != InitialCandidates()[b].name
  {
  }

  /** The keys of the `models` dict, in order. */
  function Names(cands: seq<Candidate>): (names: seq<string>)
    ensures |names| == |cands|
    ensures forall j :: 0 <= j < |cands| ==> names[j] == cands[j].name
  {
    seq(|cands|, j requires 0 <= j < |cands| => cands[j].name)
  }

  /** `models[best_model_name]`: the position of the first key equal to the
      name; `None` or a name outside the dict raises KeyError. */
  function Lookup(names: seq<string>, name: Option<string>): (r: Result<nat>)
    ensures r.Ok? ==> r.value < |names| && name == Some(names[r.value])
    ensures r.Ok? ==> forall j :: 0 <= j < r.value ==> Some(names[j]) != name
    ensures r.Err? ==> forall j :: 0 <= j < |names| ==> Some(names[j]) != name
    decreases |names|
  {
    if |names| == 0 then Err(Failure("KeyError"))
    else if Some(names[0]) == name then Ok(0)
    else
      match Lookup(names[1..], name)
      case Err(e) => Err(e)
      case Ok(k) => Ok(k + 1)
  }

  // ---------------------------------------------------------------------
  // The whole run

  /** `[accuracy, classification_report_str]`. */
  datatype TrainerOutput = TrainerOutput(accuracy: real, classificationReport: string)

  /** What a run leaves behind: the state persisted to the model path, if
      the run got that far, and what it returns or raises. */
  datatype TrainingRun = TrainingRun(saved: Option<EstimatorState>, result: Result<TrainerOutput>)

  /** A run that raised before anything was saved. */
  function Aborted(e: Failure): TrainingRun {
    TrainingRun(None, Err(e))
  }

  /** The menu names are distinct, as the keys of a dict are. */
  predicate DistinctNames(cands: seq<Candidate>) {
    forall a, b :: 0 <= a < b < |cands| ==> cands[a].name != cands[b].name
  }

  /** `best_model.predict(X_test)`, then `accuracy_score` and
      `classification_report` of those predictions. */
  function Score(lib: Library, winner: EstimatorState, test: Split): (r: Result<TrainerOutput>)
    ensures r.Ok? <==> && Predict(lib, winner, test.X).Ok?
                       && lib.accuracy(test.y, Predict(lib, winner, test.X).value).Ok?
                       && lib.classificationReport(test.y, Predict(lib, winner, test.X).value).Ok?
    ensures r.Ok? ==> Predict(lib, winner, test.X).Ok?
    ensures r.Ok? ==> lib.accuracy(test.y, Predict(lib, winner, test.X).value) == Ok(r.value.accuracy)
    ensures r.Ok? ==> lib.classificationReport(test.y, Predict(lib, winner, test.X).value) == Ok(r.value.classificationReport)
  {
    match Predict(lib, winner, test.X)
    case Err(e) => Err(e)
    case Ok(predicted) =>
      match lib.accuracy(test.y, predicted)
      case Err(e) => Err(e)
      case Ok(accuracy) =>
        match lib.classificationReport(test.y, predicted)
        case Err(e) => Err(e)
        case Ok(text) => Ok(TrainerOutput(accuracy, text))
  }

  /** Everything after the column split: evaluate, scan, gate, persist the
      winner, and score it on the test split. */
  /** What the 0.6 gate raises. */
  const GateFailure: Failure := Failure("TypeError: CustomException.__init__() missing 1 required positional argument: 'error_detail'")

  function TrainingOn(cands: seq<Candidate>, grids: map<string, Grid>, lib: Library, train: Split, test: Split): (run: TrainingRun)
    ensures run.saved.None? ==> run.result.Err?
    ensures Evaluate(cands, grids, lib, train, test).Err? ==> run == Aborted(Evaluate(cands, grids, lib, train, test).failure)
    ensures run.saved.Some? ==> run.result == Score(lib, run.saved.value, test)
  {
    match Evaluate(cands, grids, lib, train, test)
    case Err(e) => Aborted(e)
    case Ok((report, states)) =>
      var (best, name) := Select(report);
      // `CustomException("No best model found")` lacks its `error_detail`
      // argument, so the gate's raise is itself a TypeError.
      if best < AcceptanceThreshold then Aborted(GateFailure)
      else
        match Lookup(Names(cands), name)
        case Err(e) => Aborted(e)
        case Ok(k) =>
          TrainingRun(Some(states[k]), Score(lib, states[k], test))
  }

  /** `initiate_model_trainer(train_array, test_array)` on the menu `cands`
      with grids `grids`: `X` is each array without its last column and `y`
      that column, train first. */
  function Training(trainArray: Array2, testArray: Array2, cands: seq<Candidate>, grids: map<string, Grid>, lib: Library): (run: TrainingRun)
    ensures run.saved.None? ==> run.result.Err?
    ensures trainArray.width > 0 && testArray.width > 0 ==>
            run == TrainingOn(cands, grids, lib, Split(DropLastColumn(trainArray), LastColumn(trainArray).value),
                                                 Split(DropLastColumn(testArray), LastColumn(testArray).value))
  {
    match SplitFeaturesLabel(trainArray)
    case Err(e) => Aborted(e)
    case Ok((xTrain, yTrain)) =>
      match SplitFeaturesLabel(testArray)
      case Err(e) => Aborted(e)
      case Ok((xTest, yTest)) =>
        TrainingOn(cands, grids, lib, Split(xTrain, yTrain), Split(xTest, yTest))
  }

  /** An array without a column cannot be split, and the run raises before
      anything is saved. */
  lemma TrainingNeedsALabelColumn(trainArray: Array2, testArray: Array2, cands: seq<Candidate>, grids: map<string, Grid>, lib: Library)
    requires trainArray.width == 0 || testArray.width == 0
    ensures Training(trainArray, testArray, cands, grids, lib).saved.None?
    ensures Training(trainArray, testArray, cands, grids, lib).result.Err?
  {
  }

  /** The trainer undoes the row layout of the transformation step: on
      arrays assembled as features followed by the label, it evaluates
      exactly those features and labels. */
  lemma TrainingOnAssembledArrays(trainFeatures: Array2, trainLabels: seq<real>, testFeatures: Array2, testLabels: seq<real>,
                                  cands: seq<Candidate>, grids: map<string, Grid>, lib: Library)
    requires |trainFeatures.rows| == |trainLabels| && |testFeatures.rows| == |testLabels|
    ensures Training(AppendColumn(trainFeatures, trainLabels).value, AppendColumn(testFeatures, testLabels).value, cands, grids, lib)
            == TrainingOn(cands, grids, lib, Split(trainFeatures, trainLabels), Split(testFeatures, testLabels))
  {
    SplitAfterAppend(trainFeatures, trainLabels);
    SplitAfterAppend(testFeatures, testLabels);
  }

  /** With distinct menu names, `models[best_model_name]` is the instance at
      the position of the first maximum of the report. */
  lemma LookupFindsWinner(cands: seq<Candidate>, grids: map<string, Grid>, lib: Library, train: Split, test: Split)
    requires DistinctNames(cands)
    requires Evaluate(cands, grids, lib, train, test).Ok?
    requires Select(Evaluate(cands, grids, lib, train, test).value.0).1.Some?
    ensures var report := Evaluate(cands, grids, lib, train, test).value.0;
            exists k :: FirstMaximum(report, |report|, k) && Lookup(Names(cands), Select(report).1) == Ok(k)
  {
    var report := Evaluate(cands, grids, lib, train, test).value.0;
    var name := Select(report).1;
    EvaluateIsPointwise(cands, grids, lib, train, test);
    SelectIsFirstMaximum(report);
    var k :| FirstMaximum(report, |report|, k) && report[k].name == name.value;
    assert Some(cands[k].name) == name;
    var found := Lookup(Names(cands), name);
    if found.Err? {
      assert false;
    }
    assert found.value == k;
  }

  /** The gate: the run persists a model exactly when the evaluation
      succeeds and the best score is at least 0.6. Below the threshold the
      run raises before `save_object` is reached. */
  lemma GateDecidesPersistence(cands: seq<Candidate>, grids: map<string, Grid>, lib: Library, train: Split, test: Split)
    ensures TrainingOn(cands, grids, lib, train, test).saved.Some? <==>
            Evaluate(cands, grids, lib, train, test).Ok? && Select(Evaluate(cands, grids, lib, train, test).value.0).0 >= AcceptanceThreshold
  {
    var ev := Evaluate(cands, grids, lib, train, test);
    if ev.Ok? && Select(ev.value.0).0 >= AcceptanceThreshold {
      var report := ev.value.0;
      GatePassedHasName(report);
      EvaluateIsPointwise(cands, grids, lib, train, test);
      SelectIsFirstMaximum(report);
      var k :| FirstMaximum(report, |report|, k) && report[k].name == Select(report).1.value;
      assert Some(cands[k].name) == Select(report).1;
      assert Lookup(Names(cands), Select(report).1).Ok?;
    }
  }

  /** The persisted object is the winner's instance as the evaluation left
      it, tuned and refitted on the training split, not a new fit. */
  lemma PersistedIsRefitWinner(cands: seq<Candidate>, grids: map<string, Grid>, lib: Library, train: Split, test: Split)
    requires DistinctNames(cands)
    requires TrainingOn(cands, grids, lib, train, test).saved.Some?
    ensures Evaluate(cands, grids, lib, train, test).Ok?
    ensures var report := Evaluate(cands, grids, lib, train, test).value.0;
            var saved := TrainingOn(cands, grids, lib, train, test).saved.value;
            exists k :: && FirstMaximum(report, |report|, k)
                        && Tune(cands[k], grids, lib, train, test).Ok?
                        && saved == Tune(cands[k], grids, lib, train, test).value.state
                        && saved.fitted == Some(FittedModel(cands[k].kind, saved.params, train.X, train.y))
  {
    GateDecidesPersistence(cands, grids, lib, train, test);
    GatePassedHasName(Evaluate(cands, grids, lib, train, test).value.0);
    LookupFindsWinner(cands, grids, lib, train, test);
    EvaluateIsPointwise(cands, grids, lib, train, test);
  }

  /** The returned accuracy is the winner's own report score, which is the
      best score: predicting again with the same instance on the same test
      split gives the same accuracy. */
  lemma ReturnedAccuracyIsBestScore(cands: seq<Candidate>, grids: map<string, Grid>, lib: Library, train: Split, test: Split)
    requires DistinctNames(cands)
    requires TrainingOn(cands, grids, lib, train, test).result.Ok?
    ensures TrainingOn(cands, grids, lib, train, test).saved.Some?
    ensures Evaluate(cands, grids, lib, train, test).Ok?
    ensures TrainingOn(cands, grids, lib, train, test).result.value.accuracy == Select(Evaluate(cands, grids, lib, train, test).value.0).0
    ensures TrainingOn(cands, grids, lib, train, test).result.value.accuracy >= AcceptanceThreshold
  {
    var report := Evaluate(cands, grids, lib, train, test).value.0;
    GatePassedHasName(report);
    LookupFindsWinner(cands, grids, lib, train, test);
    EvaluateIsPointwise(cands, grids, lib, train, test);
    SelectIsFirstMaximum(report);
    var k :| FirstMaximum(report, |report|, k) && Lookup(Names(cands), Select(report).1) == Ok(k);
    var k2 :| FirstMaximum(report, |report|, k2) && report[k2].name == Select(report).1.value && report[k2].score == Select(report).0;
    FirstMaximumUnique(report, |report|, k, k2);
  }

  /** Builds the `models` dict: seven fresh, distinct instances in menu
      order. */
  method BuildMenu() returns (menu: seq<MenuItem>)
    ensures |menu| == |InitialCandidates()|
    ensures forall j :: 0 <= j < |menu| ==> fresh(menu[j].model)
    ensures forall a, b :: 0 <= a < b < |menu| ==> menu[a].model != menu[b].model
    ensures forall j :: 0 <= j < |menu| ==>
              InitialCandidates()[j] == Candidate(menu[j].name, menu[j].model.kind, menu[j].model.State())
  {
    var cs := InitialCandidates();
    var randomForest := new Estimator(cs[0].kind, cs[0].state.params);
    var decisionTree := new Estimator(cs[1].kind, cs[1].state.params);
    var gradientBoosting := new Estimator(cs[2].kind, cs[2].state.params);
    var logisticRegression := new Estimator(cs[3].kind, cs[3].state.params);
    var xgb := new Estimator(cs[4].kind, cs[4].state.params);
    var catBoost := new Estimator(cs[5].kind, cs[5].state.params);
    var adaBoost := new Estimator(cs[6].kind, cs[6].state.params);
    menu := [ MenuItem(cs[0].name, randomForest), MenuItem(cs[1].name, decisionTree),
              MenuItem(cs[2].name, gradientBoosting), MenuItem(cs[3].name, logisticRegression),
              MenuItem(cs[4].name, xgb), MenuItem(cs[5].name, catBoost), MenuItem(cs[6].name, adaBoost) ];
  }

  class ModelTrainer {
    /** `ModelTrainerConfig().trained_model_file_path`. */
    const trainedModelFilePath: string

    constructor ()
      ensures trainedModelFilePath == TrainedModelFilePath
    {
      trainedModelFilePath := TrainedModelFilePath;
    }

    /** `initiate_model_trainer(train_array, test_array)`: returns or raises
        what `Training` says, and writes the model path exactly when
        `Training` persists a model, with that model. */
    method InitiateModelTrainer(trainArray: Array2, testArray: Array2, lib: Library, store: ArtifactStore<EstimatorState>)
      returns (r: Result<TrainerOutput>)
      modifies store
      ensures r == Training(trainArray, testArray, InitialCandidates(), ParamGrids(), lib).result
      ensures Training(trainArray, testArray, InitialCandidates(), ParamGrids(), lib).saved.None? ==> store.files == old(store.files)
      ensures Training(trainArray, testArray, InitialCandidates(), ParamGrids(), lib).saved.Some? ==>
              store.files == old(store.files)[trainedModelFilePath := Training(trainArray, testArray, InitialCandidates(), ParamGrids(), lib).saved.value]
    {
      var trainXY := SplitFeaturesLabel(trainArray);
      if trainXY.Err? {
        return Err(trainXY.failure);
      }
      var testXY := SplitFeaturesLabel(testArray);
      if testXY.Err? {
        return Err(testXY.failure);
      }
      var train := Split(trainXY.value.0, trainXY.value.1);
      var test := Split(testXY.value.0, testXY.value.1);
      var menu := BuildMenu();
      ghost var cands := InitialCandidates();
      r := TrainOn(menu, cands, ParamGrids(), train, test, lib, store);
    }

    /** The part of the run after the column split, on the menu `menu`
        whose entries `cands` describes. */
    method TrainOn(menu: seq<MenuItem>, ghost cands: seq<Candidate>, grids: map<string, Grid>,
                   train: Split, test: Split, lib: Library, store: ArtifactStore<EstimatorState>)
      returns (r: Result<TrainerOutput>)
      requires forall a, b :: 0 <= a < b < |menu| ==> menu[a].model != menu[b].model
      requires |cands| == |menu|
      requires forall j :: 0 <= j < |menu| ==> cands[j] == Candidate(menu[j].name, menu[j].model.kind, menu[j].model.State())
      modifies store, Models(menu)
      ensures r == TrainingOn(cands, grids, lib, train, test).result
      ensures TrainingOn(cands, grids, lib, train, test).saved.None? ==> store.files == old(store.files)
      ensures TrainingOn(cands, grids, lib, train, test).saved.Some? ==>
              store.files == old(store.files)[trainedModelFilePath := TrainingOn(cands, grids, lib, train, test).saved.value]
    {
      var report := EvaluateModels(menu, cands, grids, lib, train, test);
      if report.Err? {
        return Err(report.failure);
      }
      var best, name := PickBest(report.value);
      if best < AcceptanceThreshold {
        return Err(GateFailure);
      }
      var names := seq(|menu|, j requires 0 <= j < |menu| => menu[j].name);
      assert names == Names(cands);
      var k := Lookup(names, name);
      if k.Err? {
        return Err(k.failure);
      }
      var bestModel := menu[k.value].model;
      r := PersistAndScore(bestModel, test, lib, store);
    }

    /** `save_object(file_path=..., object=best_model)`, then the winner's
        test predictions, accuracy and report. */
    method PersistAndScore(bestModel: Estimator, test: Split, lib: Library, store: ArtifactStore<EstimatorState>)
      returns (r: Result<TrainerOutput>)
      modifies store
      ensures store.files == old(store.files)[trainedModelFilePath := bestModel.State()]
      ensures r == Score(lib, bestModel.State(), test)
    {
      store.Save(trainedModelFilePath, bestModel.State());
      var predicted := Predict(lib, bestModel.State(), test.X);
      if predicted.Err? {
        return Err(predicted.failure);
      }
      var accuracy := lib.accuracy(test.y, predicted.value);
      if accuracy.Err? {
        return Err(accuracy.failure);
      }
      var classificationReport := lib.classificationReport(test.y, predicted.value);
      if classificationReport.Err? {
        return Err(classificationReport.failure);
      }
      r := Ok(TrainerOutput(accuracy.value, classificationReport.value));
    }
  }
}
