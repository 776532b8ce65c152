/** `evaluate_models` (src/evaluate.py): tune, refit and score every
    candidate of the menu, in menu order, and report each test score under
    the candidate's name.

    For each candidate the grid is looked up by name (an empty grid when the
    name has none), a 3-fold grid search runs on the training split, the
    instance takes the best parameters and is refitted on the whole training
    split, and its accuracy on the test split is stored. The training-split
    accuracy is computed too but only printed. The first failure aborts the
    whole evaluation; no partial report is returned. */
module Evaluation {
  import opened Errors
  import opened Arrays
  import opened Estimators

  /** `report[model_name] = y_test_score`. The report is a dict filled in
      menu order, so it is kept as a sequence of entries. */
  datatype Entry = Entry(name: string, score: real)
  type Report = seq<Entry>

  /** The `X` and `y` of one split. */
  datatype Split = Split(X: Matrix, y: seq<real>)

  /** A menu entry as a value: its name, the estimator class and the
      instance's state before evaluation. */
  datatype Candidate = Candidate(name: string, kind: string, state: EstimatorState)

  /** One evaluated candidate: the instance's new state and its two scores. */
  datatype Tuned = Tuned(state: EstimatorState, trainScore: real, testScore: real)

  /** `GridSearchCV(model, param_grid, cv=3)`. */
  const GridSearchFolds: nat := 3

  /** `params.get(model_name, {})`. */
  function GridFor(params: map<string, Grid>, name: string): (grid: Grid)
    ensures name in params ==> grid == params[name]
    ensures name !in params ==> |grid| == 0
  {
    if name in params then params[name] else map[]
  }

  /** One pass of the loop body for candidate `c`. It succeeds exactly when
      the search, the refit, both predictions and both scores do. */
  function Tune(c: Candidate, params: map<string, Grid>, lib: Library, train: Split, test: Split): (r: Result<Tuned>)
    ensures r.Ok? <==>
            && lib.bestParams(c.kind, c.state.params, GridFor(params, c.name), GridSearchFolds, train.X, train.y).Ok?
            && var tuned := c.state.params + lib.bestParams(c.kind, c.state.params, GridFor(params, c.name), GridSearchFolds, train.X, train.y).value;
               var st := EstimatorState(tuned, Some(FittedModel(c.kind, tuned, train.X, train.y)));
               && lib.fitFailure(c.kind, tuned, train.X, train.y).None?
               && Predict(lib, st, train.X).Ok? && Predict(lib, st, test.X).Ok?
               && lib.accuracy(train.y, Predict(lib, st, train.X).value).Ok?
               && lib.accuracy(test.y, Predict(lib, st, test.X).value).Ok?
    ensures r.Ok? ==> lib.bestParams(c.kind, c.state.params, GridFor(params, c.name), GridSearchFolds, train.X, train.y).Ok?
    ensures r.Ok? ==> r.value.state.params == c.state.params + lib.bestParams(c.kind, c.state.params, GridFor(params, c.name), GridSearchFolds, train.X, train.y).value
    ensures r.Ok? ==> r.value.state.fitted == Some(FittedModel(c.kind, r.value.state.params, train.X, train.y))
    ensures r.Ok? ==> Predict(lib, r.value.state, test.X).Ok?
    ensures r.Ok? ==> lib.accuracy(train.y, Predict(lib, r.value.state, train.X).value) == Ok(r.value.trainScore)
    ensures r.Ok? ==> lib.accuracy(test.y, Predict(lib, r.value.state, test.X).value) == Ok(r.value.testScore)
  {
    match lib.bestParams(c.kind, c.state.params, GridFor(params, c.name), GridSearchFolds, train.X, train.y)
    case Err(e) => Err(e)
    case Ok(best) =>
      var tuned := c.state.params + best;
      match lib.fitFailure(c.kind, tuned, train.X, train.y)
      case Some(e) => Err(e)
      case None =>
        var st := EstimatorState(tuned, Some(FittedModel(c.kind, tuned, train.X, train.y)));
        match Predict(lib, st, train.X)
        case Err(e) => Err(e)
        case Ok(trainPred) =>
          match Predict(lib, st, test.X)
          case Err(e) => Err(e)
          case Ok(testPred) =>
            match lib.accuracy(train.y, trainPred)
            case Err(e) => Err(e)
            case Ok(trainScore) =>
              match lib.accuracy(test.y, testPred)
              case Err(e) => Err(e)
              case Ok(testScore) => Ok(Tuned(st, trainScore, testScore))
  }

  /** The outcome of the loop body for each candidate. Candidates do not
      share state, so each outcome depends on its own candidate only. */
  function Outcomes(cands: seq<Candidate>, params: map<string, Grid>, lib: Library, train: Split, test: Split)
    : (outs: seq<Result<Tuned>>)
    ensures |outs| == |cands|
  {
    seq(|cands|, j requires 0 <= j < |cands| => Tune(cands[j], params, lib, train, test))
  }

  /** The loop over the first `n` candidates, given each one's outcome: the
      report and every instance's new state, or the first failure. */
  function Gather(cands: seq<Candidate>, outs: seq<Result<Tuned>>, n: nat): (r: Result<(Report, seq<EstimatorState>)>)
    requires n <= |cands| == |outs|
    ensures r.Ok? ==> |r.value.0| == n && |r.value.1| == n
    decreases n
  {
    if n == 0 then Ok(([], []))
    else
      var done :- Gather(cands, outs, n - 1);
      var t :- outs[n - 1];
      Ok((done.0 + [Entry(cands[n - 1].name, t.testScore)], done.1 + [t.state]))
  }

  /** The whole loop. */
  function Evaluate(cands: seq<Candidate>, params: map<string, Grid>, lib: Library, train: Split, test: Split)
    : (r: Result<(Report, seq<EstimatorState>)>)
    ensures r.Ok? ==> |r.value.0| == |cands| && |r.value.1| == |cands|
  {
    Gather(cands, Outcomes(cands, params, lib, train, test), |cands|)
  }

  /** The first `n` iterations succeed exactly when each of their outcomes
      does, and then entry `j` of the report and state `j` come from outcome
      `j` alone. */
  lemma {:induction false} GatherIsPointwise(cands: seq<Candidate>, outs: seq<Result<Tuned>>, n: nat)
    requires n <= |cands| == |outs|
    ensures Gather(cands, outs, n).Ok? <==> forall j :: 0 <= j < n ==> outs[j].Ok?
    ensures Gather(cands, outs, n).Ok? ==>
            forall j :: 0 <= j < n ==>
              && Gather(cands, outs, n).value.0[j] == Entry(cands[j].name, outs[j].value.testScore)
              && Gather(cands, outs, n).value.1[j] == outs[j].value.state
    decreases n
  {
    if n > 0 {
      GatherIsPointwise(cands, outs, n - 1);
    }
  }

  /** When the first `n` iterations fail, they fail with the first failing
      outcome's error. */
  lemma {:induction false} GatherFailsAtFirstFailure(cands: seq<Candidate>, outs: seq<Result<Tuned>>, n: nat, k: nat)
    requires k < n <= |cands| == |outs|
    requires outs[k].Err?
    requires forall j :: 0 <= j < k ==> outs[j].Ok?
    ensures Gather(cands, outs, n) == Err(outs[k].failure)
    decreases n
  {
    if k < n - 1 {
      GatherFailsAtFirstFailure(cands, outs, n - 1, k);
    } else {
      GatherIsPointwise(cands, outs, k);
    }
  }

  /** The evaluation succeeds exactly when every candidate's tuning does, and
      then the report names every candidate with its own test score and the
      states are the candidates' own: candidates do not influence each
      other. */
  lemma EvaluateIsPointwise(cands: seq<Candidate>, params: map<string, Grid>, lib: Library, train: Split, test: Split)
    ensures Evaluate(cands, params, lib, train, test).Ok? <==>
            forall j :: 0 <= j < |cands| ==> Tune(cands[j], params, lib, train, test).Ok?
    ensures Evaluate(cands, params, lib, train, test).Ok? ==>
            forall j :: 0 <= j < |cands| ==>
              && Evaluate(cands, params, lib, train, test).value.0[j] == Entry(cands[j].name, Tune(cands[j], params, lib, train, test).value.testScore)
              && Evaluate(cands, params, lib, train, test).value.1[j] == Tune(cands[j], params, lib, train, test).value.state
  {
    GatherIsPointwise(cands, Outcomes(cands, params, lib, train, test), |cands|);
  }

  /** The first candidate whose tuning fails decides the error. */
  lemma EvaluateFailsAtFirstFailure(cands: seq<Candidate>, k: nat, params: map<string, Grid>, lib: Library, train: Split, test: Split)
    requires k < |cands|
    requires Tune(cands[k], params, lib, train, test).Err?
    requires forall j :: 0 <= j < k ==> Tune(cands[j], params, lib, train, test).Ok?
    ensures Evaluate(cands, params, lib, train, test) == Err(Tune(cands[k], params, lib, train, test).failure)
  {
    GatherFailsAtFirstFailure(cands, Outcomes(cands, params, lib, train, test), |cands|, k);
  }

  /** The grid search and the refit see the training split only: two
      successful evaluations that differ only in the test split leave every
      instance in the same state. The equality of states rests on fitting
      being modelled as a function of its inputs. */
  lemma TuningIgnoresTestSplit(cands: seq<Candidate>, params: map<string, Grid>, lib: Library, train: Split, test1: Split, test2: Split)
    requires Evaluate(cands, params, lib, train, test1).Ok?
    requires Evaluate(cands, params, lib, train, test2).Ok?
    ensures Evaluate(cands, params, lib, train, test1).value.1 == Evaluate(cands, params, lib, train, test2).value.1
  {
    EvaluateIsPointwise(cands, params, lib, train, test1);
    EvaluateIsPointwise(cands, params, lib, train, test2);
  }

  /** Only the grids of the menu's names matter. */
  lemma EvaluateReadsMenuGrids(cands: seq<Candidate>, p1: map<string, Grid>, p2: map<string, Grid>, lib: Library, train: Split, test: Split)
    requires forall j :: 0 <= j < |cands| ==> GridFor(p1, cands[j].name) == GridFor(p2, cands[j].name)
    ensures Evaluate(cands, p1, lib, train, test) == Evaluate(cands, p2, lib, train, test)
  {
    var o1, o2 := Outcomes(cands, p1, lib, train, test), Outcomes(cands, p2, lib, train, test);
    forall j | 0 <= j < |cands| ensures o1[j] == o2[j] {
      assert Tune(cands[j], p1, lib, train, test) == Tune(cands[j], p2, lib, train, test);
    }
    assert o1 == o2;
  }

  /** A candidate without an entry in `params` is tuned with the empty grid
      `{}`: adding `{}` for every missing name changes nothing. */
  lemma MissingGridIsEmptyGrid(cands: seq<Candidate>, params: map<string, Grid>, lib: Library, train: Split, test: Split)
    ensures var filled := params + map j | 0 <= j < |cands| && cands[j].name !in params :: cands[j].name := map[];
            Evaluate(cands, params, lib, train, test) == Evaluate(cands, filled, lib, train, test)
  {
    var filled := params + map j | 0 <= j < |cands| && cands[j].name !in params :: cands[j].name := map[];
    forall j | 0 <= j < |cands|
      ensures GridFor(params, cands[j].name) == GridFor(filled, cands[j].name)
    {
    }
    EvaluateReadsMenuGrids(cands, params, filled, lib, train, test);
  }

  /** The `models` dict: names to estimator instances, in insertion order. */
  datatype MenuItem = MenuItem(name: string, model: Estimator)

  function Models(menu: seq<MenuItem>): set<Estimator> {
    set i | 0 <= i < |menu| :: menu[i].model
  }

  /** The loop body on one instance: grid search, `set_params`, `fit`, both
      predictions and both scores. It does what `Tune` says of the candidate
      the instance is, and leaves the instance in the tuned state. */
  method TuneInstance(ghost c: Candidate, name: string, model: Estimator, params: map<string, Grid>, lib: Library, train: Split, test: Split)
    returns (r: Result<Tuned>)
    requires c == Candidate(name, model.kind, model.State())
    modifies model
    ensures r == Tune(c, params, lib, train, test)
    ensures r.Ok? ==> model.State() == r.value.state
  {
    var gs := lib.bestParams(model.kind, model.params, GridFor(params, name), GridSearchFolds, train.X, train.y);
    if gs.Err? {
      return Err(gs.failure);
    }
    model.SetParams(gs.value);
    var fit := model.Fit(lib, train.X, train.y);
    if fit.Err? {
      return Err(fit.failure);
    }
    var trainPred := Predict(lib, model.State(), train.X);
    if trainPred.Err? {
      return Err(trainPred.failure);
    }
    var testPred := Predict(lib, model.State(), test.X);
    if testPred.Err? {
      return Err(testPred.failure);
    }
    var trainScore := lib.accuracy(train.y, trainPred.value);
    if trainScore.Err? {
      return Err(trainScore.failure);
    }
    var testScore := lib.accuracy(test.y, testPred.value);
    if testScore.Err? {
      return Err(testScore.failure);
    }
    r := Ok(Tuned(model.State(), trainScore.value, testScore.value));
  }

  /** What the caller of the loop sees: the report, or the failure. */
  function ReportOf(e: Result<(Report, seq<EstimatorState>)>): Result<Report> {
    match e
    case Ok(v) => Ok(v.0)
    case Err(f) => Err(f)
  }

  /** The states of the instances after the first `i` iterations: the
      tuned states so far, then the states the others started in. */
  ghost predicate InstancesAt(menu: seq<MenuItem>, cands: seq<Candidate>, states: seq<EstimatorState>, i: nat)
    reads Models(menu)
  {
    && i <= |menu| == |cands|
    && |states| == i
    && forall j :: 0 <= j < |menu| ==> menu[j].model.State() == if j < i then states[j] else cands[j].state
  }

  /** Iteration `i` of the loop: tunes the `i`-th instance and leaves the
      others alone. */
  method TuneNext(menu: seq<MenuItem>, i: nat, ghost cands: seq<Candidate>, ghost outs: seq<Result<Tuned>>, ghost report: Report, ghost states: seq<EstimatorState>,
                  params: map<string, Grid>, lib: Library, train: Split, test: Split)
    returns (r: Result<Tuned>)
    requires forall a, b :: 0 <= a < b < |menu| ==> menu[a].model != menu[b].model
    requires i < |menu|
    requires |cands| == |menu|
    requires forall j :: 0 <= j < |menu| ==> cands[j].name == menu[j].name && cands[j].kind == menu[j].model.kind
    requires outs == Outcomes(cands, params, lib, train, test)
    requires InstancesAt(menu, cands, states, i)
    requires Gather(cands, outs, i) == Ok((report, states))
    modifies menu[i].model
    ensures r.Err? ==> Gather(cands, outs, |cands|) == Err(r.failure)
    ensures r.Ok? ==> Gather(cands, outs, i + 1) == Ok((report + [Entry(menu[i].name, r.value.testScore)], states + [r.value.state]))
    ensures r.Ok? ==> InstancesAt(menu, cands, states + [r.value.state], i + 1)
  {
    var model := menu[i].model;
    r := TuneInstance(cands[i], menu[i].name, model, params, lib, train, test);
    if r.Ok? {
      assert forall j :: 0 <= j < |menu| && j != i ==> menu[j].model != model;
    } else {
      GatherIsPointwise(cands, outs, i);
      GatherFailsAtFirstFailure(cands, outs, |menu|, i);
    }
  }

  /** `evaluate_models(models, params, X_train, y_train, X_test, y_test)`.
      `cands` describes the menu as it is on entry; the instances are
      distinct objects, as the menu builds them. The result is the report of
      `Evaluate`, or its failure, and on success every instance is left in
      the state `Evaluate` gives it. */
  method EvaluateModels(menu: seq<MenuItem>, ghost cands: seq<Candidate>, params: map<string, Grid>, lib: Library, train: Split, test: Split)
    returns (r: Result<Report>)
    requires forall i, j :: 0 <= i < j < |menu| ==> menu[i].model != menu[j].model
    requires |cands| == |menu|
    requires forall j :: 0 <= j < |menu| ==> cands[j] == Candidate(menu[j].name, menu[j].model.kind, menu[j].model.State())
    modifies Models(menu)
    ensures r == ReportOf(Evaluate(cands, params, lib, train, test))
    ensures Evaluate(cands, params, lib, train, test).Ok? ==>
            forall j :: 0 <= j < |menu| ==> menu[j].model.State() == Evaluate(cands, params, lib, train, test).value.1[j]
  {
    ghost var outs := Outcomes(cands, params, lib, train, test);
    assert Evaluate(cands, params, lib, train, test) == Gather(cands, outs, |menu|);
    var report: Report := [];
    ghost var states: seq<EstimatorState> := [];
    var i := 0;
    while i < |menu|
      invariant 0 <= i <= |menu|
      invariant Gather(cands, outs, i) == Ok((report, states))
      invariant InstancesAt(menu, cands, states, i)
    {
      var tuned := TuneNext(menu, i, cands, outs, report, states, params, lib, train, test);
      if tuned.Err? {
        return Err(tuned.failure);
      }
      report := report + [Entry(menu[i].name, tuned.value.testScore)];
      states := states + [tuned.value.state];
      i := i + 1;
    }
    r := Ok(report);
  }
}
