/** Classifier instances and the library calls made on them.

    The classifiers (scikit-learn, XGBoost, CatBoost) are not modelled; what
    the pipeline does with them is. An estimator instance is an object whose
    hyper-parameters `set_params` updates and whose fitted state `fit`
    replaces. The library's own work (cross-validated grid search, fitting,
    prediction, `accuracy_score`, `classification_report`) is a `Library`
    value: uninterpreted functions supplied by the caller. */
module Estimators {
  import opened Errors
  import opened Arrays

  /** A hyper-parameter value as written in a grid (`None`, 5, 0.1, 'gini', False). */
  datatype ParamValue = IntParam(i: int) | RealParam(r: real) | StrParam(s: string) | BoolParam(b: bool) | NoneParam

  /** Hyper-parameters set explicitly on an instance; the rest keep the library default. */
  type Params = map<string, ParamValue>

  /** A grid: parameter name to the candidate values tried for it. */
  type Grid = map<string, seq<ParamValue>>

  /** A fitted model, described by the estimator class, its hyper-parameters
      and the rows it was fitted on. Fitting is modelled as a function of
      these; the randomised classifiers of the menu are built without a
      `random_state`, so two real fits on the same rows can differ. */
  datatype FittedModel = FittedModel(kind: string, params: Params, X: Matrix, y: seq<real>)

  /** The observable state of an estimator instance. */
  datatype EstimatorState = EstimatorState(params: Params, fitted: Option<FittedModel>)

  /** The library calls, as functions of their arguments.
      - bestParams(kind, params, grid, folds, X, y): `GridSearchCV(model, grid, cv=folds).fit(X, y).best_params_`
      - fitFailure(kind, params, X, y): the error `fit` raises, if any
      - predict(model, X): `model.predict(X)` of a fitted model
      - accuracy(yTrue, yPred): `accuracy_score`
      - classificationReport(yTrue, yPred): `classification_report` */
  datatype Library = Library(
    bestParams: (string, Params, Grid, nat, Matrix, seq<real>) -> Result<Params>,
    fitFailure: (string, Params, Matrix, seq<real>) -> Option<Failure>,
    predict: (FittedModel, Matrix) -> Result<seq<real>>,
    accuracy: (seq<real>, seq<real>) -> Result<real>,
    classificationReport: (seq<real>, seq<real>) -> Result<string>
  )

  /** `predict` on an instance: NotFittedError before its first `fit`. */
  function Predict(lib: Library, st: EstimatorState, X: Matrix): (r: Result<seq<real>>)
    ensures st.fitted.None? ==> r.Err?
    ensures st.fitted.Some? ==> r == lib.predict(st.fitted.value, X)
  {
    match st.fitted
    case None => Err(Failure("This estimator is not fitted yet"))
    case Some(m) => lib.predict(m, X)
  }

  class Estimator {
    const kind: string
    var params: Params
    var fitted: Option<FittedModel>

    /** A fresh, unfitted instance such as `RandomForestClassifier()`. */
    constructor (kind: string, params: Params)
      ensures this.kind == kind && this.params == params && fitted == None
    {
      this.kind := kind;
      this.params := params;
      fitted := None;
    }

    function State(): EstimatorState
      reads this
    {
      EstimatorState(params, fitted)
    }

    /** `set_params(**update)`: the named parameters take the new values. */
    method SetParams(update: Params)
      modifies this
      ensures params == old(params) + update
      ensures fitted == old(fitted)
    {
      params := params + update;
    }

    /** `fit(X, y)`: on success the instance is the model fitted with its
        current parameters on exactly these rows. */
    method Fit(lib: Library, X: Matrix, y: seq<real>) returns (r: Result<()>)
      modifies this
      ensures params == old(params)
      ensures r.Ok? <==> lib.fitFailure(kind, params, X, y).None?
      ensures r.Ok? ==> fitted == Some(FittedModel(kind, params, X, y))
      ensures r.Err? ==> r.failure == lib.fitFailure(kind, params, X, y).value && fitted == old(fitted)
    {
      match lib.fitFailure(kind, params, X, y)
      case Some(e) =>
        r := Err(e);
      case None =>
        fitted := Some(FittedModel(kind, params, X, y));
        r := Ok(());
    }
  }
}
