/** The transformation step: from the train and test frames of the loan data
    to the two numeric arrays the trainer reads.

    The feature columns go through a column transformer fitted on the
    training frame only: the numeric columns through median imputation and
    standard scaling (kept abstract, as a `NumericScaler`), the categorical
    columns through most-frequent imputation and a one-hot encoder that
    ignores unknown values. The label column goes through a label encoder
    that is fitted on the training labels and then applied to the test
    labels. Each output row is a row's features followed by its encoded
    label. */
module DataTransformation {
  import opened Errors
  import opened Arrays
  import opened Categories
  import opened Artifacts

  // ---------------------------------------------------------------------
  // Frames

  /** A cell of a CSV-read frame: NaN, a string, or a number. */
  datatype Cell = Missing | Text(s: string) | Number(x: real)

  /** One record: column name to cell; a name with no entry is NaN. */
  type Record = map<string, Cell>

  /** A pandas frame: the visible columns and the records. A record may hold
      cells of columns the frame no longer shows (after a `drop`). */
  datatype Frame = Frame(columns: set<string>, rows: seq<Record>)

  function CellOf(row: Record, name: string): Cell {
    if name in row then row[name] else Missing
  }

  /** The cells of one column, top to bottom. */
  function ColumnCells(rows: seq<Record>, name: string): (cells: seq<Cell>)
    ensures |cells| == |rows|
    ensures forall i :: 0 <= i < |rows| ==> cells[i] == CellOf(rows[i], name)
  {
    seq(|rows|, i requires 0 <= i < |rows| => CellOf(rows[i], name))
  }

  /** `df.drop(columns=names)`: KeyError when a name is not a column. */
  function Drop(f: Frame, names: seq<string>): (r: Result<Frame>)
    ensures r.Ok? <==> forall n :: n in names ==> n in f.columns
    ensures r.Ok? ==> r.value.rows == f.rows
    ensures r.Ok? ==> forall c :: c in r.value.columns <==> c in f.columns && c !in names
  {
    if forall n :: n in names ==> n in f.columns then
      Ok(Frame(f.columns - (set n | n in names), f.rows))
    else
      Err(Failure("not found in axis"))
  }

  /** `df[name]`: KeyError when `name` is not a column. */
  function Column(f: Frame, name: string): (r: Result<seq<Cell>>)
    ensures r.Ok? <==> name in f.columns
    ensures r.Ok? ==> r.value == ColumnCells(f.rows, name)
  {
    if name in f.columns then Ok(ColumnCells(f.rows, name)) else Err(Failure("KeyError: " + name))
  }

  // ---------------------------------------------------------------------
  // Columns

  const TargetColumnName: string := "Loan_Status"
  const IdColumnName: string := "Loan_ID"
  const NumericalColumns: seq<string> := ["ApplicantIncome", "CoapplicantIncome", "LoanAmount", "Loan_Amount_Term", "Credit_History"]
  const CategoricalColumns: seq<string> := ["Gender", "Married", "Dependents", "Education", "Self_Employed", "Property_Area"]

  /** The column transformer's two column lists name eleven distinct
      feature columns, none of which is the label or the record id. */
  lemma ColumnsPartition()
    ensures |NumericalColumns| == 5 && |CategoricalColumns| == 6
    ensures forall c :: c in NumericalColumns ==> c !in CategoricalColumns
    ensures forall a, b :: 0 <= a < b < |NumericalColumns + CategoricalColumns| ==>
              (NumericalColumns + CategoricalColumns)[a] != (NumericalColumns + CategoricalColumns)[b]
    ensures TargetColumnName !in NumericalColumns + CategoricalColumns
    ensures IdColumnName !in NumericalColumns + CategoricalColumns
  {
  }

  /** The frame shows every column the transformer selects. */
  predicate HasFeatureColumns(columns: set<string>) {
    (forall c :: c in NumericalColumns ==> c in columns) && (forall c :: c in CategoricalColumns ==> c in columns)
  }

  // ---------------------------------------------------------------------
  // Label encoding

  /** The labels as strings. The model rejects a NaN or numeric label,
      where scikit-learn would make NaN among string labels one more class,
      sorted last, and raises only for numbers mixed with strings. */
  function LabelValues(labels: seq<Cell>): (r: Result<seq<string>>)
    ensures r.Ok? <==> forall i :: 0 <= i < |labels| ==> labels[i].Text?
    ensures r.Ok? ==> |r.value| == |labels| && forall i :: 0 <= i < |labels| ==> labels[i] == Text(r.value[i])
  {
    if forall i :: 0 <= i < |labels| ==> labels[i].Text? then
      Ok(seq(|labels|, i requires 0 <= i < |labels| && labels[i].Text? => labels[i].s))
    else
      Err(Failure("'<' not supported between instances of 'float' and 'str'"))
  }

  /** `classes_` after fitting on `labels`. */
  function ClassesOf(labels: seq<string>): (classes: set<string>)
    ensures forall x :: x in classes <==> x in labels
  {
    set x | x in labels
  }

  /** Encoding against frozen classes: each label becomes its position in
      the sorted classes; a label outside them raises. */
  function EncodeLabels(classes: set<string>, labels: seq<string>): (r: Result<seq<real>>)
    ensures r.Ok? <==> forall i :: 0 <= i < |labels| ==> labels[i] in classes
    ensures r.Ok? ==> |r.value| == |labels|
    ensures r.Ok? ==> forall i :: 0 <= i < |labels| ==> r.value[i] == Rank(classes, labels[i]) as real
    ensures r.Ok? ==> forall i :: 0 <= i < |labels| ==> 0.0 <= r.value[i] < |classes| as real
  {
    if forall i :: 0 <= i < |labels| ==> labels[i] in classes then
      assert forall i :: 0 <= i < |labels| ==> Rank(classes, labels[i]) < |classes| by {
        forall i | 0 <= i < |labels| ensures Rank(classes, labels[i]) < |classes| {
          RankBelowSize(classes, labels[i]);
        }
      }
      Ok(seq(|labels|, i requires 0 <= i < |labels| => Rank(classes, labels[i]) as real))
    else
      Err(Failure("y contains previously unseen labels"))
  }

  /** Two labels with the same code are the same label, so the encoding can
      be inverted. */
  lemma LabelCodesDistinguish(classes: set<string>, labels: seq<string>, i: nat, j: nat)
    requires EncodeLabels(classes, labels).Ok?
    requires i < |labels| && j < |labels|
    requires EncodeLabels(classes, labels).value[i] == EncodeLabels(classes, labels).value[j]
    ensures labels[i] == labels[j]
  {
    if labels[i] != labels[j] {
      RankInjective(classes, labels[i], labels[j]);
    }
  }

  /** `fit_transform` on training labels: the classes learned, and the codes. */
  function FitLabels(labels: seq<Cell>): (r: Result<(set<string>, seq<real>)>)
    ensures r.Ok? <==> LabelValues(labels).Ok?
    ensures r.Ok? ==> r.value.0 == ClassesOf(LabelValues(labels).value)
    ensures r.Ok? ==> EncodeLabels(r.value.0, LabelValues(labels).value) == Ok(r.value.1)
  {
    var values :- LabelValues(labels);
    var classes := ClassesOf(values);
    var codes := EncodeLabels(classes, values);
    assert codes.Ok?;
    Ok((classes, codes.value))
  }

  /** `transform(y)` against the classes `classes`. */
  function LabelsWith(classes: set<string>, labels: seq<Cell>): (r: Result<seq<real>>)
    ensures r.Ok? <==> forall i :: 0 <= i < |labels| ==> labels[i].Text? && labels[i].s in classes
    ensures r.Ok? ==> |r.value| == |labels|
    ensures r.Ok? ==> forall i :: 0 <= i < |labels| ==> r.value[i] == Rank(classes, labels[i].s) as real
  {
    var values :- LabelValues(labels);
    EncodeLabels(classes, values)
  }

  /** The module-level `LabelEncoder()`. */
  class LabelEncoder {
    /** `classes_`, absent until the first fit. */
    var classes: Option<set<string>>

    constructor ()
      ensures classes == None
    {
      classes := None;
    }

    /** `fit_transform(y)`: learns the classes of `y` and encodes `y` with
        them. When `y` cannot be sorted it raises and keeps its old classes. */
    method FitTransform(labels: seq<Cell>) returns (r: Result<seq<real>>)
      modifies this
      ensures FitLabels(labels).Ok? ==> classes == Some(FitLabels(labels).value.0) && r == Ok(FitLabels(labels).value.1)
      ensures FitLabels(labels).Err? ==> classes == old(classes) && r == Err(FitLabels(labels).failure)
    {
      var fit := FitLabels(labels);
      if fit.Err? {
        return Err(fit.failure);
      }
      classes := Some(fit.value.0);
      r := Ok(fit.value.1);
    }

    /** `transform(y)` with the frozen classes: NotFittedError before any
        fit, and a ValueError for a label the fit never saw. */
    function Transform(labels: seq<Cell>): (r: Result<seq<real>>)
      reads this
      ensures classes.None? ==> r.Err?
      ensures classes.Some? ==> r == LabelsWith(classes.value, labels)
    {
      match classes
      case None => Err(Failure("This LabelEncoder instance is not fitted yet"))
      case Some(known) => LabelsWith(known, labels)
    }
  }

  // ---------------------------------------------------------------------
  // The column transformer

  /** The numeric pipeline (median imputation, then standard scaling), whose
      floating-point statistics are not modelled. Both steps work column by
      column, so the value a cell gets depends only on the training cells of
      its own column.
      - fitFailure(columns): the error fitting raises on these training columns, if any
      - transformFailure(trainCells, cell): the error transforming `cell`
        raises, if any; the imputer converts the column to float, so text
        such as "abc" raises while "12" converts
      - scale(trainCells, cell): the value of `cell` once imputed and scaled
        with statistics taken from `trainCells` */
  datatype NumericScaler = NumericScaler(
    fitFailure: seq<seq<Cell>> -> Option<Failure>,
    transformFailure: (seq<Cell>, Cell) -> Option<Failure>,
    scale: (seq<Cell>, Cell) -> real
  )

  /** What the categorical pipeline keeps for one column: the imputation
      value (`statistics_`) and the one-hot vocabulary (`categories_`). */
  datatype CategoryFit = CategoryFit(mode: Option<string>, vocabulary: set<string>)

  /** The fitted column transformer: the training cells of each numeric
      column, and the fit of each categorical column, in column-list order. */
  datatype PreprocessorState = PreprocessorState(numeric: seq<seq<Cell>>, categories: seq<CategoryFit>)

  predicate ValidState(st: PreprocessorState) {
    |st.numeric| == |NumericalColumns| && |st.categories| == |CategoricalColumns|
  }

  /** The non-missing values of a categorical column. A numeric cell among
      strings makes the encoder raise. */
  function CategoryValues(cells: seq<Cell>): (r: Result<seq<string>>)
    ensures r.Ok? <==> forall i :: 0 <= i < |cells| ==> !cells[i].Number?
    ensures r.Ok? ==> forall v :: v in r.value <==> Text(v) in cells
    decreases |cells|
  {
    if |cells| == 0 then Ok([])
    else
      var rest :- CategoryValues(cells[1..]);
      match cells[0]
      case Missing => Ok(rest)
      case Text(v) => Ok([v] + rest)
      case Number(_) => Err(Failure("Encoders require their input to be uniformly strings or numbers"))
  }

  /** Each value occurs among the column's values exactly as often as it
      occurs in the column, so the most frequent value is counted on the
      column itself. */
  lemma {:induction false} CategoryValuesCounts(cells: seq<Cell>)
    requires CategoryValues(cells).Ok?
    ensures forall v :: multiset(CategoryValues(cells).value)[v] == multiset(cells)[Text(v)]
    decreases |cells|
  {
    if |cells| > 0 {
      CategoryValuesCounts(cells[1..]);
      assert cells == [cells[0]] + cells[1..];
    }
  }

  /** Most-frequent imputation followed by the one-hot fit, on the training
      cells of one column. */
  function FitCategory(cells: seq<Cell>): (r: Result<CategoryFit>)
    ensures r.Ok? <==> forall i :: 0 <= i < |cells| ==> !cells[i].Number?
  {
    var values :- CategoryValues(cells);
    if forall i :: 0 <= i < |cells| ==> cells[i].Missing? then
      Ok(CategoryFit(None, ClassesOf(values)))
    else
      Ok(CategoryFit(MostFrequent(values), ClassesOf(values)))
  }

  /** The vocabulary is every value seen; the imputation value is the most
      frequent of them, and there is none only when the column is all NaN. */
  lemma FitCategoryMeaning(cells: seq<Cell>)
    requires FitCategory(cells).Ok?
    ensures var fit := FitCategory(cells).value;
            (forall v :: v in fit.vocabulary <==> Text(v) in cells) &&
            (fit.mode.None? <==> forall i :: 0 <= i < |cells| ==> cells[i].Missing?) &&
            (fit.mode.Some? ==> fit.mode.value in fit.vocabulary && IsMostFrequent(CategoryValues(cells).value, fit.mode.value))
  {
    var values := CategoryValues(cells).value;
    if !forall i :: 0 <= i < |cells| ==> cells[i].Missing? {
      var i :| 0 <= i < |cells| && !cells[i].Missing?;
      assert cells[i].s in values;
    }
  }

  /** The cells of each numeric column, in column-list order. */
  function NumericCells(rows: seq<Record>): (cols: seq<seq<Cell>>)
    ensures |cols| == |NumericalColumns|
    ensures forall j :: 0 <= j < |NumericalColumns| ==> cols[j] == ColumnCells(rows, NumericalColumns[j])
  {
    seq(|NumericalColumns|, j requires 0 <= j < |NumericalColumns| => ColumnCells(rows, NumericalColumns[j]))
  }

  /** `fit` of the column transformer on a frame. The selected columns must
      be there, the frame must have a row, and neither pipeline may raise. */
  function Learn(lib: NumericScaler, f: Frame): (r: Result<PreprocessorState>)
    ensures r.Ok? <==> && HasFeatureColumns(f.columns) && |f.rows| > 0
                       && lib.fitFailure(NumericCells(f.rows)).None?
                       && forall j :: 0 <= j < |CategoricalColumns| ==> FitCategory(ColumnCells(f.rows, CategoricalColumns[j])).Ok?
    ensures r.Ok? ==> ValidState(r.value)
    ensures r.Ok? ==> forall j :: 0 <= j < |NumericalColumns| ==> r.value.numeric[j] == ColumnCells(f.rows, NumericalColumns[j])
    ensures r.Ok? ==> forall j :: 0 <= j < |CategoricalColumns| ==> FitCategory(ColumnCells(f.rows, CategoricalColumns[j])) == Ok(r.value.categories[j])
  {
    if !HasFeatureColumns(f.columns) then
      Err(Failure("A given column is not a column of the dataframe"))
    else if |f.rows| == 0 then
      Err(Failure("Found array with 0 sample(s)"))
    else
      match lib.fitFailure(NumericCells(f.rows))
      case Some(e) => Err(e)
      case None =>
        if forall j :: 0 <= j < |CategoricalColumns| ==> FitCategory(ColumnCells(f.rows, CategoricalColumns[j])).Ok? then
          Ok(PreprocessorState(NumericCells(f.rows), CategoryFits(f.rows)))
        else
          Err(Failure("Encoders require their input to be uniformly strings or numbers"))
  }

  /** The fit of each categorical column, in column-list order. */
  function CategoryFits(rows: seq<Record>): (fits: seq<CategoryFit>)
    requires forall j :: 0 <= j < |CategoricalColumns| ==> FitCategory(ColumnCells(rows, CategoricalColumns[j])).Ok?
    ensures |fits| == |CategoricalColumns|
    ensures forall j :: 0 <= j < |CategoricalColumns| ==> FitCategory(ColumnCells(rows, CategoricalColumns[j])) == Ok(fits[j])
  {
    seq(|CategoricalColumns|, j requires 0 <= j < |CategoricalColumns| => FitCategory(ColumnCells(rows, CategoricalColumns[j])).value)
  }

  /** The block of one categorical cell: a missing value is imputed with the
      column's mode first; a value outside the vocabulary gives zeros. */
  function CategoryBlock(fit: CategoryFit, cell: Cell): (r: Result<seq<real>>)
    ensures r.Ok? <==> !cell.Number?
    ensures r.Ok? ==> |r.value| == |fit.vocabulary|
  {
    match cell
    case Missing =>
      if fit.mode.Some? then Ok(OneHot(fit.vocabulary, fit.mode.value))
      else Ok(seq(|fit.vocabulary|, _ => 0.0))
    case Text(v) => Ok(OneHot(fit.vocabulary, v))
    case Number(_) => Err(Failure("Encoders require their input to be uniformly strings or numbers"))
  }

  /** Width of the one-hot blocks of the first `n` categorical columns. */
  function CategoricalWidth(st: PreprocessorState, n: nat): nat
    requires n <= |st.categories|
  {
    if n == 0 then 0 else CategoricalWidth(st, n - 1) + |st.categories[n - 1].vocabulary|
  }

  /** Columns of the transformed features: one per numeric column, then one
      per vocabulary entry of each categorical column. */
  function TotalWidth(st: PreprocessorState): nat
    requires ValidState(st)
  {
    |NumericalColumns| + CategoricalWidth(st, |CategoricalColumns|)
  }

  /** The concatenated blocks of the first `n` categorical columns of a record. */
  function CategoricalBlocks(st: PreprocessorState, row: Record, n: nat): (r: Result<seq<real>>)
    requires n <= |st.categories| && n <= |CategoricalColumns|
    ensures r.Ok? <==> forall j :: 0 <= j < n ==> !CellOf(row, CategoricalColumns[j]).Number?
    ensures r.Ok? ==> |r.value| == CategoricalWidth(st, n)
  {
    if n == 0 then Ok([])
    else
      var done :- CategoricalBlocks(st, row, n - 1);
      var block :- CategoryBlock(st.categories[n - 1], CellOf(row, CategoricalColumns[n - 1]));
      Ok(done + block)
  }

  /** The scaled numeric values of a record. */
  function NumericBlock(lib: NumericScaler, st: PreprocessorState, row: Record): (block: seq<real>)
    requires ValidState(st)
    ensures |block| == |NumericalColumns|
    ensures forall j :: 0 <= j < |NumericalColumns| ==> block[j] == lib.scale(st.numeric[j], CellOf(row, NumericalColumns[j]))
  {
    seq(|NumericalColumns|, j requires 0 <= j < |NumericalColumns| => lib.scale(st.numeric[j], CellOf(row, NumericalColumns[j])))
  }

  /** The first error the numeric pipeline raises on the first `n` numeric
      cells of a record, if any. */
  function NumericFailure(lib: NumericScaler, st: PreprocessorState, row: Record, n: nat): (r: Option<Failure>)
    requires ValidState(st) && n <= |NumericalColumns|
    ensures r.None? <==> forall j :: 0 <= j < n ==> lib.transformFailure(st.numeric[j], CellOf(row, NumericalColumns[j])).None?
    ensures r.Some? ==> exists j :: 0 <= j < n && lib.transformFailure(st.numeric[j], CellOf(row, NumericalColumns[j])) == r
  {
    if n == 0 then None
    else
      match NumericFailure(lib, st, row, n - 1)
      case Some(e) => Some(e)
      case None => lib.transformFailure(st.numeric[n - 1], CellOf(row, NumericalColumns[n - 1]))
  }

  /** One transformed record: the numeric values, then the one-hot blocks,
      in the order the column transformer lists its pipelines. The numeric
      pipeline runs first, so its error is the one raised. */
  function EncodeRow(lib: NumericScaler, st: PreprocessorState, row: Record): (r: Result<seq<real>>)
    requires ValidState(st)
    ensures r.Ok? <==> && (forall j :: 0 <= j < |NumericalColumns| ==> lib.transformFailure(st.numeric[j], CellOf(row, NumericalColumns[j])).None?)
                       && (forall j :: 0 <= j < |CategoricalColumns| ==> !CellOf(row, CategoricalColumns[j]).Number?)
    ensures r.Ok? ==> |r.value| == TotalWidth(st)
    ensures r.Ok? ==> r.value[..|NumericalColumns|] == NumericBlock(lib, st, row)
  {
    match NumericFailure(lib, st, row, |NumericalColumns|)
    case Some(e) => Err(e)
    case None =>
      var blocks :- CategoricalBlocks(st, row, |CategoricalColumns|);
      Ok(NumericBlock(lib, st, row) + blocks)
  }

  /** The transformed first `n` records. */
  function EncodeRows(lib: NumericScaler, st: PreprocessorState, rows: seq<Record>, n: nat): (r: Result<seq<seq<real>>>)
    requires ValidState(st) && n <= |rows|
    ensures r.Ok? <==> forall i :: 0 <= i < n ==> EncodeRow(lib, st, rows[i]).Ok?
    ensures r.Ok? ==> |r.value| == n
    ensures r.Ok? ==> forall i :: 0 <= i < n ==> Ok(r.value[i]) == EncodeRow(lib, st, rows[i])
  {
    if n == 0 then Ok([])
    else
      var done :- EncodeRows(lib, st, rows, n - 1);
      var last :- EncodeRow(lib, st, rows[n - 1]);
      Ok(done + [last])
  }

  /** `transform` of a frame with a fitted state. The selected columns must
      be there and the frame must have a row, as the imputers refuse an
      empty one; other columns are dropped (`remainder='drop'`). */
  function TransformWith(lib: NumericScaler, st: PreprocessorState, f: Frame): (r: Result<Array2>)
    requires ValidState(st)
    ensures r.Ok? <==> && HasFeatureColumns(f.columns) && |f.rows| > 0
                       && forall i :: 0 <= i < |f.rows| ==> EncodeRow(lib, st, f.rows[i]).Ok?
    ensures r.Ok? ==> |r.value.rows| == |f.rows| && r.value.width == TotalWidth(st)
    ensures r.Ok? ==> forall i :: 0 <= i < |f.rows| ==> EncodeRow(lib, st, f.rows[i]) == Ok(r.value.rows[i])
  {
    if !HasFeatureColumns(f.columns) then
      Err(Failure("columns are missing"))
    else if |f.rows| == 0 then
      Err(Failure("Found array with 0 sample(s)"))
    else
      var rows :- EncodeRows(lib, st, f.rows, |f.rows|);
      Ok(Matrix(rows, TotalWidth(st)))
  }

  /** A numeric cell the median imputer cannot convert, such as text in an
      income column, makes `transform` raise for the whole frame. */
  lemma RejectedNumericCellAborts(lib: NumericScaler, st: PreprocessorState, f: Frame, i: nat, j: nat)
    requires ValidState(st) && i < |f.rows| && j < |NumericalColumns|
    requires lib.transformFailure(st.numeric[j], CellOf(f.rows[i], NumericalColumns[j])).Some?
    ensures TransformWith(lib, st, f).Err?
    ensures EncodeRow(lib, st, f.rows[i]).Err?
  {
  }

  /** The block of categorical column `j` sits in the concatenation right
      after the blocks of the columns before it. */
  lemma {:induction false} BlockLayout(st: PreprocessorState, row: Record, n: nat, j: nat)
    requires n <= |st.categories| && n <= |CategoricalColumns| && j < n
    requires CategoricalBlocks(st, row, n).Ok?
    ensures CategoricalWidth(st, j) + |st.categories[j].vocabulary| <= CategoricalWidth(st, n)
    ensures CategoricalBlocks(st, row, n).value[CategoricalWidth(st, j)..CategoricalWidth(st, j) + |st.categories[j].vocabulary|]
            == CategoryBlock(st.categories[j], CellOf(row, CategoricalColumns[j])).value
    decreases n
  {
    var all := CategoricalBlocks(st, row, n).value;
    var done := CategoricalBlocks(st, row, n - 1);
    var block := CategoryBlock(st.categories[n - 1], CellOf(row, CategoricalColumns[n - 1]));
    assert all == done.value + block.value;
    if j < n - 1 {
      BlockLayout(st, row, n - 1, j);
      WidthMonotone(st, j + 1, n - 1);
      assert all[..|done.value|] == done.value;
    }
  }

  lemma {:induction false} WidthMonotone(st: PreprocessorState, m: nat, n: nat)
    requires m <= n <= |st.categories|
    ensures CategoricalWidth(st, m) <= CategoricalWidth(st, n)
    decreases n
  {
    if m < n {
      WidthMonotone(st, m, n - 1);
    }
  }

  /** In a transformed record, the numeric values come first and the block
      of categorical column `j` starts after them and the blocks before it. */
  lemma RowLayout(lib: NumericScaler, st: PreprocessorState, row: Record, j: nat)
    requires ValidState(st) && j < |CategoricalColumns|
    requires EncodeRow(lib, st, row).Ok?
    ensures var start := |NumericalColumns| + CategoricalWidth(st, j);
            start + |st.categories[j].vocabulary| <= TotalWidth(st) &&
            EncodeRow(lib, st, row).value[start..start + |st.categories[j].vocabulary|]
            == CategoryBlock(st.categories[j], CellOf(row, CategoricalColumns[j])).value
  {
    var blocks := CategoricalBlocks(st, row, |CategoricalColumns|).value;
    BlockLayout(st, row, |CategoricalColumns|, j);
    var numeric := NumericBlock(lib, st, row);
    assert EncodeRow(lib, st, row).value == numeric + blocks;
    var start := CategoricalWidth(st, j);
    var end := start + |st.categories[j].vocabulary|;
    assert (numeric + blocks)[|numeric| + start..|numeric| + end] == blocks[start..end];
  }

  /** A missing categorical value is encoded as the most frequent training
      value of its column, when the column had any value at all. */
  lemma MissingCategoryTakesMode(lib: NumericScaler, f: Frame, j: nat)
    requires Learn(lib, f).Ok? && j < |CategoricalColumns|
    requires exists i :: 0 <= i < |f.rows| && CellOf(f.rows[i], CategoricalColumns[j]).Text?
    ensures var fit := Learn(lib, f).value.categories[j];
            var values := CategoryValues(ColumnCells(f.rows, CategoricalColumns[j])).value;
            fit.mode.Some? && IsMostFrequent(values, fit.mode.value) &&
            CategoryBlock(fit, Missing) == CategoryBlock(fit, Text(fit.mode.value))
  {
    var cells := ColumnCells(f.rows, CategoricalColumns[j]);
    FitCategoryMeaning(cells);
    var i :| 0 <= i < |f.rows| && CellOf(f.rows[i], CategoricalColumns[j]).Text?;
    assert !cells[i].Missing?;
  }

  /** A categorical value the fit never saw encodes to a block of zeros
      instead of raising. */
  lemma UnseenCategoryEncodesAsZeros(lib: NumericScaler, f: Frame, j: nat, v: string)
    requires Learn(lib, f).Ok? && j < |CategoricalColumns|
    requires forall i :: 0 <= i < |f.rows| ==> CellOf(f.rows[i], CategoricalColumns[j]) != Text(v)
    ensures var fit := Learn(lib, f).value.categories[j];
            CategoryBlock(fit, Text(v)).Ok? &&
            forall k :: 0 <= k < |fit.vocabulary| ==> CategoryBlock(fit, Text(v)).value[k] == 0.0
  {
    FitCategoryMeaning(ColumnCells(f.rows, CategoricalColumns[j]));
  }

  /** A categorical value seen during the fit gets a block no other value
      shares, so the encoding of known values loses nothing. */
  lemma SeenCategoryDistinguished(lib: NumericScaler, f: Frame, j: nat, v: string, w: string)
    requires Learn(lib, f).Ok? && j < |CategoricalColumns|
    requires exists i :: 0 <= i < |f.rows| && CellOf(f.rows[i], CategoricalColumns[j]) == Text(v)
    requires var fit := Learn(lib, f).value.categories[j]; CategoryBlock(fit, Text(v)) == CategoryBlock(fit, Text(w))
    ensures v == w
  {
    var fit := Learn(lib, f).value.categories[j];
    var cells := ColumnCells(f.rows, CategoricalColumns[j]);
    var i :| 0 <= i < |f.rows| && CellOf(f.rows[i], CategoricalColumns[j]) == Text(v);
    assert cells[i] == Text(v);
    FitCategoryMeaning(cells);
    OneHotDistinguishes(fit.vocabulary, v, w);
  }

  /** Columns beyond the selected ones do not change the transform. */
  lemma ExtraColumnsIgnored(lib: NumericScaler, st: PreprocessorState, columns: set<string>, extra: set<string>, rows: seq<Record>)
    requires ValidState(st) && HasFeatureColumns(columns)
    ensures TransformWith(lib, st, Frame(columns + extra, rows)) == TransformWith(lib, st, Frame(columns, rows))
  {
  }

  /** The `ColumnTransformer` built by `get_data_transformer_object`, with
      the fitted state it carries once fitted. */
  class Preprocessor {
    const lib: NumericScaler
    var state: Option<PreprocessorState>

    predicate Valid()
      reads this
    {
      state.Some? ==> ValidState(state.value)
    }

    constructor (lib: NumericScaler)
      ensures this.lib == lib && state == None && Valid()
    {
      this.lib := lib;
      state := None;
    }

    /** `fit_transform(X)`: learns the state from `X`, then transforms `X`
        with it. When fitting raises, the old state stays. */
    method FitTransform(f: Frame) returns (r: Result<Array2>)
      requires Valid()
      modifies this
      ensures Valid()
      ensures Learn(lib, f).Err? ==> r == Err(Learn(lib, f).failure) && state == old(state)
      ensures Learn(lib, f).Ok? ==> state == Some(Learn(lib, f).value) && r == TransformWith(lib, state.value, f)
    {
      var learned := Learn(lib, f);
      if learned.Err? {
        return Err(learned.failure);
      }
      state := Some(learned.value);
      r := TransformWith(lib, learned.value, f);
    }

    /** `transform(X)` with the state as it is; NotFittedError before a fit.
        Being a function, it leaves the state as it found it. */
    function Transform(f: Frame): (r: Result<Array2>)
      requires Valid()
      reads this
      ensures state.None? ==> r.Err?
      ensures state.Some? ==> r == TransformWith(lib, state.value, f)
    {
      match state
      case None => Err(Failure("This ColumnTransformer instance is not fitted yet"))
      case Some(st) => TransformWith(lib, st, f)
    }
  }

  // ---------------------------------------------------------------------
  // The whole step

  const PreprocessorObjFilePath: string := "artifacts/preprocessor.pkl"

  /** `(train_arr, test_arr, preprocessor_obj_file_path)`. */
  datatype TransformationOutput = TransformationOutput(trainArr: Array2, testArr: Array2, preprocessorPath: string)

  /** What a run leaves behind: the classes the label encoder was refitted
      to, if it got that far; the fitted state saved to the preprocessor
      path, if it got that far; and what it returns or raises. */
  datatype TransformationRun = TransformationRun(
    labelClasses: Option<set<string>>,
    saved: Option<PreprocessorState>,
    result: Result<TransformationOutput>)

  /** `initiate_data_transformation` on the frames read from the two CSV files. */
  function Transformation(lib: NumericScaler, train: Frame, test: Frame): (run: TransformationRun)
    ensures run.saved.Some? <==> run.result.Ok?
    ensures run.result.Ok? ==> run.result.value.preprocessorPath == PreprocessorObjFilePath
    ensures Drop(train, [TargetColumnName, IdColumnName]).Err? || Drop(test, [TargetColumnName]).Err? ==>
            run.labelClasses.None? && run.result.Err?
  {
    match Drop(train, [TargetColumnName, IdColumnName])
    case Err(e) => TransformationRun(None, None, Err(e))
    case Ok(trainInputs) =>
      match Drop(test, [TargetColumnName])
      case Err(e) => TransformationRun(None, None, Err(e))
      case Ok(testInputs) =>
        // Both drops succeeded, so the label column is there in both frames.
        LabelStage(lib, trainInputs, testInputs, ColumnCells(train.rows, TargetColumnName), ColumnCells(test.rows, TargetColumnName))
  }

  /** The run from the label encoder's fit on: fit it on the training
      labels, transform the test labels with the classes it learned. */
  function LabelStage(lib: NumericScaler, trainInputs: Frame, testInputs: Frame, trainLabels: seq<Cell>, testLabels: seq<Cell>): (run: TransformationRun)
    ensures run.saved.Some? <==> run.result.Ok?
    ensures run.result.Ok? ==> run.result.value.preprocessorPath == PreprocessorObjFilePath
  {
    match FitLabels(trainLabels)
    case Err(e) => TransformationRun(None, None, Err(e))
    case Ok((classes, trainCodes)) =>
      match LabelsWith(classes, testLabels)
      case Err(e) => TransformationRun(Some(classes), None, Err(e))
      case Ok(testCodes) => FeatureStage(lib, classes, trainInputs, testInputs, trainCodes, testCodes)
  }

  /** The run from the preprocessor's fit on: fit on the training inputs,
      transform both inputs, append the label codes, save the fitted state. */
  function FeatureStage(lib: NumericScaler, classes: set<string>, trainInputs: Frame, testInputs: Frame,
                        trainCodes: seq<real>, testCodes: seq<real>): (run: TransformationRun)
    ensures run.labelClasses == Some(classes)
    ensures run.saved.Some? <==> run.result.Ok?
    ensures run.result.Ok? ==> run.result.value.preprocessorPath == PreprocessorObjFilePath
  {
    var relabelled := Some(classes);
    match Learn(lib, trainInputs)
    case Err(e) => TransformationRun(relabelled, None, Err(e))
    case Ok(st) =>
      match TransformWith(lib, st, trainInputs)
      case Err(e) => TransformationRun(relabelled, None, Err(e))
      case Ok(trainFeatures) =>
        match TransformWith(lib, st, testInputs)
        case Err(e) => TransformationRun(relabelled, None, Err(e))
        case Ok(testFeatures) => Assembly(classes, st, trainFeatures, testFeatures, trainCodes, testCodes)
  }

  /** `np.c_` of each split's features and label codes, then the save of the
      fitted preprocessor. */
  function Assembly(classes: set<string>, st: PreprocessorState, trainFeatures: Array2, testFeatures: Array2,
                    trainCodes: seq<real>, testCodes: seq<real>): (run: TransformationRun)
    ensures run.labelClasses == Some(classes)
    ensures run.result.Ok? <==> |trainFeatures.rows| == |trainCodes| && |testFeatures.rows| == |testCodes|
    ensures run.result.Ok? ==> run.saved == Some(st) && run.result.value.preprocessorPath == PreprocessorObjFilePath
    ensures run.result.Err? ==> run.saved.None?
  {
    match AppendColumn(trainFeatures, trainCodes)
    case Err(e) => TransformationRun(Some(classes), None, Err(e))
    case Ok(trainArr) =>
      match AppendColumn(testFeatures, testCodes)
      case Err(e) => TransformationRun(Some(classes), None, Err(e))
      case Ok(testArr) =>
        TransformationRun(Some(classes), Some(st), Ok(TransformationOutput(trainArr, testArr, PreprocessorObjFilePath)))
  }

  /** A successful feature stage fits the preprocessor on the training
      inputs, saves that state, and builds each output row from the
      record's transformed features and its code. */
  lemma FeatureStageRows(lib: NumericScaler, classes: set<string>, trainInputs: Frame, testInputs: Frame,
                         trainCodes: seq<real>, testCodes: seq<real>)
    requires FeatureStage(lib, classes, trainInputs, testInputs, trainCodes, testCodes).result.Ok?
    ensures Learn(lib, trainInputs).Ok?
    ensures var run := FeatureStage(lib, classes, trainInputs, testInputs, trainCodes, testCodes);
            var st := Learn(lib, trainInputs).value;
            var out := run.result.value;
            run.saved == Some(st) &&
            |out.trainArr.rows| == |trainInputs.rows| == |trainCodes| && |out.testArr.rows| == |testInputs.rows| == |testCodes| &&
            out.trainArr.width == out.testArr.width == TotalWidth(st) + 1 &&
            (forall i :: 0 <= i < |trainInputs.rows| ==>
               EncodeRow(lib, st, trainInputs.rows[i]).Ok? && out.trainArr.rows[i] == EncodeRow(lib, st, trainInputs.rows[i]).value + [trainCodes[i]]) &&
            (forall i :: 0 <= i < |testInputs.rows| ==>
               EncodeRow(lib, st, testInputs.rows[i]).Ok? && out.testArr.rows[i] == EncodeRow(lib, st, testInputs.rows[i]).value + [testCodes[i]])
  {
    var st := Learn(lib, trainInputs).value;
    var trainFeatures := TransformWith(lib, st, trainInputs).value;
    var testFeatures := TransformWith(lib, st, testInputs).value;
    assert FeatureStage(lib, classes, trainInputs, testInputs, trainCodes, testCodes)
           == Assembly(classes, st, trainFeatures, testFeatures, trainCodes, testCodes);
  }

  /** A successful label stage encodes every training label and every test
      label with the classes of the training labels. */
  lemma LabelStageCodes(lib: NumericScaler, trainInputs: Frame, testInputs: Frame, trainLabels: seq<Cell>, testLabels: seq<Cell>)
    requires LabelStage(lib, trainInputs, testInputs, trainLabels, testLabels).result.Ok?
    ensures FitLabels(trainLabels).Ok? && LabelsWith(FitLabels(trainLabels).value.0, testLabels).Ok?
    ensures var classes := FitLabels(trainLabels).value.0;
            var trainCodes := FitLabels(trainLabels).value.1;
            var testCodes := LabelsWith(classes, testLabels).value;
            LabelStage(lib, trainInputs, testInputs, trainLabels, testLabels)
              == FeatureStage(lib, classes, trainInputs, testInputs, trainCodes, testCodes) &&
            |trainCodes| == |trainLabels| &&
            (forall i :: 0 <= i < |trainLabels| ==> trainLabels[i].Text? && trainCodes[i] == Rank(classes, trainLabels[i].s) as real) &&
            (forall i :: 0 <= i < |testLabels| ==> testLabels[i].Text? && testCodes[i] == Rank(classes, testLabels[i].s) as real)
  {
    var values := LabelValues(trainLabels).value;
    var (classes, trainCodes) := FitLabels(trainLabels).value;
    forall i | 0 <= i < |trainLabels|
      ensures trainLabels[i].Text? && trainCodes[i] == Rank(classes, trainLabels[i].s) as real
    {
      assert trainLabels[i] == Text(values[i]);
    }
  }

  /** Each row of `arr` is the transformed features of the record at the
      same position followed by the code of that record's label. */
  predicate RowsEncoded(lib: NumericScaler, st: PreprocessorState, classes: set<string>, rows: seq<Record>, arr: Array2)
    requires ValidState(st)
  {
    && |arr.rows| == |rows|
    && forall i :: 0 <= i < |rows| ==>
         && CellOf(rows[i], TargetColumnName).Text?
         && EncodeRow(lib, st, rows[i]).Ok?
         && arr.rows[i] == EncodeRow(lib, st, rows[i]).value + [Rank(classes, CellOf(rows[i], TargetColumnName).s) as real]
  }

  /** A successful label stage, on the label columns of the records it
      transforms, learns the classes from the training labels and the state
      from the training inputs, and each output row is that record's
      transformed features followed by its label's code. */
  lemma LabelStageRows(lib: NumericScaler, trainInputs: Frame, testInputs: Frame, trainLabels: seq<Cell>, testLabels: seq<Cell>)
    requires trainLabels == ColumnCells(trainInputs.rows, TargetColumnName)
    requires testLabels == ColumnCells(testInputs.rows, TargetColumnName)
    requires LabelStage(lib, trainInputs, testInputs, trainLabels, testLabels).result.Ok?
    ensures Learn(lib, trainInputs).Ok? && LabelValues(trainLabels).Ok?
    ensures var run := LabelStage(lib, trainInputs, testInputs, trainLabels, testLabels);
            var classes := ClassesOf(LabelValues(trainLabels).value);
            var st := Learn(lib, trainInputs).value;
            && run.saved == Some(st) && run.labelClasses == Some(classes)
            && run.result.value.trainArr.width == run.result.value.testArr.width == TotalWidth(st) + 1
            && RowsEncoded(lib, st, classes, trainInputs.rows, run.result.value.trainArr)
            && RowsEncoded(lib, st, classes, testInputs.rows, run.result.value.testArr)
  {
    LabelStageCodes(lib, trainInputs, testInputs, trainLabels, testLabels);
    var (classes, trainCodes) := FitLabels(trainLabels).value;
    var testCodes := LabelsWith(classes, testLabels).value;
    FeatureStageRows(lib, classes, trainInputs, testInputs, trainCodes, testCodes);
  }

  /** Once both drops succeed, the run continues with the label stage on
      the remaining inputs and the two label columns; the drops keep every
      record. */
  lemma TransformationAfterDrops(lib: NumericScaler, train: Frame, test: Frame)
    requires Drop(train, [TargetColumnName, IdColumnName]).Ok? && Drop(test, [TargetColumnName]).Ok?
    ensures Drop(train, [TargetColumnName, IdColumnName]).value.rows == train.rows
    ensures Drop(test, [TargetColumnName]).value.rows == test.rows
    ensures Transformation(lib, train, test)
            == LabelStage(lib, Drop(train, [TargetColumnName, IdColumnName]).value, Drop(test, [TargetColumnName]).value,
                          ColumnCells(train.rows, TargetColumnName), ColumnCells(test.rows, TargetColumnName))
  {
  }

  /** On success, the fitted state and the label classes are learned from
      the training frame alone, and each output row of either split is that
      record's transformed features followed by its label's code. */
  lemma RowsAreFeaturesThenLabel(lib: NumericScaler, train: Frame, test: Frame)
    requires Transformation(lib, train, test).result.Ok?
    ensures Drop(train, [TargetColumnName, IdColumnName]).Ok?
    ensures Learn(lib, Drop(train, [TargetColumnName, IdColumnName]).value).Ok?
    ensures LabelValues(ColumnCells(train.rows, TargetColumnName)).Ok?
    ensures var run := Transformation(lib, train, test);
            var classes := ClassesOf(LabelValues(ColumnCells(train.rows, TargetColumnName)).value);
            var st := Learn(lib, Drop(train, [TargetColumnName, IdColumnName]).value).value;
            && run.saved == Some(st) && run.labelClasses == Some(classes)
            && run.result.value.trainArr.width == run.result.value.testArr.width == TotalWidth(st) + 1
            && RowsEncoded(lib, st, classes, train.rows, run.result.value.trainArr)
            && RowsEncoded(lib, st, classes, test.rows, run.result.value.testArr)
  {
    assert Drop(train, [TargetColumnName, IdColumnName]).Ok? && Drop(test, [TargetColumnName]).Ok?;
    TransformationAfterDrops(lib, train, test);
    LabelStageRows(lib, Drop(train, [TargetColumnName, IdColumnName]).value, Drop(test, [TargetColumnName]).value,
                   ColumnCells(train.rows, TargetColumnName), ColumnCells(test.rows, TargetColumnName));
  }

  /** A numeric pipeline that never raises and scales every cell to 0. */
  const ZeroScaler: NumericScaler := NumericScaler(_ => None, (_, _) => None, (_, _) => 0.0)

  /** One loan application with every column of the CSV file filled in. */
  function SampleRecord(status: string): (row: Record)
    ensures forall c :: c in NumericalColumns ==> c in row && !row[c].Text?
    ensures forall c :: c in CategoricalColumns ==> c in row && row[c].Text?
    ensures CellOf(row, TargetColumnName) == Text(status)
  {
    map["Loan_ID" := Text("LP001002"), "Gender" := Text("Male"), "Married" := Text("No"),
        "Dependents" := Text("0"), "Education" := Text("Graduate"), "Self_Employed" := Text("No"),
        "ApplicantIncome" := Number(5849.0), "CoapplicantIncome" := Number(0.0), "LoanAmount" := Missing,
        "Loan_Amount_Term" := Number(360.0), "Credit_History" := Number(1.0), "Property_Area" := Text("Urban"),
        "Loan_Status" := Text(status)]
  }

  /** Every column of the CSV file: the features, the id and the label. */
  const CsvColumns: set<string> :=
    (set c | c in NumericalColumns) + (set c | c in CategoricalColumns) + {IdColumnName, TargetColumnName}

  /** A training frame of one record and a test frame of one record with the
      same label make the whole step succeed, so the lemmas about successful
      runs describe runs that happen; each array is one row of the eleven
      features' encoding plus the label code. */
  lemma OneRowFramesTransform()
    ensures var train := Frame(CsvColumns, [SampleRecord("Y")]);
            var test := Frame(CsvColumns, [SampleRecord("Y")]);
            var run := Transformation(ZeroScaler, train, test);
            run.result.Ok? && |run.result.value.trainArr.rows| == 1 && |run.result.value.testArr.rows| == 1
  {
    var row := SampleRecord("Y");
    var train := Frame(CsvColumns, [row]);
    var test := Frame(CsvColumns, [row]);
    var trainInputs := Drop(train, [TargetColumnName, IdColumnName]).value;
    var testInputs := Drop(test, [TargetColumnName]).value;
    assert HasFeatureColumns(trainInputs.columns) && HasFeatureColumns(testInputs.columns) by {
      ColumnsPartition();
    }
    var trainLabels := ColumnCells(train.rows, TargetColumnName);
    var testLabels := ColumnCells(test.rows, TargetColumnName);
    assert trainLabels == testLabels == [Text("Y")];
    TransformationAfterDrops(ZeroScaler, train, test);
    var classes := FitLabels(trainLabels).value.0;
    assert "Y" in classes;
    forall j | 0 <= j < |CategoricalColumns|
      ensures FitCategory(ColumnCells(trainInputs.rows, CategoricalColumns[j])).Ok?
    {
      assert ColumnCells(trainInputs.rows, CategoricalColumns[j]) == [CellOf(row, CategoricalColumns[j])];
    }
    var st := Learn(ZeroScaler, trainInputs).value;
    assert EncodeRow(ZeroScaler, st, row).Ok?;
  }

  /** A test label the training labels never had makes the run raise after
      the label encoder was refitted and before anything is saved. */
  lemma UnseenTestLabelAborts(lib: NumericScaler, train: Frame, test: Frame, i: nat, v: string)
    requires TargetColumnName in train.columns && IdColumnName in train.columns && TargetColumnName in test.columns
    requires forall k :: 0 <= k < |train.rows| ==> CellOf(train.rows[k], TargetColumnName).Text?
    requires forall k :: 0 <= k < |train.rows| ==> CellOf(train.rows[k], TargetColumnName) != Text(v)
    requires i < |test.rows| && CellOf(test.rows[i], TargetColumnName) == Text(v)
    ensures Transformation(lib, train, test).result.Err?
    ensures Transformation(lib, train, test).saved.None?
    ensures Transformation(lib, train, test).labelClasses == Some(ClassesOf(LabelValues(ColumnCells(train.rows, TargetColumnName)).value))
  {
    var trainInputs := Drop(train, [TargetColumnName, IdColumnName]).value;
    var testInputs := Drop(test, [TargetColumnName]).value;
    var trainLabels := ColumnCells(train.rows, TargetColumnName);
    var testLabels := ColumnCells(test.rows, TargetColumnName);
    assert Transformation(lib, train, test) == LabelStage(lib, trainInputs, testInputs, trainLabels, testLabels);
    var classes := FitLabels(trainLabels).value.0;
    assert v !in classes;
    assert LabelsWith(classes, testLabels).Err? by {
      assert testLabels[i] == Text(v);
    }
  }

  /** The training frame must carry the id column, which the step drops;
      without it the run raises before the label encoder is touched. */
  lemma TrainingFrameNeedsId(lib: NumericScaler, train: Frame, test: Frame)
    requires IdColumnName !in train.columns
    ensures Transformation(lib, train, test) == TransformationRun(None, None, Transformation(lib, train, test).result)
    ensures Transformation(lib, train, test).result.Err?
  {
    assert IdColumnName in [TargetColumnName, IdColumnName];
  }

  /** The test frame keeps its id column, and since the transformer drops
      unselected columns that changes nothing in the test features. */
  lemma TestIdColumnIgnored(lib: NumericScaler, st: PreprocessorState, test: Frame)
    requires ValidState(st)
    requires TargetColumnName in test.columns && IdColumnName in test.columns
    ensures IdColumnName in Drop(test, [TargetColumnName]).value.columns
    ensures TransformWith(lib, st, Drop(test, [TargetColumnName]).value)
            == TransformWith(lib, st, Drop(test, [TargetColumnName, IdColumnName]).value)
  {
    var kept := Drop(test, [TargetColumnName]).value;
    var both := Drop(test, [TargetColumnName, IdColumnName]).value;
    assert kept.columns == both.columns + {IdColumnName};
    ColumnsPartition();
    if HasFeatureColumns(both.columns) {
      ExtraColumnsIgnored(lib, st, both.columns, {IdColumnName}, test.rows);
    } else {
      assert !HasFeatureColumns(kept.columns);
    }
  }

  class DataTransformation {
    const preprocessingObjFilePath: string := PreprocessorObjFilePath

    /** `get_data_transformer_object`: an unfitted column transformer over
        the numeric and categorical column lists. */
    method GetDataTransformerObject(lib: NumericScaler) returns (p: Preprocessor)
      ensures fresh(p) && p.lib == lib && p.state == None && p.Valid()
    {
      p := new Preprocessor(lib);
    }

    /** `initiate_data_transformation`, with the module-level label encoder
        and the artifact directory as parameters. */
    method InitiateDataTransformation(train: Frame, test: Frame, lib: NumericScaler,
                                      labelEncoder: LabelEncoder, store: ArtifactStore<PreprocessorState>)
      returns (r: Result<TransformationOutput>)
      modifies labelEncoder, store
      ensures r == Transformation(lib, train, test).result
      ensures Transformation(lib, train, test).labelClasses.None? ==> labelEncoder.classes == old(labelEncoder.classes)
      ensures Transformation(lib, train, test).labelClasses.Some? ==> labelEncoder.classes == Transformation(lib, train, test).labelClasses
      ensures Transformation(lib, train, test).saved.None? ==> store.files == old(store.files)
      ensures Transformation(lib, train, test).saved.Some? ==>
              store.files == old(store.files)[PreprocessorObjFilePath := Transformation(lib, train, test).saved.value]
    {
      var preprocessingObj := GetDataTransformerObject(lib);
      var trainInputs := Drop(train, [TargetColumnName, IdColumnName]);
      if trainInputs.Err? {
        return Err(trainInputs.failure);
      }
      var trainTarget := Column(train, TargetColumnName);
      var testInputs := Drop(test, [TargetColumnName]);
      if testInputs.Err? {
        return Err(testInputs.failure);
      }
      var testTarget := Column(test, TargetColumnName);
      var trainCodes := labelEncoder.FitTransform(trainTarget.value);
      if trainCodes.Err? {
        return Err(trainCodes.failure);
      }
      var testCodes := labelEncoder.Transform(testTarget.value);
      if testCodes.Err? {
        return Err(testCodes.failure);
      }
      ghost var classes := labelEncoder.classes.value;
      r := FitAndAssemble(preprocessingObj, classes, trainCodes.value, testCodes.value, trainInputs.value, testInputs.value, store);
    }

    /** Lines 90-102 of the step: the preprocessor is fitted on the training
        inputs only, transforms both, the codes are appended as the last
        column, and the fitted preprocessor is saved. */
    method FitAndAssemble(preprocessingObj: Preprocessor, ghost classes: set<string>, trainCodes: seq<real>, testCodes: seq<real>,
                          trainInputs: Frame, testInputs: Frame, store: ArtifactStore<PreprocessorState>)
      returns (r: Result<TransformationOutput>)
      requires preprocessingObj.Valid()
      modifies preprocessingObj, store
      ensures r == FeatureStage(preprocessingObj.lib, classes, trainInputs, testInputs, trainCodes, testCodes).result
      ensures FeatureStage(preprocessingObj.lib, classes, trainInputs, testInputs, trainCodes, testCodes).saved.None? ==>
              store.files == old(store.files)
      ensures FeatureStage(preprocessingObj.lib, classes, trainInputs, testInputs, trainCodes, testCodes).saved.Some? ==>
              store.files == old(store.files)[PreprocessorObjFilePath :=
                FeatureStage(preprocessingObj.lib, classes, trainInputs, testInputs, trainCodes, testCodes).saved.value]
    {
      var trainFeatures := preprocessingObj.FitTransform(trainInputs);
      if trainFeatures.Err? {
        return Err(trainFeatures.failure);
      }
      var testFeatures := preprocessingObj.Transform(testInputs);
      if testFeatures.Err? {
        return Err(testFeatures.failure);
      }
      r := AppendAndSave(preprocessingObj.state.value, classes, trainFeatures.value, testFeatures.value, trainCodes, testCodes, store);
    }

    /** Lines 94-108 of the step. */
    method AppendAndSave(st: PreprocessorState, ghost classes: set<string>, trainFeatures: Array2, testFeatures: Array2,
                         trainCodes: seq<real>, testCodes: seq<real>, store: ArtifactStore<PreprocessorState>)
      returns (r: Result<TransformationOutput>)
      modifies store
      ensures r == Assembly(classes, st, trainFeatures, testFeatures, trainCodes, testCodes).result
      ensures r.Err? ==> store.files == old(store.files)
      ensures r.Ok? ==> store.files == old(store.files)[PreprocessorObjFilePath := st]
    {
      var trainArr := AppendColumn(trainFeatures, trainCodes);
      if trainArr.Err? {
        return Err(trainArr.failure);
      }
      var testArr := AppendColumn(testFeatures, testCodes);
      if testArr.Err? {
        return Err(testArr.failure);
      }
      store.Save(preprocessingObjFilePath, st);
      r := Ok(TransformationOutput(trainArr.value, testArr.value, preprocessingObjFilePath));
    }
  }
}
