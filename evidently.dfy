/**
 * The single-dataset Evidently profiling step: it validates the optional list
 * of ignored columns against the dataset, drops those columns, chooses the
 * column mapping, and hands the result to Evidently's profiler.
 *
 * A data frame is a sequence of named columns, each with its cells.
 */
module EvidentlyProfileStep {
  import opened Wrappers

  datatype Column<V> = Column(name: string, values: seq<V>)
  datatype DataFrame<V> = DataFrame(columns: seq<Column<V>>)

  /** The step's column mapping parameter. */
  datatype ColumnMapping = ColumnMapping(target: Option<string>, prediction: Option<string>,
                                         numericalFeatures: seq<string>, categoricalFeatures: seq<string>)

  /** Evidently's own column mapping, built from the parameter by a foreign conversion. */
  datatype EvidentlyColumnMapping = EvidentlyColumnMapping(source: ColumnMapping)

  datatype ProfileParams = ProfileParams(ignoredCols: Option<seq<string>>, columnMapping: Option<ColumnMapping>,
                                         profileSections: seq<string>, verboseLevel: int)

  datatype Error = ValueError(message: string)

  /** The arguments of the profiling call. */
  datatype ProfilerCall<V> = ProfilerCall(dataset: DataFrame<V>, profileSections: seq<string>,
                                          columnMapping: Option<EvidentlyColumnMapping>, verboseLevel: int)

  /** The profile and the dashboard HTML Evidently produces for a call; only
      the call they were produced from is modelled. */
  datatype Profile<V> = Profile(call: ProfilerCall<V>)
  datatype Dashboard<V> = Dashboard(call: ProfilerCall<V>)

  /** The HTML the dashboard renders; only the dashboard it was rendered from is modelled. */
  datatype DashboardHtml<V> = DashboardHtml(dashboard: Dashboard<V>)

  const EmptyIgnoredColsMessage := "Expects None or list of columns in strings, but got []"
  const ColumnNotFoundMessage := "Column is not found in input dataset"

  function ColumnNames<V>(columns: seq<Column<V>>): (names: seq<string>)
    ensures |names| == |columns|
    ensures forall i :: 0 <= i < |columns| ==> names[i] == columns[i].name
  {
    if columns == [] then [] else [columns[0].name] + ColumnNames(columns[1..])
  }

  /** `a` is `b` with some elements left out, the rest in their order. */
  ghost predicate IsSubsequence<T>(a: seq<T>, b: seq<T>)
    decreases |b|
  {
    if a == [] then true
    else if b == [] then false
    else (a[0] == b[0] && IsSubsequence(a[1..], b[1..])) || IsSubsequence(a, b[1..])
  }

  /** `DataFrame.drop(labels, axis=1)`: every column whose name is a label goes,
      every other column stays, cells and all. */
  function DropColumns<V>(columns: seq<Column<V>>, labels: seq<string>): (kept: seq<Column<V>>)
    ensures forall c :: c in kept ==> c in columns && c.name !in labels
    ensures forall i :: 0 <= i < |columns| && columns[i].name !in labels ==> columns[i] in kept
    ensures |kept| <= |columns|
  {
    if columns == [] then []
    else (if columns[0].name in labels then [] else [columns[0]]) + DropColumns(columns[1..], labels)
  }

  /** The three-way validation of `ignored_cols`, then the drop. An empty list
      is refused before the subset test, so it never reaches the drop. */
  function SelectColumns<V>(dataset: DataFrame<V>, ignoredCols: Option<seq<string>>): (r: Result<DataFrame<V>, Error>)
    ensures ignoredCols.None? ==> r == Success(dataset)
    ensures ignoredCols == Some([]) ==> r == Failure(ValueError(EmptyIgnoredColsMessage))
    ensures (ignoredCols.Some? && ignoredCols.value != []
             && exists ignored :: ignored in ignoredCols.value && ignored !in ColumnNames(dataset.columns))
            ==> r == Failure(ValueError(ColumnNotFoundMessage))
    ensures (r.Success? && ignoredCols.Some?) ==>
              && ignoredCols.value != []
              && (forall ignored :: ignored in ignoredCols.value ==> ignored in ColumnNames(dataset.columns))
              && (forall c :: c in r.value.columns ==> c in dataset.columns && c.name !in ignoredCols.value)
              && (forall j :: (0 <= j < |dataset.columns| && dataset.columns[j].name !in ignoredCols.value)
                      ==> dataset.columns[j] in r.value.columns)
  {
    match ignoredCols
    case None => Success(dataset)
    case Some(labels) =>
      if labels == [] then
        Failure(ValueError(EmptyIgnoredColsMessage))
      else if !(forall ignored :: ignored in labels ==> ignored in ColumnNames(dataset.columns)) then
        Failure(ValueError(ColumnNotFoundMessage))
      else
        Success(DataFrame(DropColumns(dataset.columns, labels)))
  }

  /** The foreign conversion `to_evidently_column_mapping`. */
  function ToEvidentlyColumnMapping(mapping: ColumnMapping): EvidentlyColumnMapping
  {
    EvidentlyColumnMapping(mapping)
  }

  /** The foreign profiling call of the data validator. */
  function DataProfiling<V>(call: ProfilerCall<V>): (Profile<V>, Dashboard<V>)
  {
    (Profile(call), Dashboard(call))
  }

  /** The foreign `Dashboard.html()`. */
  function Html<V>(dashboard: Dashboard<V>): DashboardHtml<V>
  {
    DashboardHtml(dashboard)
  }

  /** The step's entry point: validation errors come before the profiling call;
      the column mapping stays absent unless the parameter sets one. It returns
      the profile and the dashboard's HTML. */
  function Entrypoint<V>(dataset: DataFrame<V>, params: ProfileParams): (r: Result<(Profile<V>, DashboardHtml<V>), Error>)
    ensures SelectColumns(dataset, params.ignoredCols).Failure? ==>
              r == Failure(SelectColumns(dataset, params.ignoredCols).error)
    ensures SelectColumns(dataset, params.ignoredCols).Success? ==>
              && r.Success?
              && r.value.0.call.dataset == SelectColumns(dataset, params.ignoredCols).value
              && r.value.1 == Html(Dashboard(r.value.0.call))
              && (r.value.0.call.columnMapping.Some? <==> params.columnMapping.Some?)
              && (params.columnMapping.Some? ==>
                    r.value.0.call.columnMapping == Some(ToEvidentlyColumnMapping(params.columnMapping.value)))
  {
    match SelectColumns(dataset, params.ignoredCols)
    case Failure(e) => Failure(e)
    case Success(selected) =>
      var columnMapping := if params.columnMapping.Some? then Some(ToEvidentlyColumnMapping(params.columnMapping.value))
                           else None;
      var (profile, dashboard) := DataProfiling(ProfilerCall(selected, params.profileSections, columnMapping, params.verboseLevel));
      Success((profile, Html(dashboard)))
  }

  // ----- Properties -----

  /** The drop keeps the remaining columns in their original order. */
  lemma {:induction false} DropColumnsKeepsOrder<V>(columns: seq<Column<V>>, labels: seq<string>)
    ensures IsSubsequence(DropColumns(columns, labels), columns)
  {
    if columns != [] {
      var rest := DropColumns(columns[1..], labels);
      DropColumnsKeepsOrder(columns[1..], labels);
      if columns[0].name in labels {
        assert DropColumns(columns, labels) == rest;
        SubsequenceOfTail(rest, columns);
      } else {
        assert DropColumns(columns, labels) == [columns[0]] + rest;
        assert ([columns[0]] + rest)[1..] == rest;
      }
    }
  }

  /** The drop keeps every copy of a column whose name is not a label, and no
      copy of one whose name is; with `DropColumnsKeepsOrder` this fixes the
      whole result. */
  lemma {:induction false} DropColumnsCounts<V>(columns: seq<Column<V>>, labels: seq<string>)
    ensures forall c :: multiset(DropColumns(columns, labels))[c] ==
                        if c.name in labels then 0 else multiset(columns)[c]
  {
    if columns != [] {
      DropColumnsCounts(columns[1..], labels);
      assert columns == [columns[0]] + columns[1..];
      var head := if columns[0].name in labels then [] else [columns[0]];
      assert DropColumns(columns, labels) == head + DropColumns(columns[1..], labels);
    }
  }

  lemma SubsequenceOfTail<T>(a: seq<T>, b: seq<T>)
    requires b != [] && IsSubsequence(a, b[1..])
    ensures IsSubsequence(a, b)
  {
  }

  /** The names left by the drop are the original names less the labels. */
  lemma DroppedNames<V>(columns: seq<Column<V>>, labels: seq<string>, name: string)
    ensures name in ColumnNames(DropColumns(columns, labels)) <==> name in ColumnNames(columns) && name !in labels
  {
  }

  /** A list of dataset columns that is not empty passes validation; the
      selected columns' names are the dataset's less the ignored ones, in
      their original order. */
  lemma SelectedColumnsAreTheRest<V>(dataset: DataFrame<V>, labels: seq<string>)
    requires labels != []
    requires forall name :: name in labels ==> name in ColumnNames(dataset.columns)
    ensures SelectColumns(dataset, Some(labels)) == Success(DataFrame(DropColumns(dataset.columns, labels)))
    ensures forall name :: (name in ColumnNames(DropColumns(dataset.columns, labels)))
                           <==> (name in ColumnNames(dataset.columns) && name !in labels)
    ensures IsSubsequence(DropColumns(dataset.columns, labels), dataset.columns)
  {
    DropColumnsKeepsOrder(dataset.columns, labels);
    forall name
      ensures (name in ColumnNames(DropColumns(dataset.columns, labels)))
              <==> (name in ColumnNames(dataset.columns) && name !in labels)
    {
      DroppedNames(dataset.columns, labels, name);
    }
  }
}
