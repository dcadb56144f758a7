/** The filter classes of the query API and their compilation to one SQL
    boolean expression. Every class is a datatype whose optional fields are
    `Option`s; `FilterList` builds the class's list of clauses, one clause per
    field that is set (`is not None`, so an empty list is a set field), and
    `AsSqlFilter` ANDs that list, giving TRUE for an empty list.

    Beside each class, `Admits` states directly on the entity which rows the
    filter is meant to select, and a lemma `<Class>Selects` proves that the
    compiled expression selects exactly those rows. */
module Filters {
  import opened Wrappers
  import opened Entities
  import opened Predicates

  // ---------------------------------------------------------------------
  // Compilation plumbing shared by all classes
  // ---------------------------------------------------------------------

  /** as_sql_filter: the AND of the clause list, or TRUE when it is empty. */
  function AsSqlFilter(filters: seq<Pred>): Pred {
    if filters == [] then True else And(filters)
  }

  /** Every clause of the list selects the row. */
  predicate AllSelected(filters: seq<Pred>, row: Row) {
    forall p :: p in filters ==> Selected(p, row)
  }

  /** A compiled filter selects a row iff each of its clauses does; so an
      empty clause list selects every row. */
  lemma AsSqlFilterSelects(filters: seq<Pred>, row: Row)
    ensures Selected(AsSqlFilter(filters), row) <==> AllSelected(filters, row)
  {
    if filters != [] {
      AndSelected(filters, row);
      assert AllSelected(filters, row) <==> forall i :: 0 <= i < |filters| ==> Selected(filters[i], row) by {
        if forall i :: 0 <= i < |filters| ==> Selected(filters[i], row) {
          forall p | p in filters ensures Selected(p, row) {
            var i :| 0 <= i < |filters| && filters[i] == p;
          }
        }
      }
    }
  }

  /** How AllSelected distributes over the ways clause lists are built. */
  lemma AllSelectedLaws(row: Row)
    ensures AllSelected([], row)
    ensures forall p {:trigger AllSelected([p], row)} :: AllSelected([p], row) <==> Selected(p, row)
    ensures forall a, b {:trigger AllSelected(a + b, row)} ::
      AllSelected(a + b, row) <==> AllSelected(a, row) && AllSelected(b, row)
  {
    forall p ensures AllSelected([p], row) <==> Selected(p, row) {
      assert p in [p];
    }
    forall a, b ensures AllSelected(a + b, row) <==> AllSelected(a, row) && AllSelected(b, row) {
      if AllSelected(a + b, row) {
        forall p | p in a ensures Selected(p, row) { assert p in a + b; }
        forall p | p in b ensures Selected(p, row) { assert p in a + b; }
      }
    }
  }

  /** The order in which clauses are appended does not change the compiled
      filter's value on any row, nor does repeating a clause. */
  lemma AsSqlFilterOrderIrrelevant(filters: seq<Pred>, others: seq<Pred>, row: Row)
    requires forall p :: p in filters <==> p in others
    ensures Eval(AsSqlFilter(filters), row) == Eval(AsSqlFilter(others), row)
  {
    assert forall i :: 0 <= i < |others| ==> others[i] in others;
    if filters != [] {
      assert filters[0] in filters;
      AndOrderIrrelevant(filters, others, row);
    }
  }

  /** The values of an id (or other integer) list in an IN clause. */
  function IntVals(xs: seq<int>): (vs: seq<Value>)
    ensures |vs| == |xs|
    ensures forall x :: IntV(x) in vs <==> x in xs
  {
    if xs == [] then [] else [IntV(xs[0])] + IntVals(xs[1..])
  }

  /** The values of a string list in an IN clause. */
  function StrVals(xs: seq<string>): (vs: seq<Value>)
    ensures |vs| == |xs|
    ensures forall x :: StrV(x) in vs <==> x in xs
    ensures forall v :: v in vs ==> v.StrV?
  {
    if xs == [] then [] else [StrV(xs[0])] + StrVals(xs[1..])
  }

  // ---------------------------------------------------------------------
  // What each kind of operator field admits, stated on the column's value
  // ---------------------------------------------------------------------

  /** `any_`: the value is one of the listed ones; unset admits everything. */
  predicate AnyAdmits<T(==)>(any: Option<seq<T>>, v: T) {
    any.None? || v in any.value
  }

  /** `any_` on a nullable column: a NULL value is in no list. */
  predicate AnyNullableAdmits<T(==)>(any: Option<seq<T>>, v: Option<T>) {
    any.None? || (v.Some? && v.value in any.value)
  }

  /** `not_any_`: the value is none of the listed ones. */
  predicate NotAnyAdmits<T(==)>(notAny: Option<seq<T>>, v: T) {
    notAny.None? || v !in notAny.value
  }

  /** `all_` and `is_null_` on a tag list: every listed tag is carried (a set
      superset test, so order and repetition in `all_` do not matter), and the
      list is empty exactly when `is_null_` is true. */
  predicate TagsAdmits(all: Option<seq<string>>, isNull: Option<bool>, tags: seq<string>) {
    && (all.Some? ==> forall t :: t in all.value ==> t in tags)
    && (isNull.Some? ==> (tags == [] <==> isNull.value))
  }

  /** `is_null_` on a nullable column. */
  predicate IsNullAdmits<T>(isNull: Option<bool>, v: Option<T>) {
    isNull.Some? ==> (v.None? <==> isNull.value)
  }

  /** `before_`: an inclusive upper bound; a NULL time fails it. */
  predicate BeforeAdmits(before: Option<Time>, t: Option<Time>) {
    before.Some? ==> t.Some? && t.value <= before.value
  }

  /** `after_`: an inclusive lower bound; a NULL time fails it. */
  predicate AfterAdmits(after: Option<Time>, t: Option<Time>) {
    after.Some? ==> t.Some? && t.value >= after.value
  }

  /** The clause of an `is_null_` field on a nullable column. */
  function NullClause(col: Column, isNull: bool): Pred {
    if isNull then IsNull(col) else IsNotNull(col)
  }

  /** The clause of an `is_null_` field on a tag list: equal or unequal to []. */
  function EmptyTagsClause(isNull: bool): Pred {
    if isNull then Eq(TagsCol, ListV([])) else Ne(TagsCol, ListV([]))
  }

  // ---------------------------------------------------------------------
  // Flows
  // ---------------------------------------------------------------------

  datatype FlowFilterId = FlowFilterId(any: Option<seq<Id>>) {
    function FilterList(): seq<Pred> {
      if any.Some? then [In(IdCol, IntVals(any.value))] else []
    }
    predicate Admits(f: Flow) {
      AnyAdmits(any, f.id)
    }
  }

  lemma FlowFilterIdSelects(filter: FlowFilterId, f: Flow)
    ensures Selected(AsSqlFilter(filter.FilterList()), FlowRow(f)) <==> filter.Admits(f)
  {
    AsSqlFilterSelects(filter.FilterList(), FlowRow(f));
    AllSelectedLaws(FlowRow(f));
  }

  datatype FlowFilterName = FlowFilterName(any: Option<seq<string>>) {
    function FilterList(): seq<Pred> {
      if any.Some? then [In(NameCol, StrVals(any.value))] else []
    }
    predicate Admits(f: Flow) {
      AnyAdmits(any, f.name)
    }
  }

  lemma FlowFilterNameSelects(filter: FlowFilterName, f: Flow)
    ensures Selected(AsSqlFilter(filter.FilterList()), FlowRow(f)) <==> filter.Admits(f)
  {
    AsSqlFilterSelects(filter.FilterList(), FlowRow(f));
    AllSelectedLaws(FlowRow(f));
  }

  datatype FlowFilterTags = FlowFilterTags(all: Option<seq<string>>, isNull: Option<bool>) {
    function FilterList(): seq<Pred> {
      (if all.Some? then [HasAllKeys(TagsCol, all.value)] else [])
      + (if isNull.Some? then [EmptyTagsClause(isNull.value)] else [])
    }
    predicate Admits(f: Flow) {
      TagsAdmits(all, isNull, f.tags)
    }
  }

  lemma FlowFilterTagsSelects(filter: FlowFilterTags, f: Flow)
    ensures Selected(AsSqlFilter(filter.FilterList()), FlowRow(f)) <==> filter.Admits(f)
  {
    AsSqlFilterSelects(filter.FilterList(), FlowRow(f));
    AllSelectedLaws(FlowRow(f));
  }

  /** Flows matching every set criterion. */
  datatype FlowFilter = FlowFilter(
    id: Option<FlowFilterId>,
    name: Option<FlowFilterName>,
    tags: Option<FlowFilterTags>)
  {
    function FilterList(): seq<Pred> {
      (if id.Some? then [AsSqlFilter(id.value.FilterList())] else [])
      + (if name.Some? then [AsSqlFilter(name.value.FilterList())] else [])
      + (if tags.Some? then [AsSqlFilter(tags.value.FilterList())] else [])
    }
    predicate Admits(f: Flow) {
      && (id.Some? ==> id.value.Admits(f))
      && (name.Some? ==> name.value.Admits(f))
      && (tags.Some? ==> tags.value.Admits(f))
    }
  }

  /** A FlowFilter list holds one compiled clause per set field, so it selects a
      row iff each set field's compiled filter does. */
  lemma FlowFilterClauses(filter: FlowFilter, row: Row)
    ensures AllSelected(filter.FilterList(), row) <==>
      && (filter.id.Some? ==> Selected(AsSqlFilter(filter.id.value.FilterList()), row))
      && (filter.name.Some? ==> Selected(AsSqlFilter(filter.name.value.FilterList()), row))
      && (filter.tags.Some? ==> Selected(AsSqlFilter(filter.tags.value.FilterList()), row))
  {
    AllSelectedLaws(row);
  }

  lemma FlowFilterSelects(filter: FlowFilter, f: Flow)
    ensures Selected(AsSqlFilter(filter.FilterList()), FlowRow(f)) <==> filter.Admits(f)
  {
    AsSqlFilterSelects(filter.FilterList(), FlowRow(f));
    FlowFilterClauses(filter, FlowRow(f));
    if filter.id.Some? { FlowFilterIdSelects(filter.id.value, f); }
    if filter.name.Some? { FlowFilterNameSelects(filter.name.value, f); }
    if filter.tags.Some? { FlowFilterTagsSelects(filter.tags.value, f); }
  }

  // ---------------------------------------------------------------------
  // Flow runs
  // ---------------------------------------------------------------------

  datatype FlowRunFilterId = FlowRunFilterId(any: Option<seq<Id>>, notAny: Option<seq<Id>>) {
    function FilterList(): seq<Pred> {
      (if any.Some? then [In(IdCol, IntVals(any.value))] else [])
      + (if notAny.Some? then [NotIn(IdCol, IntVals(notAny.value))] else [])
    }
    predicate Admits(r: FlowRun) {
      AnyAdmits(any, r.id) && NotAnyAdmits(notAny, r.id)
    }
  }

  lemma FlowRunFilterIdSelects(filter: FlowRunFilterId, r: FlowRun)
    ensures Selected(AsSqlFilter(filter.FilterList()), FlowRunRow(r)) <==> filter.Admits(r)
  {
    AsSqlFilterSelects(filter.FilterList(), FlowRunRow(r));
    AllSelectedLaws(FlowRunRow(r));
  }

  datatype FlowRunFilterName = FlowRunFilterName(any: Option<seq<string>>) {
    function FilterList(): seq<Pred> {
      if any.Some? then [In(NameCol, StrVals(any.value))] else []
    }
    predicate Admits(r: FlowRun) {
      AnyAdmits(any, r.name)
    }
  }

  lemma FlowRunFilterNameSelects(filter: FlowRunFilterName, r: FlowRun)
    ensures Selected(AsSqlFilter(filter.FilterList()), FlowRunRow(r)) <==> filter.Admits(r)
  {
    AsSqlFilterSelects(filter.FilterList(), FlowRunRow(r));
    AllSelectedLaws(FlowRunRow(r));
  }

  datatype FlowRunFilterTags = FlowRunFilterTags(all: Option<seq<string>>, isNull: Option<bool>) {
    function FilterList(): seq<Pred> {
      (if all.Some? then [HasAllKeys(TagsCol, all.value)] else [])
      + (if isNull.Some? then [EmptyTagsClause(isNull.value)] else [])
    }
    predicate Admits(r: FlowRun) {
      TagsAdmits(all, isNull, r.tags)
    }
  }

  lemma FlowRunFilterTagsSelects(filter: FlowRunFilterTags, r: FlowRun)
    ensures Selected(AsSqlFilter(filter.FilterList()), FlowRunRow(r)) <==> filter.Admits(r)
  {
    AsSqlFilterSelects(filter.FilterList(), FlowRunRow(r));
    AllSelectedLaws(FlowRunRow(r));
  }

  datatype FlowRunFilterDeploymentId = FlowRunFilterDeploymentId(any: Option<seq<Id>>, isNull: Option<bool>) {
    function FilterList(): seq<Pred> {
      (if any.Some? then [In(DeploymentIdCol, IntVals(any.value))] else [])
      + (if isNull.Some? then [NullClause(DeploymentIdCol, isNull.value)] else [])
    }
    predicate Admits(r: FlowRun) {
      AnyNullableAdmits(any, r.deploymentId) && IsNullAdmits(isNull, r.deploymentId)
    }
  }

  lemma FlowRunFilterDeploymentIdSelects(filter: FlowRunFilterDeploymentId, r: FlowRun)
    ensures Selected(AsSqlFilter(filter.FilterList()), FlowRunRow(r)) <==> filter.Admits(r)
  {
    AsSqlFilterSelects(filter.FilterList(), FlowRunRow(r));
    AllSelectedLaws(FlowRunRow(r));
  }

  datatype FlowRunFilterStateType = FlowRunFilterStateType(any: Option<seq<StateType>>) {
    function FilterList(): seq<Pred> {
      if any.Some? then [In(StateTypeCol, IntVals(any.value))] else []
    }
    predicate Admits(r: FlowRun) {
      AnyNullableAdmits(any, r.stateType)
    }
  }

  lemma FlowRunFilterStateTypeSelects(filter: FlowRunFilterStateType, r: FlowRun)
    ensures AllSelected(filter.FilterList(), FlowRunRow(r)) <==> filter.Admits(r)
    ensures Selected(AsSqlFilter(filter.FilterList()), FlowRunRow(r)) <==> filter.Admits(r)
  {
    AsSqlFilterSelects(filter.FilterList(), FlowRunRow(r));
    AllSelectedLaws(FlowRunRow(r));
  }

  datatype FlowRunFilterStateName = FlowRunFilterStateName(any: Option<seq<string>>) {
    function FilterList(): seq<Pred> {
      if any.Some? then [StateNameIn(any.value)] else []
    }
    predicate Admits(r: FlowRun) {
      AnyNullableAdmits(any, r.stateName)
    }
  }

  lemma FlowRunFilterStateNameSelects(filter: FlowRunFilterStateName, r: FlowRun)
    ensures AllSelected(filter.FilterList(), FlowRunRow(r)) <==> filter.Admits(r)
    ensures Selected(AsSqlFilter(filter.FilterList()), FlowRunRow(r)) <==> filter.Admits(r)
  {
    AsSqlFilterSelects(filter.FilterList(), FlowRunRow(r));
    AllSelectedLaws(FlowRunRow(r));
  }

  /** A state filter splices the clauses of its `type` and `name` parts into
      its own list (rather than nesting their compiled filters). */
  datatype FlowRunFilterState = FlowRunFilterState(
    stateType: Option<FlowRunFilterStateType>,
    stateName: Option<FlowRunFilterStateName>)
  {
    function FilterList(): seq<Pred> {
      (if stateType.Some? then stateType.value.FilterList() else [])
      + (if stateName.Some? then stateName.value.FilterList() else [])
    }
    predicate Admits(r: FlowRun) {
      && (stateType.Some? ==> stateType.value.Admits(r))
      && (stateName.Some? ==> stateName.value.Admits(r))
    }
  }

  lemma FlowRunFilterStateSelects(filter: FlowRunFilterState, r: FlowRun)
    ensures Selected(AsSqlFilter(filter.FilterList()), FlowRunRow(r)) <==> filter.Admits(r)
  {
    AsSqlFilterSelects(filter.FilterList(), FlowRunRow(r));
    if filter.stateType.Some? { FlowRunFilterStateTypeSelects(filter.stateType.value, r); }
    if filter.stateName.Some? { FlowRunFilterStateNameSelects(filter.stateName.value, r); }
  }

  datatype FlowRunFilterFlowVersion = FlowRunFilterFlowVersion(any: Option<seq<string>>) {
    function FilterList(): seq<Pred> {
      if any.Some? then [In(FlowVersionCol, StrVals(any.value))] else []
    }
    predicate Admits(r: FlowRun) {
      AnyNullableAdmits(any, r.flowVersion)
    }
  }

  lemma FlowRunFilterFlowVersionSelects(filter: FlowRunFilterFlowVersion, r: FlowRun)
    ensures Selected(AsSqlFilter(filter.FilterList()), FlowRunRow(r)) <==> filter.Admits(r)
  {
    AsSqlFilterSelects(filter.FilterList(), FlowRunRow(r));
    AllSelectedLaws(FlowRunRow(r));
  }

  datatype FlowRunFilterStartTime = FlowRunFilterStartTime(
    before: Option<Time>, after: Option<Time>, isNull: Option<bool>)
  {
    function FilterList(): seq<Pred> {
      (if before.Some? then [Le(StartTimeCol, before.value)] else [])
      + (if after.Some? then [Ge(StartTimeCol, after.value)] else [])
      + (if isNull.Some? then [NullClause(StartTimeCol, isNull.value)] else [])
    }
    predicate Admits(r: FlowRun) {
      && BeforeAdmits(before, r.startTime)
      && AfterAdmits(after, r.startTime)
      && IsNullAdmits(isNull, r.startTime)
    }
  }

  lemma FlowRunFilterStartTimeSelects(filter: FlowRunFilterStartTime, r: FlowRun)
    ensures Selected(AsSqlFilter(filter.FilterList()), FlowRunRow(r)) <==> filter.Admits(r)
  {
    AsSqlFilterSelects(filter.FilterList(), FlowRunRow(r));
    AllSelectedLaws(FlowRunRow(r));
  }

  datatype FlowRunFilterExpectedStartTime = FlowRunFilterExpectedStartTime(
    before: Option<Time>, after: Option<Time>)
  {
    function FilterList(): seq<Pred> {
      (if before.Some? then [Le(ExpectedStartTimeCol, before.value)] else [])
      + (if after.Some? then [Ge(ExpectedStartTimeCol, after.value)] else [])
    }
    predicate Admits(r: FlowRun) {
      BeforeAdmits(before, r.expectedStartTime) && AfterAdmits(after, r.expectedStartTime)
    }
  }

  lemma FlowRunFilterExpectedStartTimeSelects(filter: FlowRunFilterExpectedStartTime, r: FlowRun)
    ensures Selected(AsSqlFilter(filter.FilterList()), FlowRunRow(r)) <==> filter.Admits(r)
  {
    AsSqlFilterSelects(filter.FilterList(), FlowRunRow(r));
    AllSelectedLaws(FlowRunRow(r));
  }

  datatype FlowRunFilterNextScheduledStartTime = FlowRunFilterNextScheduledStartTime(
    before: Option<Time>, after: Option<Time>)
  {
    function FilterList(): seq<Pred> {
      (if before.Some? then [Le(NextScheduledStartTimeCol, before.value)] else [])
      + (if after.Some? then [Ge(NextScheduledStartTimeCol, after.value)] else [])
    }
    predicate Admits(r: FlowRun) {
      BeforeAdmits(before, r.nextScheduledStartTime) && AfterAdmits(after, r.nextScheduledStartTime)
    }
  }

  lemma FlowRunFilterNextScheduledStartTimeSelects(filter: FlowRunFilterNextScheduledStartTime, r: FlowRun)
    ensures Selected(AsSqlFilter(filter.FilterList()), FlowRunRow(r)) <==> filter.Admits(r)
  {
    AsSqlFilterSelects(filter.FilterList(), FlowRunRow(r));
    AllSelectedLaws(FlowRunRow(r));
  }

  datatype FlowRunFilterParentTaskRunId = FlowRunFilterParentTaskRunId(any: Option<seq<Id>>, isNull: Option<bool>) {
    function FilterList(): seq<Pred> {
      (if any.Some? then [In(ParentTaskRunIdCol, IntVals(any.value))] else [])
      + (if isNull.Some? then [NullClause(ParentTaskRunIdCol, isNull.value)] else [])
    }
    predicate Admits(r: FlowRun) {
      AnyNullableAdmits(any, r.parentTaskRunId) && IsNullAdmits(isNull, r.parentTaskRunId)
    }
  }

  lemma FlowRunFilterParentTaskRunIdSelects(filter: FlowRunFilterParentTaskRunId, r: FlowRun)
    ensures Selected(AsSqlFilter(filter.FilterList()), FlowRunRow(r)) <==> filter.Admits(r)
  {
    AsSqlFilterSelects(filter.FilterList(), FlowRunRow(r));
    AllSelectedLaws(FlowRunRow(r));
  }

  /** Flow runs matching every set criterion. */
  datatype FlowRunFilter = FlowRunFilter(
    id: Option<FlowRunFilterId>,
    name: Option<FlowRunFilterName>,
    tags: Option<FlowRunFilterTags>,
    deploymentId: Option<FlowRunFilterDeploymentId>,
    state: Option<FlowRunFilterState>,
    flowVersion: Option<FlowRunFilterFlowVersion>,
    startTime: Option<FlowRunFilterStartTime>,
    expectedStartTime: Option<FlowRunFilterExpectedStartTime>,
    nextScheduledStartTime: Option<FlowRunFilterNextScheduledStartTime>,
    parentTaskRunId: Option<FlowRunFilterParentTaskRunId>)
  {
    /** The clauses in the order the source visits the fields: `flow_version`
        comes before `state`. */
    function FilterList(): seq<Pred> {
      (if id.Some? then [AsSqlFilter(id.value.FilterList())] else [])
      + (if name.Some? then [AsSqlFilter(name.value.FilterList())] else [])
      + (if tags.Some? then [AsSqlFilter(tags.value.FilterList())] else [])
      + (if deploymentId.Some? then [AsSqlFilter(deploymentId.value.FilterList())] else [])
      + (if flowVersion.Some? then [AsSqlFilter(flowVersion.value.FilterList())] else [])
      + (if state.Some? then [AsSqlFilter(state.value.FilterList())] else [])
      + (if startTime.Some? then [AsSqlFilter(startTime.value.FilterList())] else [])
      + (if expectedStartTime.Some? then [AsSqlFilter(expectedStartTime.value.FilterList())] else [])
      + (if nextScheduledStartTime.Some? then [AsSqlFilter(nextScheduledStartTime.value.FilterList())] else [])
      + (if parentTaskRunId.Some? then [AsSqlFilter(parentTaskRunId.value.FilterList())] else [])
    }

    /** The same clauses in the order the fields are declared (`state` before
        `flow_version`), as a reference for the visiting order. */
    function DeclarationOrderList(): seq<Pred> {
      (if id.Some? then [AsSqlFilter(id.value.FilterList())] else [])
      + (if name.Some? then [AsSqlFilter(name.value.FilterList())] else [])
      + (if tags.Some? then [AsSqlFilter(tags.value.FilterList())] else [])
      + (if deploymentId.Some? then [AsSqlFilter(deploymentId.value.FilterList())] else [])
      + (if state.Some? then [AsSqlFilter(state.value.FilterList())] else [])
      + (if flowVersion.Some? then [AsSqlFilter(flowVersion.value.FilterList())] else [])
      + (if startTime.Some? then [AsSqlFilter(startTime.value.FilterList())] else [])
      + (if expectedStartTime.Some? then [AsSqlFilter(expectedStartTime.value.FilterList())] else [])
      + (if nextScheduledStartTime.Some? then [AsSqlFilter(nextScheduledStartTime.value.FilterList())] else [])
      + (if parentTaskRunId.Some? then [AsSqlFilter(parentTaskRunId.value.FilterList())] else [])
    }

    predicate Admits(r: FlowRun) {
      && (id.Some? ==> id.value.Admits(r))
      && (name.Some? ==> name.value.Admits(r))
      && (tags.Some? ==> tags.value.Admits(r))
      && (deploymentId.Some? ==> deploymentId.value.Admits(r))
      && (state.Some? ==> state.value.Admits(r))
      && (flowVersion.Some? ==> flowVersion.value.Admits(r))
      && (startTime.Some? ==> startTime.value.Admits(r))
      && (expectedStartTime.Some? ==> expectedStartTime.value.Admits(r))
      && (nextScheduledStartTime.Some? ==> nextScheduledStartTime.value.Admits(r))
      && (parentTaskRunId.Some? ==> parentTaskRunId.value.Admits(r))
    }
  }

  /** A FlowRunFilter list holds one compiled clause per set field, so it selects a
      row iff each set field's compiled filter does. */
  lemma FlowRunFilterClauses(filter: FlowRunFilter, row: Row)
    ensures AllSelected(filter.FilterList(), row) <==>
      && (filter.id.Some? ==> Selected(AsSqlFilter(filter.id.value.FilterList()), row))
      && (filter.name.Some? ==> Selected(AsSqlFilter(filter.name.value.FilterList()), row))
      && (filter.tags.Some? ==> Selected(AsSqlFilter(filter.tags.value.FilterList()), row))
      && (filter.deploymentId.Some? ==> Selected(AsSqlFilter(filter.deploymentId.value.FilterList()), row))
      && (filter.flowVersion.Some? ==> Selected(AsSqlFilter(filter.flowVersion.value.FilterList()), row))
      && (filter.state.Some? ==> Selected(AsSqlFilter(filter.state.value.FilterList()), row))
      && (filter.startTime.Some? ==> Selected(AsSqlFilter(filter.startTime.value.FilterList()), row))
      && (filter.expectedStartTime.Some? ==> Selected(AsSqlFilter(filter.expectedStartTime.value.FilterList()), row))
      && (filter.nextScheduledStartTime.Some? ==> Selected(AsSqlFilter(filter.nextScheduledStartTime.value.FilterList()), row))
      && (filter.parentTaskRunId.Some? ==> Selected(AsSqlFilter(filter.parentTaskRunId.value.FilterList()), row))
  {
    AllSelectedLaws(row);
  }

  lemma FlowRunFilterSelects(filter: FlowRunFilter, r: FlowRun)
    ensures Selected(AsSqlFilter(filter.FilterList()), FlowRunRow(r)) <==> filter.Admits(r)
  {
    AsSqlFilterSelects(filter.FilterList(), FlowRunRow(r));
    FlowRunFilterClauses(filter, FlowRunRow(r));
    if filter.id.Some? { FlowRunFilterIdSelects(filter.id.value, r); }
    if filter.name.Some? { FlowRunFilterNameSelects(filter.name.value, r); }
    if filter.tags.Some? { FlowRunFilterTagsSelects(filter.tags.value, r); }
    if filter.deploymentId.Some? { FlowRunFilterDeploymentIdSelects(filter.deploymentId.value, r); }
    if filter.flowVersion.Some? { FlowRunFilterFlowVersionSelects(filter.flowVersion.value, r); }
    if filter.state.Some? { FlowRunFilterStateSelects(filter.state.value, r); }
    if filter.startTime.Some? { FlowRunFilterStartTimeSelects(filter.startTime.value, r); }
    if filter.expectedStartTime.Some? {
      FlowRunFilterExpectedStartTimeSelects(filter.expectedStartTime.value, r);
    }
    if filter.nextScheduledStartTime.Some? {
      FlowRunFilterNextScheduledStartTimeSelects(filter.nextScheduledStartTime.value, r);
    }
    if filter.parentTaskRunId.Some? {
      FlowRunFilterParentTaskRunIdSelects(filter.parentTaskRunId.value, r);
    }
  }

  /** Visiting `flow_version` before `state` gives the same value, on every
      row, as visiting the fields in declaration order. */
  lemma FlowRunFilterVisitOrderIrrelevant(filter: FlowRunFilter, row: Row)
    ensures Eval(AsSqlFilter(filter.FilterList()), row)
         == Eval(AsSqlFilter(filter.DeclarationOrderList()), row)
  {
    AsSqlFilterOrderIrrelevant(filter.FilterList(), filter.DeclarationOrderList(), row);
  }

  // ---------------------------------------------------------------------
  // Task runs
  // ---------------------------------------------------------------------

  datatype TaskRunFilterId = TaskRunFilterId(any: Option<seq<Id>>) {
    function FilterList(): seq<Pred> {
      if any.Some? then [In(IdCol, IntVals(any.value))] else []
    }
    predicate Admits(t: TaskRun) {
      AnyAdmits(any, t.id)
    }
  }

  lemma TaskRunFilterIdSelects(filter: TaskRunFilterId, t: TaskRun)
    ensures Selected(AsSqlFilter(filter.FilterList()), TaskRunRow(t)) <==> filter.Admits(t)
  {
    AsSqlFilterSelects(filter.FilterList(), TaskRunRow(t));
    AllSelectedLaws(TaskRunRow(t));
  }

  datatype TaskRunFilterName = TaskRunFilterName(any: Option<seq<string>>) {
    function FilterList(): seq<Pred> {
      if any.Some? then [In(NameCol, StrVals(any.value))] else []
    }
    predicate Admits(t: TaskRun) {
      AnyAdmits(any, t.name)
    }
  }

  lemma TaskRunFilterNameSelects(filter: TaskRunFilterName, t: TaskRun)
    ensures Selected(AsSqlFilter(filter.FilterList()), TaskRunRow(t)) <==> filter.Admits(t)
  {
    AsSqlFilterSelects(filter.FilterList(), TaskRunRow(t));
    AllSelectedLaws(TaskRunRow(t));
  }

  datatype TaskRunFilterTags = TaskRunFilterTags(all: Option<seq<string>>, isNull: Option<bool>) {
    function FilterList(): seq<Pred> {
      (if all.Some? then [HasAllKeys(TagsCol, all.value)] else [])
      + (if isNull.Some? then [EmptyTagsClause(isNull.value)] else [])
    }
    predicate Admits(t: TaskRun) {
      TagsAdmits(all, isNull, t.tags)
    }
  }

  lemma TaskRunFilterTagsSelects(filter: TaskRunFilterTags, t: TaskRun)
    ensures Selected(AsSqlFilter(filter.FilterList()), TaskRunRow(t)) <==> filter.Admits(t)
  {
    AsSqlFilterSelects(filter.FilterList(), TaskRunRow(t));
    AllSelectedLaws(TaskRunRow(t));
  }

  datatype TaskRunFilterStateType = TaskRunFilterStateType(any: Option<seq<StateType>>) {
    function FilterList(): seq<Pred> {
      if any.Some? then [In(StateTypeCol, IntVals(any.value))] else []
    }
    predicate Admits(t: TaskRun) {
      AnyNullableAdmits(any, t.stateType)
    }
  }

  lemma TaskRunFilterStateTypeSelects(filter: TaskRunFilterStateType, t: TaskRun)
    ensures AllSelected(filter.FilterList(), TaskRunRow(t)) <==> filter.Admits(t)
    ensures Selected(AsSqlFilter(filter.FilterList()), TaskRunRow(t)) <==> filter.Admits(t)
  {
    AsSqlFilterSelects(filter.FilterList(), TaskRunRow(t));
    AllSelectedLaws(TaskRunRow(t));
  }

  datatype TaskRunFilterStateName = TaskRunFilterStateName(any: Option<seq<string>>) {
    function FilterList(): seq<Pred> {
      if any.Some? then [StateNameIn(any.value)] else []
    }
    predicate Admits(t: TaskRun) {
      AnyNullableAdmits(any, t.stateName)
    }
  }

  lemma TaskRunFilterStateNameSelects(filter: TaskRunFilterStateName, t: TaskRun)
    ensures AllSelected(filter.FilterList(), TaskRunRow(t)) <==> filter.Admits(t)
    ensures Selected(AsSqlFilter(filter.FilterList()), TaskRunRow(t)) <==> filter.Admits(t)
  {
    AsSqlFilterSelects(filter.FilterList(), TaskRunRow(t));
    AllSelectedLaws(TaskRunRow(t));
  }

  datatype TaskRunFilterState = TaskRunFilterState(
    stateType: Option<TaskRunFilterStateType>,
    stateName: Option<TaskRunFilterStateName>)
  {
    function FilterList(): seq<Pred> {
      (if stateType.Some? then stateType.value.FilterList() else [])
      + (if stateName.Some? then stateName.value.FilterList() else [])
    }
    predicate Admits(t: TaskRun) {
      && (stateType.Some? ==> stateType.value.Admits(t))
      && (stateName.Some? ==> stateName.value.Admits(t))
    }
  }

  lemma TaskRunFilterStateSelects(filter: TaskRunFilterState, t: TaskRun)
    ensures Selected(AsSqlFilter(filter.FilterList()), TaskRunRow(t)) <==> filter.Admits(t)
  {
    AsSqlFilterSelects(filter.FilterList(), TaskRunRow(t));
    if filter.stateType.Some? { TaskRunFilterStateTypeSelects(filter.stateType.value, t); }
    if filter.stateName.Some? { TaskRunFilterStateNameSelects(filter.stateName.value, t); }
  }

  /** `exists_`: true keeps task runs that are the parent of a subflow run,
      false keeps those that are not, unset adds no clause. */
  datatype TaskRunFilterSubFlowRuns = TaskRunFilterSubFlowRuns(exists_: Option<bool>) {
    function FilterList(): seq<Pred> {
      if exists_ == Some(true) then [HasSubflowRun]
      else if exists_ == Some(false) then [Not(HasSubflowRun)]
      else []
    }
    predicate Admits(t: TaskRun) {
      exists_.Some? ==> (t.hasSubflowRun <==> exists_.value)
    }
  }

  lemma TaskRunFilterSubFlowRunsSelects(filter: TaskRunFilterSubFlowRuns, t: TaskRun)
    ensures Selected(AsSqlFilter(filter.FilterList()), TaskRunRow(t)) <==> filter.Admits(t)
  {
    AsSqlFilterSelects(filter.FilterList(), TaskRunRow(t));
    if filter.exists_ == Some(true) { assert HasSubflowRun in filter.FilterList(); }
    if filter.exists_ == Some(false) { assert Not(HasSubflowRun) in filter.FilterList(); }
  }

  datatype TaskRunFilterStartTime = TaskRunFilterStartTime(
    before: Option<Time>, after: Option<Time>, isNull: Option<bool>)
  {
    function FilterList(): seq<Pred> {
      (if before.Some? then [Le(StartTimeCol, before.value)] else [])
      + (if after.Some? then [Ge(StartTimeCol, after.value)] else [])
      + (if isNull.Some? then [NullClause(StartTimeCol, isNull.value)] else [])
    }
    predicate Admits(t: TaskRun) {
      && BeforeAdmits(before, t.startTime)
      && AfterAdmits(after, t.startTime)
      && IsNullAdmits(isNull, t.startTime)
    }
  }

  lemma TaskRunFilterStartTimeSelects(filter: TaskRunFilterStartTime, t: TaskRun)
    ensures Selected(AsSqlFilter(filter.FilterList()), TaskRunRow(t)) <==> filter.Admits(t)
  {
    AsSqlFilterSelects(filter.FilterList(), TaskRunRow(t));
    AllSelectedLaws(TaskRunRow(t));
  }

  /** Task runs matching every set criterion. */
  datatype TaskRunFilter = TaskRunFilter(
    id: Option<TaskRunFilterId>,
    name: Option<TaskRunFilterName>,
    tags: Option<TaskRunFilterTags>,
    state: Option<TaskRunFilterState>,
    startTime: Option<TaskRunFilterStartTime>,
    subflowRuns: Option<TaskRunFilterSubFlowRuns>)
  {
    function FilterList(): seq<Pred> {
      (if id.Some? then [AsSqlFilter(id.value.FilterList())] else [])
      + (if name.Some? then [AsSqlFilter(name.value.FilterList())] else [])
      + (if tags.Some? then [AsSqlFilter(tags.value.FilterList())] else [])
      + (if state.Some? then [AsSqlFilter(state.value.FilterList())] else [])
      + (if startTime.Some? then [AsSqlFilter(startTime.value.FilterList())] else [])
      + (if subflowRuns.Some? then [AsSqlFilter(subflowRuns.value.FilterList())] else [])
    }
    predicate Admits(t: TaskRun) {
      && (id.Some? ==> id.value.Admits(t))
      && (name.Some? ==> name.value.Admits(t))
      && (tags.Some? ==> tags.value.Admits(t))
      && (state.Some? ==> state.value.Admits(t))
      && (startTime.Some? ==> startTime.value.Admits(t))
      && (subflowRuns.Some? ==> subflowRuns.value.Admits(t))
    }
  }

  /** A TaskRunFilter list holds one compiled clause per set field, so it selects a
      row iff each set field's compiled filter does. */
  lemma TaskRunFilterClauses(filter: TaskRunFilter, row: Row)
    ensures AllSelected(filter.FilterList(), row) <==>
      && (filter.id.Some? ==> Selected(AsSqlFilter(filter.id.value.FilterList()), row))
      && (filter.name.Some? ==> Selected(AsSqlFilter(filter.name.value.FilterList()), row))
      && (filter.tags.Some? ==> Selected(AsSqlFilter(filter.tags.value.FilterList()), row))
      && (filter.state.Some? ==> Selected(AsSqlFilter(filter.state.value.FilterList()), row))
      && (filter.startTime.Some? ==> Selected(AsSqlFilter(filter.startTime.value.FilterList()), row))
      && (filter.subflowRuns.Some? ==> Selected(AsSqlFilter(filter.subflowRuns.value.FilterList()), row))
  {
    AllSelectedLaws(row);
  }

  lemma TaskRunFilterSelects(filter: TaskRunFilter, t: TaskRun)
    ensures Selected(AsSqlFilter(filter.FilterList()), TaskRunRow(t)) <==> filter.Admits(t)
  {
    AsSqlFilterSelects(filter.FilterList(), TaskRunRow(t));
    TaskRunFilterClauses(filter, TaskRunRow(t));
    if filter.id.Some? { TaskRunFilterIdSelects(filter.id.value, t); }
    if filter.name.Some? { TaskRunFilterNameSelects(filter.name.value, t); }
    if filter.tags.Some? { TaskRunFilterTagsSelects(filter.tags.value, t); }
    if filter.state.Some? { TaskRunFilterStateSelects(filter.state.value, t); }
    if filter.startTime.Some? { TaskRunFilterStartTimeSelects(filter.startTime.value, t); }
    if filter.subflowRuns.Some? { TaskRunFilterSubFlowRunsSelects(filter.subflowRuns.value, t); }
  }

  // ---------------------------------------------------------------------
  // Deployments
  // ---------------------------------------------------------------------

  datatype DeploymentFilterId = DeploymentFilterId(any: Option<seq<Id>>) {
    function FilterList(): seq<Pred> {
      if any.Some? then [In(IdCol, IntVals(any.value))] else []
    }
    predicate Admits(d: Deployment) {
      AnyAdmits(any, d.id)
    }
  }

  lemma DeploymentFilterIdSelects(filter: DeploymentFilterId, d: Deployment)
    ensures Selected(AsSqlFilter(filter.FilterList()), DeploymentRow(d)) <==> filter.Admits(d)
  {
    AsSqlFilterSelects(filter.FilterList(), DeploymentRow(d));
    AllSelectedLaws(DeploymentRow(d));
  }

  datatype DeploymentFilterName = DeploymentFilterName(any: Option<seq<string>>) {
    function FilterList(): seq<Pred> {
      if any.Some? then [In(NameCol, StrVals(any.value))] else []
    }
    predicate Admits(d: Deployment) {
      AnyAdmits(any, d.name)
    }
  }

  lemma DeploymentFilterNameSelects(filter: DeploymentFilterName, d: Deployment)
    ensures Selected(AsSqlFilter(filter.FilterList()), DeploymentRow(d)) <==> filter.Admits(d)
  {
    AsSqlFilterSelects(filter.FilterList(), DeploymentRow(d));
    AllSelectedLaws(DeploymentRow(d));
  }

  /** `eq_`: an exact match on the schedule-active flag, only when set. */
  datatype DeploymentFilterIsScheduleActive = DeploymentFilterIsScheduleActive(eq: Option<bool>) {
    function FilterList(): seq<Pred> {
      if eq.Some? then [Is(IsScheduleActiveCol, eq.value)] else []
    }
    predicate Admits(d: Deployment) {
      eq.Some? ==> d.isScheduleActive == eq.value
    }
  }

  lemma DeploymentFilterIsScheduleActiveSelects(filter: DeploymentFilterIsScheduleActive, d: Deployment)
    ensures Selected(AsSqlFilter(filter.FilterList()), DeploymentRow(d)) <==> filter.Admits(d)
  {
    AsSqlFilterSelects(filter.FilterList(), DeploymentRow(d));
    AllSelectedLaws(DeploymentRow(d));
  }

  datatype DeploymentFilterTags = DeploymentFilterTags(all: Option<seq<string>>, isNull: Option<bool>) {
    function FilterList(): seq<Pred> {
      (if all.Some? then [HasAllKeys(TagsCol, all.value)] else [])
      + (if isNull.Some? then [EmptyTagsClause(isNull.value)] else [])
    }
    predicate Admits(d: Deployment) {
      TagsAdmits(all, isNull, d.tags)
    }
  }

  lemma DeploymentFilterTagsSelects(filter: DeploymentFilterTags, d: Deployment)
    ensures Selected(AsSqlFilter(filter.FilterList()), DeploymentRow(d)) <==> filter.Admits(d)
  {
    AsSqlFilterSelects(filter.FilterList(), DeploymentRow(d));
    AllSelectedLaws(DeploymentRow(d));
  }

  /** Deployments matching every set criterion. */
  datatype DeploymentFilter = DeploymentFilter(
    id: Option<DeploymentFilterId>,
    name: Option<DeploymentFilterName>,
    isScheduleActive: Option<DeploymentFilterIsScheduleActive>,
    tags: Option<DeploymentFilterTags>)
  {
    function FilterList(): seq<Pred> {
      (if id.Some? then [AsSqlFilter(id.value.FilterList())] else [])
      + (if name.Some? then [AsSqlFilter(name.value.FilterList())] else [])
      + (if isScheduleActive.Some? then [AsSqlFilter(isScheduleActive.value.FilterList())] else [])
      + (if tags.Some? then [AsSqlFilter(tags.value.FilterList())] else [])
    }
    predicate Admits(d: Deployment) {
      && (id.Some? ==> id.value.Admits(d))
      && (name.Some? ==> name.value.Admits(d))
      && (isScheduleActive.Some? ==> isScheduleActive.value.Admits(d))
      && (tags.Some? ==> tags.value.Admits(d))
    }
  }

  /** A DeploymentFilter list holds one compiled clause per set field, so it selects a
      row iff each set field's compiled filter does. */
  lemma DeploymentFilterClauses(filter: DeploymentFilter, row: Row)
    ensures AllSelected(filter.FilterList(), row) <==>
      && (filter.id.Some? ==> Selected(AsSqlFilter(filter.id.value.FilterList()), row))
      && (filter.name.Some? ==> Selected(AsSqlFilter(filter.name.value.FilterList()), row))
      && (filter.isScheduleActive.Some? ==> Selected(AsSqlFilter(filter.isScheduleActive.value.FilterList()), row))
      && (filter.tags.Some? ==> Selected(AsSqlFilter(filter.tags.value.FilterList()), row))
  {
    AllSelectedLaws(row);
  }

  lemma DeploymentFilterSelects(filter: DeploymentFilter, d: Deployment)
    ensures Selected(AsSqlFilter(filter.FilterList()), DeploymentRow(d)) <==> filter.Admits(d)
  {
    AsSqlFilterSelects(filter.FilterList(), DeploymentRow(d));
    DeploymentFilterClauses(filter, DeploymentRow(d));
    if filter.id.Some? { DeploymentFilterIdSelects(filter.id.value, d); }
    if filter.name.Some? { DeploymentFilterNameSelects(filter.name.value, d); }
    if filter.isScheduleActive.Some? {
      DeploymentFilterIsScheduleActiveSelects(filter.isScheduleActive.value, d);
    }
    if filter.tags.Some? { DeploymentFilterTagsSelects(filter.tags.value, d); }
  }

  // ---------------------------------------------------------------------
  // Filter criteria
  // ---------------------------------------------------------------------

  /** The filters a list endpoint accepts, one per entity kind. The criteria
      classes for flows, flow runs, task runs and deployments add nothing to it. */
  datatype BaseFilterCriteria = BaseFilterCriteria(
    flowFilter: FlowFilter,
    flowRunFilter: FlowRunFilter,
    taskRunFilter: TaskRunFilter,
    deploymentFilter: DeploymentFilter)

  /** Criteria built with every field defaulted: each filter has all its slots unset. */
  function DefaultCriteria(): BaseFilterCriteria {
    BaseFilterCriteria(
      FlowFilter(None, None, None),
      FlowRunFilter(None, None, None, None, None, None, None, None, None, None),
      TaskRunFilter(None, None, None, None, None, None),
      DeploymentFilter(None, None, None, None))
  }

  /** A filter class with every field unset adds no clause, so it compiles to
      TRUE; in particular a state filter with neither part set is TRUE. */
  lemma UnsetFiltersCompileToTrue()
    // flows
    ensures AsSqlFilter(FlowFilterId(None).FilterList()) == True
    ensures AsSqlFilter(FlowFilterName(None).FilterList()) == True
    ensures AsSqlFilter(FlowFilterTags(None, None).FilterList()) == True
    ensures AsSqlFilter(FlowFilter(None, None, None).FilterList()) == True
    // flow runs
    ensures AsSqlFilter(FlowRunFilterId(None, None).FilterList()) == True
    ensures AsSqlFilter(FlowRunFilterName(None).FilterList()) == True
    ensures AsSqlFilter(FlowRunFilterTags(None, None).FilterList()) == True
    ensures AsSqlFilter(FlowRunFilterDeploymentId(None, None).FilterList()) == True
    ensures AsSqlFilter(FlowRunFilterStateType(None).FilterList()) == True
    ensures AsSqlFilter(FlowRunFilterStateName(None).FilterList()) == True
    ensures AsSqlFilter(FlowRunFilterState(None, None).FilterList()) == True
    ensures AsSqlFilter(FlowRunFilterFlowVersion(None).FilterList()) == True
    ensures AsSqlFilter(FlowRunFilterStartTime(None, None, None).FilterList()) == True
    ensures AsSqlFilter(FlowRunFilterExpectedStartTime(None, None).FilterList()) == True
    ensures AsSqlFilter(FlowRunFilterNextScheduledStartTime(None, None).FilterList()) == True
    ensures AsSqlFilter(FlowRunFilterParentTaskRunId(None, None).FilterList()) == True
    ensures AsSqlFilter(FlowRunFilter(None, None, None, None, None, None, None, None, None, None).FilterList()) == True
    // task runs
    ensures AsSqlFilter(TaskRunFilterId(None).FilterList()) == True
    ensures AsSqlFilter(TaskRunFilterName(None).FilterList()) == True
    ensures AsSqlFilter(TaskRunFilterTags(None, None).FilterList()) == True
    ensures AsSqlFilter(TaskRunFilterStateType(None).FilterList()) == True
    ensures AsSqlFilter(TaskRunFilterStateName(None).FilterList()) == True
    ensures AsSqlFilter(TaskRunFilterState(None, None).FilterList()) == True
    ensures AsSqlFilter(TaskRunFilterSubFlowRuns(None).FilterList()) == True
    ensures AsSqlFilter(TaskRunFilterStartTime(None, None, None).FilterList()) == True
    ensures AsSqlFilter(TaskRunFilter(None, None, None, None, None, None).FilterList()) == True
    // deployments
    ensures AsSqlFilter(DeploymentFilterId(None).FilterList()) == True
    ensures AsSqlFilter(DeploymentFilterName(None).FilterList()) == True
    ensures AsSqlFilter(DeploymentFilterIsScheduleActive(None).FilterList()) == True
    ensures AsSqlFilter(DeploymentFilterTags(None, None).FilterList()) == True
    ensures AsSqlFilter(DeploymentFilter(None, None, None, None).FilterList()) == True
  {
  }

  /** The default criteria compile, for each entity kind, to a filter that
      selects every row of that kind. */
  lemma DefaultCriteriaSelectsAll(f: Flow, r: FlowRun, t: TaskRun, d: Deployment)
    ensures Selected(AsSqlFilter(DefaultCriteria().flowFilter.FilterList()), FlowRow(f))
    ensures Selected(AsSqlFilter(DefaultCriteria().flowRunFilter.FilterList()), FlowRunRow(r))
    ensures Selected(AsSqlFilter(DefaultCriteria().taskRunFilter.FilterList()), TaskRunRow(t))
    ensures Selected(AsSqlFilter(DefaultCriteria().deploymentFilter.FilterList()), DeploymentRow(d))
  {
    FlowFilterSelects(DefaultCriteria().flowFilter, f);
    FlowRunFilterSelects(DefaultCriteria().flowRunFilter, r);
    TaskRunFilterSelects(DefaultCriteria().taskRunFilter, t);
    DeploymentFilterSelects(DefaultCriteria().deploymentFilter, d);
  }

  /** `any_ = []` is a set field, not an absent one: membership in the empty
      list selects no row. `not_any_ = []` excludes nothing. */
  lemma EmptyAnySelectsNothing(notAny: Option<seq<Id>>, r: FlowRun, f: Flow, d: Deployment)
    ensures !Selected(AsSqlFilter(FlowRunFilterId(Some([]), notAny).FilterList()), FlowRunRow(r))
    ensures Selected(AsSqlFilter(FlowRunFilterId(None, Some([])).FilterList()), FlowRunRow(r))
    ensures !Selected(AsSqlFilter(FlowFilterName(Some([])).FilterList()), FlowRow(f))
    ensures !Selected(AsSqlFilter(DeploymentFilterId(Some([])).FilterList()), DeploymentRow(d))
  {
    FlowRunFilterIdSelects(FlowRunFilterId(Some([]), notAny), r);
    FlowRunFilterIdSelects(FlowRunFilterId(None, Some([])), r);
    FlowFilterNameSelects(FlowFilterName(Some([])), f);
    DeploymentFilterIdSelects(DeploymentFilterId(Some([])), d);
  }

  /** `all_` is a superset test: two tag lists with the same members (in any
      order, with any repetition) select the same flow runs. */
  lemma TagsAllOrderIrrelevant(all: seq<string>, others: seq<string>, isNull: Option<bool>, r: FlowRun)
    requires forall t :: t in all <==> t in others
    ensures Selected(AsSqlFilter(FlowRunFilterTags(Some(all), isNull).FilterList()), FlowRunRow(r))
        <==> Selected(AsSqlFilter(FlowRunFilterTags(Some(others), isNull).FilterList()), FlowRunRow(r))
  {
    FlowRunFilterTagsSelects(FlowRunFilterTags(Some(all), isNull), r);
    FlowRunFilterTagsSelects(FlowRunFilterTags(Some(others), isNull), r);
  }

  /** `is_null_` on tags: true keeps exactly the runs with no tags, false
      exactly those with some; with `all_` also set the two are ANDed. */
  lemma TagsIsNull(all: Option<seq<string>>, isNull: bool, r: FlowRun)
    ensures Selected(AsSqlFilter(FlowRunFilterTags(None, Some(isNull)).FilterList()), FlowRunRow(r))
        <==> (r.tags == [] <==> isNull)
    ensures Selected(AsSqlFilter(FlowRunFilterTags(all, Some(isNull)).FilterList()), FlowRunRow(r))
        <==> Selected(AsSqlFilter(FlowRunFilterTags(all, None).FilterList()), FlowRunRow(r))
             && (r.tags == [] <==> isNull)
  {
    FlowRunFilterTagsSelects(FlowRunFilterTags(None, Some(isNull)), r);
    FlowRunFilterTagsSelects(FlowRunFilterTags(all, Some(isNull)), r);
    FlowRunFilterTagsSelects(FlowRunFilterTags(all, None), r);
  }

  /** A time range with both bounds set keeps the runs whose start time lies
      in the closed interval; a run with no start time fails either bound, so
      `is_null_ = true` together with a bound selects nothing. */
  lemma StartTimeRange(before: Time, after: Time, r: FlowRun)
    ensures Selected(AsSqlFilter(FlowRunFilterStartTime(Some(before), Some(after), None).FilterList()), FlowRunRow(r))
        <==> r.startTime.Some? && after <= r.startTime.value <= before
    ensures !Selected(AsSqlFilter(FlowRunFilterStartTime(Some(before), None, Some(true)).FilterList()), FlowRunRow(r))
    ensures !Selected(AsSqlFilter(FlowRunFilterStartTime(None, Some(after), Some(true)).FilterList()), FlowRunRow(r))
  {
    FlowRunFilterStartTimeSelects(FlowRunFilterStartTime(Some(before), Some(after), None), r);
    FlowRunFilterStartTimeSelects(FlowRunFilterStartTime(Some(before), None, Some(true)), r);
    FlowRunFilterStartTimeSelects(FlowRunFilterStartTime(None, Some(after), Some(true)), r);
  }
}
