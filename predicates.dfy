/** The boolean SQL expressions that filters compile to, and their meaning on
    one row. Evaluation follows SQL's three-valued logic: a comparison with a
    NULL column is `Unknown`, and a row is selected only when the whole
    expression is `Yes`. */
module Predicates {
  import opened Wrappers
  import opened Entities

  /** The columns that filters and the scheduler's page query mention. */
  datatype Column =
    | IdCol | NameCol | TagsCol | DeploymentIdCol | StateTypeCol | FlowVersionCol
    | StartTimeCol | ExpectedStartTimeCol | NextScheduledStartTimeCol
    | ParentTaskRunIdCol | IsScheduleActiveCol | ScheduleCol

  /** A column value: integers (ids, times, state-type codes), strings, booleans
      and JSON lists of strings (tags). */
  datatype Value = IntV(i: int) | StrV(s: string) | BoolV(b: bool) | ListV(items: seq<string>)

  /** A row of one of the four tables. */
  datatype Row =
    | FlowRow(flow: Flow)
    | FlowRunRow(flowRun: FlowRun)
    | TaskRunRow(taskRun: TaskRun)
    | DeploymentRow(deployment: Deployment)

  function IntCell(x: Option<int>): Option<Value> {
    match x
    case None => None
    case Some(v) => Some(IntV(v))
  }

  function StrCell(x: Option<string>): Option<Value> {
    match x
    case None => None
    case Some(v) => Some(StrV(v))
  }

  /** The value of a column in a row; `None` is SQL NULL. A column a table does
      not have reads as NULL (compiled filters only name their own table's columns). */
  function Cell(row: Row, col: Column): Option<Value> {
    match row
    case FlowRow(f) =>
      (match col
       case IdCol => Some(IntV(f.id))
       case NameCol => Some(StrV(f.name))
       case TagsCol => Some(ListV(f.tags))
       case _ => None)
    case FlowRunRow(r) =>
      (match col
       case IdCol => Some(IntV(r.id))
       case NameCol => Some(StrV(r.name))
       case TagsCol => Some(ListV(r.tags))
       case DeploymentIdCol => IntCell(r.deploymentId)
       case StateTypeCol => IntCell(r.stateType)
       case FlowVersionCol => StrCell(r.flowVersion)
       case StartTimeCol => IntCell(r.startTime)
       case ExpectedStartTimeCol => IntCell(r.expectedStartTime)
       case NextScheduledStartTimeCol => IntCell(r.nextScheduledStartTime)
       case ParentTaskRunIdCol => IntCell(r.parentTaskRunId)
       case _ => None)
    case TaskRunRow(t) =>
      (match col
       case IdCol => Some(IntV(t.id))
       case NameCol => Some(StrV(t.name))
       case TagsCol => Some(ListV(t.tags))
       case StateTypeCol => IntCell(t.stateType)
       case StartTimeCol => IntCell(t.startTime)
       case _ => None)
    case DeploymentRow(d) =>
      (match col
       case IdCol => Some(IntV(d.id))
       case NameCol => Some(StrV(d.name))
       case TagsCol => Some(ListV(d.tags))
       case IsScheduleActiveCol => Some(BoolV(d.isScheduleActive))
       case ScheduleCol => StrCell(d.schedule)
       case _ => None)
  }

  /** The name of the row's current state, through the `state` relation. */
  function StateName(row: Row): Option<string> {
    match row
    case FlowRunRow(r) => r.stateName
    case TaskRunRow(t) => t.stateName
    case _ => None
  }

  /** A boolean SQL expression over one row. */
  datatype Pred =
    | True                                   // and_(True)
    | And(conjuncts: seq<Pred>)              // and_(c1, ..., cn)
    | Not(operand: Pred)                     // not_(p)
    | In(col: Column, values: seq<Value>)    // col IN (values)
    | NotIn(col: Column, values: seq<Value>) // col NOT IN (values)
    | HasAllKeys(col: Column, keys: seq<string>) // JSON list col contains every key
    | Eq(col: Column, value: Value)          // col = value
    | Ne(col: Column, value: Value)          // col != value
    | Is(col: Column, flag: bool)            // col IS TRUE / IS FALSE
    | IsNull(col: Column)                    // col IS NULL
    | IsNotNull(col: Column)                 // col IS NOT NULL
    | Le(col: Column, bound: int)            // col <= bound
    | Ge(col: Column, bound: int)            // col >= bound
    | Gt(col: Column, bound: int)            // col > bound
    | StateNameIn(names: seq<string>)        // EXISTS state row with name IN (names)
    | HasSubflowRun                          // EXISTS flow run whose parent is this task run

  datatype Truth = Yes | No | Unknown

  function Of(b: bool): Truth {
    if b then Yes else No
  }

  function Negate(t: Truth): Truth {
    match t
    case Yes => No
    case No => Yes
    case Unknown => Unknown
  }

  /** SQL AND of several truth values: false wins over NULL, NULL over true. */
  function AndOf(ts: seq<Truth>): Truth {
    if No in ts then No else if Unknown in ts then Unknown else Yes
  }

  lemma AndOfYes(ts: seq<Truth>)
    ensures AndOf(ts) == Yes <==> forall i :: 0 <= i < |ts| ==> ts[i] == Yes
  {
    if AndOf(ts) == Yes {
      forall i | 0 <= i < |ts| ensures ts[i] == Yes {
        assert ts[i] in ts;
      }
    }
  }

  /** An ordered comparison of an integer column with a constant. */
  function Compare(cell: Option<Value>, holds: int -> bool): Truth {
    match cell
    case None => Unknown
    case Some(IntV(x)) => Of(holds(x))
    case Some(_) => No
  }

  /** The three-valued meaning of `p` on `row`. */
  function Eval(p: Pred, row: Row): Truth
    decreases p
  {
    match p
    case True => Yes
    case And(ps) => AndOf(seq(|ps|, i requires 0 <= i < |ps| => Eval(ps[i], row)))
    case Not(q) => Negate(Eval(q, row))
    case In(c, vs) =>
      // an empty IN list is false even for NULL
      if vs == [] then No
      else (match Cell(row, c) case None => Unknown case Some(v) => Of(v in vs))
    case NotIn(c, vs) =>
      // an empty NOT IN list is true even for NULL
      if vs == [] then Yes
      else (match Cell(row, c) case None => Unknown case Some(v) => Of(v !in vs))
    case HasAllKeys(c, ks) =>
      (match Cell(row, c)
       case None => Unknown
       case Some(ListV(items)) => Of(forall k :: k in ks ==> k in items)
       case Some(_) => No)
    case Eq(c, v) => (match Cell(row, c) case None => Unknown case Some(w) => Of(w == v))
    case Ne(c, v) => (match Cell(row, c) case None => Unknown case Some(w) => Of(w != v))
    case Is(c, b) => Of(Cell(row, c) == Some(BoolV(b)))
    case IsNull(c) => Of(Cell(row, c).None?)
    case IsNotNull(c) => Of(Cell(row, c).Some?)
    case Le(c, t) => Compare(Cell(row, c), x => x <= t)
    case Ge(c, t) => Compare(Cell(row, c), x => x >= t)
    case Gt(c, t) => Compare(Cell(row, c), x => x > t)
    case StateNameIn(ns) => Of(StateName(row).Some? && StateName(row).value in ns)
    case HasSubflowRun => Of(row.TaskRunRow? && row.taskRun.hasSubflowRun)
  }

  /** A row is selected when the expression evaluates to true (not NULL). */
  predicate Selected(p: Pred, row: Row) {
    Eval(p, row) == Yes
  }

  /** AND of a list of conditions: selected iff every conjunct is selected. */
  lemma AndSelected(ps: seq<Pred>, row: Row)
    ensures Selected(And(ps), row) <==> forall i :: 0 <= i < |ps| ==> Selected(ps[i], row)
  {
    var ts := seq(|ps|, i requires 0 <= i < |ps| => Eval(ps[i], row));
    assert Eval(And(ps), row) == AndOf(ts);
    AndOfYes(ts);
    assert forall i :: 0 <= i < |ps| ==> (ts[i] == Yes <==> Selected(ps[i], row));
  }

  /** SQL AND is commutative and idempotent: the value of a conjunction depends
      only on which conjuncts occur, not on their order or repetition. */
  lemma AndOrderIrrelevant(ps: seq<Pred>, qs: seq<Pred>, row: Row)
    requires forall p :: p in ps <==> p in qs
    ensures Eval(And(ps), row) == Eval(And(qs), row)
  {
    var ts := seq(|ps|, i requires 0 <= i < |ps| => Eval(ps[i], row));
    var us := seq(|qs|, i requires 0 <= i < |qs| => Eval(qs[i], row));
    assert Eval(And(ps), row) == AndOf(ts);
    assert Eval(And(qs), row) == AndOf(us);
    forall t | t in ts ensures t in us {
      var i :| 0 <= i < |ts| && ts[i] == t;
      assert ps[i] in qs;
      var j :| 0 <= j < |qs| && qs[j] == ps[i];
      assert us[j] == t;
    }
    forall t | t in us ensures t in ts {
      var j :| 0 <= j < |us| && us[j] == t;
      assert qs[j] in ps;
      var i :| 0 <= i < |ps| && ps[i] == qs[j];
      assert ts[i] == t;
    }
  }

  /** An ordered comparison with a NULL column is never selected, and neither
      is its negation. */
  lemma NullComparisonUnknown(row: Row, c: Column, t: int)
    requires Cell(row, c).None?
    ensures Eval(Le(c, t), row) == Unknown && Eval(Ge(c, t), row) == Unknown
    ensures Eval(Gt(c, t), row) == Unknown
    ensures !Selected(Not(Le(c, t)), row) && !Selected(Not(Ge(c, t)), row)
  {
  }
}
