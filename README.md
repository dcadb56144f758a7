# Orion filters and scheduler, modelled in Dafny

This project models two parts of the Orion orchestration server and proves properties of each.

1. **The query filter classes.** These are the pydantic models a list endpoint accepts for flows, flow runs, task runs and deployments.
   - Each class compiles its set fields into a list of SQL boolean clauses (`_get_filter_list`).
   - `as_sql_filter` joins that list with AND, or gives TRUE when the list is empty.
   - A composite filter nests the compiled filters of its parts. The exception is the state filter, which splices in the raw clauses of its `type` and `name` parts.
2. **One pass of the scheduler service** (`Scheduler.run_once`). Inside a single transaction the pass:
   - pages through the deployments whose schedule is active, ordered by id, with a cursor on the last id seen;
   - generates each deployment's runs for the window `[now, now + max_scheduled_time]`, at most `max_runs` each;
   - inserts every page's runs in chunks of the insert batch size, adding up how many were inserted;
   - stops after the first page shorter than the deployment batch size.

Files:

- `wrappers.dfy`: `Option` and `Result`.
- `entities.dfy`: the columns of the flow, flow run, task run and deployment tables that the filters and the scheduler read.
- `predicates.dfy`: the SQL expressions the filters compile to (`Pred`) and how SQL evaluates them on a row (`Eval`).
  - Evaluation uses three-valued logic (true / false / NULL).
  - A row is selected only when its expression is true.
- `filters.dfy`:
  - one datatype per filter class, whose `FilterList` is that class's clause list;
  - `AsSqlFilter`, which is `as_sql_filter`;
  - beside each class, an independent predicate `Admits`, which states the filter's meaning directly on the entity;
  - a lemma `<Class>Selects` proving that the compiled expression selects a row exactly when `Admits` holds.
- `scheduler.dfy`:
  - a `Session` class, holding the flow run table, the deployments table and the open transaction;
  - a `Scheduler` class, whose methods make up the pass (`RunOnce`, the transaction body `SchedulePass`, one loop iteration `PassStep`, one page `SchedulePage`, generation `CollectRuns`, chunked insert `InsertRuns`);
  - specification functions covering:
    - the page query (`PageQuery`, `Matching`);
    - the pages fetched (`Paginate`);
    - the generated runs (`GenerateAll`);
    - the chunks (`Batched`);
    - the insert that skips runs already stored (`Dedup`).

## Model

| member | source | states |
|---|---|---|
| Filters.AsSqlFilter | src/prefect/orion/schemas/filters.py:19-22 | the AND of a clause list, TRUE for an empty list; `Filters.AsSqlFilterSelects` states what it selects |
| Filters.AsSqlFilterSelects | src/prefect/orion/schemas/filters.py:19-22 | a compiled clause list selects a row iff every clause selects it, so an empty list (TRUE) selects every row |
| Filters.AsSqlFilterOrderIrrelevant | src/prefect/orion/schemas/filters.py:19-22 | two clause lists with the same members, in any order or repetition, give the same value on every row |
| Predicates.AndSelected | src/prefect/orion/schemas/filters.py:19-22 | an AND of clauses is selected iff each conjunct is selected, even though SQL AND is three-valued |
| Predicates.AndOrderIrrelevant | src/prefect/orion/schemas/filters.py:19-22 | the three-valued AND depends only on which conjuncts occur |
| Predicates.NullComparisonUnknown | src/prefect/orion/schemas/filters.py:210-233 | comparing a NULL time column with a bound is NULL, so neither the comparison nor its negation selects the row |
| Filters.FlowFilterId.FilterList | src/prefect/orion/schemas/filters.py:32-36 | one clause per set field; `Filters.FlowFilterIdSelects` proves the list selects exactly the rows `Admits` describes |
| Filters.FlowFilterIdSelects | src/prefect/orion/schemas/filters.py:29-36 | a flow is selected iff `any_` is unset or lists its id |
| Filters.FlowFilterName.FilterList | src/prefect/orion/schemas/filters.py:46-50 | one clause per set field; `Filters.FlowFilterNameSelects` proves the list selects exactly the rows `Admits` describes |
| Filters.FlowFilterNameSelects | src/prefect/orion/schemas/filters.py:39-50 | a flow is selected iff `any_` is unset or lists its name |
| Filters.FlowFilterTags.FilterList | src/prefect/orion/schemas/filters.py:61-69 | one clause per set field; `Filters.FlowFilterTagsSelects` proves the list selects exactly the rows `Admits` describes |
| Filters.FlowFilterTagsSelects | src/prefect/orion/schemas/filters.py:53-69 | a flow is selected iff it carries every tag of `all_` (when set) and its tag list is empty exactly when `is_null_` is true (when set) |
| Filters.FlowFilterClauses | src/prefect/orion/schemas/filters.py:79-89 | the flow filter's clause list holds one compiled sub-filter per set field and selects a row iff each of them does |
| Filters.FlowFilter.FilterList | src/prefect/orion/schemas/filters.py:79-89 | one compiled sub-filter per set field; `Filters.FlowFilterClauses` and `Filters.FlowFilterSelects` state what the list selects |
| Filters.FlowFilterSelects | src/prefect/orion/schemas/filters.py:72-89 | a flow is selected iff every set sub-filter admits it |
| Filters.FlowRunFilterId.FilterList | src/prefect/orion/schemas/filters.py:96-102 | one clause per set field; `Filters.FlowRunFilterIdSelects` proves the list selects exactly the rows `Admits` describes |
| Filters.FlowRunFilterIdSelects | src/prefect/orion/schemas/filters.py:92-102 | a flow run is selected iff its id is in `any_` (when set) and not in `not_any_` (when set) |
| Filters.FlowRunFilterName.FilterList | src/prefect/orion/schemas/filters.py:112-116 | one clause per set field; `Filters.FlowRunFilterNameSelects` proves the list selects exactly the rows `Admits` describes |
| Filters.FlowRunFilterNameSelects | src/prefect/orion/schemas/filters.py:105-116 | a flow run is selected iff `any_` is unset or lists its name |
| Filters.FlowRunFilterTags.FilterList | src/prefect/orion/schemas/filters.py:129-137 | one clause per set field; `Filters.FlowRunFilterTagsSelects` proves the list selects exactly the rows `Admits` describes |
| Filters.FlowRunFilterTagsSelects | src/prefect/orion/schemas/filters.py:119-137 | a flow run is selected iff it carries every tag of `all_` (when set) and has no tags exactly when `is_null_` is true (when set) |
| Filters.FlowRunFilterDeploymentId.FilterList | src/prefect/orion/schemas/filters.py:148-158 | one clause per set field; `Filters.FlowRunFilterDeploymentIdSelects` proves the list selects exactly the rows `Admits` describes |
| Filters.FlowRunFilterDeploymentIdSelects | src/prefect/orion/schemas/filters.py:140-158 | a flow run is selected iff its deployment id is present and listed in `any_` (when set) and is NULL exactly when `is_null_` is true (when set) |
| Filters.FlowRunFilterStateType.FilterList | src/prefect/orion/schemas/filters.py:166-170 | one clause per set field; `Filters.FlowRunFilterStateTypeSelects` proves the list selects exactly the rows `Admits` describes |
| Filters.FlowRunFilterStateTypeSelects | src/prefect/orion/schemas/filters.py:161-170 | the state-type clauses select a flow run iff its state type is present and listed in `any_` (when set) |
| Filters.FlowRunFilterStateName.FilterList | src/prefect/orion/schemas/filters.py:178-182 | one clause per set field; `Filters.FlowRunFilterStateNameSelects` proves the list selects exactly the rows `Admits` describes |
| Filters.FlowRunFilterStateNameSelects | src/prefect/orion/schemas/filters.py:173-182 | the state-name clauses select a flow run iff it has a state whose name is listed in `any_` (when set) |
| Filters.FlowRunFilterState.FilterList | src/prefect/orion/schemas/filters.py:189-195 | the clauses of the set `type` and `name` parts spliced into one list; `Filters.FlowRunFilterStateSelects` states what it selects |
| Filters.FlowRunFilterStateSelects | src/prefect/orion/schemas/filters.py:185-195 | splicing the type and name clauses selects a flow run iff both set parts admit it; neither set gives TRUE |
| Filters.FlowRunFilterFlowVersion.FilterList | src/prefect/orion/schemas/filters.py:203-207 | one clause per set field; `Filters.FlowRunFilterFlowVersionSelects` proves the list selects exactly the rows `Admits` describes |
| Filters.FlowRunFilterFlowVersionSelects | src/prefect/orion/schemas/filters.py:198-207 | a flow run is selected iff its flow version is present and listed in `any_` (when set) |
| Filters.FlowRunFilterStartTime.FilterList | src/prefect/orion/schemas/filters.py:221-233 | one clause per set field; `Filters.FlowRunFilterStartTimeSelects` proves the list selects exactly the rows `Admits` describes |
| Filters.FlowRunFilterStartTimeSelects | src/prefect/orion/schemas/filters.py:210-233 | a flow run is selected iff its start time is present and at most `before_` (when set), present and at least `after_` (when set), and NULL exactly when `is_null_` is true (when set) |
| Filters.FlowRunFilterExpectedStartTime.FilterList | src/prefect/orion/schemas/filters.py:246-252 | one clause per set field; `Filters.FlowRunFilterExpectedStartTimeSelects` proves the list selects exactly the rows `Admits` describes |
| Filters.FlowRunFilterExpectedStartTimeSelects | src/prefect/orion/schemas/filters.py:236-252 | a flow run is selected iff its expected start time lies within the set inclusive bounds |
| Filters.FlowRunFilterNextScheduledStartTime.FilterList | src/prefect/orion/schemas/filters.py:265-271 | one clause per set field; `Filters.FlowRunFilterNextScheduledStartTimeSelects` proves the list selects exactly the rows `Admits` describes |
| Filters.FlowRunFilterNextScheduledStartTimeSelects | src/prefect/orion/schemas/filters.py:255-271 | a flow run is selected iff its next scheduled start time lies within the set inclusive bounds |
| Filters.FlowRunFilterParentTaskRunId.FilterList | src/prefect/orion/schemas/filters.py:282-292 | one clause per set field; `Filters.FlowRunFilterParentTaskRunIdSelects` proves the list selects exactly the rows `Admits` describes |
| Filters.FlowRunFilterParentTaskRunIdSelects | src/prefect/orion/schemas/filters.py:274-292 | a flow run is selected iff its parent task run id is present and listed in `any_` (when set) and is NULL exactly when `is_null_` is true (when set) |
| Filters.FlowRunFilterClauses | src/prefect/orion/schemas/filters.py:309-333 | the flow run filter's list selects a row iff each set field's compiled sub-filter does |
| Filters.FlowRunFilter.FilterList | src/prefect/orion/schemas/filters.py:309-333 | one compiled sub-filter per set field; `Filters.FlowRunFilterClauses` and `Filters.FlowRunFilterSelects` state what the list selects |
| Filters.FlowRunFilterSelects | src/prefect/orion/schemas/filters.py:295-333 | a flow run is selected iff every set sub-filter admits it |
| Filters.FlowRunFilterVisitOrderIrrelevant | src/prefect/orion/schemas/filters.py:309-333 | visiting `flow_version` before `state`, as the code does, gives the same value on every row as declaration order |
| Filters.TaskRunFilterId.FilterList | src/prefect/orion/schemas/filters.py:339-343 | one clause per set field; `Filters.TaskRunFilterIdSelects` proves the list selects exactly the rows `Admits` describes |
| Filters.TaskRunFilterIdSelects | src/prefect/orion/schemas/filters.py:336-343 | a task run is selected iff `any_` is unset or lists its id |
| Filters.TaskRunFilterName.FilterList | src/prefect/orion/schemas/filters.py:353-357 | one clause per set field; `Filters.TaskRunFilterNameSelects` proves the list selects exactly the rows `Admits` describes |
| Filters.TaskRunFilterNameSelects | src/prefect/orion/schemas/filters.py:346-357 | a task run is selected iff `any_` is unset or lists its name |
| Filters.TaskRunFilterTags.FilterList | src/prefect/orion/schemas/filters.py:370-378 | one clause per set field; `Filters.TaskRunFilterTagsSelects` proves the list selects exactly the rows `Admits` describes |
| Filters.TaskRunFilterTagsSelects | src/prefect/orion/schemas/filters.py:360-378 | a task run is selected iff it carries every tag of `all_` (when set) and has no tags exactly when `is_null_` is true (when set) |
| Filters.TaskRunFilterStateType.FilterList | src/prefect/orion/schemas/filters.py:386-390 | one clause per set field; `Filters.TaskRunFilterStateTypeSelects` proves the list selects exactly the rows `Admits` describes |
| Filters.TaskRunFilterStateTypeSelects | src/prefect/orion/schemas/filters.py:381-390 | the state-type clauses select a task run iff its state type is present and listed in `any_` (when set) |
| Filters.TaskRunFilterStateName.FilterList | src/prefect/orion/schemas/filters.py:398-402 | one clause per set field; `Filters.TaskRunFilterStateNameSelects` proves the list selects exactly the rows `Admits` describes |
| Filters.TaskRunFilterStateNameSelects | src/prefect/orion/schemas/filters.py:393-402 | the state-name clauses select a task run iff it has a state whose name is listed in `any_` (when set) |
| Filters.TaskRunFilterState.FilterList | src/prefect/orion/schemas/filters.py:409-415 | the clauses of the set `type` and `name` parts spliced into one list; `Filters.TaskRunFilterStateSelects` states what it selects |
| Filters.TaskRunFilterStateSelects | src/prefect/orion/schemas/filters.py:405-415 | splicing the type and name clauses selects a task run iff both set parts admit it |
| Filters.TaskRunFilterSubFlowRuns.FilterList | src/prefect/orion/schemas/filters.py:424-430 | one clause per set field; `Filters.TaskRunFilterSubFlowRunsSelects` proves the list selects exactly the rows `Admits` describes |
| Filters.TaskRunFilterSubFlowRunsSelects | src/prefect/orion/schemas/filters.py:418-430 | `exists_` true keeps exactly the task runs that are a subflow run's parent, false exactly the others; unset keeps all |
| Filters.TaskRunFilterStartTime.FilterList | src/prefect/orion/schemas/filters.py:444-456 | one clause per set field; `Filters.TaskRunFilterStartTimeSelects` proves the list selects exactly the rows `Admits` describes |
| Filters.TaskRunFilterStartTimeSelects | src/prefect/orion/schemas/filters.py:433-456 | a task run is selected iff its start time meets the set inclusive bounds (NULL fails each) and is NULL exactly when `is_null_` is true (when set) |
| Filters.TaskRunFilterClauses | src/prefect/orion/schemas/filters.py:469-485 | the task run filter's list selects a row iff each set field's compiled sub-filter does |
| Filters.TaskRunFilter.FilterList | src/prefect/orion/schemas/filters.py:469-485 | one compiled sub-filter per set field; `Filters.TaskRunFilterClauses` and `Filters.TaskRunFilterSelects` state what the list selects |
| Filters.TaskRunFilterSelects | src/prefect/orion/schemas/filters.py:459-485 | a task run is selected iff every set sub-filter admits it |
| Filters.DeploymentFilterId.FilterList | src/prefect/orion/schemas/filters.py:491-495 | one clause per set field; `Filters.DeploymentFilterIdSelects` proves the list selects exactly the rows `Admits` describes |
| Filters.DeploymentFilterIdSelects | src/prefect/orion/schemas/filters.py:488-495 | a deployment is selected iff `any_` is unset or lists its id |
| Filters.DeploymentFilterName.FilterList | src/prefect/orion/schemas/filters.py:505-509 | one clause per set field; `Filters.DeploymentFilterNameSelects` proves the list selects exactly the rows `Admits` describes |
| Filters.DeploymentFilterNameSelects | src/prefect/orion/schemas/filters.py:498-509 | a deployment is selected iff `any_` is unset or lists its name |
| Filters.DeploymentFilterIsScheduleActive.FilterList | src/prefect/orion/schemas/filters.py:518-522 | one clause per set field; `Filters.DeploymentFilterIsScheduleActiveSelects` proves the list selects exactly the rows `Admits` describes |
| Filters.DeploymentFilterIsScheduleActiveSelects | src/prefect/orion/schemas/filters.py:512-522 | a deployment is selected iff `eq_` is unset or equals its schedule-active flag |
| Filters.DeploymentFilterTags.FilterList | src/prefect/orion/schemas/filters.py:535-545 | one clause per set field; `Filters.DeploymentFilterTagsSelects` proves the list selects exactly the rows `Admits` describes |
| Filters.DeploymentFilterTagsSelects | src/prefect/orion/schemas/filters.py:525-545 | a deployment is selected iff it carries every tag of `all_` (when set) and has no tags exactly when `is_null_` is true (when set) |
| Filters.DeploymentFilterClauses | src/prefect/orion/schemas/filters.py:556-568 | the deployment filter's list selects a row iff each set field's compiled sub-filter does |
| Filters.DeploymentFilter.FilterList | src/prefect/orion/schemas/filters.py:556-568 | one compiled sub-filter per set field; `Filters.DeploymentFilterClauses` and `Filters.DeploymentFilterSelects` state what the list selects |
| Filters.DeploymentFilterSelects | src/prefect/orion/schemas/filters.py:548-568 | a deployment is selected iff every set sub-filter admits it |
| Filters.UnsetFiltersCompileToTrue | src/prefect/orion/schemas/filters.py:19-22 | every one of the 31 filter classes, with all its fields unset, adds no clause and compiles to TRUE |
| Filters.DefaultCriteriaSelectsAll | src/prefect/orion/schemas/filters.py:571-592 | the default criteria's four filters each select every row of their table |
| Filters.EmptyAnySelectsNothing | src/prefect/orion/schemas/filters.py:92-102 | `any_ = []` is a set field and selects no row, while `not_any_ = []` excludes nothing |
| Filters.TagsAllOrderIrrelevant | src/prefect/orion/schemas/filters.py:119-137 | `all_` is a superset test: tag lists with the same members select the same flow runs |
| Filters.TagsIsNull | src/prefect/orion/schemas/filters.py:119-137 | `is_null_` alone keeps exactly the runs with no tags (true) or with some (false), and with `all_` the two tests are ANDed |
| Filters.StartTimeRange | src/prefect/orion/schemas/filters.py:210-233 | both bounds keep the runs whose start time lies in the closed interval, and `is_null_ = true` with a bound selects nothing |
| Scheduler.Scheduler.RunOnce | src/prefect/orion/services/scheduler.py:21-77 | the pass succeeds iff the deployment batch size is positive and every scheduled deployment's generation succeeds; on success the table gains exactly the new runs, the count is their number and the pages are `Paginate` of the scheduled deployments; on failure the table is rolled back unchanged |
| Scheduler.Scheduler.SchedulePass | src/prefect/orion/services/scheduler.py:27-75 | the cursor loop visits the scheduled deployments page by page in id order, and the table gains the new runs of all pages |
| Scheduler.Scheduler.PassStep | src/prefect/orion/services/scheduler.py:29-75 | one iteration either stops (a short page means success with every run inserted, a failure means generation fails overall) or moves the cursor to the page's last id with strictly fewer deployments to come |
| Scheduler.Scheduler.SchedulePage | src/prefect/orion/services/scheduler.py:29-68 | the page is the next `deployment_batch_size` scheduled deployments after the cursor (all of them if fewer remain); its runs extend the generation and inserts so far, or its failure makes the whole generation fail and leaves the table alone |
| Scheduler.Scheduler.CollectRuns | src/prefect/orion/services/scheduler.py:46-56 | the page's runs, concatenated in page order for the window `[now, now + max_scheduled_time]`, or a failure naming a deployment whose generation failed |
| Scheduler.Scheduler.InsertRuns | src/prefect/orion/services/scheduler.py:58-68 | the runs are inserted in the chunks `Batched(runs, insert batch size)`, which put back together are the runs and each hold 1 to the batch size runs; chunked inserts add what one insert of all the runs adds, and the count is the sum of the chunk inserts' sizes |
| Scheduler.Session.Insert | src/prefect/orion/services/scheduler.py:62-66 | an insert stores the offered runs whose (deployment, expected start) key is not yet stored, and returns them |
| Scheduler.Session.Begin | src/prefect/orion/services/scheduler.py:25-26 | opening the transaction records the flow run table |
| Scheduler.Session.Commit | src/prefect/orion/services/scheduler.py:25-26 | leaving the transaction normally keeps the inserts |
| Scheduler.Session.Rollback | src/prefect/orion/services/scheduler.py:25-26 | leaving the transaction on an error restores the recorded table |
| Scheduler.Dedup | src/prefect/orion/services/scheduler.py:62-66 | the runs an insert stores; `Scheduler.DedupFacts`, `Scheduler.DedupKeys`, `Scheduler.DedupDistinct` and `Scheduler.DedupConcat` state what they are |
| Scheduler.DedupFacts | src/prefect/orion/services/scheduler.py:62-68 | an insert stores no more runs than offered, only offered runs, none with a key already present, and it adds exactly the offered keys not yet present |
| Scheduler.DedupKeys | src/prefect/orion/services/scheduler.py:62-68 | the keys an insert adds are the offered keys minus those present |
| Scheduler.DedupDistinct | src/prefect/orion/services/scheduler.py:62-68 | the runs one insert stores never share a key |
| Scheduler.DedupConcat | src/prefect/orion/services/scheduler.py:59-68 | inserting `a` and then `b` equals inserting `a + b` |
| Scheduler.DedupAllSeen | src/prefect/orion/services/scheduler.py:62-68 | offering only runs whose keys are present stores nothing |
| Scheduler.RepeatPassInsertsNothing | src/prefect/orion/services/scheduler.py:59-68 | offering the same runs again after a pass's inserts stores nothing |
| Scheduler.InsertStep | src/prefect/orion/services/scheduler.py:59-68 | one more chunk insert continues the inserts so far as if all runs were offered at once |
| Scheduler.ChunkStep | src/prefect/orion/services/scheduler.py:59-68 | inserting chunk `j` after chunks `0..j-1` gives the insert of their concatenation, and the counts add up |
| Scheduler.Batched | src/prefect/orion/services/scheduler.py:59-61 | the insert chunks; `Scheduler.BatchedFlatten` and `Scheduler.BatchedSizes` state that they are the runs in order, each of 1 to `size` runs |
| Scheduler.BatchedFlatten | src/prefect/orion/services/scheduler.py:59-61 | the insert chunks, put back together, are exactly the runs, in order |
| Scheduler.BatchedSizes | src/prefect/orion/services/scheduler.py:59-61 | every chunk holds between one run and the insert batch size |
| Scheduler.PageQuery | src/prefect/orion/services/scheduler.py:29-41 | the page query's WHERE clause; `Scheduler.PageQuerySelects` states which deployments it selects |
| Scheduler.PageQuerySelects | src/prefect/orion/services/scheduler.py:29-41 | the page query selects a deployment iff its schedule is active and present, and its id is above the cursor when there is one |
| Scheduler.PageClauses | src/prefect/orion/services/scheduler.py:32-41 | each clause of the page query selects a deployment iff its own condition holds |
| Scheduler.MatchingPageQuery | src/prefect/orion/services/scheduler.py:29-44 | the rows the page query selects are the scheduled deployments above the cursor, in id order |
| Scheduler.ScheduledMembers | src/prefect/orion/services/scheduler.py:32-33 | the scheduled deployments are the table's rows with an active, present schedule |
| Scheduler.ScheduledSorted | src/prefect/orion/services/scheduler.py:35 | the scheduled deployments keep the table's ascending id order |
| Scheduler.AfterCursor | src/prefect/orion/services/scheduler.py:40-41 | with the cursor at the `i`-th id of a sorted list, the ids above it are the elements after position `i` |
| Scheduler.RestAfterCursor | src/prefect/orion/services/scheduler.py:40-41 | with the cursor after the deployments visited so far, what lies above it is the rest |
| Scheduler.NextPage | src/prefect/orion/services/scheduler.py:29-44 | with the cursor at the last deployment visited, the page query's rows are exactly the scheduled deployments still to come |
| Scheduler.Paginate | src/prefect/orion/services/scheduler.py:28-75 | the pages the loop fetches; `Scheduler.PaginateFlatten` and `Scheduler.PaginateSizes` state what they are |
| Scheduler.PaginateFlatten | src/prefect/orion/services/scheduler.py:28-75 | the pages, put back together, are the scheduled deployments, each visited once and in order |
| Scheduler.PaginateSizes | src/prefect/orion/services/scheduler.py:36-75 | `size` times the page count exceeds the deployment count by at most one page; all pages but the last are full and the last is short |
| Scheduler.LastPage | src/prefect/orion/services/scheduler.py:71-72 | a short page is the last: it holds every deployment still to come and completes the pages |
| Scheduler.PageAdvance | src/prefect/orion/services/scheduler.py:73-75 | after a full page the cursor is the page's last id, and the page moves from the deployments and pages to come into those visited |
| Scheduler.PageSucceeds | src/prefect/orion/services/scheduler.py:47-56 | a page whose generation succeeds appends its runs to those generated so far |
| Scheduler.PageFails | src/prefect/orion/services/scheduler.py:47-56 | a page whose generation fails makes generation for all scheduled deployments fail |
| Scheduler.Take | src/prefect/orion/services/scheduler.py:36 | `LIMIT n` keeps a prefix of at most `n` rows, and all of them when fewer than `n` match |
| Scheduler.GenerateAll | src/prefect/orion/services/scheduler.py:47-56 | the runs generated for a list of deployments; `Scheduler.GenerateAllSucceeds`, `Scheduler.GenerateAllConcat`, `Scheduler.GenerateAllWithinWindow` and `Scheduler.GenerateAllPerDeployment` state what they are |
| Scheduler.GenerateAllConcat | src/prefect/orion/services/scheduler.py:47-56 | generating for `a + b` concatenates the runs for `a` and for `b`, and fails iff either fails |
| Scheduler.GenerateAllSucceeds | src/prefect/orion/services/scheduler.py:47-56 | generation for a list succeeds iff it succeeds for every deployment in it |
| Scheduler.GenerateAllFailsFrom | src/prefect/orion/services/scheduler.py:47-56 | one deployment's failing generation makes the whole list's generation fail |
| Scheduler.GenerateAllWithinWindow | src/prefect/orion/services/scheduler.py:49-55 | with a generator that keeps its contract, every run lies in `[now, now + max_scheduled_time]` and belongs to a listed deployment, and there are at most `max_runs` runs per listed deployment in total |
| Scheduler.GenerateAllPerDeployment | src/prefect/orion/services/scheduler.py:47-56 | with such a generator and deployments in id order, each deployment id gets at most `max_runs` of the generated runs, and an id not listed gets none |
| Scheduler.DedupCount | src/prefect/orion/services/scheduler.py:62-66 | an insert stores no more runs of a deployment than it is offered |
| Scheduler.PassRunsPerDeployment | src/prefect/orion/services/scheduler.py:47-68 | a pass inserts at most `max_runs` runs for each deployment, and none for a deployment that is not scheduled |

## Left out

- Asynchronous I/O, the session factory, `session.flush()`, the log line and `loop_seconds` are left out. The model is sequential and the session is an object passed in.
- Time is a parameter (`now`): the clock is not read. Datetimes and the `max_scheduled_time` timedelta are integers.
- `models.deployments._generate_scheduled_flow_runs` is not part of this model. It is a parameter (`Generator`) that returns `None` for a raised error. `GenerateAllWithinWindow` assumes a generator that stays inside the window it is given.
- `models.deployments._insert_scheduled_flow_runs` is not part of this model. `Session.Insert` models it as an insert that skips runs whose (deployment id, expected start time) key is already stored, and returns the runs it stored.
- Scheduler.Scheduler.InsertRuns: `batched_iterable` is not part of this model. `Batched` models it as consecutive slices of the batch size, and a positive insert batch size is required. A zero size is not modelled.
- Failures inside an insert are not modelled. Only a failing generator or the empty-page index error rolls the transaction back.
- Scheduler.Scheduler.RunOnce: the deployment batch size and `max_runs` are natural numbers, so negative settings are not modelled. With a negative batch size the source never sees a short page. What happens next depends on the database: it may reject a negative `LIMIT`, or treat it as no limit and then reach an empty page. Either way the pass ends in an error and a rollback.
- A deployment batch size of zero gives `LIMIT 0`: an empty page that is not shorter than the batch size, then `deployments[-1]` on it. The model returns the `EmptyPageIndex` error there, and the transaction rolls back.
- The code fetches `N / B + 1` pages for `N` scheduled deployments and page size `B`. When `B` divides `N`, the last fetched page is empty. The loop's own stopping rule is followed here, not the shorter count of `ceil(N / B)` pages.
- `if last_id:` tests truthiness of a UUID, which is always true once set. It is modelled as "a cursor is present".
- The deployments table is a list kept in ascending id order. `ORDER BY id` together with the cursor is modelled on that order, with ids as integers.
- `StateType` values are integer codes. The enum is not part of this model.
- `json_has_all_keys` on a tag list is modelled as a set-superset test on the tags.
- `state.has(name IN ...)` and `subflow_run.has()` are modelled as two-valued EXISTS tests on the current state name and on a subflow flag.
- Pydantic validation, field descriptions and the `*FilterCriteria` subclasses are not modelled; the subclasses add no fields.
