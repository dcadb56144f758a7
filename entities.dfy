/** The persistent entities that filters select and that the scheduler reads:
    flows, flow runs, task runs and deployments, reduced to the columns that a
    filter or the scheduler's page query mentions. Identifiers (UUIDs in the
    system) are integers, timestamps are integers, nullable columns are `Option`. */
module Entities {
  import opened Wrappers

  type Id = int
  type Time = int

  /** Code of a state type (SCHEDULED, RUNNING, ...); the enumeration itself is
      defined in schemas/states.py, which is not part of this model. */
  type StateType = int

  datatype Flow = Flow(id: Id, name: string, tags: seq<string>)

  /** A flow run. `stateName` is the name of the run's current state row, `None`
      when the run has no state row. */
  datatype FlowRun = FlowRun(
    id: Id,
    name: string,
    tags: seq<string>,
    deploymentId: Option<Id>,
    stateType: Option<StateType>,
    stateName: Option<string>,
    flowVersion: Option<string>,
    startTime: Option<Time>,
    expectedStartTime: Option<Time>,
    nextScheduledStartTime: Option<Time>,
    parentTaskRunId: Option<Id>)

  /** A task run. `hasSubflowRun` tells whether some flow run names this task
      run as its parent (the `subflow_run` relation). */
  datatype TaskRun = TaskRun(
    id: Id,
    name: string,
    tags: seq<string>,
    stateType: Option<StateType>,
    stateName: Option<string>,
    startTime: Option<Time>,
    hasSubflowRun: bool)

  /** A deployment. `schedule` is its recurrence rule, opaque to this model;
      `None` means the deployment has no schedule. */
  datatype Deployment = Deployment(
    id: Id,
    name: string,
    tags: seq<string>,
    isScheduleActive: bool,
    schedule: Option<string>)
}
