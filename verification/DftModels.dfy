/** Values shared by the DFT job lifecycle (`dft/models.py`, `dft/bridge_models.py`). */
module DftModels {
  datatype JobStatus =
    | Created | Submitting | Queued | Running | Completing
    | Succeeded | Failed | Timeout | CancelRequested | Cancelled | Unknown

  predicate Terminal(s: JobStatus) { s.Succeeded? || s.Failed? || s.Timeout? || s.Cancelled? }

  function Rank(s: JobStatus): nat
    requires !s.Unknown?
  {
    match s
    case Created => 0
    case Submitting => 1
    case Queued => 2
    case Running => 3
    case Completing => 4
    case CancelRequested => 4
    case _ => 5
  }

  /** A frozen request; `rest` stands for the fields no check reads. The request is its own hash. */
  datatype Request = Request(
    requestId: string, planHash: string, snapshotHash: string, taskHash: string, isMock: bool, backendId: string, rest: string)

  /** Job identities hash what they name. */
  datatype TaskId = BridgeWorkflow(key: string, request: Request) | MockTask(key: string, planHash: string)

  datatype RefId = BridgeJob(backendId: string, workflowId: TaskId, key: string, taskHash: string) | MockJob(key: string, planHash: string)

  datatype JobRef = JobRef(refId: RefId, backendId: string, taskId: TaskId, key: string, taskHash: string, isMock: bool)
}
