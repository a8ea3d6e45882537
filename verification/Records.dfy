/** Job occurrences as the store keeps them. */
module Records {
  import opened Types

  datatype JobStatus = Pending | Running | Completed | Failed | Canceled | FailedStale | Queued

  datatype OverlapPolicy = Skip | Allow | Queue

  datatype UpdatePolicy = Immediate | Graceful | Windowed

  /** A stored job occurrence. `config` is the serialised configuration snapshot. */
  datatype Occurrence = Occurrence(
    id: string, jobId: string, jobVersion: int, scheduledTime: Time, status: JobStatus,
    owner: string, startTime: Option<Time>, endTime: Option<Time>, config: Option<string>,
    isRecovery: bool, createdAt: Time)

  /** The two variable parts of an occurrence's storage key: job id and occurrence id. */
  type Key = (string, string)

  function KeyOf(o: Occurrence): Key { (o.jobId, o.id) }

  /** The fields that are fixed when an occurrence is created. */
  predicate SameIdentity(a: Occurrence, b: Occurrence) {
    && a.id == b.id && a.jobId == b.jobId && a.jobVersion == b.jobVersion
    && a.scheduledTime == b.scheduledTime && a.isRecovery == b.isRecovery && a.createdAt == b.createdAt
  }
}
