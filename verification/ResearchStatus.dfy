/** The statuses of a brand research run, shared by the scheduler, the leases and the progress of runs. */
module ResearchStatus {

  datatype RunStatus = Queued | Running | Partial | Complete | Failed | Cancelled

  /** `status IN ('queued', 'running', 'partial')`: at most one such run per brand. */
  predicate Active(status: RunStatus) { status == Queued || status == Running || status == Partial }
}
