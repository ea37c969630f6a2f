/** Rows and values shared by the moderation stores. */
module ModerationTypes {
  import opened Results

  datatype Decision = Allow | Review | Block

  datatype ReviewStatus = Pending | Approved | Rejected | Mistake

  /** The JSON body sent to clients; the codec itself is taken to be a bijection. */
  datatype Payload = Payload(
    requestId: string, clientId: nat, externalId: string, decision: Decision, reviewStatus: Option<ReviewStatus>)

  /** key is the unique idempotency key, absent for operator checks and checks without an external id. */
  datatype Request = Request(
    requestId: string, userId: nat, clientId: Option<nat>, externalId: string, key: Option<string>)

  datatype ResultRow = ResultRow(requestId: string, userId: nat, clientId: Option<nat>, decision: Decision)

  datatype ReviewCase = ReviewCase(
    id: nat,
    requestId: string,
    userId: nat,
    clientId: Option<nat>,
    status: ReviewStatus,
    reviewerId: Option<nat>,
    finalDecision: Option<Decision>,
    notes: string,
    reviewedAt: Option<int>)
}
