/** The rows of recorded tool calls, one function per call on the approval store. */
module Calls {
  import opened Json
  import opened Types
  import opened Store

  type Rows = map<string, CallRow>

  /** How a call ends. */
  datatype Completion = Completion(status: ToolCallStatus, result: Option<Json>, errorCode: Option<string>,
                                   approvalId: Option<string>)

  /** Keeps a row that is there already. */
  function RecordCall(rows: Rows, row: CallRow): Rows {
    if row.id in rows then rows else rows[row.id := row]
  }

  function MarkApproved(rows: Rows, id: string, approval: string): (Rows, Result<()>) {
    if id !in rows then (rows, Err(NotFound))
    else if rows[id].status != AwaitingApproval then (rows, Err(Conflict))
    else (rows[id := rows[id].(status := Approved, approvalId := Some(approval))], Ok(()))
  }

  function MarkDenied(rows: Rows, id: string, now: Time): (Rows, Result<()>) {
    if id !in rows then (rows, Err(NotFound))
    else if rows[id].status != AwaitingApproval then (rows, Err(Conflict))
    else (rows[id := rows[id].(status := Denied, completedAt := Some(now))], Ok(()))
  }

  function MarkRunning(rows: Rows, id: string, approval: Option<string>): (Rows, Result<()>) {
    if id !in rows then (rows, Err(NotFound))
    else
      var row := rows[id].(status := Running);
      (rows[id := if approval.Some? then row.(approvalId := approval) else row], Ok(()))
  }

  function CompleteCall(rows: Rows, id: string, c: Completion, now: Time): (Rows, Result<()>) {
    if id !in rows then (rows, Err(NotFound))
    else
      var row := rows[id].(status := c.status, result := c.result, errorCode := c.errorCode, completedAt := Some(now));
      (rows[id := if c.approvalId.Some? then row.(approvalId := c.approvalId) else row], Ok(()))
  }

  predicate Overdue(row: CallRow, now: Time) {
    row.status == AwaitingApproval && row.expiresAt.Some? && row.expiresAt.value < now
  }

  function ExpireCalls(rows: Rows, now: Time): Rows {
    map k | k in rows ::
      if Overdue(rows[k], now) then rows[k].(status := Expired, completedAt := Some(now)) else rows[k]
  }
}
