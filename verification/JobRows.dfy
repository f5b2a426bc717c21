/** Rows of the `jobs` table and the SQL updates of one row. Every function here is one
    `UPDATE` statement, its WHERE clause included: a row it does not match is returned as is. */
module JobRows {
  import opened Common
  import opened CreationTypes

  type JobId = nat
  type ProjectId = nat
  type TakeId = nat
  type Token = nat
  type Handle = nat
  /** A timestamp, in microseconds: the precision of the ISO strings the rows store. */
  type Time = int

  datatype Status = Queued | Running | Done | Failed | Cancelled

  /** The six generate-shaped actions share one life cycle; `train_lora` has its own. */
  datatype Kind = Shaped | TrainLora

  datatype Stage = NeedsConfirmation | LoadingModel | Planning | Rendering | WritingTake

  /** `lyre.resolved/1`: what every attempt of the job renders. */
  datatype Record = Record(brief: Brief, seed: int)

  datatype Row = Row(
    project: ProjectId, kind: Kind, createdAt: Time,
    submission: Option<string>, requestHash: nat, retryOf: Option<JobId>,
    seed: Option<int>, snapshot: Option<Intent>,
    status: Status, stage: Option<Stage>, takeId: Option<TakeId>, error: Option<string>,
    updatedAt: Time, heartbeatAt: Option<Time>, attempts: nat, cancelRequested: bool,
    token: Option<Token>, resolved: Option<Record>, remoteHandle: Option<Handle>)

  type Jobs = map<JobId, Row>

  const MAX_ATTEMPTS: nat := 3
  const STALE_AFTER := 60_000_000

  /** The error text that marks a job cancelled by a project deletion. */
  const PROJECT_DELETED := "project deleted"

  predicate Terminal(s: Status) {
    s == Done || s == Failed || s == Cancelled
  }

  /** The row is running under attempt `t`. */
  predicate Owns(r: Row, t: Token) {
    r.status == Running && r.token == Some(t)
  }

  /** A `WHERE ... status = 'running' [AND attempt_token = ?]` clause. */
  predicate RunningUnder(r: Row, t: Option<Token>) {
    r.status == Running && (t.Some? ==> r.token == t)
  }

  function Claimed(r: Row, t: Token, now: Time): Row {
    r.(status := Running, heartbeatAt := Some(now), token := Some(t),
       attempts := r.attempts + 1, updatedAt := now)
  }

  function HeldForConfirmation(r: Row, now: Time): Row {
    if r.status == Queued then r.(stage := Some(NeedsConfirmation), updatedAt := now) else r
  }

  function Touched(r: Row, now: Time): Row {
    if r.status == Running then r.(heartbeatAt := Some(now)) else r
  }

  function AtStage(r: Row, stage: Stage, now: Time): Row {
    if r.status == Running then r.(stage := Some(stage), updatedAt := now) else r
  }

  function Frozen(r: Row, t: Option<Token>, record: Record, now: Time): Row {
    if RunningUnder(r, t) then r.(resolved := Some(record), updatedAt := now) else r
  }

  function WithHandle(r: Row, t: Option<Token>, handle: Handle, now: Time): Row {
    if RunningUnder(r, t) then r.(remoteHandle := Some(handle), updatedAt := now) else r
  }

  /** `cancel_job`: a queued job ends, a running one only gets the flag. */
  function CancelRequested(r: Row, now: Time): Row {
    if r.status == Queued then
      r.(status := Cancelled, error := None, takeId := None, cancelRequested := true, updatedAt := now)
    else if r.status == Running then
      r.(cancelRequested := true, updatedAt := now)
    else r
  }

  function MarkedCancelled(r: Row, t: Option<Token>, now: Time): Row {
    if (r.status == Queued || r.status == Running)
       && (t.Some? ==> r.status == Queued || r.token == t)
    then r.(status := Cancelled, error := None, takeId := None, cancelRequested := true, updatedAt := now)
    else r
  }

  /** `finish_done`, which reports whether it matched. */
  predicate CanFinish(r: Row, t: Option<Token>) {
    RunningUnder(r, t) && !r.cancelRequested
  }

  function FinishedDone(r: Row, t: Option<Token>, take: Option<TakeId>, now: Time): Row {
    if CanFinish(r, t)
    then r.(status := Done, takeId := take, error := None, stage := Some(WritingTake), updatedAt := now)
    else r
  }

  /** The commit's own update, which its transaction guards with a read of the row. */
  function CommittedDone(r: Row, take: TakeId, now: Time): Row {
    r.(status := Done, takeId := Some(take), error := None, stage := Some(WritingTake), updatedAt := now)
  }

  /** `_set_status(..., "error")`: fenced when it carries a token, unconditional otherwise. */
  function SetFailed(r: Row, t: Option<Token>, take: Option<TakeId>, error: string, now: Time): Row {
    if t.Some? ==> Owns(r, t.value)
    then r.(status := Failed, takeId := take, error := Some(error), updatedAt := now)
    else r
  }

  /** The watchdog's `_set_status_if_running(..., "error")`. */
  function Expired(r: Row, message: string, now: Time): Row {
    if r.status == Running
    then r.(status := Failed, takeId := None, error := Some(message), updatedAt := now)
    else r
  }

  /** A heartbeat, a stage or a remote handle changes its own column, of a running row only; a handle
      under a token, only that of the token's attempt. */
  lemma ProgressIsReported(r: Row, stage: Stage, t: Token, handle: Handle, now: Time)
    ensures Touched(r, now) == r.(heartbeatAt := Touched(r, now).heartbeatAt)
    ensures Touched(r, now).heartbeatAt == if r.status == Running then Some(now) else r.heartbeatAt
    ensures AtStage(r, stage, now) == r.(stage := AtStage(r, stage, now).stage, updatedAt := AtStage(r, stage, now).updatedAt)
    ensures AtStage(r, stage, now).stage == if r.status == Running then Some(stage) else r.stage
    ensures var r' := WithHandle(r, Some(t), handle, now);
      && r' == r.(remoteHandle := r'.remoteHandle, updatedAt := r'.updatedAt)
      && r'.remoteHandle == if r.status == Running && r.token == Some(t) then Some(handle) else r.remoteHandle
  {
  }

  predicate Stale(reference: Time, staleAfter: int, now: Time) {
    reference < now - staleAfter
  }

  predicate Reclaimable(r: Row, staleAfter: int, now: Time) {
    r.status == Running && Stale(r.heartbeatAt.GetOr(r.updatedAt), staleAfter, now)
  }

  /** What `reclaim_stale_jobs` does to one running row whose heartbeat went stale. */
  function Reclaimed(r: Row, now: Time): Row {
    if r.cancelRequested then
      r.(status := Cancelled, error := None, takeId := None, updatedAt := now)
    else if r.remoteHandle.Some? then
      r.(status := Failed, error := Some("the remote outcome is unknown"), token := None, updatedAt := now)
    else if r.attempts >= MAX_ATTEMPTS then
      r.(status := Failed, error := Some("worker heartbeat lost"), token := None, updatedAt := now)
    else
      r.(status := Queued, heartbeatAt := None, token := None, updatedAt := now)
  }

  function DeletionCancelled(r: Row, p: ProjectId, now: Time): Row {
    if r.project == p && r.status == Queued
    then r.(status := Failed, error := Some(PROJECT_DELETED), updatedAt := now)
    else r
  }

  function DeletionRestored(r: Row, now: Time): Row {
    if r.status == Failed && r.error == Some(PROJECT_DELETED)
    then r.(status := Queued, error := None, updatedAt := now)
    else r
  }

  /** The second transaction of `retry_job`, over what it read from the original job. */
  function WithCopiedRequest(r: Row, snapshot: Option<Intent>, resolved: Option<Record>): Row {
    if r.status == Queued
    then r.(snapshot := if snapshot.Some? then snapshot else r.snapshot, resolved := resolved)
    else r
  }

  /** A freshly inserted row. */
  predicate NewRow(r: Row) {
    && r.status == Queued && r.stage == None && r.takeId == None && r.error == None
    && r.heartbeatAt == None && r.attempts == 0 && !r.cancelRequested && r.token == None
    && r.resolved == None && r.remoteHandle == None
    && (r.kind == Shaped ==> r.snapshot.Some?)
  }

  /** The claim's query: queued, not held for confirmation, project not being deleted. */
  predicate Claimable(r: Row, tombstones: set<ProjectId>) {
    r.status == Queued && r.project !in tombstones && r.stage != Some(NeedsConfirmation)
  }

  /** A generate-shaped row without the creation input that enqueueing freezes. */
  predicate Unsnapshotted(r: Row) {
    r.kind == Shaped && r.snapshot.None?
  }

  /** `describe_failure`: the text always ends with the bracketed job and stage. */
  function DescribeFailure(text: string, where: string): (message: string)
    ensures message != PROJECT_DELETED
  {
    var m := text + " [" + where + "]";
    assert m[|m| - 1] == ']';
    assert PROJECT_DELETED[|PROJECT_DELETED| - 1] == 'd';
    m
  }
}
