/** `Idempotency-Key` for POST requests: a key's row is reserved before its handler runs, and
    released or filled with the response when the handler ends. */
module Idempotency {
  import opened Common

  type OwnerId = string
  type Key = string
  /** One run of a handler. */
  type RunId = nat
  /** Epoch seconds. */
  type Time = int

  const TTL: Time := 24 * 60 * 60

  datatype Slot = Slot(owner: OwnerId, key: Key)

  /** The request hash is taken to be injective: the digest stands for the raw request. */
  type Digest = string

  datatype Response = Response(status: nat, body: string, location: Option<string>)

  /** `response.None?` is a pending row. `run` is history: the run that reserved it. */
  datatype Row = Row(digest: Digest, response: Option<Response>, expiresAt: Time, run: RunId)

  type Rows = map<Slot, Row>

  datatype Reservation = Start | Replay(response: Response) | OtherBody | InProgress

  /** `_purge_expired`. */
  function Purged(rows: Rows, now: Time): Rows {
    map s | s in rows && rows[s].expiresAt > now :: rows[s]
  }

  /** What `reserve` answers. */
  function Answer(rows: Rows, slot: Slot, digest: Digest, now: Time): Reservation {
    var live := Purged(rows, now);
    if slot !in live then Start
    else if live[slot].digest != digest then OtherBody
    else match live[slot].response
      case Some(response) => Replay(response)
      case None => InProgress
  }

  /** What `reserve` leaves. Only an insert commits: otherwise the purge is rolled back too. */
  function Reserved(rows: Rows, slot: Slot, digest: Digest, now: Time, run: RunId): Rows {
    if Answer(rows, slot, digest, now) == Start
    then Purged(rows, now)[slot := Row(digest, None, now + TTL, run)]
    else rows
  }

  predicate Pending(rows: Rows, slot: Slot) {
    slot in rows && rows[slot].response.None?
  }

  function Released(rows: Rows, slot: Slot): Rows {
    if Pending(rows, slot) then rows - {slot} else rows
  }

  /** A queued job's 202 is replayed as 200. */
  function Stored(queuesJob: bool, response: Response): Response {
    if response.status == 202 && queuesJob then response.(status := 200) else response
  }

  function Remembered(rows: Rows, slot: Slot, queuesJob: bool, response: Response): Rows {
    if Pending(rows, slot) then rows[slot := rows[slot].(response := Some(Stored(queuesJob, response)))] else rows
  }

  /** What the middleware does with a finished response. */
  function Recorded(rows: Rows, slot: Slot, queuesJob: bool, response: Response): Rows {
    if response.status >= 500 || response.status == 0 then Released(rows, slot)
    else Remembered(rows, slot, queuesJob, response)
  }

  // ---- the store and the middleware, in place ----

  /** What a handler sends. */
  datatype Message = Head(status: nat, location: Option<string>) | Chunk(body: string, more: bool)

  /** The response as it stands after `messages`: the last head, all chunks. */
  function Captured(messages: seq<Message>): Response {
    if messages == [] then Response(0, "", None)
    else
      var r := Captured(messages[..|messages| - 1]);
      match messages[|messages| - 1]
      case Head(status, location) => r.(status := status, location := location)
      case Chunk(body, _) => r.(body := r.body + body)
  }

  predicate IsFinal(m: Message) {
    m.Chunk? && !m.more
  }

  /** The first final chunk ends the response. */
  function FinalAt(messages: seq<Message>, n: nat): (at: nat)
    requires n <= |messages|
    ensures n <= at <= |messages|
    ensures at < |messages| ==> messages[at].Chunk? && !messages[at].more
    ensures forall k | n <= k < at :: messages[k].Chunk? ==> messages[k].more
    decreases |messages| - n
  {
    if n == |messages| || IsFinal(messages[n]) then n else FinalAt(messages, n + 1)
  }

  /** All chunks, in order. */
  function BodyOf(messages: seq<Message>): string {
    if messages == [] then ""
    else (if messages[0].Chunk? then messages[0].body else "") + BodyOf(messages[1..])
  }

  lemma {:induction false} BodyExtends(messages: seq<Message>, m: Message)
    ensures BodyOf(messages + [m]) == BodyOf(messages) + if m.Chunk? then m.body else ""
  {
    if messages == [] {
      assert messages + [m] == [m] && [m][1..] == [];
    } else {
      BodyExtends(messages[1..], m);
      assert (messages + [m])[1..] == messages[1..] + [m] && (messages + [m])[0] == messages[0];
      var first := if messages[0].Chunk? then messages[0].body else "";
      var last := if m.Chunk? then m.body else "";
      assert first + (BodyOf(messages[1..]) + last) == first + BodyOf(messages[1..]) + last;
    }
  }

  /** A captured response has the status and location of the last head, none without one, and all
      chunks as its body. */
  lemma {:induction false} CapturedIs(messages: seq<Message>)
    ensures Captured(messages).body == BodyOf(messages)
    ensures forall n | 0 <= n < |messages| && messages[n].Head? ::
      (forall k | n < k < |messages| :: messages[k].Chunk?) ==>
        Captured(messages).status == messages[n].status && Captured(messages).location == messages[n].location
    ensures (forall k | 0 <= k < |messages| :: messages[k].Chunk?) ==>
      Captured(messages).status == 0 && Captured(messages).location == None
  {
    if messages != [] {
      var rest, last := messages[..|messages| - 1], messages[|messages| - 1];
      CapturedIs(rest);
      BodyExtends(rest, last);
      assert rest + [last] == messages;
      forall n | 0 <= n < |messages| && messages[n].Head? && forall k | n < k < |messages| :: messages[k].Chunk?
        ensures Captured(messages).status == messages[n].status && Captured(messages).location == messages[n].location
      {
        if n < |rest| {
          assert rest[n] == messages[n] && forall k | n < k < |rest| :: rest[k] == messages[k];
        }
      }
      if forall k | 0 <= k < |messages| :: messages[k].Chunk? {
        assert forall k | 0 <= k < |rest| :: rest[k] == messages[k];
      }
    }
  }

  /** A row that a handler run still has to settle. */
  predicate Unsettled(rows: Rows, slot: Slot) {
    slot in rows && rows[slot].response == None
  }

  /** What the end of a handler run makes of its row: no row but an unsettled one is touched. That one
      is dropped after a failure (no status, a server error, or an exception before the response was
      complete), keeps waiting for a response that never completed, and otherwise remembers it, a
      queued job's 202 as 200. */
  predicate Settles(rows: Rows, slot: Slot, queuesJob: bool, complete: bool, response: Response, raises: bool, rows': Rows) {
    if !Unsettled(rows, slot) then rows' == rows
    else if !complete then rows' == if raises then rows - {slot} else rows
    else if response.status == 0 || response.status >= 500 then rows' == rows - {slot}
    else rows' == rows[slot := rows[slot].(response := Some(Response(
      if response.status == 202 && queuesJob then 200 else response.status, response.body, response.location)))]
  }

  lemma CaptureSettles(rows: Rows, slot: Slot, queuesJob: bool, complete: bool, response: Response, raises: bool)
    ensures Settles(rows, slot, queuesJob, complete, response, raises,
      if complete then (var settled := Recorded(rows, slot, queuesJob, response);
                        if raises then Released(settled, slot) else settled)
      else if raises then Released(rows, slot) else rows)
  {
  }

  class Store {
    var rows: Rows

    constructor ()
      ensures rows == map[]
    {
      rows := map[];
    }

    method Reserve(slot: Slot, digest: Digest, now: Time, run: RunId) returns (r: Reservation)
      modifies this
      ensures r == Answer(old(rows), slot, digest, now)
      ensures rows == Reserved(old(rows), slot, digest, now, run)
      // The same in columns: a day for a new row, and no change for one that has not expired.
      ensures slot in old(rows) && old(rows)[slot].expiresAt > now ==>
        && rows == old(rows)
        && r == if old(rows)[slot].digest != digest then OtherBody
                else if old(rows)[slot].response.Some? then Replay(old(rows)[slot].response.value) else InProgress
      ensures !(slot in old(rows) && old(rows)[slot].expiresAt > now) ==>
        && r == Start && slot in rows && rows[slot] == Row(digest, None, now + 86400, run)
        && (forall s | s in old(rows) && s != slot :: s in rows <==> old(rows)[s].expiresAt > now)
        && (forall s | s in rows && s != slot :: s in old(rows) && rows[s] == old(rows)[s])
    {
      var live := Purged(rows, now);
      if slot !in live {
        rows := live[slot := Row(digest, None, now + TTL, run)];
        return Start;
      }
      if live[slot].digest != digest {
        return OtherBody;
      }
      match live[slot].response
      case Some(response) => return Replay(response);
      case None => return InProgress;
    }

    method Release(slot: Slot)
      modifies this
      ensures rows == Released(old(rows), slot)
      ensures rows == if Unsettled(old(rows), slot) then old(rows) - {slot} else old(rows)
    {
      if slot in rows && rows[slot].response.None? {
        rows := rows - {slot};
      }
    }

    method Remember(slot: Slot, queuesJob: bool, response: Response)
      modifies this
      ensures rows == Remembered(old(rows), slot, queuesJob, response)
      ensures rows == if !Unsettled(old(rows), slot) then old(rows)
        else old(rows)[slot := old(rows)[slot].(response := Some(Response(
          if response.status == 202 && queuesJob then 200 else response.status, response.body, response.location)))]
    {
      var stored := if response.status == 202 && queuesJob then response.(status := 200) else response;
      if slot in rows && rows[slot].response.None? {
        rows := rows[slot := rows[slot].(response := Some(stored))];
      }
    }

    /** The middleware around one handler run that sends `messages` and then returns or raises. The
        row is settled by the first final chunk; without one a raise releases it, and a return
        leaves it pending. */
    method Capture(slot: Slot, queuesJob: bool, messages: seq<Message>, raises: bool)
      modifies this
      ensures var n := FinalAt(messages, 0);
        rows == if n < |messages|
                then (var settled := Recorded(old(rows), slot, queuesJob, Captured(messages[..n + 1]));
                      if raises then Released(settled, slot) else settled)
                else if raises then Released(old(rows), slot) else old(rows)
      ensures var n := FinalAt(messages, 0);
        Settles(old(rows), slot, queuesJob, n < |messages|,
                Captured(if n < |messages| then messages[..n + 1] else messages), raises, rows)
    {
      ghost var end := FinalAt(messages, 0);
      ghost var sent := Captured(if end < |messages| then messages[..end + 1] else messages);
      CaptureSettles(rows, slot, queuesJob, end < |messages|, sent, raises);
      hide Settles, Unsettled, FinalAt;
      var status, location, body, finished := 0, None, "", false;
      for n := 0 to |messages|
        invariant finished <==> end < n
        invariant Captured(messages[..n]) == Response(status, body, location)
        invariant rows == if finished then Recorded(old(rows), slot, queuesJob, sent) else old(rows)
      {
        assert messages[..n + 1][..n] == messages[..n];
        match messages[n]
        case Head(s, l) => status, location := s, l;
        case Chunk(b, more) =>
          body := body + b;
          if !more && !finished {
            finished := true;
            if status >= 500 || status == 0 {
              Release(slot);
            } else {
              Remember(slot, queuesJob, Response(status, body, location));
            }
          }
      }
      if raises {
        Release(slot);
      }
    }
  }

  // ---- whole runs ----

  /** A handler run under way. */
  datatype Run = Run(slot: Slot, digest: Digest, startedAt: Time)

  /** The database and the runs; `started` is history: every run there ever was. */
  datatype Sys = Sys(rows: Rows, running: map<RunId, Run>, started: map<RunId, Run>)

  const INITIAL := Sys(map[], map[], map[])

  datatype Step =
    | Request(slot: Slot, digest: Digest, run: RunId, now: Time)
    | Respond(run: RunId, queuesJob: bool, response: Response, now: Time)   // the final chunk
    | Fail(run: RunId, now: Time)                                          // the handler raises
    | Vanish(run: RunId, now: Time)                                        // it ends without either

  predicate Next(s: Sys, step: Step, s': Sys) {
    match step
    case Request(slot, digest, run, now) =>
      && run !in s.started
      && s' == if Answer(s.rows, slot, digest, now) == Start
               then s.(rows := Reserved(s.rows, slot, digest, now, run),
                       running := s.running[run := Run(slot, digest, now)],
                       started := s.started[run := Run(slot, digest, now)])
               else s
    case Respond(run, queuesJob, response, now) =>
      && run in s.running
      && s' == s.(rows := Recorded(s.rows, s.running[run].slot, queuesJob, response), running := s.running - {run})
    case Fail(run, now) =>
      && run in s.running
      && s' == s.(rows := Released(s.rows, s.running[run].slot), running := s.running - {run})
    case Vanish(run, now) =>
      run in s.running && s' == s.(running := s.running - {run})
  }

  /** Steps happen at times that do not run backwards. */
  function TimeOf(step: Step): Time {
    step.now
  }

  ghost predicate IsRun(run: seq<Sys>, steps: seq<Step>) {
    && |run| == |steps| + 1 && run[0] == INITIAL
    && (forall i :: 0 <= i < |steps| ==> Next(run[i], steps[i], run[i + 1]))
    && (forall i, m | 0 <= i <= m < |steps| :: TimeOf(steps[i]) <= TimeOf(steps[m]))
  }

  /** No row of `slot` expires up to step `m`. */
  ghost predicate Unexpired(steps: seq<Step>, i: nat, m: nat, expiresAt: Time) {
    i <= m <= |steps| && forall n | i <= n < m :: TimeOf(steps[n]) < expiresAt
  }

  /** While a key's row exists and has not expired, no second handler run starts for it: whatever
      the request, it is replayed or refused. */
  lemma NoSecondStart(s: Sys, slot: Slot, digest: Digest, run: RunId, now: Time, s': Sys)
    requires Next(s, Request(slot, digest, run, now), s') && slot in s.rows && now < s.rows[slot].expiresAt
    ensures s' == s && Answer(s.rows, slot, digest, now) != Start
    ensures Answer(s.rows, slot, digest, now) == Replay(s.rows[slot].response.GetOr(Response(0, "", None)))
      <==> s.rows[slot].digest == digest && s.rows[slot].response.Some?
    ensures Answer(s.rows, slot, digest, now) == OtherBody <==> s.rows[slot].digest != digest
  {
  }

  lemma RememberedStands(s: Sys, step: Step, s': Sys, slot: Slot)
    requires Next(s, step, s') && slot in s.rows && s.rows[slot].response.Some?
    requires TimeOf(step) < s.rows[slot].expiresAt
    ensures slot in s'.rows && s'.rows[slot] == s.rows[slot]
  {
  }

  /** A remembered response stands until it expires, whatever late runs do: every request with the
      same digest replays it, and every other digest conflicts. */
  lemma {:induction false} RememberedReplays(run: seq<Sys>, steps: seq<Step>, i: nat, m: nat, slot: Slot, digest: Digest,
                                             now: Time)
    requires IsRun(run, steps) && i <= m < |run| && slot in run[i].rows && run[i].rows[slot].response.Some?
    requires Unexpired(steps, i, m, run[i].rows[slot].expiresAt) && now < run[i].rows[slot].expiresAt
    ensures slot in run[m].rows && run[m].rows[slot] == run[i].rows[slot]
    ensures Answer(run[m].rows, slot, digest, now)
      == if digest == run[i].rows[slot].digest then Replay(run[i].rows[slot].response.value) else OtherBody
    decreases m - i
  {
    hide Next;
    if i < m {
      RememberedReplays(run, steps, i, m - 1, slot, digest, now);
      RememberedStands(run[m - 1], steps[m - 1], run[m], slot);
    }
  }

  /** A run fails: it raises, or its response has no status or a server error. */
  predicate Fails(step: Step, r: RunId) {
    || (step.Fail? && step.run == r)
    || (step.Respond? && step.run == r && (step.response.status == 0 || step.response.status >= 500))
  }

  lemma FailureReleases(s: Sys, step: Step, s': Sys, r: RunId)
    requires Next(s, step, s') && Fails(step, r)
    ensures r in s.running
    ensures var slot := s.running[r].slot;
      (slot in s.rows && s.rows[slot].response.Some? && s'.rows == s.rows) || slot !in s'.rows
  {
  }

  lemma AbsentStays(s: Sys, step: Step, s': Sys, slot: Slot)
    requires Next(s, step, s') && slot !in s.rows && !(step.Request? && step.slot == slot)
    ensures slot !in s'.rows
  {
  }

  lemma {:induction false} AbsentUntilRequested(run: seq<Sys>, steps: seq<Step>, i: nat, m: nat, slot: Slot)
    requires IsRun(run, steps) && i <= m < |run| && slot !in run[i].rows
    requires forall n | i <= n < m :: !(steps[n].Request? && steps[n].slot == slot)
    ensures slot !in run[m].rows
    decreases m - i
  {
    hide Next;
    if i < m {
      AbsentUntilRequested(run, steps, i, m - 1, slot);
      AbsentStays(run[m - 1], steps[m - 1], run[m], slot);
    }
  }

  /** A failed run does not use up its key: unless a response was already remembered for it, no row is
      left, and the next request for the key starts the handler again, whatever its body. */
  lemma FailedRunStartsAgain(run: seq<Sys>, steps: seq<Step>, i: nat, m: nat, r: RunId, digest: Digest, now: Time)
    requires IsRun(run, steps) && i < m < |run| && Fails(steps[i], r) && r in run[i].running
    requires var slot := run[i].running[r].slot;
      && !(slot in run[i].rows && run[i].rows[slot].response.Some?)
      && forall n | i < n < m :: !(steps[n].Request? && steps[n].slot == slot)
    ensures run[i].running[r].slot !in run[m].rows
    ensures Answer(run[m].rows, run[i].running[r].slot, digest, now) == Start
  {
    assert Next(run[i], steps[i], run[i + 1]);
    hide Next;
    FailureReleases(run[i], steps[i], run[i + 1], r);
    AbsentUntilRequested(run, steps, i + 1, m, run[i].running[r].slot);
  }

  /** A run that answers with anything else settles a pending row: until it expires, every request with
      that row's body is given the same status, body and location, a queued job's 202 as 200. */
  lemma AnsweredRunReplays(run: seq<Sys>, steps: seq<Step>, i: nat, m: nat, r: RunId, queuesJob: bool, response: Response,
                           at: Time, slot: Slot, row: Row, now: Time)
    requires IsRun(run, steps) && i < m < |run| && steps[i] == Respond(r, queuesJob, response, at)
    requires 0 < response.status < 500 && r in run[i].running && run[i].running[r].slot == slot
    requires slot in run[i].rows && run[i].rows[slot] == row && row.response.None?
    requires Unexpired(steps, i + 1, m, row.expiresAt) && now < row.expiresAt
    ensures Answer(run[m].rows, slot, row.digest, now) == Replay(Response(
      if response.status == 202 && queuesJob then 200 else response.status, response.body, response.location))
  {
    assert Next(run[i], steps[i], run[i + 1]);
    hide Next, Answer;
    RememberedReplays(run, steps, i + 1, m, slot, row.digest, now);
  }

  // ---- runs that end within the TTL ----

  /** Each run of `slot` has its own pending row in place. */
  ghost predicate OwnRow(s: Sys, slot: Slot) {
    && (forall r | r in s.running && s.running[r].slot == slot ::
          && slot in s.rows && s.rows[slot].run == r && s.rows[slot].response.None?
          && s.rows[slot].digest == s.running[r].digest && s.rows[slot].expiresAt == s.running[r].startedAt + TTL)
    && (forall r :: r in s.running ==> r in s.started)
    && (slot in s.rows ==> s.rows[slot].run in s.started)
  }

  /** No run of `slot` is still under way a TTL after it started; runs of other keys may be. */
  ghost predicate Prompt(run: seq<Sys>, steps: seq<Step>, slot: Slot) {
    forall n, r | 0 <= n < |steps| && n < |run| && r in run[n].running && run[n].running[r].slot == slot ::
      TimeOf(steps[n]) < run[n].running[r].startedAt + TTL
  }

  lemma StepKeepsOwnRow(s: Sys, step: Step, s': Sys, slot: Slot)
    requires OwnRow(s, slot) && Next(s, step, s')
    requires forall r :: r in s.running && s.running[r].slot == slot ==> TimeOf(step) < s.running[r].startedAt + TTL
    ensures OwnRow(s', slot)
  {
  }

  lemma {:induction false} RunKeepsOwnRow(run: seq<Sys>, steps: seq<Step>, i: nat, slot: Slot)
    requires IsRun(run, steps) && i < |run| && Prompt(run, steps, slot)
    ensures OwnRow(run[i], slot)
  {
    if i > 0 {
      RunKeepsOwnRow(run, steps, i - 1, slot);
      hide Next, OwnRow;
      StepKeepsOwnRow(run[i - 1], steps[i - 1], run[i], slot);
    }
  }

  /** At most one run of a key is ever under way. */
  lemma AtMostOneRunPerKey(run: seq<Sys>, steps: seq<Step>, i: nat, slot: Slot, r: RunId, r': RunId)
    requires IsRun(run, steps) && i < |run| && Prompt(run, steps, slot)
    requires r in run[i].running && r' in run[i].running
    requires run[i].running[r].slot == slot && run[i].running[r'].slot == slot
    ensures r == r'
  {
    hide Next;
    RunKeepsOwnRow(run, steps, i, slot);
  }

  /** What is remembered is the response of the run that reserved the row, for the digest it was
      reserved with. */
  lemma ResponseIsItsRuns(run: seq<Sys>, steps: seq<Step>, i: nat, r: RunId, queuesJob: bool, response: Response, now: Time)
    requires IsRun(run, steps) && i < |steps| && 0 < response.status < 500
    requires steps[i] == Respond(r, queuesJob, response, now)
    requires r in run[i].running ==> Prompt(run, steps, run[i].running[r].slot)
    ensures r in run[i].running
    ensures var slot := run[i].running[r].slot;
      slot in run[i + 1].rows
      && run[i + 1].rows[slot] == Row(run[i].running[r].digest, Some(Stored(queuesJob, response)),
                                      run[i].running[r].startedAt + TTL, r)
  {
    assert Next(run[i], steps[i], run[i + 1]);
    RunKeepsOwnRow(run, steps, i, run[i].running[r].slot);
  }

  // ---- and runs that do not ----

  /** Step `step` starts a run for `slot`. */
  predicate Starts(s: Sys, step: Step, slot: Slot) {
    step.Request? && step.slot == slot && Answer(s.rows, slot, step.digest, step.now) == Start
  }

  /** Another run of `slot` starts in some step from `i` on, before `m`. */
  predicate Restarted(run: seq<Sys>, steps: seq<Step>, slot: Slot, i: nat, m: nat) {
    i <= m <= |steps| <= |run| && exists n | i <= n < m :: Starts(run[n], steps[n], slot)
  }

  lemma RestartedExtends(run: seq<Sys>, steps: seq<Step>, slot: Slot, i: nat, m: nat)
    requires i <= m < |steps| <= |run|
    ensures Restarted(run, steps, slot, i, m + 1) <==> Restarted(run, steps, slot, i, m) || Starts(run[m], steps[m], slot)
  {
    hide Starts;
    if Restarted(run, steps, slot, i, m) {
      var n :| i <= n < m && Starts(run[n], steps[n], slot);
      assert i <= n < m + 1;
    }
  }

  lemma StartReserves(s: Sys, step: Step, s': Sys, slot: Slot)
    requires Next(s, step, s') && Starts(s, step, slot)
    ensures step.run !in s.started && step.run in s'.started
    ensures slot in s'.rows && s'.rows[slot] == Row(step.digest, None, step.now + TTL, step.run)
    ensures s.started.Keys <= s'.started.Keys
  {
  }

  lemma OthersKeepOwner(s: Sys, step: Step, s': Sys, slot: Slot)
    requires Next(s, step, s') && !Starts(s, step, slot)
    ensures slot in s'.rows ==>
      && slot in s.rows && s'.rows[slot].run == s.rows[slot].run
      && s'.rows[slot].digest == s.rows[slot].digest && s'.rows[slot].expiresAt == s.rows[slot].expiresAt
    ensures s.started.Keys <= s'.started.Keys
  {
  }

  /** A row belongs to the last run that was started for its key, whatever was purged, released or
      remembered since. */
  lemma {:induction false} RowIsLastStarters(run: seq<Sys>, steps: seq<Step>, i: nat, m: nat, slot: Slot)
    requires IsRun(run, steps) && i < m < |run| && Starts(run[i], steps[i], slot)
    ensures steps[i].run in run[m].started
    ensures slot in run[m].rows ==>
      && (run[m].rows[slot].run == steps[i].run <==> !Restarted(run, steps, slot, i + 1, m))
      && (!Restarted(run, steps, slot, i + 1, m) ==>
            run[m].rows[slot].digest == steps[i].digest && run[m].rows[slot].expiresAt == steps[i].now + TTL)
    decreases m - i
  {
    hide Next, Starts, Restarted;
    if m == i + 1 {
      StartReserves(run[i], steps[i], run[m], slot);
      NotYetRestarted(run, steps, slot, m);
    } else {
      RowIsLastStarters(run, steps, i, m - 1, slot);
      RestartedExtends(run, steps, slot, i + 1, m - 1);
      if Starts(run[m - 1], steps[m - 1], slot) {
        StartReserves(run[m - 1], steps[m - 1], run[m], slot);
      } else {
        OthersKeepOwner(run[m - 1], steps[m - 1], run[m], slot);
      }
    }
  }

  lemma NotYetRestarted(run: seq<Sys>, steps: seq<Step>, slot: Slot, i: nat)
    ensures !Restarted(run, steps, slot, i, i)
  {
  }

  /** A run that answers, however late, fills a row only while one is pending for its key; and that
      row is its own, with the digest and the lifetime it reserved, if and only if no other request
      for the key was answered with a start since. */
  lemma ResponseFillsOwnRowIff(run: seq<Sys>, steps: seq<Step>, i: nat, m: nat, slot: Slot, digest: Digest, start: Time,
                               r: RunId, queuesJob: bool, response: Response, now: Time)
    requires IsRun(run, steps) && i < m < |steps| && 0 < response.status < 500
    requires steps[i] == Request(slot, digest, r, start) && Answer(run[i].rows, slot, digest, start) == Start
    requires steps[m] == Respond(r, queuesJob, response, now)
    ensures !Pending(run[m].rows, slot) ==> run[m + 1].rows == run[m].rows
    ensures Pending(run[m].rows, slot) ==>
      && slot in run[m + 1].rows && run[m + 1].rows[slot].response == Some(Stored(queuesJob, response))
      && (run[m + 1].rows[slot].run == r <==> !Restarted(run, steps, slot, i + 1, m))
      && (!Restarted(run, steps, slot, i + 1, m) ==>
            run[m + 1].rows[slot] == Row(digest, Some(Stored(queuesJob, response)), start + TTL, r))
  {
    assert Next(run[m], steps[m], run[m + 1]);
    hide Restarted;
    {
      hide Next;
      RowIsLastStarters(run, steps, i, m, slot);
      SlotOfRun(run, steps, i, m, slot);
    }
  }

  /** While a run is under way its slot is the one it was started for. */
  lemma {:induction false} SlotOfRun(run: seq<Sys>, steps: seq<Step>, i: nat, m: nat, slot: Slot)
    requires IsRun(run, steps) && i < m < |run| && Starts(run[i], steps[i], slot)
    ensures steps[i].run in run[m].started
    ensures steps[i].run in run[m].running ==> run[m].running[steps[i].run].slot == slot
    decreases m - i
  {
    if m == i + 1 {
      assert Next(run[i], steps[i], run[m]);
    } else {
      SlotOfRun(run, steps, i, m - 1, slot);
      assert Next(run[m - 1], steps[m - 1], run[m]);
    }
  }

  /** The run ends with run 0 answering, `TTL` after it started, into the row that run 1 reserved
      for `digest`. */
  ghost predicate EndsMixedUp(run: seq<Sys>, steps: seq<Step>, slot: Slot, digest: Digest, response: Response) {
    && |run| > 0 && |steps| > 0 && steps[|steps| - 1] == Respond(0, false, response, TTL)
    && var last := run[|run| - 1];
    && 0 in last.started && slot in last.rows && last.rows[slot].run == 1 && last.rows[slot].digest == digest
    && last.rows[slot].response == Some(response) && last.started[0].digest != digest
  }

  /** A run that outlives its row's TTL can fill the next run's row: the restriction to prompt runs
      cannot be dropped. */
  lemma LateResponseFillsAnotherRow(slot: Slot, digest: Digest, digest': Digest, response: Response)
    requires 0 < response.status < 500 && digest != digest'
    ensures exists run: seq<Sys>, steps: seq<Step> :: IsRun(run, steps) && EndsMixedUp(run, steps, slot, digest', response)
  {
    var first, second := Run(slot, digest, 0), Run(slot, digest', TTL);
    var s1 := Sys(map[slot := Row(digest, None, TTL, 0)], map[0 := first], map[0 := first]);
    var s2 := Sys(map[slot := Row(digest', None, TTL + TTL, 1)], map[0 := first, 1 := second], map[0 := first, 1 := second]);
    var s3 := Sys(map[slot := Row(digest', Some(response), TTL + TTL, 1)], map[1 := second], map[0 := first, 1 := second]);
    var steps := [Request(slot, digest, 0, 0), Request(slot, digest', 1, TTL), Respond(0, false, response, TTL)];
    assert Reserved(map[], slot, digest, 0, 0) == s1.rows;
    assert Purged(s1.rows, TTL) == map[];
    assert Reserved(s1.rows, slot, digest', TTL, 1) == s2.rows;
    assert Recorded(s2.rows, slot, false, response) == s3.rows;
    assert s2.running - {0} == s3.running;
    var run := [INITIAL, s1, s2, s3];
    assert Next(run[0], steps[0], run[1]) && Next(run[1], steps[1], run[2]) && Next(run[2], steps[2], run[3]);
    assert IsRun(run, steps) && EndsMixedUp(run, steps, slot, digest', response);
  }
}
