/** The Remote GPU host: a bounded queue of renders, one thread that runs them, and clients that
    submit idempotently, poll, acknowledge and give up. */
module RemoteHost {
  import opened Common

  type Token = nat
  type ClientId = string
  /** A reading of the monotonic clock, in seconds. */
  type Seconds = real

  const QUEUE_LIMIT := 8
  const UNDELIVERED_TTL := 3600.0
  const DELIVERED_TTL := 300.0

  datatype Status = Queued | Running | Done | Failed

  /** One job's record. `result` stands for the take's metadata and audio. */
  datatype Job = Job(
    status: Status, error: Option<string>, result: Option<nat>, cancel: bool,
    finishedAt: Option<Seconds>, deliveredAt: Option<Seconds>)

  const NEW_JOB := Job(Queued, None, None, false, None, None)

  /** Where the one job thread stands. */
  datatype Thread = Idle | Dequeued(token: Token) | Rendering(token: Token)

  /** How a render ended: an exception, a result, or a result and then an exception. */
  datatype Outcome = Raised(text: string) | Returned(result: nat) | ReturnedThenRaised(result: nat, text: string)

  /** `issued` and `rendered` are history: every token handed out, every render started. */
  datatype State = State(
    jobs: map<Token, Job>, clients: map<ClientId, Token>, queue: seq<Token>, thread: Thread,
    issued: set<Token>, rendered: seq<Token>)

  const INITIAL := State(map[], map[], [], Idle, {}, [])

  predicate Finished(job: Job) {
    job.status == Done || job.status == Failed
  }

  // ---- housekeeping ----

  /** What `_prune` drops at `now`. `finished_at or now`: a zero reading counts as now. */
  predicate Expired(job: Job, now: Seconds) {
    && Finished(job)
    && match job.deliveredAt
       case Some(delivered) => now - delivered > DELIVERED_TTL
       case None =>
         var since := if job.finishedAt.Some? && job.finishedAt.value != 0.0 then job.finishedAt.value else now;
         now - since > UNDELIVERED_TTL
  }

  /** `_forget`: the record, and every client id that names it. */
  function Forgotten(s: State, gone: set<Token>): State {
    s.(jobs := s.jobs - gone, clients := map c | c in s.clients && s.clients[c] !in gone :: s.clients[c])
  }

  function ExpiredIn(s: State, now: Seconds): set<Token> {
    set t | t in s.jobs && Expired(s.jobs[t], now)
  }

  function Pruned(s: State, now: Seconds): State {
    Forgotten(s, ExpiredIn(s, now))
  }

  // ---- requests ----

  /** The token a client already holds. */
  function Held(s: State, client: ClientId): Option<Token> {
    if client in s.clients && s.clients[client] in s.jobs then Some(s.clients[client]) else None
  }

  /** `submit`: the new state, and the token; `None` is "queue is full". */
  function Submitted(s: State, client: ClientId, token: Token, now: Seconds): (State, Option<Token>) {
    var p := Pruned(s, now);
    if Held(p, client).Some? then (p, Held(p, client))
    else if |p.queue| >= QUEUE_LIMIT then (p, None)
    else
      (p.(jobs := p.jobs[token := NEW_JOB], queue := p.queue + [token], clients := p.clients[client := token],
          issued := p.issued + {token}),
       Some(token))
  }

  function Acked(s: State, token: Token): State {
    if token !in s.jobs then s
    else if !Finished(s.jobs[token]) then
      s.(jobs := s.jobs[token := s.jobs[token].(cancel := true, deliveredAt := Some(-DELIVERED_TTL))])
    else Forgotten(s, {token})
  }

  function Cancelled(s: State, token: Token): State {
    if token in s.jobs then s.(jobs := s.jobs[token := s.jobs[token].(cancel := true)]) else s
  }

  /** The first `status` read of a done job starts its delivered clock. */
  function StatusRead(s: State, token: Token, now: Seconds): State {
    if token in s.jobs && s.jobs[token].status == Done && s.jobs[token].deliveredAt.None?
    then s.(jobs := s.jobs[token := s.jobs[token].(deliveredAt := Some(now))])
    else s
  }

  // ---- the job thread ----

  /** `_finish`: an empty error text reads as success. */
  function Finish(job: Job, error: Option<string>, now: Seconds): Job {
    job.(status := if error.Some? && error.value != "" then Failed else Done, error := error, finishedAt := Some(now))
  }

  function Dequeue(s: State): State
    requires s.queue != []
  {
    s.(queue := s.queue[1..], thread := Dequeued(s.queue[0]))
  }

  /** The thread looks at the cancel flag, and renders or does not. */
  function Begun(s: State, now: Seconds): State
    requires s.thread.Dequeued?
  {
    var t := s.thread.token;
    if t !in s.jobs then s.(thread := Idle)
    else if s.jobs[t].cancel then s.(jobs := s.jobs[t := Finish(s.jobs[t], Some("canceled"), now)], thread := Idle)
    else s.(jobs := s.jobs[t := s.jobs[t].(status := Running)], thread := Rendering(t), rendered := s.rendered + [t])
  }

  /** A cancel that came during the render discards what it returned. */
  function Ended(job: Job, outcome: Outcome, now: Seconds): Job {
    match outcome
    case Raised(text) => Finish(job, Some(text), now)
    case Returned(result) =>
      if job.cancel then Finish(job, Some("canceled"), now)
      else Finish(job.(result := Some(result)), None, now)
    case ReturnedThenRaised(result, text) =>
      if job.cancel then Finish(job, Some("canceled"), now)
      else Finish(job.(result := Some(result)), Some(text), now)
  }

  function RenderEnded(s: State, outcome: Outcome, now: Seconds): State
    requires s.thread.Rendering?
  {
    var t := s.thread.token;
    if t !in s.jobs then s.(thread := Idle)
    else s.(jobs := s.jobs[t := Ended(s.jobs[t], outcome, now)], thread := Idle)
  }

  // ---- the invariant ----

  ghost predicate Distinct(tokens: seq<Token>) {
    forall i, j | 0 <= i < j < |tokens| :: tokens[i] != tokens[j]
  }

  /** Live client ids map one to one onto live tokens. */
  ghost predicate ClientsOk(s: State) {
    && (forall c :: c in s.clients ==> s.clients[c] in s.jobs)
    && (forall c, c' | c in s.clients && c' in s.clients :: s.clients[c] == s.clients[c'] ==> c == c')
  }

  /** The queue holds at most eight live, queued jobs, each once. */
  ghost predicate QueueOk(s: State) {
    && |s.queue| <= QUEUE_LIMIT && Distinct(s.queue)
    && (forall t :: t in s.queue ==> t in s.jobs && s.jobs[t].status == Queued)
  }

  /** An unfinished job is in the queue or in the thread's hands, and nowhere else. */
  ghost predicate ThreadOk(s: State) {
    && (s.thread.Dequeued? ==>
          s.thread.token in s.jobs && s.jobs[s.thread.token].status == Queued && s.thread.token !in s.queue)
    && (s.thread.Rendering? ==> s.thread.token in s.jobs && s.jobs[s.thread.token].status == Running)
    && (forall t :: t in s.jobs && s.jobs[t].status == Queued ==> t in s.queue || s.thread == Dequeued(t))
    && (forall t :: t in s.jobs && s.jobs[t].status == Running ==> s.thread == Rendering(t))
  }

  /** No token is rendered twice, and one still to be rendered has not been. */
  ghost predicate RendersOk(s: State) {
    && Distinct(s.rendered)
    && (forall t :: t in s.jobs || t in s.rendered ==> t in s.issued)
    && (forall t :: t in s.jobs && s.jobs[t].status == Queued ==> t !in s.rendered)
  }

  /** A finished job has its time; one that reads done has a result, unless the exception that
      ended it had no text. */
  ghost predicate JobOk(job: Job) {
    && (Finished(job) ==> job.finishedAt.Some?)
    && (job.status == Done ==> job.result.Some? || job.error == Some(""))
    && (!Finished(job) ==> job.result.None? && job.finishedAt.None?)
  }

  ghost predicate HostOk(s: State) {
    && ClientsOk(s) && QueueOk(s) && ThreadOk(s) && RendersOk(s)
    && forall t :: t in s.jobs ==> JobOk(s.jobs[t])
  }

  lemma ForgettingKeepsOk(s: State, gone: set<Token>)
    requires HostOk(s) && forall t | t in gone && t in s.jobs :: Finished(s.jobs[t])
    ensures HostOk(Forgotten(s, gone))
  {
  }

  /** Pruning never frees an unfinished job. */
  lemma PruneKeepsOk(s: State, now: Seconds)
    requires HostOk(s)
    ensures HostOk(Pruned(s, now))
    ensures forall t :: t in s.jobs && !Finished(s.jobs[t]) ==> t in Pruned(s, now).jobs
  {
    ForgettingKeepsOk(s, ExpiredIn(s, now));
  }

  lemma SubmitKeepsOk(s: State, client: ClientId, token: Token, now: Seconds)
    requires HostOk(s) && token !in s.issued
    ensures HostOk(Submitted(s, client, token, now).0)
  {
    PruneKeepsOk(s, now);
  }

  lemma AckKeepsOk(s: State, token: Token)
    requires HostOk(s)
    ensures HostOk(Acked(s, token))
  {
    if token in s.jobs && Finished(s.jobs[token]) {
      ForgettingKeepsOk(s, {token});
    }
  }

  lemma BeginKeepsOk(s: State, now: Seconds)
    requires HostOk(s) && s.thread.Dequeued?
    ensures HostOk(Begun(s, now))
  {
  }

  lemma RenderKeepsOk(s: State, outcome: Outcome, now: Seconds)
    requires HostOk(s) && s.thread.Rendering?
    ensures HostOk(RenderEnded(s, outcome, now))
  {
  }

  lemma DequeueKeepsOk(s: State)
    requires HostOk(s) && s.queue != [] && s.thread.Idle?
    ensures HostOk(Dequeue(s))
  {
  }

  // ---- what the operations mean ----

  /** A finished record nobody needs: read 300 seconds ago, or finished 3600 seconds ago and not read. */
  predicate Due(job: Job, now: Seconds) {
    && (job.status == Done || job.status == Failed)
    && if job.deliveredAt.Some? then now - job.deliveredAt.value > 300.0
       else job.finishedAt.Some? && job.finishedAt.value != 0.0 && now - job.finishedAt.value > 3600.0
  }

  /** Exactly the records that are due have gone, each with the client ids that name it. */
  ghost predicate OnlyDueGone(jobs: map<Token, Job>, clients: map<ClientId, Token>, now: Seconds,
                              jobs': map<Token, Job>, clients': map<ClientId, Token>) {
    && jobs'.Keys <= jobs.Keys && clients'.Keys <= clients.Keys
    && (forall t | t in jobs :: t in jobs' <==> !Due(jobs[t], now))
    && (forall t | t in jobs' :: jobs'[t] == jobs[t])
    && (forall c | c in clients :: c in clients' <==> !(clients[c] in jobs && Due(jobs[clients[c]], now)))
    && (forall c | c in clients' :: clients'[c] == clients[c])
  }

  lemma PrunedMeans(s: State, now: Seconds)
    ensures var p := Pruned(s, now);
      && OnlyDueGone(s.jobs, s.clients, now, p.jobs, p.clients)
      && p.queue == s.queue && p.thread == s.thread && p.issued == s.issued && p.rendered == s.rendered
  {
    forall t | t in s.jobs
      ensures Expired(s.jobs[t], now) <==> Due(s.jobs[t], now)
    {
    }
    hide Expired, Due;
  }

  /** The client already has a live token that no prune takes. */
  predicate HoldsLive(jobs: map<Token, Job>, clients: map<ClientId, Token>, client: ClientId, now: Seconds) {
    client in clients && clients[client] in jobs && !Due(jobs[clients[client]], now)
  }

  lemma SubmittedMeans(s: State, client: ClientId, token: Token, now: Seconds)
    requires token !in s.jobs
    ensures var (s', r) := Submitted(s, client, token, now);
      && s'.thread == s.thread && s'.rendered == s.rendered
      && if HoldsLive(s.jobs, s.clients, client, now) || |s.queue| >= 8 then
           && r == (if HoldsLive(s.jobs, s.clients, client, now) then Some(s.clients[client]) else None)
           && s'.queue == s.queue && s'.issued == s.issued
           && OnlyDueGone(s.jobs, s.clients, now, s'.jobs, s'.clients)
         else
           && r == Some(token) && s'.queue == s.queue + [token] && s'.issued == s.issued + {token}
           && token in s'.jobs && s'.jobs[token] == Job(Queued, None, None, false, None, None)
           && client in s'.clients && s'.clients[client] == token
           && (forall c | c in s'.clients && c != client :: c in s.clients && s'.clients[c] == s.clients[c])
           && (forall t | t in s.jobs :: t in s'.jobs <==> !Due(s.jobs[t], now))
           && (forall t | t in s'.jobs && t != token :: t in s.jobs && s'.jobs[t] == s.jobs[t])
  {
    PrunedMeans(s, now);
    hide Pruned, Due;
  }

  /** An acknowledged record: a finished one is freed, an unfinished one is cancelled and marked as
      delivered 300 seconds before the clock's zero. */
  ghost predicate Acknowledged(jobs: map<Token, Job>, clients: map<ClientId, Token>, token: Token,
                               jobs': map<Token, Job>, clients': map<ClientId, Token>) {
    if token !in jobs then jobs' == jobs && clients' == clients
    else if jobs[token].status == Queued || jobs[token].status == Running then
      jobs' == jobs[token := jobs[token].(cancel := true, deliveredAt := Some(-300.0))] && clients' == clients
    else
      && jobs' == jobs - {token} && clients'.Keys <= clients.Keys
      && forall c | c in clients :: (c in clients' <==> clients[c] != token) && (c in clients' ==> clients'[c] == clients[c])
  }

  lemma AckedMeans(s: State, token: Token)
    ensures Acknowledged(s.jobs, s.clients, token, Acked(s, token).jobs, Acked(s, token).clients)
    ensures Acked(s, token).queue == s.queue && Acked(s, token).thread == s.thread
  {
  }

  /** How a render leaves its record. What it returned is its result, unless a cancel came first; an
      exception's text is its error, and an empty one reads as success. */
  predicate RenderLeaves(job: Job, outcome: Outcome, now: Seconds, job': Job) {
    && job'.finishedAt == Some(now) && job'.cancel == job.cancel && job'.deliveredAt == job.deliveredAt
    && match outcome
       case Returned(result) =>
         if job.cancel then job'.status == Failed && job'.error == Some("canceled") && job'.result == None
         else job'.status == Done && job'.error == None && job'.result == Some(result)
       case Raised(text) =>
         job'.status == (if text == "" then Done else Failed) && job'.error == Some(text) && job'.result == None
       case ReturnedThenRaised(result, text) =>
         if job.cancel then job'.status == Failed && job'.error == Some("canceled") && job'.result == None
         else
           && job'.status == (if text == "" then Done else Failed) && job'.error == Some(text)
           && job'.result == Some(result)
  }

  lemma EndMeans(s: State, outcome: Outcome, now: Seconds)
    requires HostOk(s) && s.thread.Rendering?
    ensures var t, s' := s.thread.token, RenderEnded(s, outcome, now);
      && t in s.jobs && t in s'.jobs && RenderLeaves(s.jobs[t], outcome, now, s'.jobs[t])
      && s' == s.(jobs := s.jobs[t := s'.jobs[t]], thread := Idle)
  {
    assert JobOk(s.jobs[s.thread.token]);
    hide ClientsOk, QueueOk, RendersOk, JobOk;
  }

  lemma BegunMeans(s: State, now: Seconds)
    requires HostOk(s) && s.thread.Dequeued?
    ensures var t, s' := s.thread.token, Begun(s, now);
      && t in s.jobs
      && if s.jobs[t].cancel then
           && s'.thread == Idle && s'.rendered == s.rendered
           && s'.jobs == s.jobs[t := s.jobs[t].(status := Failed, error := Some("canceled"), finishedAt := Some(now))]
         else
           && s'.thread == Rendering(t) && s'.rendered == s.rendered + [t]
           && s'.jobs == s.jobs[t := s.jobs[t].(status := Running)]
  {
    hide ClientsOk, QueueOk, RendersOk, JobOk;
  }

  // ---- the host, in place ----

  class Host {
    var jobs: map<Token, Job>
    var clientTokens: map<ClientId, Token>
    var queue: seq<Token>
    var thread: Thread
    ghost var issued: set<Token>
    ghost var rendered: seq<Token>

    ghost function Abstract(): State
      reads this
    {
      State(jobs, clientTokens, queue, thread, issued, rendered)
    }

    ghost predicate Valid()
      reads this
    {
      HostOk(Abstract())
    }

    constructor ()
      ensures Valid() && Abstract() == INITIAL
    {
      jobs, clientTokens, queue, thread := map[], map[], [], Idle;
      issued, rendered := {}, [];
    }

    /** `_forget`, with its scan of the client ids. */
    method Forget(token: Token)
      modifies this`jobs, this`clientTokens
      ensures Abstract() == Forgotten(old(Abstract()), {token})
    {
      jobs := jobs - {token};
      var rest := clientTokens.Keys;
      while rest != {}
        invariant rest <= old(clientTokens).Keys && jobs == old(jobs) - {token}
        invariant clientTokens == map c | c in old(clientTokens) && (c in rest || old(clientTokens)[c] != token)
                                    :: old(clientTokens)[c]
        decreases rest
      {
        var c :| c in rest;
        if clientTokens[c] == token {
          clientTokens := clientTokens - {c};
        }
        rest := rest - {c};
      }
    }

    /** `_prune`, over a copy of the records. */
    method Prune(now: Seconds)
      modifies this`jobs, this`clientTokens
      ensures Abstract() == Pruned(old(Abstract()), now)
      ensures OnlyDueGone(old(jobs), old(clientTokens), now, jobs, clientTokens)
    {
      PrunedMeans(Abstract(), now);
      hide OnlyDueGone;
      ghost var before := Abstract();
      var rest := jobs;
      ghost var gone: set<Token> := {};
      ForgetNothing(before);
      while rest != map[]
        invariant rest.Keys <= before.jobs.Keys && forall t :: t in rest ==> rest[t] == before.jobs[t]
        invariant gone == set t | t in before.jobs && t !in rest && Expired(before.jobs[t], now)
        invariant Abstract() == Forgotten(before, gone)
        decreases rest.Keys
      {
        var t :| t in rest;
        var job := rest[t];
        rest := rest - {t};
        if Expired(job, now) {
          ForgetOneMore(before, gone, t);
          Forget(t);
          gone := gone + {t};
        }
      }
      assert gone == ExpiredIn(before, now);
    }

    method Submit(client: ClientId, token: Token, now: Seconds) returns (r: Option<Token>)
      requires Valid() && token !in issued
      modifies this
      ensures Valid() && (Abstract(), r) == Submitted(old(Abstract()), client, token, now)
      ensures HoldsLive(old(jobs), old(clientTokens), client, now) || |old(queue)| >= 8 ==>
        && r == (if HoldsLive(old(jobs), old(clientTokens), client, now) then Some(old(clientTokens)[client]) else None)
        && queue == old(queue) && OnlyDueGone(old(jobs), old(clientTokens), now, jobs, clientTokens)
      ensures !HoldsLive(old(jobs), old(clientTokens), client, now) && |old(queue)| < 8 ==>
        && r == Some(token) && queue == old(queue) + [token]
        && token in jobs && jobs[token] == Job(Queued, None, None, false, None, None)
        && client in clientTokens && clientTokens[client] == token
        && (forall t | t in old(jobs) :: t in jobs <==> !Due(old(jobs)[t], now))
        && (forall t | t in jobs && t != token :: t in old(jobs) && jobs[t] == old(jobs)[t])
    {
      SubmitKeepsOk(Abstract(), client, token, now);
      NewTokenIsNoJob(Abstract(), token);
      SubmittedMeans(Abstract(), client, token, now);
      hide HostOk, OnlyDueGone, HoldsLive, Due;
      Prune(now);
      if client in clientTokens && clientTokens[client] in jobs {
        return Some(clientTokens[client]);
      }
      if |queue| >= QUEUE_LIMIT {
        return None;
      }
      jobs := jobs[token := NEW_JOB];
      queue := queue + [token];
      clientTokens := clientTokens[client := token];
      issued := issued + {token};
      return Some(token);
    }

    method Ack(token: Token) returns (known: bool)
      requires Valid()
      modifies this
      ensures Valid() && Abstract() == Acked(old(Abstract()), token) && known == (token in old(jobs))
      ensures Acknowledged(old(jobs), old(clientTokens), token, jobs, clientTokens)
    {
      AckKeepsOk(Abstract(), token);
      AckedMeans(Abstract(), token);
      hide Acknowledged;
      known := token in jobs;
      if known {
        if !Finished(jobs[token]) {
          jobs := jobs[token := jobs[token].(cancel := true, deliveredAt := Some(-DELIVERED_TTL))];
        } else {
          Forget(token);
        }
      }
    }

    method Cancel(token: Token) returns (known: bool)
      requires Valid()
      modifies this
      ensures Valid() && Abstract() == Cancelled(old(Abstract()), token) && known == (token in old(jobs))
      ensures jobs == if known then old(jobs)[token := old(jobs)[token].(cancel := true)] else old(jobs)
    {
      known := token in jobs;
      if known {
        jobs := jobs[token := jobs[token].(cancel := true)];
      }
    }

    /** `status`; `None` is "unknown job token". */
    method ReadStatus(token: Token, now: Seconds) returns (r: Option<(Status, Option<string>, Option<nat>)>)
      requires Valid()
      modifies this
      ensures Valid() && Abstract() == StatusRead(old(Abstract()), token, now)
      ensures r.Some? <==> token in old(jobs)
      ensures jobs ==
        if r.Some? && old(jobs)[token].status == Done && old(jobs)[token].deliveredAt.None?
        then old(jobs)[token := old(jobs)[token].(deliveredAt := Some(now))] else old(jobs)
      ensures r.Some? ==>
        && var job := old(jobs)[token];
        && r.value.0 == job.status && r.value.1 == job.error
        && r.value.2 == (if job.status == Done then job.result else None)
        && (job.status == Done ==> r.value.2.Some? || job.error == Some(""))
    {
      if token !in jobs {
        return None;
      }
      var job := jobs[token];
      if job.status == Done && job.deliveredAt.None? {
        jobs := jobs[token := job.(deliveredAt := Some(now))];
      }
      return Some((job.status, job.error, if job.status == Done then job.result else None));
    }

    // ---- the job thread ----

    method Get() returns (token: Token)
      requires Valid() && queue != [] && thread == Idle
      modifies this
      ensures Valid() && Abstract() == Dequeue(old(Abstract()))
      ensures thread == Dequeued(token) && [token] + queue == old(queue)
    {
      DequeueKeepsOk(Abstract());
      token := queue[0];
      queue := queue[1..];
      thread := Dequeued(token);
    }

    method Begin(token: Token, now: Seconds) returns (renders: bool)
      requires Valid() && thread == Dequeued(token)
      modifies this
      ensures Valid() && Abstract() == Begun(old(Abstract()), now)
      ensures renders <==> thread == Rendering(token)
      ensures renders ==> token !in old(rendered)
      ensures token in old(jobs) && renders == !old(jobs)[token].cancel
      ensures jobs == old(jobs)[token :=
        if renders then old(jobs)[token].(status := Running)
        else old(jobs)[token].(status := Failed, error := Some("canceled"), finishedAt := Some(now))]
    {
      BeginKeepsOk(Abstract(), now);
      BegunMeans(Abstract(), now);
      if jobs[token].cancel {
        jobs := jobs[token := Finish(jobs[token], Some("canceled"), now)];
        thread := Idle;
        return false;
      }
      jobs := jobs[token := jobs[token].(status := Running)];
      thread := Rendering(token);
      rendered := rendered + [token];
      return true;
    }

    method End(token: Token, outcome: Outcome, now: Seconds)
      requires Valid() && thread == Rendering(token)
      modifies this
      ensures Valid() && Abstract() == RenderEnded(old(Abstract()), outcome, now)
      ensures token in old(jobs) && token in jobs && RenderLeaves(old(jobs)[token], outcome, now, jobs[token])
      ensures jobs == old(jobs)[token := jobs[token]] && thread == Idle && queue == old(queue)
    {
      RenderKeepsOk(Abstract(), outcome, now);
      EndMeans(Abstract(), outcome, now);
      hide RenderLeaves;
      jobs := jobs[token := Ended(jobs[token], outcome, now)];
      thread := Idle;
    }
  }

  lemma NewTokenIsNoJob(s: State, token: Token)
    requires HostOk(s) && token !in s.issued
    ensures token !in s.jobs
  {
  }

  lemma ForgetNothing(s: State)
    ensures Forgotten(s, {}) == s
  {
    assert s.jobs - {} == s.jobs;
    assert (map c | c in s.clients && s.clients[c] !in {} :: s.clients[c]) == s.clients;
  }

  lemma ForgetOneMore(s: State, gone: set<Token>, t: Token)
    ensures Forgotten(Forgotten(s, gone), {t}) == Forgotten(s, gone + {t})
  {
    assert s.jobs - gone - {t} == s.jobs - (gone + {t});
  }

  // ---- whole runs ----

  datatype Step =
    | Submit(client: ClientId, token: Token, now: Seconds)
    | Ack(token: Token)
    | Cancel(token: Token)
    | ReadStatus(token: Token, now: Seconds)
    | Get
    | Begin(now: Seconds)
    | End(outcome: Outcome, now: Seconds)

  predicate Next(s: State, step: Step, s': State) {
    match step
    case Submit(client, token, now) => token !in s.issued && s' == Submitted(s, client, token, now).0
    case Ack(token) => s' == Acked(s, token)
    case Cancel(token) => s' == Cancelled(s, token)
    case ReadStatus(token, now) => s' == StatusRead(s, token, now)
    case Get => s.queue != [] && s.thread.Idle? && s' == Dequeue(s)
    case Begin(now) => s.thread.Dequeued? && s' == Begun(s, now)
    case End(outcome, now) => s.thread.Rendering? && s' == RenderEnded(s, outcome, now)
  }

  ghost predicate IsRun(run: seq<State>, steps: seq<Step>) {
    && |run| == |steps| + 1 && run[0] == INITIAL
    && forall i :: 0 <= i < |steps| ==> Next(run[i], steps[i], run[i + 1])
  }

  lemma StepKeepsOk(s: State, step: Step, s': State)
    requires HostOk(s) && Next(s, step, s')
    ensures HostOk(s')
  {
    hide HostOk;
    match step
    case Submit(client, token, now) => SubmitKeepsOk(s, client, token, now);
    case Ack(token) => AckKeepsOk(s, token);
    case Cancel(token) => CancelKeepsOk(s, token);
    case ReadStatus(token, now) => ReadKeepsOk(s, token, now);
    case Get => DequeueKeepsOk(s);
    case Begin(now) => BeginKeepsOk(s, now);
    case End(outcome, now) => RenderKeepsOk(s, outcome, now);
  }

  lemma CancelKeepsOk(s: State, token: Token)
    requires HostOk(s)
    ensures HostOk(Cancelled(s, token))
  {
  }

  lemma ReadKeepsOk(s: State, token: Token, now: Seconds)
    requires HostOk(s)
    ensures HostOk(StatusRead(s, token, now))
  {
  }

  /** In every reachable state live clients map one to one onto live tokens, the queue holds at
      most eight live jobs, and no token is rendered twice. */
  lemma {:induction false} RunKeepsOk(run: seq<State>, steps: seq<Step>, i: nat)
    requires IsRun(run, steps) && i < |run|
    ensures HostOk(run[i])
  {
    hide HostOk, Next;
    if i > 0 {
      RunKeepsOk(run, steps, i - 1);
      StepKeepsOk(run[i - 1], steps[i - 1], run[i]);
    } else {
      InitialOk();
    }
  }

  lemma InitialOk()
    ensures HostOk(INITIAL)
  {
  }

  /** A token that was freed never comes back. */
  lemma LiveWasLive(s: State, step: Step, s': State, t: Token)
    requires HostOk(s) && Next(s, step, s') && t in s.issued && t in s'.jobs
    ensures t in s.jobs
  {
  }

  lemma StillHeld(s: State, step: Step, s': State, client: ClientId, t: Token)
    requires HostOk(s) && Next(s, step, s') && Held(s, client) == Some(t) && t in s'.jobs
    ensures Held(s', client) == Some(t)
  {
  }

  lemma HeldIsIssued(s: State, client: ClientId, t: Token)
    requires HostOk(s) && Held(s, client) == Some(t)
    ensures t in s.issued
  {
  }

  lemma IssuedStays(s: State, step: Step, s': State, t: Token)
    requires Next(s, step, s') && t in s.issued
    ensures t in s'.issued
  {
  }

  /** A client keeps its token for as long as the token is live. */
  lemma {:induction false} HeldWhileLive(run: seq<State>, steps: seq<Step>, i: nat, m: nat, client: ClientId, t: Token)
    requires IsRun(run, steps) && i <= m < |run| && Held(run[i], client) == Some(t) && t in run[m].jobs
    ensures Held(run[m], client) == Some(t) && t in run[m].issued
    decreases m - i
  {
    hide HostOk, Next, Held;
    RunKeepsOk(run, steps, i);
    HeldIsIssued(run[i], client, t);
    if i < m {
      StaysIssued(run, steps, i, m - 1, t);
      RunKeepsOk(run, steps, m - 1);
      LiveWasLive(run[m - 1], steps[m - 1], run[m], t);
      HeldWhileLive(run, steps, i, m - 1, client, t);
      StillHeld(run[m - 1], steps[m - 1], run[m], client, t);
      IssuedStays(run[m - 1], steps[m - 1], run[m], t);
    }
  }

  lemma {:induction false} StaysIssued(run: seq<State>, steps: seq<Step>, i: nat, m: nat, t: Token)
    requires IsRun(run, steps) && i <= m < |run| && t in run[i].issued
    ensures t in run[m].issued
    decreases m - i
  {
    hide Next;
    if i < m {
      StaysIssued(run, steps, i, m - 1, t);
      IssuedStays(run[m - 1], steps[m - 1], run[m], t);
    }
  }

  lemma AnswerIsHeld(s: State, client: ClientId, token: Token, now: Seconds)
    ensures Submitted(s, client, token, now).1.Some? ==>
      Held(Submitted(s, client, token, now).0, client) == Submitted(s, client, token, now).1
  {
  }

  /** A submit repeated at any later time, whatever happened in between, returns the token the first
      one was given and adds nothing, for as long as that token's record is live. */
  lemma ResubmitReturnsTheSame(run: seq<State>, steps: seq<Step>, i: nat, m: nat, client: ClientId,
                               token: Token, now: Seconds, token': Token, now': Seconds, t: Token)
    requires IsRun(run, steps) && i < m < |steps|
    requires steps[i] == Submit(client, token, now) && steps[m] == Submit(client, token', now')
    requires Submitted(run[i], client, token, now).1 == Some(t) && t in Pruned(run[m], now').jobs
    ensures Submitted(run[m], client, token', now') == (Pruned(run[m], now'), Some(t))
  {
    assert Next(run[i], steps[i], run[i + 1]);
    AnswerIsHeld(run[i], client, token, now);
    hide Next;
    HeldWhileLive(run, steps, i + 1, m, client, t);
  }

  // ---- how long a result lasts ----

  /** A record goes away only finished: acknowledged, or expired when a submit prunes. */
  lemma GoesOnlyWhenDue(s: State, step: Step, s': State, t: Token)
    requires HostOk(s) && Next(s, step, s') && t in s.jobs && t !in s'.jobs
    ensures Finished(s.jobs[t])
    ensures step == Ack(t) || (step.Submit? && Expired(s.jobs[t], step.now))
  {
  }

  /** A finished record changes only in its cancel flag and, at its first read, its delivery. */
  lemma FinishedStands(s: State, step: Step, s': State, t: Token)
    requires HostOk(s) && Next(s, step, s') && t in s.jobs && Finished(s.jobs[t]) && t in s'.jobs
    ensures var job, job' := s.jobs[t], s'.jobs[t];
      && job' == job.(cancel := job'.cancel, deliveredAt := job'.deliveredAt)
      && (job'.deliveredAt == job.deliveredAt
          || (step == ReadStatus(t, job'.deliveredAt.GetOr(0.0)) && job.deliveredAt.None? && job'.deliveredAt.Some?))
  {
  }

  /** No acknowledgement of `t`, and every submit before `until`. */
  ghost predicate Quiet(steps: seq<Step>, i: nat, m: nat, t: Token, until: Seconds) {
    && i <= m <= |steps|
    && forall n | i <= n < m :: steps[n] != Ack(t) && (steps[n].Submit? ==> steps[n].now <= until)
  }

  /** A result that nobody has read lasts for 3600 seconds from its finish; one that was read,
      300 seconds from the first read. */
  lemma {:induction false} ResultsLast(run: seq<State>, steps: seq<Step>, i: nat, m: nat, t: Token, until: Seconds)
    requires IsRun(run, steps) && i <= m < |run| && t in run[i].jobs && Finished(run[i].jobs[t])
    requires Quiet(steps, i, m, t, until)
    requires match run[i].jobs[t].deliveredAt
             case Some(delivered) => until <= delivered + DELIVERED_TTL
             case None =>
               && until <= run[i].jobs[t].finishedAt.GetOr(0.0) + UNDELIVERED_TTL
               && forall n, now | i <= n < m && steps[n] == ReadStatus(t, now) :: until <= now + DELIVERED_TTL
    ensures t in run[m].jobs && Finished(run[m].jobs[t])
    ensures run[m].jobs[t].finishedAt == run[i].jobs[t].finishedAt && run[m].jobs[t].result == run[i].jobs[t].result
    ensures run[m].jobs[t].deliveredAt == run[i].jobs[t].deliveredAt
      || (run[i].jobs[t].deliveredAt.None? && run[m].jobs[t].deliveredAt.Some?
          && until <= run[m].jobs[t].deliveredAt.value + DELIVERED_TTL)
    decreases m - i
  {
    hide HostOk, Next;
    if i < m {
      ResultsLast(run, steps, i, m - 1, t, until);
      RunKeepsOk(run, steps, m - 1);
      RunKeepsOk(run, steps, i);
      FinishedHasTime(run[i], t);
      if t !in run[m].jobs {
        GoesOnlyWhenDue(run[m - 1], steps[m - 1], run[m], t);
      } else {
        FinishedStands(run[m - 1], steps[m - 1], run[m], t);
      }
    }
  }

  lemma FinishedHasTime(s: State, t: Token)
    requires HostOk(s) && t in s.jobs && Finished(s.jobs[t])
    ensures s.jobs[t].finishedAt.Some?
  {
  }

  /** Acknowledged before it was finished: cancelled, and marked as delivered long ago. */
  predicate AckedEarly(job: Job) {
    job.cancel && job.deliveredAt == Some(-DELIVERED_TTL)
  }

  lemma AckedEarlyStands(s: State, step: Step, s': State, t: Token)
    requires HostOk(s) && Next(s, step, s') && t in s.jobs && AckedEarly(s.jobs[t]) && t in s'.jobs
    ensures AckedEarly(s'.jobs[t])
  {
  }

  lemma AckMarks(s: State, t: Token)
    requires HostOk(s) && t in s.jobs && !Finished(s.jobs[t])
    ensures t in Acked(s, t).jobs && AckedEarly(Acked(s, t).jobs[t]) && t in s.issued
  {
  }

  lemma AckStepMarks(s: State, s': State, t: Token)
    requires HostOk(s) && Next(s, Ack(t), s') && t in s.jobs && !Finished(s.jobs[t])
    ensures t in s'.jobs && AckedEarly(s'.jobs[t]) && t in s.issued
  {
    hide HostOk;
    AckMarks(s, t);
  }

  lemma {:induction false} RunKeepsAckedEarly(run: seq<State>, steps: seq<Step>, i: nat, m: nat, t: Token)
    requires IsRun(run, steps) && i < m < |run| && steps[i] == Ack(t)
    requires t in run[i].jobs && !Finished(run[i].jobs[t]) && t in run[m].jobs
    ensures AckedEarly(run[m].jobs[t])
    decreases m - i
  {
    hide HostOk, Next, AckedEarly, Finished;
    RunKeepsOk(run, steps, i);
    AckStepMarks(run[i], run[i + 1], t);
    if i + 1 < m {
      StaysIssued(run, steps, i, m - 1, t);
      RunKeepsOk(run, steps, m - 1);
      LiveWasLive(run[m - 1], steps[m - 1], run[m], t);
      RunKeepsAckedEarly(run, steps, i, m - 1, t);
      AckedEarlyStands(run[m - 1], steps[m - 1], run[m], t);
    }
  }

  lemma SubmitFreesAckedEarly(s: State, client: ClientId, token: Token, now: Seconds, t: Token)
    requires HostOk(s) && token !in s.issued && t in s.jobs && AckedEarly(s.jobs[t]) && Finished(s.jobs[t])
    ensures t !in Submitted(s, client, token, now).0.jobs <==> now > 0.0
  {
  }

  /** A job that was acknowledged while queued or rendering stays marked for as long as it is live,
      whatever else happens; and a submit that finds it finished frees it, if and only if the clock
      then reads more than zero. */
  lemma AckedEarlyIsFreed(run: seq<State>, steps: seq<Step>, i: nat, m: nat, t: Token)
    requires IsRun(run, steps) && i < m < |run| && steps[i] == Ack(t)
    requires t in run[i].jobs && !Finished(run[i].jobs[t]) && t in run[m].jobs
    ensures run[m].jobs[t].cancel && run[m].jobs[t].deliveredAt == Some(-DELIVERED_TTL)
    ensures m < |steps| && steps[m].Submit? && Finished(run[m].jobs[t]) ==>
      (t !in run[m + 1].jobs <==> steps[m].now > 0.0)
  {
    RunKeepsAckedEarly(run, steps, i, m, t);
    hide HostOk;
    RunKeepsOk(run, steps, m);
    if m < |steps| && steps[m].Submit? && Finished(run[m].jobs[t]) {
      assert Next(run[m], steps[m], run[m + 1]);
      SubmitFreesAckedEarly(run[m], steps[m].client, steps[m].token, steps[m].now, t);
    }
  }

  /** A render that was cancelled or acknowledged before it returned is never reported done with a
      result. */
  lemma CancelledRenderFails(s: State, token: Token, outcome: Outcome, now: Seconds)
    requires HostOk(s) && s.thread == Rendering(token) && s.jobs[token].cancel
    ensures var job := RenderEnded(s, outcome, now).jobs[token];
      job.status == Failed || outcome == Raised("")
  {
  }

  /** A job is reported done without a result if and only if an exception without text ended it. */
  lemma DoneWithoutResultIff(job: Job, outcome: Outcome, now: Seconds)
    requires job.status == Running && job.result.None?
    ensures Ended(job, outcome, now).status == Done && Ended(job, outcome, now).result.None? <==> outcome == Raised("")
  {
  }

  // ---- a render that returns ----

  /** The record reads done with that result. */
  predicate ReadsDone(job: Job, result: nat) {
    job.status == Done && job.error == None && job.result == Some(result)
  }

  lemma ReadsDoneStands(s: State, step: Step, s': State, t: Token, result: nat)
    requires HostOk(s) && Next(s, step, s') && t in s.jobs && ReadsDone(s.jobs[t], result) && t in s'.jobs
    ensures ReadsDone(s'.jobs[t], result)
  {
    hide HostOk, Next;
    FinishedStands(s, step, s', t);
  }

  lemma EndReadsDone(s: State, result: nat, now: Seconds, s': State)
    requires HostOk(s) && Next(s, End(Returned(result), now), s') && !s.jobs[s.thread.token].cancel
    ensures s.thread.token in s'.jobs && ReadsDone(s'.jobs[s.thread.token], result) && s.thread.token in s'.issued
  {
    EndMeans(s, Returned(result), now);
    RenderingIsIssued(s);
    hide HostOk;
  }

  lemma RenderingIsIssued(s: State)
    requires HostOk(s) && s.thread.Rendering?
    ensures s.thread.token in s.jobs && s.thread.token in s.issued
  {
  }

  /** A render that returned, and that nobody had cancelled, is reported done with its own result for as
      long as its record is live: whatever is cancelled, read or submitted later. */
  lemma {:induction false} ReturnedReadsDone(run: seq<State>, steps: seq<Step>, i: nat, m: nat, t: Token, result: nat, now: Seconds)
    requires IsRun(run, steps) && i < m < |run| && steps[i] == End(Returned(result), now)
    requires run[i].thread == Rendering(t) && t in run[i].jobs && !run[i].jobs[t].cancel && t in run[m].jobs
    ensures ReadsDone(run[m].jobs[t], result)
    decreases m - i
  {
    hide HostOk, Next, ReadsDone;
    RunKeepsOk(run, steps, i);
    EndReadsDone(run[i], result, now, run[i + 1]);
    if i + 1 < m {
      StaysIssued(run, steps, i + 1, m - 1, t);
      RunKeepsOk(run, steps, m - 1);
      LiveWasLive(run[m - 1], steps[m - 1], run[m], t);
      ReturnedReadsDone(run, steps, i, m - 1, t, result, now);
      ReadsDoneStands(run[m - 1], steps[m - 1], run[m], t, result);
    }
  }

  // ---- first in, first out ----

  /** As long as `t` waits, so does `later`, somewhere behind it. */
  ghost predicate WaitsBehind(s: State, t: Token, later: Token) {
    forall a | 0 <= a < |s.queue| && s.queue[a] == t :: later in s.queue[a + 1..]
  }

  lemma SubmitWaitsBehind(s: State, client: ClientId, token: Token, now: Seconds, t: Token)
    requires HostOk(s) && token !in s.issued && t in s.issued
    ensures Submitted(s, client, token, now).1 == Some(token) ==>
      WaitsBehind(Submitted(s, client, token, now).0, t, token)
  {
    NewTokenIsNoJob(s, token);
    SubmittedMeans(s, client, token, now);
    hide HostOk, OnlyDueGone, Due;
    var (s', r) := Submitted(s, client, token, now);
    if r == Some(token) && s'.queue == s.queue + [token] {
      forall a | 0 <= a < |s'.queue| && s'.queue[a] == t
        ensures token in s'.queue[a + 1..]
      {
        assert s'.queue[a + 1..][|s'.queue| - a - 2] == token;
      }
    }
    if s'.queue == s.queue {
      HoldsNoNew(s, client, token, now);
    }
  }

  lemma HoldsNoNew(s: State, client: ClientId, token: Token, now: Seconds)
    requires HostOk(s) && token !in s.issued
    ensures HoldsLive(s.jobs, s.clients, client, now) ==> s.clients[client] != token
  {
  }

  lemma StillBehind(s: State, step: Step, s': State, t: Token, later: Token)
    requires HostOk(s) && Next(s, step, s') && WaitsBehind(s, t, later) && t in s.issued
    ensures WaitsBehind(s', t, later)
  {
    if step.Submit? {
      NewTokenIsNoJob(s, step.token);
      SubmittedMeans(s, step.client, step.token, step.now);
      hide HostOk, OnlyDueGone, Due, HoldsLive;
      forall a | 0 <= a < |s'.queue| && s'.queue[a] == t
        ensures later in s'.queue[a + 1..]
      {
        assert a < |s.queue| && s'.queue[a + 1..][..|s.queue| - a - 1] == s.queue[a + 1..];
      }
    } else if step.Get? {
      hide HostOk;
      forall a | 0 <= a < |s'.queue| && s'.queue[a] == t
        ensures later in s'.queue[a + 1..]
      {
        assert s.queue[a + 1] == t && s.queue[a + 2..] == s'.queue[a + 1..];
      }
    } else {
      hide HostOk;
      OthersKeepQueue(s, step, s');
    }
  }

  lemma OthersKeepQueue(s: State, step: Step, s': State)
    requires Next(s, step, s') && !step.Submit? && !step.Get?
    ensures s'.queue == s.queue
  {
  }

  /** Jobs are rendered in the order they were submitted: when `later` was given out by a submit after
      `t` had been, then in every later state in which `t` still waits, `later` waits behind it. */
  lemma {:induction false} FirstInFirstOut(run: seq<State>, steps: seq<Step>, i: nat, m: nat, client: ClientId,
                                           later: Token, now: Seconds, t: Token)
    requires IsRun(run, steps) && i < m < |run| && steps[i] == Submit(client, later, now)
    requires Submitted(run[i], client, later, now).1 == Some(later) && t in run[i].issued
    ensures WaitsBehind(run[m], t, later)
    decreases m - i
  {
    hide HostOk, WaitsBehind;
    assert m == i + 1 ==> Next(run[i], steps[i], run[m]);
    RunKeepsOk(run, steps, i);
    if m == i + 1 {
      SubmitWaitsBehind(run[i], client, later, now, t);
    } else {
      hide Next;
      FirstInFirstOut(run, steps, i, m - 1, client, later, now, t);
      StaysIssued(run, steps, i, m - 1, t);
      RunKeepsOk(run, steps, m - 1);
      StillBehind(run[m - 1], steps[m - 1], run[m], t, later);
    }
  }
}
