/** The heartbeat thread of a running job: it renews the job's lease, and expires the job at its
    deadline unless the render has returned. */
module Watchdog {
  import opened Common
  import opened JobRows

  const HEARTBEAT_INTERVAL := 5_000_000

  /** What one turn of the loop observes: `generation_done` before and after its wait, and whether
      the wait ended because the job returned. */
  datatype Turn = Turn(doneBefore: bool, stopped: bool, doneAfter: bool)

  /** How the loop ended: the job returned, the watchdog fired, or it is still going. */
  datatype Ending = JobReturned | Expires(at: Time) | StillRunning

  /** A heartbeat follows the one before it, or the start, within an interval. */
  ghost predicate Regular(beats: seq<Time>) {
    && (|beats| > 0 ==> 0 <= beats[0] <= HEARTBEAT_INTERVAL)
    && forall n | 0 < n < |beats| :: beats[n - 1] <= beats[n] <= beats[n - 1] + HEARTBEAT_INTERVAL
  }

  /** A heartbeat comes after exactly one interval, or at the deadline if that is sooner. */
  predicate OnPace(beats: seq<Time>, deadline: Option<Time>, n: nat)
    requires n < |beats|
  {
    beats[n] == (if n > 0 then beats[n - 1] else 0) + 5_000_000 || Some(beats[n]) == deadline
  }

  ghost predicate Paced(beats: seq<Time>, deadline: Option<Time>) {
    forall n | 0 <= n < |beats| :: OnPace(beats, deadline, n)
  }

  function LastBeat(beats: seq<Time>): Time {
    if beats == [] then 0 else beats[|beats| - 1]
  }

  /** No turn before `n` saw the render return. */
  ghost predicate Unfinished(turns: seq<Turn>, n: nat) {
    forall k | 0 <= k < n && k < |turns| :: !turns[k].doneBefore && !turns[k].doneAfter
  }

  lemma NoBeats(turns: seq<Turn>, deadline: Option<Time>)
    ensures Regular([]) && Paced([], deadline) && Unfinished(turns, 0)
  {
  }

  lemma OneBeatMore(beats: seq<Time>, now: Time, deadline: Option<Time>)
    requires Regular(beats) && LastBeat(beats) <= now <= LastBeat(beats) + HEARTBEAT_INTERVAL
    requires Paced(beats, deadline) && (now == LastBeat(beats) + HEARTBEAT_INTERVAL || Some(now) == deadline)
    ensures Regular(beats + [now]) && Paced(beats + [now], deadline)
  {
    StaysRegular(beats, now);
    StaysPaced(beats, now, deadline);
    hide Regular, Paced;
  }

  lemma StaysRegular(beats: seq<Time>, now: Time)
    requires Regular(beats) && LastBeat(beats) <= now <= LastBeat(beats) + HEARTBEAT_INTERVAL
    ensures Regular(beats + [now])
  {
  }

  lemma StaysPaced(beats: seq<Time>, now: Time, deadline: Option<Time>)
    requires Paced(beats, deadline) && (now == LastBeat(beats) + HEARTBEAT_INTERVAL || Some(now) == deadline)
    ensures Paced(beats + [now], deadline)
  {
    forall n | 0 <= n < |beats + [now]|
      ensures OnPace(beats + [now], deadline, n)
    {
      if n < |beats| {
        assert OnPace(beats, deadline, n);
      }
    }
  }

  lemma OneTurnMore(turns: seq<Turn>, n: nat)
    requires n < |turns|
    ensures Unfinished(turns, n + 1) <==> Unfinished(turns, n) && !turns[n].doneBefore && !turns[n].doneAfter
  {
  }

  /** `_heartbeat_loop`, with waits that return on time; times are since the loop's start. It fires
      at the deadline, never before, and never once it has seen the render return. */
  method HeartbeatLoop(deadline: Option<Time>, turns: seq<Turn>)
    returns (beats: seq<Time>, ending: Ending, taken: nat, now: Time)
    ensures Regular(beats) && LastBeat(beats) <= now <= LastBeat(beats) + HEARTBEAT_INTERVAL
    ensures Paced(beats, deadline)
    ensures taken <= |turns| && |beats| <= taken
    ensures ending == StillRunning <==> taken == |turns| && |beats| == taken
    ensures ending.Expires? ==>
      && deadline.Some? && ending.at == now == (if deadline.value > 0 then deadline.value else 0)
      && taken > 0 && Unfinished(turns, taken - 1) && !turns[taken - 1].doneBefore
      && (deadline.value > 0 ==> !turns[taken - 1].stopped && !turns[taken - 1].doneAfter)
    ensures ending == JobReturned ==> taken > 0 && turns[taken - 1].stopped
    ensures deadline.Some? && deadline.value > 0 && Unfinished(turns, taken) && !ending.Expires? ==> now <= deadline.value
  {
    hide Regular, Paced, Unfinished;
    beats, taken, now := [], 0, 0;
    NoBeats(turns, deadline);
    var limit := deadline;
    while taken < |turns|
      invariant taken <= |turns| && |beats| == taken && Regular(beats) && Paced(beats, deadline)
      invariant now == LastBeat(beats) >= 0
      invariant limit == deadline || (limit.None? && !Unfinished(turns, taken))
      invariant limit.Some? ==> Unfinished(turns, taken) && (taken == 0 || now < limit.value)
    {
      var turn := turns[taken];
      OneTurnMore(turns, taken);
      taken := taken + 1;
      if turn.doneBefore {
        limit := None;
      }
      var wait := HEARTBEAT_INTERVAL;
      if limit.Some? {
        var remaining := limit.value - now;
        if remaining <= 0 {
          return beats, Expires(now), taken, now;
        }
        wait := if remaining < wait then remaining else wait;
      }
      if turn.stopped {
        return beats, JobReturned, taken, now;
      }
      now := now + wait;
      if turn.doneAfter {
        limit := None;
      } else if limit.Some? && now >= limit.value {
        return beats, Expires(now), taken, now;
      }
      OneBeatMore(beats, now, deadline);
      beats := beats + [now];
    }
    ending := StillRunning;
  }

  /** `_expire_job`: what becomes of the row, and whether the process exits. */
  function ExpireJob(r: Row, message: string, now: Time): (Row, bool) {
    if r.status != Running then (r, false)
    else if r.cancelRequested then (MarkedCancelled(r, None, now), true)
    else (Expired(r, message, now), true)
  }

  /** Expiry fires only on a running row and at most once, and no reclaim ever requeues what it
      ended. */
  lemma ExpiryIsFinal(r: Row, message: string, message': string, now: Time, now': Time, staleAfter: int, later: Time)
    ensures var (r', fired) := ExpireJob(r, message, now);
      && (fired <==> r.status == Running)
      && (fired ==> Terminal(r'.status) && r'.status == if r.cancelRequested then Cancelled else Failed)
      && (fired ==> r'.takeId == None && r'.error == if r.cancelRequested then None else Some(message))
      && (!fired ==> r' == r)
      && ExpireJob(r', message', now') == (r', false)
      && !Reclaimable(r', staleAfter, later)
  {
  }

  /** By default a running row is stale once its last sign of life is more than 60 seconds old. */
  lemma SilentRowIsStale(r: Row, now: Time)
    ensures Reclaimable(r, STALE_AFTER, now) <==>
      r.status == Running && now - (if r.heartbeatAt.Some? then r.heartbeatAt.value else r.updatedAt) > 60_000_000
  {
  }

  /** A row whose heartbeats keep the loop's pace is never stale, from its claim on. */
  lemma BeatingIsNeverStale(r: Row, claimed: Time, beats: seq<Time>, now: Time)
    requires Regular(beats) && LastBeat(beats) <= now <= LastBeat(beats) + HEARTBEAT_INTERVAL
    requires r.heartbeatAt == Some(claimed + LastBeat(beats))
    ensures !Reclaimable(r, STALE_AFTER, claimed + now)
  {
  }
}
