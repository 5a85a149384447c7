/**
 The job_runs table behind the nightly job lock: one row per job and date, changed only by
 guarded single-statement updates, each committed on its own.
 */
module JobRuns {
  import opened Options

  datatype Status = Pending | Processing | Completed | Failed

  datatype Key = Key(jobName: string, targetDate: int)

  type Seconds = int

  datatype JobRow = JobRow(
    status: Status,
    startedAt: Seconds,
    finishedAt: Option<Seconds>,
    error: Option<string>,
    createdAt: Seconds)

  type Table = map<Key, JobRow>

  const STALE_LOCK: Seconds := 6 * 3600
  const MAX_ERROR_MESSAGE_CHARS: nat := 2000
  const TERMINAL_RETRY_ATTEMPTS: nat := 3
  const STALE_TAKEOVER := "stale lock takeover"

  function BoundError(message: Option<string>): (bounded: Option<string>)
    ensures bounded.Some? <==> message.Some?
    ensures bounded.Some? ==> |bounded.value| <= 2000
    ensures message.Some? && |message.value| <= 2000 ==> bounded == message
    ensures message.Some? && |message.value| > 2000 ==>
              |bounded.value| == 2000 && bounded.value[..1997] == message.value[..1997] && bounded.value[1997..]
                == "..."
  {
    if message.None? || |message.value| <= MAX_ERROR_MESSAGE_CHARS then message
    else Some(message.value[..MAX_ERROR_MESSAGE_CHARS - 3] + "...")
  }

  predicate HasStatus(t: Table, k: Key, status: Status) {
    k in t && t[k].status == status
  }

  predicate IsFresh(row: JobRow, now: Seconds) {
    row.startedAt >= now - STALE_LOCK
  }

  // ---------- the four statements: the new table, and whether a row was written ----------

  function Insert(t: Table, k: Key, now: Seconds): (Table, bool) {
    if k in t then (t, false) else (t[k := JobRow(Processing, now, None, None, now)], true)
  }

  function MarkStale(t: Table, k: Key, now: Seconds): (Table, bool) {
    if !HasStatus(t, k, Processing) then (t, false)
    else (t[k := t[k].(status := Failed, finishedAt := Some(now), error := Some(STALE_TAKEOVER))], true)
  }

  function Reclaim(t: Table, k: Key, now: Seconds): (Table, bool) {
    if !HasStatus(t, k, Failed) then (t, false)
    else (t[k := t[k].(status := Processing, startedAt := now, finishedAt := None, error := None)], true)
  }

  function Finalize(t: Table, k: Key, status: Status, error: Option<string>, now: Seconds): (Table, bool) {
    if !HasStatus(t, k, Processing) then (t, false)
    else (t[k := t[k].(status := status, finishedAt := Some(now), error := BoundError(error))], true)
  }

  // ---------- what a statement leaves, field by field ----------

  /** No other key is touched. */
  ghost predicate OnlyKey(t: Table, t': Table, k: Key) {
    forall other :: other != k ==> (other in t' <==> other in t) && (other in t ==> t'[other] == t[other])
  }

  /** The row is closed with the given status and message; when it started and was created stays. */
  ghost predicate ClosesRow(t: Table, t': Table, k: Key, status: Status, error: Option<string>, now: Seconds) {
    && k in t && k in t' && OnlyKey(t, t', k)
    && t'[k].status == status && t'[k].finishedAt == Some(now) && t'[k].error == error
    && t'[k].startedAt == t[k].startedAt && t'[k].createdAt == t[k].createdAt
  }

  /** The row is being processed since `now`, with nothing left of an earlier run but its creation. */
  ghost predicate OpensRow(t: Table, t': Table, k: Key, now: Seconds) {
    && k in t' && OnlyKey(t, t', k)
    && t'[k].status == Processing && t'[k].startedAt == now && t'[k].finishedAt == None && t'[k].error == None
    && t'[k].createdAt == if k in t then t[k].createdAt else now
  }

  datatype Reason =
    | ClaimedNew
    | ClaimedRetry
    | ClaimedStaleTakeover
    | SkippedCompleted
    | SkippedRunning

  class JobRunner {
    var runs: Table

    constructor ()
      ensures runs == map[]
    {
      runs := map[];
    }

    method ClaimInsert(k: Key, now: Seconds) returns (won: bool)
      modifies this
      ensures (runs, won) == Insert(old(runs), k, now)
      ensures won <==> k !in old(runs)
      ensures if won then OpensRow(old(runs), runs, k, now) else runs == old(runs)
    {
      won := k !in runs;
      if won {
        runs := runs[k := JobRow(Processing, now, None, None, now)];
      }
    }

    method TransitionFailedToProcessing(k: Key, now: Seconds) returns (won: bool)
      modifies this
      ensures (runs, won) == Reclaim(old(runs), k, now)
      ensures won <==> HasStatus(old(runs), k, Failed)
      ensures if won then OpensRow(old(runs), runs, k, now) else runs == old(runs)
    {
      won := HasStatus(runs, k, Failed);
      if won {
        runs := runs[k := runs[k].(status := Processing, startedAt := now, finishedAt := None, error := None)];
      }
    }

    method MarkStaleFailed(k: Key, now: Seconds) returns (marked: bool)
      modifies this
      ensures (runs, marked) == MarkStale(old(runs), k, now)
      ensures marked <==> HasStatus(old(runs), k, Processing)
      ensures if marked then ClosesRow(old(runs), runs, k, Failed, Some("stale lock takeover"), now)
              else runs == old(runs)
    {
      marked := HasStatus(runs, k, Processing);
      if marked {
        runs := runs[k := runs[k].(status := Failed, finishedAt := Some(now), error := Some(STALE_TAKEOVER))];
      }
    }

    method FinalizeOnce(k: Key, status: Status, error: Option<string>, now: Seconds) returns (written: bool)
      modifies this
      ensures (runs, written) == Finalize(old(runs), k, status, error, now)
      ensures written <==> HasStatus(old(runs), k, Processing)
      ensures if written then ClosesRow(old(runs), runs, k, status, BoundError(error), now) else runs == old(runs)
    {
      written := HasStatus(runs, k, Processing);
      if written {
        runs := runs[k := runs[k].(status := status, finishedAt := Some(now), error := BoundError(error))];
      }
    }

    /**
     A claim that no other worker interleaves with. It wins exactly on a missing row, a failed
     row, or a processing row past the stale limit; a win leaves one processing row that started
     now and remembers when it was created, and a lost claim leaves the table alone.
     */
    method ClaimJob(k: Key, now: Seconds) returns (won: bool, reason: Reason)
      modifies this
      ensures won <==> k !in old(runs) || old(runs)[k].status == Failed
                       || (old(runs)[k].status == Processing && now - old(runs)[k].startedAt > 6 * 3600)
      ensures !won ==> runs == old(runs)
                       && (reason == SkippedCompleted <==> old(runs)[k].status == Completed)
      ensures won ==> OpensRow(old(runs), runs, k, now)
      ensures reason == ClaimedNew <==> k !in old(runs)
      ensures reason == ClaimedRetry <==> k in old(runs) && old(runs)[k].status == Failed
      ensures won <==> reason in {ClaimedNew, ClaimedRetry, ClaimedStaleTakeover}
    {
      won := ClaimInsert(k, now);
      if won {
        return true, ClaimedNew;
      }
      var existing := runs[k];
      match existing.status
      case Completed => return false, SkippedCompleted;
      case Processing =>
        if IsFresh(existing, now) {
          return false, SkippedRunning;
        }
        var marked := MarkStaleFailed(k, now);
        if !marked {
          return false, SkippedRunning;
        }
        won := TransitionFailedToProcessing(k, now);
        return won, if won then ClaimedStaleTakeover else SkippedRunning;
      case Failed =>
        won := TransitionFailedToProcessing(k, now);
        return won, if won then ClaimedRetry else SkippedRunning;
      case Pending => return false, SkippedRunning;
    }

    /**
     Up to three attempts, `outages[i]` telling whether attempt i reaches the database and
     `clock[i]` its time, with no other worker in between. The row is finalized by the first
     attempt that gets through, and only if it is still processing; a row that already has the
     wanted status counts as success; anything else is raised after the last attempt.
     */
    method FinalizeWithRetry(k: Key, status: Status, error: Option<string>, outages: seq<bool>, clock: seq<Seconds>)
      returns (ok: bool)
      requires |outages| == |clock| == 3
      requires status == Completed || status == Failed
      modifies this
      ensures ok <==> false in outages && (HasStatus(old(runs), k, Processing) || HasStatus(old(runs), k, status))
      ensures ok ==> HasStatus(runs, k, status)
      ensures ok && HasStatus(old(runs), k, Processing) ==>
                exists i :: 0 <= i < |outages| && !outages[i] && (forall j :: 0 <= j < i ==> outages[j])
                  && ClosesRow(old(runs), runs, k, status, BoundError(error), clock[i])
      ensures !ok || !HasStatus(old(runs), k, Processing) ==> runs == old(runs)
    {
      for attempt := 0 to TERMINAL_RETRY_ATTEMPTS
        invariant runs == old(runs)
        invariant forall j :: 0 <= j < attempt ==>
                    outages[j] || !(HasStatus(runs, k, Processing) || HasStatus(runs, k, status))
      {
        if !outages[attempt] {
          var written := FinalizeOnce(k, status, error, clock[attempt]);
          if written || HasStatus(runs, k, status) {
            return true;
          }
        }
      }
      return false;
    }
  }
}
