/**
 * WaitForPodCompletion: query the pod's phase; return nil on Succeeded or
 * Failed, return a query error as it is, and otherwise sleep five seconds and
 * query again. The loop is unbounded; here it runs over a finite sequence of
 * replies, and running out of replies means the program is still polling.
 */
module Polling {
  import opened Maybe
  import opened Cluster

  const PollIntervalSeconds: nat := 5

  /** The phases after which Kubernetes never moves the pod again. */
  predicate IsTerminal(phase: PodPhase) {
    phase == Succeeded || phase == Failed
  }

  /** A reply that ends the loop: a query error or a terminal phase. */
  predicate Stops(reply: StatusReply) {
    reply.GetFailed? || IsTerminal(reply.phase)
  }

  /** Reply k is the first one that ends the loop. */
  predicate StopsAt(replies: seq<StatusReply>, k: int) {
    0 <= k < |replies| && Stops(replies[k]) &&
    forall j :: 0 <= j < k ==> !Stops(replies[j])
  }

  /** No reply ends the loop. */
  predicate NeverStops(replies: seq<StatusReply>) {
    forall j :: 0 <= j < |replies| ==> !Stops(replies[j])
  }

  /** How the loop ended: the function returned (nil or an error), or it is still polling. */
  datatype WaitEnd = Returned(err: Option<Error>) | StillPolling

  datatype WaitReturn = WaitReturn(end: WaitEnd, events: seq<Event>)

  /** The poll loop over the replies the API server gives, one reply per query. */
  function WaitForPodCompletion(podName: string, replies: seq<StatusReply>): (r: WaitReturn)
    // Queries and sleeps alternate, starting with a query; every query names the pod.
    ensures forall i :: 0 <= i < |r.events| ==>
              r.events[i] == (if i % 2 == 0 then GetStatus(podName) else Sleep(PollIntervalSeconds))
    // The log ends with a query exactly when the function has returned.
    ensures |r.events| % 2 == 1 <==> r.end.Returned?
    ensures |r.events| <= 2 * |replies|
    decreases |replies|
  {
    if |replies| == 0 then WaitReturn(StillPolling, [])
    else
      match replies[0]
      case GetFailed(e) => WaitReturn(Returned(Some(e)), [GetStatus(podName)])
      case Observed(phase) =>
        if IsTerminal(phase) then WaitReturn(Returned(None), [GetStatus(podName)])
        else
          var rest := WaitForPodCompletion(podName, replies[1..]);
          WaitReturn(rest.end, [GetStatus(podName), Sleep(PollIntervalSeconds)] + rest.events)
  }

  /** The poll loop only queries the pod it was given, and sleeps. */
  lemma WaitStaysInPollStage(podName: string, replies: seq<StatusReply>)
    ensures AllInStage(WaitForPodCompletion(podName, replies).events, 1)
    ensures AllAddress(WaitForPodCompletion(podName, replies).events, podName)
  {
    var ev := WaitForPodCompletion(podName, replies).events;
    forall i | 0 <= i < |ev| ensures Stage(ev[i]) == 1 && Addresses(ev[i], podName) {
      assert ev[i] == GetStatus(podName) || ev[i] == Sleep(PollIntervalSeconds);
    }
  }

  /** An alternating poll log of length 2k + 1 holds k + 1 queries and k sleeps. */
  lemma {:induction false} AlternatingCounts(podName: string, events: seq<Event>, k: nat)
    requires |events| == 2 * k + 1 || |events| == 2 * k
    requires forall i :: 0 <= i < |events| ==>
               events[i] == (if i % 2 == 0 then GetStatus(podName) else Sleep(PollIntervalSeconds))
    ensures Count(events, StatusQuery) == (if |events| == 2 * k + 1 then k + 1 else k)
    ensures Count(events, Pause) == k
    ensures Count(events, SubmitCall) == 0 && Count(events, LogOpen) == 0 && Count(events, LogClose) == 0
    decreases k
  {
    if k == 0 {
      if |events| == 1 {
        assert events[1..] == [];
      }
    } else {
      var rest := events[2..];
      forall i | 0 <= i < |rest|
        ensures rest[i] == (if i % 2 == 0 then GetStatus(podName) else Sleep(PollIntervalSeconds))
      {
        assert rest[i] == events[i + 2];
      }
      AlternatingCounts(podName, rest, k - 1);
      assert events[1..][1..] == rest;
    }
  }

  /**
   * The loop stops at the first reply that is an error or a terminal phase:
   * it returns that error unchanged, or nil for Succeeded and Failed alike,
   * after k + 1 queries and k sleeps.
   */
  lemma {:induction false} WaitStopsAtFirstStop(podName: string, replies: seq<StatusReply>, k: nat)
    requires StopsAt(replies, k)
    ensures var r := WaitForPodCompletion(podName, replies);
            r.end == Returned(if replies[k].GetFailed? then Some(replies[k].err) else None) &&
            |r.events| == 2 * k + 1
    decreases k
  {
    if k > 0 {
      assert StopsAt(replies[1..], k - 1) by {
        forall j | 0 <= j < k - 1
          ensures !Stops(replies[1..][j])
        {
          assert replies[1..][j] == replies[j + 1];
        }
      }
      WaitStopsAtFirstStop(podName, replies[1..], k - 1);
    }
  }

  /** Without an error or a terminal phase the loop keeps polling: one query and one sleep per reply. */
  lemma {:induction false} WaitWhileRunning(podName: string, replies: seq<StatusReply>)
    requires NeverStops(replies)
    ensures var r := WaitForPodCompletion(podName, replies);
            r.end == StillPolling && |r.events| == 2 * |replies|
    decreases |replies|
  {
    if |replies| > 0 {
      assert NeverStops(replies[1..]) by {
        forall j | 0 <= j < |replies| - 1
          ensures !Stops(replies[1..][j])
        {
          assert replies[1..][j] == replies[j + 1];
        }
      }
      WaitWhileRunning(podName, replies[1..]);
    }
  }

  /** The query and sleep counts of a loop that stopped at reply k. */
  lemma WaitCounts(podName: string, replies: seq<StatusReply>, k: nat)
    requires StopsAt(replies, k)
    ensures var r := WaitForPodCompletion(podName, replies);
            Count(r.events, StatusQuery) == k + 1 && Count(r.events, Pause) == k &&
            Count(r.events, LogOpen) == 0
  {
    WaitStopsAtFirstStop(podName, replies, k);
    AlternatingCounts(podName, WaitForPodCompletion(podName, replies).events, k);
  }

  /** Either some reply stops the loop, at exactly one first index, or none does. */
  lemma {:induction false} FirstStopExists(replies: seq<StatusReply>)
    ensures NeverStops(replies) || exists k :: StopsAt(replies, k)
    decreases |replies|
  {
    if |replies| > 0 && !NeverStops(replies) {
      if Stops(replies[0]) {
        assert StopsAt(replies, 0);
      } else {
        FirstStopExists(replies[1..]);
        if !NeverStops(replies[1..]) {
          var k :| StopsAt(replies[1..], k);
          assert StopsAt(replies, k + 1) by {
            forall j | 0 <= j < k + 1
              ensures !Stops(replies[j])
            {
              if j > 0 { assert replies[j] == replies[1..][j - 1]; }
            }
            assert replies[k + 1] == replies[1..][k];
          }
        }
      }
    }
  }

  /** The loop returns nil exactly when the first reply that stops it is a terminal phase. */
  lemma WaitReturnsNilIff(podName: string, replies: seq<StatusReply>)
    ensures WaitForPodCompletion(podName, replies).end == Returned(None) <==>
            exists k :: StopsAt(replies, k) && replies[k].Observed?
  {
    FirstStopExists(replies);
    if NeverStops(replies) {
      WaitWhileRunning(podName, replies);
    } else {
      var k :| StopsAt(replies, k);
      WaitStopsAtFirstStop(podName, replies, k);
    }
  }

  /** Replies after the one that stops the loop are never asked for. */
  lemma {:induction false} WaitIgnoresLaterReplies(podName: string, replies: seq<StatusReply>, k: nat)
    requires StopsAt(replies, k)
    ensures WaitForPodCompletion(podName, replies) == WaitForPodCompletion(podName, replies[..k + 1])
    decreases k
  {
    if k > 0 {
      assert StopsAt(replies[1..], k - 1) by {
        forall j | 0 <= j < k - 1
          ensures !Stops(replies[1..][j])
        {
          assert replies[1..][j] == replies[j + 1];
        }
      }
      WaitIgnoresLaterReplies(podName, replies[1..], k - 1);
      assert replies[..k + 1][1..] == replies[1..][..k];
    }
  }

  /** Succeeded and Failed are treated alike: swapping one for the other changes nothing. */
  lemma {:induction false} TerminalPhasesAlike(podName: string, replies: seq<StatusReply>, k: nat)
    requires k < |replies|
    ensures WaitForPodCompletion(podName, replies[k := Observed(Succeeded)]) ==
            WaitForPodCompletion(podName, replies[k := Observed(Failed)])
    decreases k
  {
    if k > 0 {
      TerminalPhasesAlike(podName, replies[1..], k - 1);
      assert replies[k := Observed(Succeeded)][1..] == replies[1..][k - 1 := Observed(Succeeded)];
      assert replies[k := Observed(Failed)][1..] == replies[1..][k - 1 := Observed(Failed)];
    }
  }

  /** Three non-terminal phases and then Succeeded: four queries, three sleeps, nil. */
  lemma FourQueryExample(podName: string)
    ensures var r := WaitForPodCompletion(podName,
                       [Observed(Pending), Observed(Pending), Observed(Running), Observed(Succeeded)]);
            r.end == Returned(None) &&
            Count(r.events, StatusQuery) == 4 && Count(r.events, Pause) == 3
  {
    var replies := [Observed(Pending), Observed(Pending), Observed(Running), Observed(Succeeded)];
    assert StopsAt(replies, 3);
    WaitStopsAtFirstStop(podName, replies, 3);
    WaitCounts(podName, replies, 3);
  }
}
