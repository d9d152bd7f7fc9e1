/**
 * The cluster as the program sees it: every call into client-go, the local
 * file system and the Kubernetes API server is an oracle reply recorded in
 * `Env`, and every remote call the program makes is an `Event`.
 */
module Cluster {
  import opened Maybe
  import opened Paths
  import opened Pods

  /** A Go error value, passed along unchanged by every layer of the program. */
  datatype Error = Error(message: string)

  /** The pod phases of Kubernetes core/v1. */
  datatype PodPhase = Pending | Running | Succeeded | Failed | Unknown

  /** The answer to one Pods("default").Get: an error, or the pod's current phase. */
  datatype StatusReply = GetFailed(err: Error) | Observed(phase: PodPhase)

  /** The answer to filepath.Abs on the script path. */
  datatype AbsReply = AbsFailed(err: Error) | Resolved(path: string)

  /** The answer to Pods("default").Create: an error, or the name the server generated. */
  datatype CreateReply = CreateFailed(err: Error) | Created(name: string)

  /**
   * The log stream of GetLogs(...).Stream: it fails to open, or it yields its
   * chunks in order and then ends with EOF (readErr None) or a read error.
   * One char of a chunk stands for one byte of the stream.
   */
  datatype LogStream = OpenFailed(err: Error) | Opened(chunks: seq<string>, readErr: Option<Error>)

  /**
   * Everything the outside world answers during one run: loading the
   * kubeconfig, building the client, resolving the script path, creating the
   * pod, the successive status queries, and the log stream.
   */
  datatype Env = Env(
    configErr: Option<Error>,
    clientErr: Option<Error>,
    abs: AbsReply,
    create: CreateReply,
    statuses: seq<StatusReply>,
    logs: LogStream)

  /** filepath.Abs calls Clean on its result, so a resolved path is clean and absolute. */
  predicate ValidEnv(env: Env) {
    env.abs.Resolved? ==> IsCleanAbs(env.abs.path)
  }

  /** One call the program makes into the cluster, or one pause of the poll loop. */
  datatype Event =
    | Submit(pod: Pod)
    | GetStatus(podName: string)
    | Sleep(seconds: nat)
    | OpenLogs(podName: string)
    | CloseLogs(podName: string)

  datatype EventKind = SubmitCall | StatusQuery | Pause | LogOpen | LogClose

  function KindOf(e: Event): EventKind {
    match e
    case Submit(_) => SubmitCall
    case GetStatus(_) => StatusQuery
    case Sleep(_) => Pause
    case OpenLogs(_) => LogOpen
    case CloseLogs(_) => LogClose
  }

  /** How many events of the log are of kind k. */
  function Count(events: seq<Event>, k: EventKind): (n: nat)
    ensures n <= |events|
    ensures n == 0 <==> forall i :: 0 <= i < |events| ==> KindOf(events[i]) != k
  {
    if |events| == 0 then 0
    else (if KindOf(events[0]) == k then 1 else 0) + Count(events[1..], k)
  }

  /** Counting distributes over concatenation of logs. */
  lemma {:induction false} CountAppend(a: seq<Event>, b: seq<Event>, k: EventKind)
    ensures Count(a + b, k) == Count(a, k) + Count(b, k)
    decreases |a|
  {
    if |a| == 0 {
      assert a + b == b;
    } else {
      assert (a + b)[1..] == a[1..] + b;
      CountAppend(a[1..], b, k);
    }
  }

  /** Counting a one-event log. */
  lemma CountSingle(e: Event, k: EventKind)
    ensures Count([e], k) == if KindOf(e) == k then 1 else 0
  {
    assert [e][1..] == [];
  }

  /** Counting a two-event log. */
  lemma CountPair(e: Event, f: Event, k: EventKind)
    ensures Count([e, f], k) == (if KindOf(e) == k then 1 else 0) + (if KindOf(f) == k then 1 else 0)
  {
    assert [e, f][1..] == [f];
    CountSingle(f, k);
  }

  /** The pod an event addresses by name, if any. */
  predicate Addresses(e: Event, name: string) {
    match e
    case Submit(_) => true
    case Sleep(_) => true
    case GetStatus(n) => n == name
    case OpenLogs(n) => n == name
    case CloseLogs(n) => n == name
  }

  /** Every call in the log that names a pod names `name`. */
  predicate AllAddress(events: seq<Event>, name: string) {
    forall i :: 0 <= i < |events| ==> Addresses(events[i], name)
  }

  /** The lifecycle phase an event belongs to: submit, then poll, then read logs. */
  function Stage(e: Event): nat {
    match e
    case Submit(_) => 0
    case GetStatus(_) => 1
    case Sleep(_) => 1
    case OpenLogs(_) => 2
    case CloseLogs(_) => 2
  }

  /** The calls happen phase by phase: no call of a later phase precedes one of an earlier phase. */
  predicate InStageOrder(events: seq<Event>) {
    forall i, j :: 0 <= i < j < |events| ==> Stage(events[i]) <= Stage(events[j])
  }

  /** Every event of the log belongs to stage s. */
  predicate AllInStage(events: seq<Event>, s: nat) {
    forall i :: 0 <= i < |events| ==> Stage(events[i]) == s
  }

  /** Three logs, one per stage in lifecycle order, make a log in stage order. */
  lemma StagesInOrder(a: seq<Event>, b: seq<Event>, c: seq<Event>)
    requires AllInStage(a, 0) && AllInStage(b, 1) && AllInStage(c, 2)
    ensures InStageOrder(a + b + c)
  {
    var ev := a + b + c;
    forall i | 0 <= i < |ev|
      ensures Stage(ev[i]) == if i < |a| then 0 else if i < |a| + |b| then 1 else 2
    {
      if i < |a| { assert ev[i] == a[i]; }
      else if i < |a| + |b| { assert ev[i] == b[i - |a|]; }
      else { assert ev[i] == c[i - |a| - |b|]; }
    }
  }

  /** Logs that each name only `name` concatenate to one that names only `name`. */
  lemma AllAddressAppend(a: seq<Event>, b: seq<Event>, name: string)
    requires AllAddress(a, name) && AllAddress(b, name)
    ensures AllAddress(a + b, name)
  {
    forall i | 0 <= i < |a + b| ensures Addresses((a + b)[i], name) {
      if i < |a| { assert (a + b)[i] == a[i]; } else { assert (a + b)[i] == b[i - |a|]; }
    }
  }
}
