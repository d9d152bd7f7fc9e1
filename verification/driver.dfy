/**
 * main: create the pod, wait for it to finish, read its logs, strictly in
 * that order and for the one pod just created; the first error panics and
 * nothing after it runs.
 */
module Driver {
  import opened Maybe
  import opened Cluster
  import opened Submission
  import opened Polling
  import opened Logs

  /**
   * How a run ends: a runtime panic on the nil config, a panic with the first
   * error, the logs printed, or the poll loop still waiting.
   */
  datatype RunOutcome = NilConfigPanic | Panicked(err: Error) | Printed(logs: string) | StillWaiting

  datatype RunReturn = RunReturn(outcome: RunOutcome, events: seq<Event>)

  /** The part of main after the pod exists: wait for the named pod, then read its logs. */
  function WaitThenRead(podName: string, statuses: seq<StatusReply>, stream: LogStream): (r: RunReturn)
    ensures r.outcome.Printed? ==> stream.Opened? && r.outcome.logs == Concat(stream.chunks)
  {
    var w := WaitForPodCompletion(podName, statuses);
    match w.end
    case StillPolling => RunReturn(StillWaiting, w.events)
    case Returned(Some(e)) => RunReturn(Panicked(e), w.events)
    case Returned(None) =>
      var l := GetPodLogs(podName, stream);
      if l.err.Some? then RunReturn(Panicked(l.err.value), w.events + l.events)
      else
        LogsAreWholeOutput(podName, stream);
        RunReturn(Printed(l.logs), w.events + l.events)
  }

  /**
   * main loads the same kubeconfig that CreatePythonPod loads, so both loads
   * see env.configErr. main discards that error, and handing the nil config
   * to NewForConfig is a nil-pointer panic before CreatePythonPod is called.
   */
  function Run(scriptPath: string, env: Env): (r: RunReturn)
    requires ValidEnv(env)
    ensures r.outcome == NilConfigPanic <==> env.configErr.Some?
    ensures r.events == [] <==> SetupError(env).Some?
    ensures r.events != [] ==> r.events[0] == Submit(PodFor(scriptPath, env))
  {
    if env.configErr.Some? then RunReturn(NilConfigPanic, [])
    else
    var c := CreatePythonPod(scriptPath, env);
    if c.err.Some? then RunReturn(Panicked(c.err.value), c.events)
    else
      var rest := WaitThenRead(c.pod.value.metadata.name, env.statuses, env.logs);
      RunReturn(rest.outcome, c.events + rest.events)
  }

  /** Once the pod is created, a run is one Submit followed by waiting on and reading that pod. */
  lemma RunAfterCreate(scriptPath: string, env: Env)
    requires ValidEnv(env) && SetupError(env).None? && env.create.Created?
    ensures var rest := WaitThenRead(env.create.name, env.statuses, env.logs);
            Run(scriptPath, env) == RunReturn(rest.outcome, [Submit(PodFor(scriptPath, env))] + rest.events)
  {
  }

  /** After the pod exists the calls are polls, then log-stream calls, all naming the pod. */
  lemma WaitThenReadStages(podName: string, statuses: seq<StatusReply>, stream: LogStream)
      returns (polls: seq<Event>, logCalls: seq<Event>)
    ensures WaitThenRead(podName, statuses, stream).events == polls + logCalls
    ensures AllInStage(polls, 1) && AllInStage(logCalls, 2)
    ensures AllAddress(polls, podName) && AllAddress(logCalls, podName)
    ensures polls == WaitForPodCompletion(podName, statuses).events
    ensures logCalls == [] || logCalls == GetPodLogs(podName, stream).events
  {
    polls := WaitForPodCompletion(podName, statuses).events;
    WaitStaysInPollStage(podName, statuses);
    if WaitForPodCompletion(podName, statuses).end == Returned(None) {
      logCalls := GetPodLogs(podName, stream).events;
    } else {
      logCalls := [];
      assert polls + logCalls == polls;
    }
  }

  /** The remote calls of a run go create, then poll, then logs, never back. */
  lemma RunInStageOrder(scriptPath: string, env: Env)
    requires ValidEnv(env)
    ensures InStageOrder(Run(scriptPath, env).events)
  {
    if SetupError(env).None? && env.create.Created? {
      RunAfterCreate(scriptPath, env);
      var polls, logCalls := WaitThenReadStages(env.create.name, env.statuses, env.logs);
      StagesInOrder([Submit(PodFor(scriptPath, env))], polls, logCalls);
    }
  }

  /** Every call of a run that names a pod names the one the server created. */
  lemma RunUsesOnePod(scriptPath: string, env: Env)
    requires ValidEnv(env) && env.create.Created?
    ensures AllAddress(Run(scriptPath, env).events, env.create.name)
  {
    if SetupError(env).None? {
      RunAfterCreate(scriptPath, env);
      var polls, logCalls := WaitThenReadStages(env.create.name, env.statuses, env.logs);
      AllAddressAppend(polls, logCalls, env.create.name);
      AllAddressAppend([Submit(PodFor(scriptPath, env))], polls + logCalls, env.create.name);
    }
  }

  /**
   * A set-up error stops the run before any call to the cluster: a kubeconfig
   * error as a nil-pointer panic in main itself, a client or path error as a
   * panic with that error.
   */
  lemma RunFailsFastOnSetup(scriptPath: string, env: Env)
    requires ValidEnv(env) && SetupError(env).Some?
    ensures Run(scriptPath, env).events == []
    ensures env.configErr.Some? ==> Run(scriptPath, env).outcome == NilConfigPanic
    ensures env.configErr.None? ==> Run(scriptPath, env).outcome == Panicked(SetupError(env).value)
  {
  }

  /** A create error panics with that error: the pod is never polled and its logs never read. */
  lemma RunFailsFastOnCreate(scriptPath: string, env: Env)
    requires ValidEnv(env) && SetupError(env).None? && env.create.CreateFailed?
    ensures var r := Run(scriptPath, env);
            r.outcome == Panicked(env.create.err) &&
            Count(r.events, SubmitCall) == 1 &&
            Count(r.events, StatusQuery) == 0 && Count(r.events, LogOpen) == 0
  {
    var pod := PodFor(scriptPath, env);
    assert Run(scriptPath, env).events == [Submit(pod)];
    CountSingle(Submit(pod), SubmitCall);
    CountSingle(Submit(pod), StatusQuery);
    CountSingle(Submit(pod), LogOpen);
  }

  /**
   * A status-query error on attempt k + 1 panics with that error after exactly
   * k + 1 queries and k sleeps; the logs are never read.
   */
  lemma RunFailsFastOnPoll(scriptPath: string, env: Env, k: nat)
    requires ValidEnv(env) && SetupError(env).None? && env.create.Created?
    requires StopsAt(env.statuses, k) && env.statuses[k].GetFailed?
    ensures var r := Run(scriptPath, env);
            r.outcome == Panicked(env.statuses[k].err) &&
            Count(r.events, SubmitCall) == 1 &&
            Count(r.events, StatusQuery) == k + 1 && Count(r.events, Pause) == k &&
            Count(r.events, LogOpen) == 0
  {
    var name := env.create.name;
    RunAfterCreate(scriptPath, env);
    WaitStopsAtFirstStop(name, env.statuses, k);
    var w := WaitForPodCompletion(name, env.statuses).events;
    assert WaitThenRead(name, env.statuses, env.logs).events == w;
    AlternatingCounts(name, w, k);
    var s := Submit(PodFor(scriptPath, env));
    forall kind: EventKind
      ensures Count([s] + w, kind) == (if kind == SubmitCall then 1 else 0) + Count(w, kind)
    {
      CountAppend([s], w, kind);
      CountSingle(s, kind);
    }
  }

  /**
   * A run prints exactly when set-up, create, the poll and the log read all
   * succeed.
   */
  lemma RunPrintsIff(scriptPath: string, env: Env)
    requires ValidEnv(env)
    ensures Run(scriptPath, env).outcome.Printed? <==>
            SetupError(env).None? && env.create.Created? &&
            (exists k :: StopsAt(env.statuses, k) && env.statuses[k].Observed?) &&
            env.logs.Opened? && env.logs.readErr.None?
  {
    if SetupError(env).None? && env.create.Created? {
      RunAfterCreate(scriptPath, env);
      WaitReturnsNilIff(env.create.name, env.statuses);
    }
  }

  /** A printing run prints the whole output of the pod. */
  lemma RunPrintsWholeOutput(scriptPath: string, env: Env)
    requires ValidEnv(env)
    requires Run(scriptPath, env).outcome.Printed?
    ensures env.logs.Opened? && Run(scriptPath, env).outcome.logs == Concat(env.logs.chunks)
  {
    RunPrintsIff(scriptPath, env);
    RunAfterCreate(scriptPath, env);
  }

  /** Waiting until reply k ends the loop with a terminal phase and then reading the logs: the calls made. */
  lemma WaitThenReadCounts(podName: string, statuses: seq<StatusReply>, stream: LogStream, k: nat)
    requires StopsAt(statuses, k) && statuses[k].Observed? && stream.Opened?
    ensures var ev := WaitThenRead(podName, statuses, stream).events;
            Count(ev, SubmitCall) == 0 &&
            Count(ev, StatusQuery) == k + 1 && Count(ev, Pause) == k &&
            Count(ev, LogOpen) == 1 && Count(ev, LogClose) == 1
  {
    WaitStopsAtFirstStop(podName, statuses, k);
    var w := WaitForPodCompletion(podName, statuses).events;
    var l := [OpenLogs(podName), CloseLogs(podName)];
    assert WaitThenRead(podName, statuses, stream).events == w + l;
    AlternatingCounts(podName, w, k);
    forall kind: EventKind
      ensures Count(w + l, kind) == Count(w, kind) + (if kind == LogOpen || kind == LogClose then 1 else 0)
    {
      CountAppend(w, l, kind);
      CountPair(OpenLogs(podName), CloseLogs(podName), kind);
    }
  }

  /** A printing run created one pod, polled it k + 1 times with k sleeps, and opened and closed its log once. */
  lemma RunPrintedCounts(scriptPath: string, env: Env) returns (k: nat)
    requires ValidEnv(env)
    requires Run(scriptPath, env).outcome.Printed?
    ensures StopsAt(env.statuses, k) && env.statuses[k].Observed?
    ensures var r := Run(scriptPath, env);
            Count(r.events, SubmitCall) == 1 &&
            Count(r.events, StatusQuery) == k + 1 && Count(r.events, Pause) == k &&
            Count(r.events, LogOpen) == 1 && Count(r.events, LogClose) == 1
  {
    RunPrintsIff(scriptPath, env);
    k :| StopsAt(env.statuses, k) && env.statuses[k].Observed?;
    RunAfterCreate(scriptPath, env);
    var rest := WaitThenRead(env.create.name, env.statuses, env.logs).events;
    WaitThenReadCounts(env.create.name, env.statuses, env.logs, k);
    var s := Submit(PodFor(scriptPath, env));
    forall kind: EventKind
      ensures Count([s] + rest, kind) == (if kind == SubmitCall then 1 else 0) + Count(rest, kind)
    {
      CountAppend([s], rest, kind);
      CountSingle(s, kind);
    }
  }

  /** A log-stream error panics with that error, and no part of the output is printed. */
  lemma RunLogErrorPrintsNothing(scriptPath: string, env: Env)
    requires ValidEnv(env) && SetupError(env).None? && env.create.Created?
    requires WaitForPodCompletion(env.create.name, env.statuses).end == Returned(None)
    requires env.logs.OpenFailed? || env.logs.readErr.Some?
    ensures Run(scriptPath, env).outcome ==
            Panicked(if env.logs.OpenFailed? then env.logs.err else env.logs.readErr.value)
  {
    RunAfterCreate(scriptPath, env);
  }

  /**
   * The end-to-end scenario: the server names the pod python-script-abcde, the
   * pod is Running twice and then Succeeded and writes "hello\n"; the run
   * queries three times, sleeps twice and prints "hello\n".
   */
  lemma HelloScenario(scriptPath: string, env: Env)
    requires ValidEnv(env) && SetupError(env).None?
    requires env.create == Created("python-script-abcde")
    requires env.statuses == [Observed(Running), Observed(Running), Observed(Succeeded)]
    requires env.logs == Opened(["hello\n"], None)
    ensures Run(scriptPath, env).outcome == Printed("hello\n")
    ensures Count(Run(scriptPath, env).events, Pause) == 2
    ensures Count(Run(scriptPath, env).events, StatusQuery) == 3
  {
    assert StopsAt(env.statuses, 2);
    RunPrintsIff(scriptPath, env);
    var k := RunPrintedCounts(scriptPath, env);
    RunPrintsWholeOutput(scriptPath, env);
    assert Concat(["hello\n"]) == "hello\n" + Concat([]);
  }
}
