# execute-python-in-pod, modelled in Dafny

The program runs one Python script in a Kubernetes pod and prints what it
wrote. `main` creates the pod (`CreatePythonPod`), polls its phase until it
is Succeeded or Failed (`WaitForPodCompletion`), reads its whole log
(`GetPodLogs`), and panics on the first error. This project models that
lifecycle and the pod literal, and proves what the program promises about
them.

Everything outside the program is an oracle: the `Env` record in
`cluster.dfy` holds every answer the outside world gives during one run:

- the kubeconfig load and the client construction;
- `filepath.Abs`;
- the pod create;
- the sequence of replies to the status queries;
- the log stream.

Each call the program makes into the cluster is recorded as an `Event`
(`Submit`, `GetStatus`, `Sleep`, `OpenLogs`, `CloseLogs`). Fail-fast
behaviour, call counts, call order and "the same pod throughout" are stated
over that event log.

Files, one module each:

- `maybe.dfy` (`Maybe`): `Option`, standing for Go's nil pointer or nil error.
- `paths.dfy` (`Paths`): `filepath.Base` as the Go library defines it on Unix,
  and `Dir` and `Join` on clean paths. `Join` models both main.go:120 and
  the join inside `filepath.Abs`. Its properties are stated by
  `Paths.JoinName`, `Paths.JoinIsClean` and `Paths.JoinSplit`, which also
  prove that `Dir`/`Base` and `Join` undo each other.
- `pods.dfy` (`Pods`): the subset of the core/v1 Pod the program fills in,
  the pod literal `BuildPod`, and `HostFileOf`. `HostFileOf` is a reference
  meaning for volume mounts: it maps a path seen inside a container to the
  node file it names.
- `cluster.dfy` (`Cluster`): oracle replies, errors, pod phases, events and
  event counting.
- `submission.dfy` (`Submission`): `CreatePythonPod`.
- `polling.dfy` (`Polling`): `WaitForPodCompletion` as a recursive function
  over the reply sequence.
- `logs.dfy` (`Logs`): `GetPodLogs`, with the buffer fill of `io.Copy` as
  `Drain` and the whole output as `Concat`.
- `driver.dfy` (`Driver`): `main` as `Run`.

The source applies `Base` to the script path as the caller gave it
(main.go:47) but `Dir` to the absolute path (main.go:61). The model keeps
that difference. `Pods.CommandRunsScript` states exactly when the command
still runs the mounted script: when both paths end in the same name. That
holds for the absolute path `main` passes, and for any clean relative path
(`Pods.AbsolutePathRunsScript`, `Pods.RelativePathRunsScript`).

## Model

| member | source | states |
|---|---|---|
| Paths.Base | main.go:47 | `filepath.Base`: never empty; either "/" or slash-free; "." for the empty path; "/" for a path made only of slashes |
| Paths.Dir | main.go:61 | `filepath.Dir` of a clean absolute path is again clean and absolute; it is "/" for "/" and strictly shorter otherwise |
| Paths.SplitJoin | main.go:47-61 | for a clean absolute path other than "/", `Base` is a single name, and joining `Dir` and `Base` gives the path back |
| Paths.JoinName | main.go:120 | `filepath.Join` of a clean absolute directory and one name: the result is clean and absolute, and its last element is that name |
| Paths.JoinSplit | main.go:120 | `Dir` and `Base` undo `filepath.Join(dir, name)`, as used to build the script path from the working directory |
| Paths.JoinIsClean | main.go:120 | joining a clean relative path onto a clean absolute directory yields a clean absolute path, so `Join`'s final Clean changes nothing |
| Paths.BaseOfJoin | main.go:32-47 | resolving a clean relative path against a directory keeps its last element, so `Base` of the original and of the absolute path agree |
| Pods.BuildPod | main.go:37-68 | the pod literal: generated name prefix `python-script-`, restart policy Never, one container `python` with image `python:3.8` and command `python /scripts/<Base(scriptPath)>`, one mount at `/scripts` and one hostPath volume on `Dir(absScriptPath)`, both named `script-volume`; every mount names a declared volume |
| Pods.CommandRunsScript | main.go:47-62 | the file the container command names, resolved through the mount to the node, is the absolute script path if and only if the given path and the absolute path end in the same name |
| Pods.AbsolutePathRunsScript | main.go:120-124 | for the absolute path `main` passes, the command always runs the mounted script |
| Pods.RelativePathRunsScript | main.go:32-61 | a clean relative script path resolved against the working directory also runs the mounted script |
| Pods.ProjectScriptBase | main.go:47 | the last element of `/home/u/project/script.py` is `script.py` |
| Pods.ProjectScriptMount | main.go:60-62 | for `/home/u/project/script.py` the hostPath volume is `/home/u/project` |
| Pods.ProjectScriptCommand | main.go:47 | for `/home/u/project/script.py` the command is `python /scripts/script.py`, the name only, whatever the absolute path |
| Submission.CreatePythonPod | main.go:19-77 | exactly one of pod and error is nil; the config, client and path errors are returned in that order, unchanged, with no create call; otherwise exactly one create of the built pod; a create error returns a nil pod; set-up success with a created pod returns that pod, under the server's name, with a nil error |
| Polling.WaitForPodCompletion | main.go:79-90 | queries and sleeps alternate, starting with a query; every query names the given pod and every sleep lasts 5 seconds; the log ends with a query exactly when the function has returned |
| Polling.WaitStopsAtFirstStop | main.go:80-89 | at the first reply that is an error or Succeeded/Failed, the loop returns that error unchanged (or nil for either terminal phase), after 2k+1 calls |
| Polling.WaitCounts | main.go:80-89 | a loop stopped by reply k made k+1 queries and k sleeps, and read no logs |
| Polling.AlternatingCounts | main.go:80-89 | an alternating poll log of length 2k+1 holds k+1 queries and k sleeps, and no other calls |
| Polling.WaitWhileRunning | main.go:85-88 | while every reply is non-terminal and error-free, the loop keeps polling, with one query and one sleep per reply |
| Polling.WaitReturnsNilIff | main.go:85-87 | the loop returns nil if and only if the first reply that stops it is a phase (Succeeded or Failed), not an error |
| Polling.WaitIgnoresLaterReplies | main.go:81-84 | replies after the one that stops the loop are never asked for: the result depends only on the prefix up to it |
| Polling.TerminalPhasesAlike | main.go:85 | swapping Succeeded for Failed at any position changes nothing |
| Polling.FourQueryExample | main.go:80-89 | Pending, Pending, Running, Succeeded gives nil after 4 queries and 3 sleeps |
| Polling.WaitStaysInPollStage | main.go:79-81 | every call of the loop is a status query for the given pod or a sleep |
| Logs.Drain | main.go:101-102 | copying chunks into a buffer keeps the buffer's contents as prefix and grows it by the chunks' total length |
| Logs.DrainIsConcat | main.go:101-106 | the buffer after the copy is its old contents followed by the concatenation of all chunks |
| Logs.GetPodLogs | main.go:92-109 | all or nothing: an open or read error comes with "" and that error unchanged; success exactly when the stream opens and reads to EOF; the stream is closed after every successful open and only then |
| Logs.LogsAreWholeOutput | main.go:101-108 | on success the logs are the concatenation of every chunk of the stream |
| Logs.ChunkBoundariesIrrelevant | main.go:101-106 | splitting any chunk in two does not change the output |
| Logs.ChunkAtOffset | main.go:101-106 | the output is as long as the chunks together, and chunk i appears intact right after chunks 0..i-1 |
| Logs.EmptyOutput | main.go:101-108 | a stream of only empty chunks (or none) gives the empty string |
| Driver.WaitThenRead | main.go:129-138 | after the pod exists: printing implies the stream opened, and what is printed is its whole output |
| Driver.Run | main.go:121-138 | a kubeconfig error is a nil-pointer panic in `main` itself (the config it discards is nil when `NewForConfig` reads it); a run makes no call exactly when set-up fails, and otherwise begins by submitting the built pod |
| Driver.RunAfterCreate | main.go:124-133 | once the pod is created, a run is one submit followed by waiting on and reading the pod the server named |
| Driver.WaitThenReadStages | main.go:129-136 | after creation, the calls are the poll loop's, then the log stream's, all naming the pod |
| Driver.RunInStageOrder | main.go:124-136 | no call of a later phase precedes a call of an earlier one: create, then poll, then logs |
| Driver.RunUsesOnePod | main.go:124-133 | every call that names a pod names the one the server created |
| Driver.RunFailsFastOnSetup | main.go:21-35 | a set-up error stops the run before any call to the cluster: a kubeconfig error as the nil-config panic of main.go:121-122, a client or path error (main.go:27-35) as a panic with that error at main.go:125-126 |
| Driver.RunFailsFastOnCreate | main.go:124-127 | a create error (returned at main.go:71-74) panics with that error; one create, no status query, no log read |
| Driver.RunFailsFastOnPoll | main.go:129-131 | a query error on attempt k+1 panics with that error after k+1 queries and k sleeps; no log read |
| Driver.RunPrintsIff | main.go:124-138 | a run prints if and only if set-up, create, the poll (ending in a terminal phase) and the log read all succeed |
| Driver.RunPrintsWholeOutput | main.go:133-138 | what a run prints is the whole output of the log stream |
| Driver.WaitThenReadCounts | main.go:129-136 | a poll stopped by a terminal phase at reply k, then a log read, makes k+1 queries, k sleeps, one stream open and one close |
| Driver.RunPrintedCounts | main.go:124-136 | a printing run made exactly one create, k+1 queries, k sleeps, one stream open and one close |
| Driver.RunLogErrorPrintsNothing | main.go:133-136 | a log open or read error after a successful poll panics with that error; nothing is printed |
| Driver.HelloScenario | main.go:124-138 | a pod named python-script-abcde that is Running, Running, Succeeded and writes "hello\n": the run makes 3 queries and 2 sleeps and prints "hello\n" |

## Left out

- The client-go calls: `BuildConfigFromFlags`, `NewForConfig`, `Pods("default").Create/Get/GetLogs` and `Stream`. They are network I/O; only their answers appear, as `Env` fields. `CreatePythonPod`'s kubeconfig path parameter is therefore not modelled; loading that file is the `configErr` reply.
- The namespace "default" and `context.TODO()`: both are constants passed to every call, so events do not carry them.
- The server's changes to the created pod (status, uid, defaults): the model returns the submitted pod with the server-assigned name.
- `filepath.Abs` is an oracle reply, because it depends on the process's working directory. Its result is required to be clean and absolute, as `Abs` guarantees.
- `filepath.Clean`: `Dir` and `Join` are modelled only on clean inputs, where the library's final Clean is the identity. `Base` is modelled for every string.
- `time.Sleep` real time: a sleep is an event carrying its 5 seconds.
- Polling.WaitForPodCompletion: the source loops forever while the pod is not terminal. The model runs over a finite reply sequence, and running out of replies is the outcome `StillPolling`.
- `defer podLogs.Close()`: closing is the `CloseLogs` event. It happens after every successful open; resource release itself is not modelled.
- `homedir.HomeDir`, `os.Getwd` and its panic, and the `fmt.Println` output format of `main` (main.go:112-120, 138). `Run` takes the script path and returns the logs it would print.
- The errors `main` discards at main.go:121-122 are modelled only through the shared `configErr` and `clientErr` replies. `main` loads the same kubeconfig as `CreatePythonPod`, so both loads are taken to agree. A failed load leaves a nil config, and `kubernetes.NewForConfig` dereferences it at main.go:122. That runtime panic is the outcome `NilConfigPanic`; its message is not modelled, and `CreatePythonPod`'s own config-error return is never reached from `main`. A client error in `main` leaves a nil clientset, but `CreatePythonPod` then returns the same error and `main` panics before that clientset is used.
- Pods.HostFileOf: the reference meaning of mounts picks the first mount under which a path lies, not the longest one as the kubelet does. With the single mount the program declares, the two choices agree.
- Byte-level log data: a chunk of the log stream is a `string`, and one of its chars stands for one byte of Go's `[]byte` stream and of `buf.String()`. Chunk boundaries inside a multi-byte UTF-8 character are therefore written as boundaries between chars.
- `Unknown`, the fifth core/v1 pod phase, is included. The loop treats it like Pending and Running.
