/**
 * CreatePythonPod: load the kubeconfig, build a client, resolve the script
 * path, build the pod and submit it to the "default" namespace, stopping at
 * the first error.
 */
module Submission {
  import opened Maybe
  import opened Pods
  import opened Cluster

  /** The Go pair (*v1.Pod, error) together with the remote calls made. */
  datatype CreateReturn = CreateReturn(pod: Option<Pod>, err: Option<Error>, events: seq<Event>)

  /** The first error of the local set-up steps, in the order the function runs them. */
  function SetupError(env: Env): Option<Error> {
    if env.configErr.Some? then env.configErr
    else if env.clientErr.Some? then env.clientErr
    else if env.abs.AbsFailed? then Some(env.abs.err)
    else None
  }

  /** The pod that is submitted for scriptPath, once its absolute path is known. */
  function PodFor(scriptPath: string, env: Env): Pod
    requires ValidEnv(env) && env.abs.Resolved?
  {
    BuildPod(scriptPath, env.abs.path)
  }

  function CreatePythonPod(scriptPath: string, env: Env): (r: CreateReturn)
    requires ValidEnv(env)
    // Go's convention: exactly one of the pod and the error is nil.
    ensures r.pod.Some? <==> r.err.None?
    // At most one create call, and only once set-up has succeeded.
    ensures |r.events| <= 1
    ensures |r.events| == 1 <==> SetupError(env).None?
    ensures SetupError(env).Some? ==> r.err == SetupError(env)
    ensures SetupError(env).None? ==> r.events == [Submit(PodFor(scriptPath, env))]
    ensures SetupError(env).None? && env.create.CreateFailed? ==> r.err == Some(env.create.err)
    ensures SetupError(env).None? && env.create.Created? ==>
              r.err.None? &&
              r.pod == Some(PodFor(scriptPath, env).(metadata := ObjectMeta(env.create.name, GenerateName)))
    ensures r.pod.Some? ==>
              env.create.Created? &&
              r.pod.value == PodFor(scriptPath, env).(metadata := ObjectMeta(env.create.name, GenerateName))
  {
    if env.configErr.Some? then CreateReturn(None, env.configErr, [])
    else if env.clientErr.Some? then CreateReturn(None, env.clientErr, [])
    else
      match env.abs
      case AbsFailed(e) => CreateReturn(None, Some(e), [])
      case Resolved(absScriptPath) =>
        var pod := BuildPod(scriptPath, absScriptPath);
        match env.create
        case CreateFailed(e) => CreateReturn(None, Some(e), [Submit(pod)])
        case Created(name) => CreateReturn(Some(pod.(metadata := ObjectMeta(name, GenerateName))), None, [Submit(pod)])
  }
}
