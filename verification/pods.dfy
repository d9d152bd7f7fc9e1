/**
 * The part of the Kubernetes core/v1 Pod object that main.go fills in, and
 * the pod literal CreatePythonPod builds for a script: one container named
 * "python" running the script from a hostPath volume mounted at /scripts.
 */
module Pods {
  import opened Maybe
  import opened Paths

  datatype RestartPolicy = Always | OnFailure | Never

  /** Object metadata: the server-assigned name and the prefix the server generates it from. */
  datatype ObjectMeta = ObjectMeta(name: string, generateName: string)

  datatype VolumeMount = VolumeMount(name: string, mountPath: string)

  datatype Container = Container(
    name: string,
    image: string,
    command: seq<string>,
    volumeMounts: seq<VolumeMount>)

  /** A volume whose source is a directory on the node (HostPathVolumeSource). */
  datatype Volume = Volume(name: string, hostPath: string)

  datatype PodSpec = PodSpec(
    containers: seq<Container>,
    volumes: seq<Volume>,
    restartPolicy: RestartPolicy)

  datatype Pod = Pod(metadata: ObjectMeta, spec: PodSpec)

  const GenerateName := "python-script-"
  const ContainerName := "python"
  const Image := "python:3.8"
  const Interpreter := "python"
  const VolumeName := "script-volume"
  const ScriptMountPath := "/scripts"

  /** The first volume of the pod called `name`. */
  function FindVolume(volumes: seq<Volume>, name: string): (r: Option<Volume>)
    ensures r.Some? ==> r.value in volumes && r.value.name == name
    ensures r.None? ==> forall i :: 0 <= i < |volumes| ==> volumes[i].name != name
  {
    if |volumes| == 0 then None
    else if volumes[0].name == name then Some(volumes[0])
    else FindVolume(volumes[1..], name)
  }

  /** path lies strictly below the directory dir, as `dir + "/" + rest`. */
  predicate Below(path: string, dir: string) {
    |path| > |dir| + 1 && path[..|dir|] == dir && path[|dir|] == '/'
  }

  /** The first mount whose mount path path lies below. */
  function FindMount(mounts: seq<VolumeMount>, path: string): (r: Option<VolumeMount>)
    ensures r.Some? ==> r.value in mounts && Below(path, r.value.mountPath)
    ensures r.None? ==> forall i :: 0 <= i < |mounts| ==> !Below(path, mounts[i].mountPath)
  {
    if |mounts| == 0 then None
    else if Below(path, mounts[0].mountPath) then Some(mounts[0])
    else FindMount(mounts[1..], path)
  }

  /**
   * The node file that `path`, read inside container c of the pod, is:
   * the part below the mount point, joined onto the directory of the
   * hostPath volume the mount names.
   */
  function HostFileOf(pod: Pod, c: Container, path: string): Option<string> {
    match FindMount(c.volumeMounts, path)
    case None => None
    case Some(m) =>
      match FindVolume(pod.spec.volumes, m.name)
      case None => None
      case Some(v) => Some(Join(v.hostPath, path[|m.mountPath| + 1..]))
  }

  /** Every mount of every container names a volume the pod declares. */
  predicate MountsResolve(pod: Pod) {
    forall i, j :: 0 <= i < |pod.spec.containers| && 0 <= j < |pod.spec.containers[i].volumeMounts| ==>
      FindVolume(pod.spec.volumes, pod.spec.containers[i].volumeMounts[j].name).Some?
  }

  /**
   * The pod literal of CreatePythonPod. The command takes the last element of
   * the path as the caller gave it; the volume takes the directory of the
   * absolute path.
   */
  function BuildPod(scriptPath: string, absScriptPath: string): (pod: Pod)
    requires IsCleanAbs(absScriptPath)
    ensures pod.metadata.generateName == GenerateName && pod.metadata.name == ""
    ensures pod.spec.restartPolicy == Never
    ensures |pod.spec.containers| == 1 && |pod.spec.volumes| == 1
    ensures pod.spec.containers[0].name == ContainerName && pod.spec.containers[0].image == Image
    ensures pod.spec.containers[0].command == [Interpreter, ScriptMountPath + "/" + Base(scriptPath)]
    ensures pod.spec.containers[0].volumeMounts == [VolumeMount(pod.spec.volumes[0].name, ScriptMountPath)]
    ensures pod.spec.volumes[0].name == VolumeName
    ensures pod.spec.volumes[0].hostPath == Dir(absScriptPath)
    ensures MountsResolve(pod)
  {
    Pod(
      ObjectMeta("", GenerateName),
      PodSpec(
        [Container(
           ContainerName,
           Image,
           [Interpreter, ScriptMountPath + "/" + Base(scriptPath)],
           [VolumeMount(VolumeName, ScriptMountPath)])],
        [Volume(VolumeName, Dir(absScriptPath))],
        Never))
  }

  /** A name below the script mount resolves to that name in the volume's directory. */
  lemma MountedName(pod: Pod, c: Container, dir: string, name: string)
    requires c.volumeMounts == [VolumeMount(VolumeName, ScriptMountPath)]
    requires pod.spec.volumes == [Volume(VolumeName, dir)]
    requires |name| > 0
    ensures HostFileOf(pod, c, ScriptMountPath + "/" + name) == Some(Join(dir, name))
  {
    var path := ScriptMountPath + "/" + name;
    assert path[..|ScriptMountPath|] == ScriptMountPath;
    assert path[|ScriptMountPath| + 1..] == name;
  }

  /**
   * The file the container's command runs is the script on the node: the
   * command's path, resolved through the mount, is the absolute script path
   * exactly when the path as given and the absolute path end in the same name.
   */
  lemma CommandRunsScript(scriptPath: string, absScriptPath: string)
    requires IsCleanAbs(absScriptPath) && absScriptPath != "/"
    ensures var pod := BuildPod(scriptPath, absScriptPath);
            HostFileOf(pod, pod.spec.containers[0], pod.spec.containers[0].command[1]) == Some(absScriptPath) <==>
            Base(scriptPath) == Base(absScriptPath)
  {
    var pod := BuildPod(scriptPath, absScriptPath);
    var dir := Dir(absScriptPath);
    SplitJoin(absScriptPath);
    MountedName(pod, pod.spec.containers[0], dir, Base(scriptPath));
    if Join(dir, Base(scriptPath)) == absScriptPath {
      JoinInjective(dir, Base(scriptPath), Base(absScriptPath));
    }
  }

  /** main.go passes an absolute path, so the command always runs the mounted script. */
  lemma AbsolutePathRunsScript(scriptPath: string)
    requires IsCleanAbs(scriptPath) && scriptPath != "/"
    ensures var pod := BuildPod(scriptPath, scriptPath);
            HostFileOf(pod, pod.spec.containers[0], pod.spec.containers[0].command[1]) == Some(scriptPath)
  {
    CommandRunsScript(scriptPath, scriptPath);
  }

  /**
   * A clean relative path resolved against the working directory also runs
   * the mounted script: its last element is the absolute path's last element.
   */
  lemma RelativePathRunsScript(cwd: string, scriptPath: string)
    requires IsCleanAbs(cwd) && IsCleanRel(scriptPath)
    ensures IsCleanAbs(Join(cwd, scriptPath))
    ensures var pod := BuildPod(scriptPath, Join(cwd, scriptPath));
            HostFileOf(pod, pod.spec.containers[0], pod.spec.containers[0].command[1]) == Some(Join(cwd, scriptPath))
  {
    JoinIsClean(cwd, scriptPath);
    BaseOfJoin(cwd, scriptPath);
    CommandRunsScript(scriptPath, Join(cwd, scriptPath));
  }

  /** "/home/u/project" is clean, one name at a time. */
  lemma ProjectDirIsClean()
    ensures IsCleanAbs("/home/u/project")
  {
    JoinName("/", "home");
    assert Join("/", "home") == "/home";
    JoinName("/home", "u");
    assert Join("/home", "u") == "/home/u";
    JoinName("/home/u", "project");
    assert Join("/home/u", "project") == "/home/u/project";
  }

  /** The script of the worked example is clean. */
  lemma ProjectScriptIsClean()
    ensures IsCleanAbs("/home/u/project/script.py")
  {
    var p := "/home/u/project/script.py";
    ProjectDirIsClean();
    ProjectScriptLastSlash();
    assert p[..15] == "/home/u/project";
    assert p[16..] == "script.py";
  }

  /** The last slash of the worked example's script path is the one before script.py. */
  lemma ProjectScriptLastSlash()
    ensures LastSlash("/home/u/project/script.py") == 15
  {
    LastSlashUnique("/home/u/project/script.py", 15);
  }

  /** The last element of the worked example's script path is script.py. */
  lemma ProjectScriptBase()
    ensures Base("/home/u/project/script.py") == "script.py"
  {
    var p := "/home/u/project/script.py";
    ProjectScriptIsClean();
    ProjectScriptLastSlash();
    CleanEndsInName(p);
    assert p[16..] == "script.py";
  }

  /** The worked example mounts /home/u/project, the directory of /home/u/project/script.py. */
  lemma ProjectScriptMount()
    ensures IsCleanAbs("/home/u/project/script.py")
    ensures BuildPod("/home/u/project/script.py", "/home/u/project/script.py").spec.volumes[0].hostPath
            == "/home/u/project"
  {
    ProjectScriptIsClean();
    ProjectScriptLastSlash();
  }

  /**
   * The worked example runs /scripts/script.py: only the script's name, under
   * the mount, whatever absolute path it resolves to.
   */
  lemma ProjectScriptCommand(absScriptPath: string)
    requires IsCleanAbs(absScriptPath)
    ensures BuildPod("/home/u/project/script.py", absScriptPath).spec.containers[0].command
            == ["python", "/scripts/script.py"]
  {
    ProjectScriptBase();
    assert ScriptMountPath + "/" + "script.py" == "/scripts/script.py";
  }
}
