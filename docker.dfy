/**
 * The Docker client (docker.py): each operation builds a `docker` command
 * line and runs it, returning the execution result as is. Running a command
 * line is the `run` oracle of the host.
 */
module Docker {
  import opened Process

  /** The default build context directory of `build_docker_image`. */
  const DefaultWorkdir := "."

  /** `build_docker_image(tag, workdir)`'s command line. */
  function BuildImageArgs(tag: string, workdir: string): (args: seq<string>)
    ensures |args| == 5 && args[..3] == ["docker", "build", "--tag"]
    ensures args[3] == tag && args[4] == workdir
  {
    ["docker", "build", "--tag", tag, workdir]
  }

  /** `DockerClient.build_docker_image(tag, workdir)`: the result of running that command line. */
  function BuildDockerImage(run: seq<string> -> ExecutionResult, tag: string, workdir: string): (r: ExecutionResult)
    ensures r == run(["docker", "build", "--tag", tag, workdir])
  {
    run(BuildImageArgs(tag, workdir))
  }

  /**
   * `create_docker_container(tag, name, extra_args)`'s command line, built as
   * the source builds it: the fixed prefix, each extra argument appended in
   * turn, then the tag.
   */
  method CreateContainerArgs(tag: string, name: string, extraArgs: seq<string>) returns (args: seq<string>)
    ensures args == ContainerArgs(tag, name, extraArgs)
  {
    args := ["docker", "run", "-d", "--name", name];
    var i := 0;
    while i < |extraArgs|
      invariant 0 <= i <= |extraArgs|
      invariant args == ["docker", "run", "-d", "--name", name] + extraArgs[..i]
    {
      args := args + [extraArgs[i]];
      i := i + 1;
    }
    assert extraArgs[..i] == extraArgs;
    args := args + [tag];
  }

  /** The `docker run` command line, detached and named, with the tag last: the specification of `CreateContainerArgs`. */
  function ContainerArgs(tag: string, name: string, extraArgs: seq<string>): seq<string> {
    ["docker", "run", "-d", "--name", name] + extraArgs + [tag]
  }

  /** Reading the command line back: the name, the extra arguments in order, and the tag last. */
  lemma ContainerArgsLayout(tag: string, name: string, extraArgs: seq<string>)
    ensures |ContainerArgs(tag, name, extraArgs)| == |extraArgs| + 6
    ensures ContainerArgs(tag, name, extraArgs)[4] == name
    ensures ContainerArgs(tag, name, extraArgs)[5..|extraArgs| + 5] == extraArgs
    ensures ContainerArgs(tag, name, extraArgs)[|extraArgs| + 5] == tag
    ensures "-d" in ContainerArgs(tag, name, extraArgs)[..5]
  {
    var a := ContainerArgs(tag, name, extraArgs);
    assert a[..5] == ["docker", "run", "-d", "--name", name];
    assert a[5..|extraArgs| + 5] == extraArgs;
  }

  /** `DockerClient.create_docker_container(tag, name, extra_args)`: the result of running that command line. */
  method CreateDockerContainer(run: seq<string> -> ExecutionResult, tag: string, name: string, extraArgs: seq<string>)
    returns (r: ExecutionResult)
    ensures r == run(ContainerArgs(tag, name, extraArgs))
  {
    var args := CreateContainerArgs(tag, name, extraArgs);
    r := run(args);
  }
}
