/** `wrap_for_container` (src/sandbox/container.rs): the Docker/Podman command line that
    runs an agent command inside a sandbox container, with the worktree mirror-mounted. */
module Container {
  import opened Wrappers
  import opened Text
  import opened Seqs
  import opened Paths
  import opened ShellQuote

  datatype Runtime = Docker | Podman

  /** The parts of the sandbox configuration the command line depends on. */
  datatype SandboxConfig = SandboxConfig(runtime: Runtime, image: Option<string>, envPassthrough: seq<string>)

  /** The host's sandbox configuration paths (`SandboxPaths::new`) and whether each exists. */
  datatype ConfigPaths = ConfigPaths(configFile: string, configFileExists: bool, configDir: string, configDirExists: bool)

  /** What the function observes on the host: its uid and gid, the contents of
      `<worktree>/.git` when that is a readable file, the sandbox configuration paths
      (None when the home directory is unknown), and which variables are set. */
  datatype Host = Host(uid: nat, gid: nat, gitFile: Option<string>, configPaths: Option<ConfigPaths>, setVars: set<string>)

  function RuntimeName(r: Runtime): string
  {
    match r
    case Podman => "podman"
    case Docker => "docker"
  }

  const MissingImage := "Sandbox enabled but no image configured"
  const HomeEnv := "HOME=/tmp"
  const PathEnv := "PATH=/root/.local/bin:/usr/local/bin:/usr/bin:/bin"

  /** A mirror bind mount: the host path appears at the same path in the container. */
  function MirrorMount(path: string): string
  {
    "type=bind,source=" + path + ",target=" + path
  }

  /** The main repository's `.git` directory named by a worktree's `.git` file: the
      content must start with `gitdir: `; the rest, trimmed, is
      `<main>/.git/worktrees/<name>`, and the main `.git` directory is its grandparent. */
  function MainGitDir(gitFile: Option<string>): (r: Option<string>)
    ensures r.Some? ==> gitFile.Some? && StartsWith(gitFile.value, "gitdir: ")
  {
    match gitFile
    case None => None
    case Some(content) =>
      match StripPrefix(content, "gitdir: ")
      case None => None
      case Some(gitdir) => Grandparent(Trim(gitdir))
  }

  /** The extra mount for a worktree's main repository, if any. */
  function GitMounts(gitFile: Option<string>): seq<string>
  {
    match MainGitDir(gitFile)
    case None => []
    case Some(main) => ["--mount", MirrorMount(main)]
  }

  /** The mounts of the sandbox's own configuration file and directory, where they exist. */
  function ConfigMounts(paths: Option<ConfigPaths>): seq<string>
  {
    match paths
    case None => []
    case Some(c) =>
      (if c.configFileExists then ["--mount", "type=bind,source=" + c.configFile + ",target=/tmp/.claude.json"] else [])
      + (if c.configDirExists then ["--mount", "type=bind,source=" + c.configDir + ",target=/tmp/.claude"] else [])
  }

  /** `--env VAR` for each passthrough variable that is set, in configuration order. */
  function EnvArgs(vars: seq<string>, setVars: set<string>): seq<string>
  {
    if vars == [] then []
    else
      var v := vars[|vars| - 1];
      EnvArgs(vars[..|vars| - 1], setVars) + (if v in setVars then ["--env", v] else [])
  }

  function Head(runtime: Runtime, uid: nat, gid: nat, root: string): seq<string>
  {
    [RuntimeName(runtime), "run", "--rm", "-it", "--user", NatToString(uid) + ":" + NatToString(gid),
     "--mount", MirrorMount(root)]
  }

  function Tail(image: string, command: string): seq<string>
  {
    ["--env", PathEnv, image, "sh", "-c", Quote(command)]
  }

  /** The argument list, in the order the source pushes it. */
  function ContainerArgs(command: string, runtime: Runtime, image: string, passthrough: seq<string>,
                         root: string, cwd: string, host: Host): seq<string>
  {
    Head(runtime, host.uid, host.gid, root)
    + GitMounts(host.gitFile)
    + ["--workdir", cwd, "--env", HomeEnv]
    + ConfigMounts(host.configPaths)
    + EnvArgs(passthrough, host.setVars)
    + Tail(image, command)
  }

  /** `wrap_for_container`: fails without an image; otherwise the argument list joined by
      single spaces. */
  method WrapForContainer(command: string, config: SandboxConfig, root: string, cwd: string, host: Host)
    returns (r: Result<string>)
    ensures config.image.None? <==> r.Err?
    ensures r.Err? ==> r.error == MissingImage
    ensures r.Ok? ==> r.value == Join(ContainerArgs(command, config.runtime, config.image.value,
                                                    config.envPassthrough, root, cwd, host), " ")
  {
    if config.image.None? {
      return Err(MissingImage);
    }
    var image := config.image.value;
    var args := PushHead(config.runtime, host.uid, host.gid, root);
    args := PushGitMount(args, host.gitFile);
    args := PushWorkdir(args, cwd);
    args := PushConfigMounts(args, host.configPaths);
    args := PushEnv(args, config.envPassthrough, host.setVars);
    args := PushTail(args, image, command);
    return Ok(Join(args, " "));
  }

  /** The base command, the user mapping and the worktree's mirror mount. */
  method PushHead(runtime: Runtime, uid: nat, gid: nat, root: string) returns (args: seq<string>)
    ensures args == Head(runtime, uid, gid, root)
  {
    args := [];
    args := args + [RuntimeName(runtime)];
    args := args + ["run"];
    args := args + ["--rm"];
    args := args + ["-it"];
    args := args + ["--user"];
    args := args + [NatToString(uid) + ":" + NatToString(gid)];
    args := args + ["--mount"];
    args := args + [MirrorMount(root)];
  }

  /** The nested if-lets over the `.git` file. */
  method PushGitMount(args: seq<string>, gitFile: Option<string>) returns (out: seq<string>)
    ensures out == args + GitMounts(gitFile)
  {
    out := args;
    if gitFile.Some? {
      var gitdir := StripPrefix(gitFile.value, "gitdir: ");
      if gitdir.Some? {
        var main := Grandparent(Trim(gitdir.value));
        if main.Some? {
          out := out + ["--mount"];
          out := out + [MirrorMount(main.value)];
        }
      }
    }
  }

  /** The pane's working directory and HOME. */
  method PushWorkdir(args: seq<string>, cwd: string) returns (out: seq<string>)
    ensures out == args + ["--workdir", cwd, "--env", HomeEnv]
  {
    out := args;
    out := out + ["--workdir"];
    out := out + [cwd];
    out := out + ["--env"];
    out := out + [HomeEnv];
  }

  method PushConfigMounts(args: seq<string>, configPaths: Option<ConfigPaths>) returns (out: seq<string>)
    ensures out == args + ConfigMounts(configPaths)
  {
    out := args;
    if configPaths.Some? {
      var paths := configPaths.value;
      if paths.configFileExists {
        out := out + ["--mount"];
        out := out + ["type=bind,source=" + paths.configFile + ",target=/tmp/.claude.json"];
      }
      if paths.configDirExists {
        out := out + ["--mount"];
        out := out + ["type=bind,source=" + paths.configDir + ",target=/tmp/.claude"];
      }
    }
  }

  /** PATH, the image and the command wrapped in `sh -c`. */
  method PushTail(args: seq<string>, image: string, command: string) returns (out: seq<string>)
    ensures out == args + Tail(image, command)
  {
    out := args;
    out := out + ["--env"];
    out := out + [PathEnv];
    out := out + [image];
    var escaped := Escape(command);
    out := out + ["sh"];
    out := out + ["-c"];
    out := out + ["'" + escaped + "'"];
  }

  /** The loop over `env_passthrough`: pushes `--env VAR` for each variable that is set. */
  method PushEnv(args: seq<string>, vars: seq<string>, setVars: set<string>) returns (out: seq<string>)
    ensures out == args + EnvArgs(vars, setVars)
  {
    out := args;
    for i := 0 to |vars|
      invariant out == args + EnvArgs(vars[..i], setVars)
    {
      assert vars[..i + 1][..i] == vars[..i];
      if vars[i] in setVars {
        out := out + ["--env"];
        out := out + [vars[i]];
      }
    }
    assert vars[..|vars|] == vars;
  }

  // ---------------------------------------------------------------------------
  // Properties of the argument list

  /** The command line starts with `<runtime> run --rm -it --user UID:GID` and the
      mirror mount of the worktree root. */
  lemma ArgsStart(command: string, runtime: Runtime, image: string, passthrough: seq<string>,
                  root: string, cwd: string, host: Host)
    ensures var args := ContainerArgs(command, runtime, image, passthrough, root, cwd, host);
      && |args| >= 8
      && args[..8] == [RuntimeName(runtime), "run", "--rm", "-it", "--user",
                       NatToString(host.uid) + ":" + NatToString(host.gid),
                       "--mount", "type=bind,source=" + root + ",target=" + root]
  {
  }

  /** It ends with the PATH variable, the image and `sh -c` of the quoted command, and that
      last word reads back, under POSIX single-quote rules, as the command itself. */
  lemma ArgsEnd(command: string, runtime: Runtime, image: string, passthrough: seq<string>,
                root: string, cwd: string, host: Host)
    ensures var args := ContainerArgs(command, runtime, image, passthrough, root, cwd, host);
      && |args| >= 6
      && args[|args| - 6..] == ["--env", PathEnv, image, "sh", "-c", "'" + Escape(command) + "'"]
      && Unquote(args[|args| - 1]) == Some(command)
  {
    var args := ContainerArgs(command, runtime, image, passthrough, root, cwd, host);
    var front := Head(runtime, host.uid, host.gid, root) + GitMounts(host.gitFile)
      + ["--workdir", cwd, "--env", HomeEnv] + ConfigMounts(host.configPaths)
      + EnvArgs(passthrough, host.setVars);
    assert args == front + Tail(image, command);
    assert args[|args| - 6..] == Tail(image, command);
    UnquoteQuote(command);
  }

  /** The missing-image error says that no image is configured. */
  lemma MissingImageSaysNoImage()
    ensures Contains(MissingImage, "no image")
  {
    assert MissingImage[20..28] == "no image";
    OccursContains(MissingImage, "no image", 20);
  }

  /** The working directory is the pane's directory, which may lie below the mounted
      root; it follows the worktree mounts. */
  lemma ArgsWorkdir(command: string, runtime: Runtime, image: string, passthrough: seq<string>,
                    root: string, cwd: string, host: Host)
    ensures var args := ContainerArgs(command, runtime, image, passthrough, root, cwd, host);
      var i := 8 + |GitMounts(host.gitFile)|;
      && i + 4 <= |args|
      && args[i..i + 4] == ["--workdir", cwd, "--env", HomeEnv]
  {
    SliceOfConcat(Head(runtime, host.uid, host.gid, root), GitMounts(host.gitFile),
                  ["--workdir", cwd, "--env", HomeEnv], ConfigMounts(host.configPaths),
                  EnvArgs(passthrough, host.setVars), Tail(image, command));
  }

  /** The third of five concatenated pieces starts right after the first two. */
  lemma SliceOfConcat<T>(a: seq<T>, b: seq<T>, c: seq<T>, d: seq<T>, e: seq<T>, f: seq<T>)
    ensures |a + b + c + d + e + f| >= |a| + |b| + |c|
    ensures (a + b + c + d + e + f)[|a| + |b|..|a| + |b| + |c|] == c
  {
    var s := a + b + c + d + e + f;
    assert s == (a + b) + c + (d + e + f);
    assert forall k :: 0 <= k < |c| ==> s[|a| + |b| + k] == c[k];
  }

  /** A `.git` file adds exactly one mount, of the grandparent of the trimmed path after
      `gitdir: `, when its content starts with `gitdir: ` and that path has a grandparent;
      otherwise none. */
  lemma GitMountRule(content: string, rest: string)
    requires content == "gitdir: " + rest
    ensures Grandparent(Trim(rest)).Some?
      ==> GitMounts(Some(content)) == ["--mount", MirrorMount(Grandparent(Trim(rest)).value)]
    ensures Grandparent(Trim(rest)).None? ==> GitMounts(Some(content)) == []
  {
    assert StripPrefix(content, "gitdir: ") == Some(rest) by {
      assert content[..8] == "gitdir: ";
      assert content[8..] == rest;
    }
  }

  /** No `.git` file, or one that does not start with `gitdir: `, adds no mount. */
  lemma NoGitdirNoMount(gitFile: Option<string>)
    requires gitFile.None? || !StartsWith(gitFile.value, "gitdir: ")
    ensures GitMounts(gitFile) == []
  {
  }

  /** The `.git` file git writes for a worktree, `gitdir: <main>/worktrees/<name>` and a
      newline, mounts `<main>`: the main repository's `.git` directory. */
  lemma WorktreeGitFileMountsMain(main: string, name: string)
    requires IsDir(main) && !IsWhitespace(main[0])
    requires IsComponent(name) && !IsWhitespace(name[|name| - 1])
    ensures var path := main + "/" + "worktrees" + "/" + name;
      MainGitDir(Some("gitdir: " + path + "\n")) == Some(main)
  {
    var path := main + "/" + "worktrees" + "/" + name;
    GitdirLine("gitdir: ", path, "\n");
    TrimmedPath(path, main, name);
    Worktrees("worktrees");
    GrandparentOfGrandchild(main, "worktrees", name);
  }

  lemma GitdirLine(prefix: string, path: string, nl: string)
    requires prefix == "gitdir: " && nl == "\n"
    ensures StripPrefix(prefix + path + nl, "gitdir: ") == Some(path + nl)
  {
    assert prefix + path + nl == prefix + (path + nl);
    assert (prefix + (path + nl))[..|prefix|] == prefix;
  }

  lemma TrimmedPath(path: string, main: string, name: string)
    requires main != [] && name != [] && path == main + "/" + "worktrees" + "/" + name
    requires !IsWhitespace(main[0]) && !IsWhitespace(name[|name| - 1])
    ensures Trim(path + "\n") == path
  {
    assert path[0] == main[0] && path[|path| - 1] == name[|name| - 1];
    assert Blank("\n") && Blank("");
    TrimPadded("", path, "\n");
    assert "" + path + "\n" == path + "\n";
  }

  lemma Worktrees(w: string)
    requires w == "worktrees"
    ensures IsComponent(w)
  {
  }

  /** The passthrough arguments are `--env VAR` for exactly the configured variables that
      are set, in configuration order. */
  lemma {:induction false} EnvArgsPassSetVars(vars: seq<string>, setVars: set<string>)
    ensures var kept := Filter(vars, v => v in setVars);
      var args := EnvArgs(vars, setVars);
      && |args| == 2 * |kept|
      && forall k :: 0 <= k < |kept| ==> args[2 * k] == "--env" && args[2 * k + 1] == kept[k]
  {
    if vars != [] {
      var n := |vars| - 1;
      var init, v := vars[..n], vars[n];
      var keep := v => v in setVars;
      EnvArgsPassSetVars(init, setVars);
      assert vars == init + [v];
      FilterAppend(init, [v], keep);
      var k0, a0 := Filter(init, keep), EnvArgs(init, setVars);
      if v in setVars {
        var kept, args := k0 + [v], a0 + ["--env", v];
        assert Filter(vars, keep) == kept && EnvArgs(vars, setVars) == args;
        forall k | 0 <= k < |kept|
          ensures args[2 * k] == "--env" && args[2 * k + 1] == kept[k]
        {
          if k < |k0| {
            assert args[2 * k] == a0[2 * k] && args[2 * k + 1] == a0[2 * k + 1];
          }
        }
      } else {
        assert Filter(vars, keep) == k0 + [];
        assert EnvArgs(vars, setVars) == a0 + [];
      }
    }
  }

}
