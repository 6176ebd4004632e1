/** The `workmux sandbox run` supervisor (src/command/sandbox_run.rs): checks the command,
    and builds and runs the `limactl shell` command line that runs the agent inside the
    VM with the RPC endpoint in its environment. Everything the supervisor obtains from
    outside (configuration, canonical path, VM, RPC port, token, environment, child
    status) is a parameter. */
module SandboxRun {
  import opened Wrappers
  import opened Text
  import opened Seqs

  const NoCommand := "No command specified. Usage: workmux sandbox run <worktree> -- <command...>"
  const SpawnFailed := "Failed to execute limactl shell"
  const RpcHost := "host.lima.internal"

  /** `--setenv VAR=value` for each passthrough variable that is set, in configuration
      order. */
  function SetenvArgs(vars: seq<string>, env: map<string, string>): seq<string>
  {
    if vars == [] then []
    else
      var v := vars[|vars| - 1];
      SetenvArgs(vars[..|vars| - 1], env) + (if v in env then ["--setenv", v + "=" + env[v]] else [])
  }

  /** The four variables the guest needs to reach the supervisor. */
  function GuestEnv(port: nat, token: string): seq<string>
  {
    ["--setenv", "WM_SANDBOX_GUEST=1",
     "--setenv", "WM_RPC_HOST=" + RpcHost,
     "--setenv", "WM_RPC_PORT=" + NatToString(port),
     "--setenv", "WM_RPC_TOKEN=" + token]
  }

  /** The arguments given to `limactl`. */
  function LimaArgs(vm: string, vars: seq<string>, env: map<string, string>, port: nat, token: string,
                    worktree: string, command: seq<string>): seq<string>
  {
    ["shell", vm] + SetenvArgs(vars, env) + GuestEnv(port, token) + ["--workdir", worktree, "--"] + command
  }

  /** `run`. `passthrough` is the configuration's passthrough list, or the error loading
      the configuration; `canonical` the canonical worktree path when it resolves; `vm`
      the outcome of making sure the VM runs; `port` that of binding the RPC server;
      `status` that of running `limactl` (the child's exit code, None when a signal ended
      it). Returns the exit code and the argument list handed to `limactl`, empty when it
      was never built. */
  method Run(worktree: string, command: seq<string>, passthrough: Result<seq<string>>,
             canonical: Option<string>, vm: Result<string>, port: Result<nat>, token: string,
             env: map<string, string>, status: Result<Option<int>>)
    returns (r: Result<int>, argv: seq<string>)
    ensures command == [] ==> r == Err(NoCommand) && argv == []
    ensures command != [] && passthrough.Err? ==> r == Err(passthrough.error) && argv == []
    ensures command != [] && passthrough.Ok? && vm.Err? ==> r == Err(vm.error) && argv == []
    ensures command != [] && passthrough.Ok? && vm.Ok? && port.Err? ==> r == Err(port.error) && argv == []
    ensures command != [] && passthrough.Ok? && vm.Ok? && port.Ok?
      ==> && argv == LimaArgs(vm.value, passthrough.value, env, port.value, token, canonical.GetOr(worktree), command)
          && r == (if status.Err? then Err(SpawnFailed) else Ok(status.value.GetOr(1)))
  {
    argv := [];
    if command == [] {
      return Err(NoCommand), argv;
    }
    if passthrough.Err? {
      return Err(passthrough.error), argv;
    }
    var path := canonical.GetOr(worktree);
    if vm.Err? {
      return Err(vm.error), argv;
    }
    if port.Err? {
      return Err(port.error), argv;
    }
    argv := BuildArgs(vm.value, passthrough.value, env, port.value, token, path, command);
    if status.Err? {
      return Err(SpawnFailed), argv;
    }
    r := Ok(status.value.GetOr(1));
  }

  /** The successive `arg`/`args` calls on the `limactl` command. */
  method BuildArgs(vm: string, vars: seq<string>, env: map<string, string>, port: nat, token: string,
                   worktree: string, command: seq<string>) returns (argv: seq<string>)
    ensures argv == LimaArgs(vm, vars, env, port, token, worktree, command)
  {
    argv := ["shell"];
    argv := argv + [vm];
    argv := PushSetenv(argv, vars, env);
    argv := PushGuestEnv(argv, port, token);
    argv := argv + ["--workdir", worktree];
    argv := argv + ["--"];
    argv := PushCommand(argv, command);
  }

  /** The loop over the passthrough variables. */
  method PushSetenv(args: seq<string>, vars: seq<string>, env: map<string, string>) returns (out: seq<string>)
    ensures out == args + SetenvArgs(vars, env)
  {
    out := args;
    for i := 0 to |vars|
      invariant out == args + SetenvArgs(vars[..i], env)
    {
      assert vars[..i + 1][..i] == vars[..i];
      if vars[i] in env {
        out := out + ["--setenv", vars[i] + "=" + env[vars[i]]];
      }
    }
    assert vars[..|vars|] == vars;
  }

  method PushGuestEnv(args: seq<string>, port: nat, token: string) returns (out: seq<string>)
    ensures out == args + GuestEnv(port, token)
  {
    out := args + ["--setenv", "WM_SANDBOX_GUEST=1"];
    out := out + ["--setenv", "WM_RPC_HOST=" + RpcHost];
    out := out + ["--setenv", "WM_RPC_PORT=" + NatToString(port)];
    out := out + ["--setenv", "WM_RPC_TOKEN=" + token];
  }

  /** The loop over the command's arguments. */
  method PushCommand(args: seq<string>, command: seq<string>) returns (out: seq<string>)
    ensures out == args + command
  {
    out := args;
    for i := 0 to |command|
      invariant out == args + command[..i]
    {
      assert command[..i + 1] == command[..i] + [command[i]];
      out := out + [command[i]];
    }
    assert command[..|command|] == command;
  }

  // ---------------------------------------------------------------------------
  // Properties of the argument list

  /** The layout: `shell <vm>`, the passthrough setenvs, the four guest setenvs,
      `--workdir <worktree> --`, and the command's arguments verbatim and in order. */
  lemma ArgsLayout(vm: string, vars: seq<string>, env: map<string, string>, port: nat, token: string,
                   worktree: string, command: seq<string>)
    ensures var args := LimaArgs(vm, vars, env, port, token, worktree, command);
      var n := |SetenvArgs(vars, env)|;
      && |args| == 13 + n + |command|
      && args[..2] == ["shell", vm]
      && args[2..2 + n] == SetenvArgs(vars, env)
      && args[2 + n..10 + n] == GuestEnv(port, token)
      && args[10 + n..13 + n] == ["--workdir", worktree, "--"]
      && args[13 + n..] == command
  {
    Pieces5(["shell", vm], SetenvArgs(vars, env), GuestEnv(port, token), ["--workdir", worktree, "--"], command);
  }

  lemma Pieces5<T>(a: seq<T>, b: seq<T>, c: seq<T>, d: seq<T>, e: seq<T>)
    ensures var s := a + b + c + d + e;
      && |s| == |a| + |b| + |c| + |d| + |e|
      && s[..|a|] == a
      && s[|a|..|a| + |b|] == b
      && s[|a| + |b|..|a| + |b| + |c|] == c
      && s[|a| + |b| + |c|..|a| + |b| + |c| + |d|] == d
      && s[|a| + |b| + |c| + |d|..] == e
  {
    var s := a + b + c + d + e;
    assert s == (((a + b) + c) + d) + e;
    assert s[..|a|] == a;
  }

  /** The guest setenvs, in fixed order; the port reads back as the number bound. */
  lemma GuestEnvValues(port: nat, token: string)
    ensures var g := GuestEnv(port, token);
      && |g| == 8
      && (forall k :: 0 <= k < 4 ==> g[2 * k] == "--setenv")
      && g[1] == "WM_SANDBOX_GUEST=1" && g[3] == "WM_RPC_HOST=host.lima.internal"
      && StartsWith(g[5], "WM_RPC_PORT=") && g[7] == "WM_RPC_TOKEN=" + token
      && (forall i :: 12 <= i < |g[5]| ==> IsDigit(g[5][i]))
      && ParseDigits(g[5][12..]) == port
  {
    var p := "WM_RPC_PORT=" + NatToString(port);
    assert p[..12] == "WM_RPC_PORT=";
    assert p[12..] == NatToString(port);
    ParseNatToString(port);
  }

  /** The passthrough arguments are `--setenv VAR=value` for exactly the configured
      variables that are set, in configuration order, with their values from the
      environment. */
  lemma {:induction false} SetenvPassSetVars(vars: seq<string>, env: map<string, string>)
    ensures var kept := Filter(vars, v => v in env);
      var args := SetenvArgs(vars, env);
      && |args| == 2 * |kept|
      && forall k :: 0 <= k < |kept|
           ==> kept[k] in env && args[2 * k] == "--setenv" && args[2 * k + 1] == kept[k] + "=" + env[kept[k]]
  {
    if vars != [] {
      var n := |vars| - 1;
      var init, v := vars[..n], vars[n];
      var keep := v => v in env;
      SetenvPassSetVars(init, env);
      assert vars == init + [v];
      FilterAppend(init, [v], keep);
      var k0, a0 := Filter(init, keep), SetenvArgs(init, env);
      if v in env {
        var kept, args := k0 + [v], a0 + ["--setenv", v + "=" + env[v]];
        assert Filter(vars, keep) == kept && SetenvArgs(vars, env) == args;
        forall k | 0 <= k < |kept|
          ensures kept[k] in env && args[2 * k] == "--setenv" && args[2 * k + 1] == kept[k] + "=" + env[kept[k]]
        {
          if k < |k0| {
            assert args[2 * k] == a0[2 * k] && args[2 * k + 1] == a0[2 * k + 1];
          }
        }
      } else {
        assert Filter(vars, keep) == k0 + [];
        assert SetenvArgs(vars, env) == a0 + [];
      }
    }
  }

  /** A variable that is not set contributes nothing: unsetting it leaves the arguments
      as they are. */
  lemma {:induction false} UnsetVarIgnored(vars: seq<string>, env: map<string, string>, v: string)
    requires v !in env
    ensures SetenvArgs(vars + [v], env) == SetenvArgs(vars, env)
  {
    assert (vars + [v])[..|vars|] == vars;
  }
}
