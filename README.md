# workmux core, modelled in Dafny

workmux drives terminal multiplexers (tmux, zellij) to give each git worktree its own
window, and can run agent commands in a sandbox (a Docker/Podman container or a Lima
VM). This project models the text-processing and decision core of that program:

- the zellij backend: reading `list-clients`, `dump-layout` and `query-tab-names`,
  the live-pane reports, the `zellij action` invocations and the shell scripts it
  builds;
- the POSIX single-quote escape. It is shared by the zellij backend, the container
  wrapper and the Lima wrapper, and a reader for section 2.2.2 "Single-Quotes" of the
  POSIX.1-2017 Shell Command Language gives it a round-trip property;
- the Docker/Podman command line of `wrap_for_container`;
- the `workmux sandbox run '<dir>' -- sh -lc '<cmd>'` wrapper for Lima;
- the Lima instance decisions: the listing parser, the running checks,
  `get_or_create` and `stop_by_name`;
- the host-exec shim directory (`create_shim_directory`);
- the `close`, `list`, `sandbox run` and `set-window-status` commands.

There is one module per source file:

| module | file | source |
|---|---|---|
| `Zellij` | zellij.dfy | src/multiplexer/zellij.rs |
| `Container` | container.dfy | src/sandbox/container.rs |
| `LimaInstance` | lima_instance.dfy | src/sandbox/lima/instance.rs |
| `LimaWrap` | lima_wrap.dfy | src/sandbox/lima/wrap.rs |
| `LimaShims` | lima_shims.dfy | src/sandbox/lima/shims.rs |
| `CloseCommand` | close_command.dfy | src/command/close.rs |
| `ListCommand` | list_command.dfy | src/command/list.rs |
| `SandboxRun` | sandbox_run.dfy | src/command/sandbox_run.rs |
| `SetWindowStatus` | set_window_status.dfy | src/command/set_window_status.rs |

There are also shared modules:

- `Wrappers`: Option and Result.
- `Text`: Rust's `str::lines`, `split_whitespace`, `trim`, `find` and `join`, and
  decimal formatting.
- `Seqs`: order-preserving filtering.
- `Paths`: parent, grandparent and joining of `/`-separated paths.
- `ShellQuote`: the escape and the POSIX reader.

Every outside observation is a parameter. That covers:

- the standard output of a CLI call (`Result<string>`, where `Err` is a failed call);
- environment variables, the uid and gid, and the contents of the `.git` file;
- the loaded configuration, or the error loading it;
- the exit code of a child process.

Actions on the outside world are returned, in order, as a trace of effects or argument
lists. There are two exceptions, both changed in place by the source and so modelled as
classes: the shim directory, whose `entries` map the methods update, and the table of
`list`, whose header and rows `RemoveColumn` updates.

## Model

| member | source | states |
|---|---|---|
| Zellij.ListClients | src/multiplexer/zellij.rs:99-119 | A failed call propagates its error. Otherwise the header line is skipped and each later line with at least two whitespace-separated fields gives one client, in order. |
| Zellij.ParseRenderedRow | src/multiplexer/zellij.rs:104-117 | A list-clients row parses back to its second field as pane id, with the remaining words joined by single spaces as the running command. |
| Zellij.ListClientsReadsPrintedTable | src/multiplexer/zellij.rs:104-117 | Round trip: a header line followed by one printed row per client is read back as exactly those clients, in order. |
| Zellij.ClientRowsAppend | src/multiplexer/zellij.rs:105-117 | Rows are parsed independently: parsing a concatenation of rows concatenates the results. |
| Zellij.TabLineName | src/multiplexer/zellij.rs:82-90 | A line yields a name only when, trimmed, it starts with `tab ` and contains `focus=true`. The name contains no `"`. |
| Zellij.FirstFocusedTab | src/multiplexer/zellij.rs:81-94 | The loop returns the name from the first line that yields one, or None when no line does. |
| Zellij.FocusedTabName | src/multiplexer/zellij.rs:73-95 | A failed `dump-layout` gives None. Otherwise the result is the first focused tab's name in its output. |
| Zellij.FocusedTabLine | src/multiplexer/zellij.rs:79-90 | An indented `tab name="N" focus=true` line, where N has no quote, yields exactly N. |
| Zellij.CurrentCommand | src/multiplexer/zellij.rs:526-531 | The current command is "" or a single word with no whitespace. |
| Zellij.FirstWordOfCommand | src/multiplexer/zellij.rs:526-531 | For a command made of words joined by spaces, the current command is its first word, or "" when there are no words. |
| Zellij.FirstClient | src/multiplexer/zellij.rs:524-525 | Some exactly when a listed client shows the pane. It is then the first such client. |
| Zellij.GetLivePaneInfo | src/multiplexer/zellij.rs:517-545 | An error only when list-clients fails. Some exactly when a client shows the pane. Its report has the first such client's current command, pid 0, no working directory or title, and the session and focused tab. |
| Zellij.InsertPanes | src/multiplexer/zellij.rs:551-570 | Loop invariant: after the loop, the map holds what inserting the reports in list order gives. |
| Zellij.GetAllLivePaneInfo | src/multiplexer/zellij.rs:547-573 | An error only when list-clients fails. Otherwise the map of reports for the listed clients. |
| Zellij.ByPaneEntries | src/multiplexer/zellij.rs:551-570 | The map's keys are exactly the listed pane ids. Each maps to the report of the last client listing it. |
| Zellij.BatchMatchesSingle | src/multiplexer/zellij.rs:517-572 | Both queries see the same panes. A pane whose clients all report the same command gets the same report from both, so a pane listed once does too. |
| Zellij.AllWindowNames | src/multiplexer/zellij.rs:243-250 | Outside a session the result is the empty set. Inside a session it is the trimmed `query-tab-names` lines, or that query's error. |
| Zellij.WindowExistsByFullName | src/multiplexer/zellij.rs:230-237 | False outside a session. Inside a session it says whether the name is an open tab. A failed query is an error. |
| Zellij.FilterActiveWindows | src/multiplexer/zellij.rs:252-259 | Each kept name is an input name that is an open tab, and every input name that is open is kept. A failed query is an error. |
| Zellij.FilterActiveWindowsOrder | src/multiplexer/zellij.rs:254-258 | The result is a subsequence of the input, and each open name occurs in it as often as in the input. |
| Zellij.CurrentPaneId | src/multiplexer/zellij.rs:57-61 | Some exactly when ZELLIJ_PANE_ID is set. The id is `terminal_` followed by its value. |
| Zellij.InstanceId | src/multiplexer/zellij.rs:156-158 | The session name, or "default" outside a named session. |
| Zellij.IsRunning | src/multiplexer/zellij.rs:129-137 | Inside a session the result is true. Outside one it is the outcome of the `dump-screen` check. |
| Zellij.Argv | src/multiplexer/zellij.rs:162-513 | The arguments of the `zellij action` call for each action the backend takes. The tab and delivery lemmas below are stated over these actions. |
| Zellij.SendKeyDelivers | src/multiplexer/zellij.rs:386-407 | One action. `Enter`, `Escape` and `Tab` go through `write` and deliver carriage return, escape and tab. Any other key goes through `write-chars` verbatim. |
| Zellij.SendKey | src/multiplexer/zellij.rs:386-407 | One `write` of code 13, 27 or 9 for `Enter`, `Escape` and `Tab`; one `write-chars` of the key otherwise. What the pane receives is stated by SendKeyDelivers. |
| Zellij.SendKeys | src/multiplexer/zellij.rs:346-359 | `write-chars` of the command, then `write 13`. SendKeysToAgentDelivers states that the pane receives the command and a carriage return. |
| Zellij.SendKeysToAgent | src/multiplexer/zellij.rs:361-384 | For an agent that needs it, a leading `!` is written alone, followed by a 50 ms pause, the rest and Enter; otherwise `send_keys`. SendKeysToAgentDelivers states that both paths deliver the same text. |
| Zellij.SendKeysToAgentDelivers | src/multiplexer/zellij.rs:346-384 | Both the plain path and the `!` + 50 ms pause path deliver the command followed by a carriage return. |
| Zellij.PasteMultiline | src/multiplexer/zellij.rs:409-418 | Loop invariant: the trace is, for each line of the content, the line and then Enter. |
| Zellij.PasteDelivers | src/multiplexer/zellij.rs:411-416 | Pasting delivers each line, ended by a carriage return, in order. |
| Zellij.PasteTrace | src/multiplexer/zellij.rs:409-418 | The trace for a list of lines: each line written, then Enter. PasteMultiline is proved to build it and PasteDelivers states what the pane receives. |
| Zellij.CreateWindow | src/multiplexer/zellij.rs:162-183 | The returned name is prefix + name. Whatever tabs were open, running the trace opens that tab and leaves it focused. |
| Zellij.KillWindowCloses | src/multiplexer/zellij.rs:185-197 | Killing an open tab closes exactly that tab, whichever tab had the focus. |
| Zellij.KillWindow | src/multiplexer/zellij.rs:185-197 | Focus the tab by name, then `close-tab`. KillWindowCloses states its effect on the open tabs. |
| Zellij.SelectWindowFocuses | src/multiplexer/zellij.rs:216-223 | Selecting an open tab focuses prefix + name and closes nothing. |
| Zellij.SelectWindow | src/multiplexer/zellij.rs:216-223 | `go-to-tab-name` of prefix + name. SelectWindowFocuses states its effect on the open tabs. |
| Zellij.CdCommandQuotesPath | src/multiplexer/zellij.rs:305 | The `cd` line is `cd ` followed by the quoted directory, which reads back as the directory. |
| Zellij.CdCommand | src/multiplexer/zellij.rs:305 | The `cd` line with the directory escaped inside single quotes. CdCommandQuotesPath states that it reads back. |
| Zellij.CdThenCommand | src/multiplexer/zellij.rs:304-320 | The keystrokes both pane operations type: the `cd` line and Enter, then the command and Enter when there is one. |
| Zellij.CdThenCommandDelivers | src/multiplexer/zellij.rs:298-323 | The pane receives the `cd` line and then the command, each ended by a carriage return. |
| Zellij.RespawnPane | src/multiplexer/zellij.rs:298-323 | The `cd` and command keystrokes typed into the focused pane, and the environment's pane id or `terminal_0`. CdThenCommandDelivers states what the pane receives. |
| Zellij.SplitPaneDelivers | src/multiplexer/zellij.rs:460-513 | A split types the same text into the new pane as a respawn types into the focused one. |
| Zellij.SplitPane | src/multiplexer/zellij.rs:460-513 | A `new-pane` to the right (horizontal) or below (vertical) in the directory, the same keystrokes as a respawn, and the environment's pane id or `terminal_<pid>`. |
| Zellij.ScheduleWindowCloseQuotesName | src/multiplexer/zellij.rs:199-214 | The `sh -c` command sleeps, then names the tab as one quoted word that reads back as the name. |
| Zellij.ScheduleWindowClose | src/multiplexer/zellij.rs:199-214 | The `sh -c` arguments: sleep the whole seconds of the delay, focus the tab, close it. ScheduleWindowCloseQuotesName states that the name is one word. |
| Zellij.DetachedReadsBack | src/multiplexer/zellij.rs:575-593 | The deferred command is `nohup sh -c` followed by the script as one quoted word that reads back as the script. |
| Zellij.RunDeferredScript | src/multiplexer/zellij.rs:575-593 | The `sh -c` arguments that run the script detached. DetachedReadsBack states that the script is passed as one word. |
| Zellij.ShellTabCommandsQuoteName | src/multiplexer/zellij.rs:595-616 | Both snippets name the tab by one quoted word that reads back as the name. The kill snippet focuses the tab before `close-tab`. |
| Zellij.ShellSelectWindowCmd | src/multiplexer/zellij.rs:595-604 | The quiet `go-to-tab-name` snippet for the quoted name. ShellTabCommandsQuoteName states its properties. |
| Zellij.ShellKillWindowCmd | src/multiplexer/zellij.rs:606-616 | The quiet focus snippet, then the quiet `close-tab`. ShellTabCommandsQuoteName states its properties. |
| Zellij.ScheduleCleanupAndClose | src/multiplexer/zellij.rs:618-670 | The `push_str` sequence builds the rendering of the cleanup steps, detached via `nohup sh -c`. |
| Zellij.CleanupClosesSource | src/multiplexer/zellij.rs:633-650 | Whatever tab had the focus, and whether or not a target is given, the steps close the source tab and no other. |
| Zellij.RenderCleanupTrace | src/multiplexer/zellij.rs:633-650 | The script is the sleep, the go-to of the target when there is one, the go-to of the source, then `close-tab`, in that order. |
| Zellij.CleanupScriptShape | src/multiplexer/zellij.rs:633-655 | The script starts with the sleep. A non-empty cleanup script is appended after a blank; an empty one adds nothing. |
| Zellij.CleanupScript | src/multiplexer/zellij.rs:633-655 | The rendered cleanup steps, then the cleanup script after a blank when it is not empty. CleanupScriptShape, RenderCleanupTrace and CleanupClosesSource state what it does. |
| ShellQuote.EscapeCounts | src/sandbox/lima/wrap.rs:9-11 | Escaping turns each `'` into three quotes and a backslash, and adds or removes no other character. |
| ShellQuote.EscapeIdentity | src/sandbox/lima/wrap.rs:52-79 | A string without `'` is its own escape, including `$`, `$(...)`, `&` and blanks. |
| ShellQuote.EscapeAppend | src/sandbox/lima/wrap.rs:9-11 | The escape works character by character: escaping a concatenation concatenates the escapes. |
| ShellQuote.Escape | src/sandbox/lima/wrap.rs:9-11 | Each `'` becomes `'\''`, character by character. EscapeCounts, EscapeIdentity and EscapeAppend state its properties. |
| ShellQuote.UnquoteQuote | src/sandbox/lima/wrap.rs:8-11 | Round trip: reading `'` + escape(s) + `'` as a shell word gives back s. |
| ShellQuote.QuoteInjective | src/sandbox/lima/wrap.rs:8-11 | Quoting never maps two different strings to the same word. |
| ShellQuote.Quote | src/multiplexer/zellij.rs:576-578 | The escape between single quotes, as the `shell_escape` helpers of zellij.rs and the formats of wrap.rs and container.rs build it. UnquoteQuote and QuoteInjective state its properties. |
| ShellQuote.BlankIsNotWord | src/sandbox/lima/wrap.rs:75-79 | An unquoted path with a blank is not one shell word, which is why paths are quoted. |
| LimaWrap.WrapForLima | src/sandbox/lima/wrap.rs:30-44 | The result is always Ok. It is `workmux sandbox run ` followed by the quoted directory, ` -- sh -lc ` and the quoted command. |
| LimaWrap.WrapForLimaWords | src/sandbox/lima/wrap.rs:104-119 | The output starts with `workmux sandbox run`, then has the quoted directory, `-- sh -lc` and the quoted command. The two words read back as the directory and the command. |
| LimaWrap.PathAppearsQuoted | src/sandbox/lima/wrap.rs:121-135 | The working directory appears wrapped in single quotes. |
| LimaWrap.CommandEscapeCounts | src/sandbox/lima/wrap.rs:137-167 | A command without quotes appears verbatim between quotes. The escaped command is three characters longer per quote. |
| Container.WrapForContainer | src/sandbox/container.rs:107-219 | Without an image the result is exactly the missing-image error. Otherwise it is the argument list, in push order, joined by single spaces. |
| Container.PushGitMount | src/sandbox/container.rs:150-169 | The nested if-lets append exactly the git mounts of the `.git` file. |
| Container.MainGitDir | src/sandbox/container.rs:150-159 | The main `.git` directory exists only for a `.git` file that starts with `gitdir: `. GitMountRule states which directory it is. |
| Container.PushHead | src/sandbox/container.rs:130-145 | The pushes of the runtime, `run --rm -it`, the user mapping and the mirror mount build Head, whose layout ArgsStart states. |
| Container.PushWorkdir | src/sandbox/container.rs:171-177 | The pushes append `--workdir`, the pane directory, `--env` and `HOME=/tmp`. |
| Container.PushConfigMounts | src/sandbox/container.rs:179-195 | The nested ifs append the mounts of the configuration file and directory that exist. |
| Container.PushTail | src/sandbox/container.rs:205-216 | The pushes of PATH, the image and `sh -c` with the quoted command build Tail, whose words ArgsEnd states. |
| Container.PushEnv | src/sandbox/container.rs:198-203 | Loop invariant: the loop appends `--env VAR` for the set passthrough variables. |
| Container.ArgsStart | src/sandbox/container.rs:113-145 | The line starts `<docker\|podman> run --rm -it --user UID:GID`, then mirror-mounts the worktree root. |
| Container.MissingImageSaysNoImage | src/sandbox/container.rs:118-120 | The missing-image error contains "no image". |
| Container.GitMountRule | src/sandbox/container.rs:150-169 | For a `.git` file `gitdir: <rest>`: exactly one extra mount, of the grandparent of the trimmed rest, when it has one, and no extra mount otherwise. |
| Container.NoGitdirNoMount | src/sandbox/container.rs:151-155 | No `.git` file, or one that does not start with `gitdir: `, adds no mount. |
| Container.WorktreeGitFileMountsMain | src/sandbox/container.rs:154-159 | The file git writes, `gitdir: <main>/worktrees/<name>` and a newline, mounts `<main>`. |
| Container.ArgsWorkdir | src/sandbox/container.rs:171-177 | `--workdir` is the pane's directory, which need not be the root, followed by `--env HOME=/tmp`. |
| Container.EnvArgsPassSetVars | src/sandbox/container.rs:197-203 | `--env VAR` appears for exactly the set passthrough variables, in configuration order. |
| Container.EnvArgs | src/sandbox/container.rs:197-203 | `--env VAR` for each set passthrough variable. EnvArgsPassSetVars states which ones and in what order. |
| Container.ConfigMounts | src/sandbox/container.rs:179-195 | A mount of the configuration file at `/tmp/.claude.json` and of the directory at `/tmp/.claude`, each only when it exists. |
| Container.ContainerArgs | src/sandbox/container.rs:128-216 | The argument list in push order. WrapForContainer is proved to join it, and ArgsStart, GitMountRule, ArgsWorkdir, EnvArgsPassSetVars and ArgsEnd state its parts. |
| Container.ArgsEnd | src/sandbox/container.rs:205-218 | The line ends with the PATH variable, the image, `sh -c` and the quoted command. The last word reads back as the command. |
| LimaInstance.ParseLimaInstances | src/sandbox/lima/instance.rs:26-35 | Non-UTF-8 output fails. Otherwise there is one record per non-blank line, in order, and the whole parse fails when any such line is not a record. |
| LimaInstance.InstanceInfo.IsRunning | src/sandbox/lima/instance.rs:20-22 | A record is running exactly when its status is "Running". |
| LimaInstance.ParseRows | src/sandbox/lima/instance.rs:30-34 | Ok exactly when every row parses, with the records in row order. An error names a row that fails. |
| LimaInstance.BlankLinesIgnored | src/sandbox/lima/instance.rs:28-29 | A whitespace-only line, wherever it is, does not change the result. |
| LimaInstance.FirstBadRowReported | src/sandbox/lima/instance.rs:30-34 | The error names the first line that is not a record. |
| LimaInstance.Create | src/sandbox/lima/instance.rs:110-117 | Fails exactly when the configuration cannot be written. Otherwise the instance records the given name. |
| LimaInstance.ConfigPath | src/sandbox/lima/instance.rs:112 | The temporary directory joined with `workmux-lima-<name>.yaml` as `Path::join` does: one `/` between them, none added when the directory already ends with `/`. |
| LimaInstance.IsRunning | src/sandbox/lima/instance.rs:159-175 | A failed or unsuccessful `limactl list` is an error, and so is output that cannot be parsed. A successful listing that parses gives Ok, true exactly when some record has the name and status "Running". |
| LimaInstance.RunningIsListed | src/sandbox/lima/instance.rs:172-174 | A running instance is a listed one. |
| LimaInstance.GetOrCreate | src/sandbox/lima/instance.rs:252-281 | A failed configuration write is an error with no call. A first listing that cannot be run, fails or cannot be read is an error after that one list. Running means one list and nothing else; listed but stopped means only `start`; not listed, or a second listing that fails, means `create_and_start`; a second listing that cannot be run or read is an error after the two lists. `start`, which omits the configuration file, is used only for a listed VM. |
| LimaInstance.StartOrCreate | src/sandbox/lima/instance.rs:260-280 | After the VM is found not running, the second listing decides between `start` and `create_and_start`. A listing that cannot be run or read calls neither. |
| LimaInstance.Argv | src/sandbox/lima/instance.rs:119-187 | The `limactl` arguments of each call: `list --json`, `start` of a listed VM without its file, `start --name` from the file, `stop` and `shell`. |
| LimaInstance.BranchesCover | src/sandbox/lima/instance.rs:267-279 | "Listed" and "not listed" exclude each other and, apart from listing errors, cover every case. |
| LimaInstance.StopByName | src/sandbox/lima/instance.rs:228-246 | A stop that cannot be run is an error. Otherwise success exactly when the stop succeeds or its stderr contains "not running", so stopping a VM that is already stopped succeeds. |
| LimaShims.WriteDispatcher | src/sandbox/lima/shims.rs:26-39 | `_shim` becomes the dispatcher text with mode 0755. Writing through a link at `_shim` fails. |
| LimaShims.ShimDir.LinkCommands | src/sandbox/lima/shims.rs:42-58 | Loop invariant: the directory is the links made for the commands so far. |
| LimaShims.ShimDir.CreateShimDirectory | src/sandbox/lima/shims.rs:21-61 | Fails exactly when a link stands at `_shim`, and then changes nothing. Otherwise it returns `<state_dir>/shims/bin`, writes the dispatcher and links every accepted name. |
| LimaShims.ShimPath | src/sandbox/lima/shims.rs:22 | The returned path is `<state_dir>/shims/bin`. |
| LimaShims.DispatcherKept | src/sandbox/lima/shims.rs:27-39 | After a run, `_shim` is the executable dispatcher script. |
| LimaShims.CreateLinksCommands | src/sandbox/lima/shims.rs:44-57 | Every accepted name is a link to `_shim`. No temporary `.<cmd>.tmp` of one remains. Refused names leave every other entry alone. |
| LimaShims.LinksAt | src/sandbox/lima/shims.rs:42-58 | The same three facts, entry by entry, for the loop alone. |
| LimaShims.CreateTwice | src/sandbox/lima/shims.rs:99-108 | Idempotence: a second run succeeds and leaves the directory exactly as the first left it. |
| LimaShims.ShimDir.CreateShimDirectoryAsWritten | src/sandbox/lima/shims.rs:44-47 | The same run with the source's own name check. |
| LimaShims.SourceAccepts | src/sandbox/lima/shims.rs:44-47 | The source's name check: no `/`, no `\`, not empty. The Findings rows show what it lets through. |
| LimaShims.Accepts | src/sandbox/lima/shims.rs:44-47 | The corrected check, which also refuses `_shim` and names starting with `.`. DispatcherKept, CreateLinksCommands and CreateTwice are proved for it. |
| LimaShims.SelfLinkReplacesDispatcher | src/sandbox/lima/shims.rs:44-57 | With the source's check, a command `_shim` replaces the dispatcher by a link to itself. |
| LimaShims.SelfLinkBreaksLaterRuns | src/sandbox/lima/shims.rs:28-32 | After that, every later run fails when it writes the dispatcher. |
| LimaShims.TmpCollisionLosesLink | src/sandbox/lima/shims.rs:52-57 | With the source's check, commands `.a.tmp` then `a` leave the accepted `.a.tmp` without a link. |
| LimaShims.LinksAgree | src/sandbox/lima/shims.rs:42-58 | When no configured name is `_shim` or starts with `.`, the loop with the source's check leaves the same directory as the loop with the corrected check. |
| LimaShims.AsWrittenOnOrdinaryNames | src/sandbox/lima/shims.rs:21-61 | On such names the source as written keeps the dispatcher executable, links every accepted name to `_shim`, and a second run succeeds and changes nothing. |
| LimaShims.SourceTestInputs | src/sandbox/lima/shims.rs:67-108 | On the inputs of the source's tests, `just`, `cargo` and `npm` are all linked and a rerun changes nothing; of `valid`, `/bin/evil` and the empty name only `valid` is linked. |
| CloseCommand.GetWorktreeTarget | src/command/close.rs:8-13 | Session exactly when the metadata is "session". Missing or other values give Window. |
| CloseCommand.ResolveTarget | src/command/close.rs:31-67 | An explicit name that is no worktree is an error. Otherwise the target is prefix + name, current exactly when it is the current window. Without a name, a current window with the prefix is used as is and is current; otherwise the target is prefix + resolved handle and is not current. |
| CloseCommand.Run | src/command/close.rs:15-105 | Configuration and resolution errors propagate with no effects. A target that is not open gives the "No active" error with no effects. Otherwise the effects are the container stop and the closing call, and the result is that call's outcome. |
| CloseCommand.OneCloseCall | src/command/close.rs:91-102 | Exactly one closing call, and it is the last: a schedule with a 100 ms delay when the target is current, a kill otherwise. |
| CloseCommand.CloseEffects | src/command/close.rs:84-102 | The container stop for the handle the prefix leaves, then a schedule of the current window or a kill of another. OneCloseCall and StopsPrefixedHandle state its properties. |
| CloseCommand.StopsPrefixedHandle | src/command/close.rs:87-89 | Containers are stopped exactly when the target carries the prefix, for the handle the prefix leaves. |
| CloseCommand.ExplicitNameStopsItsContainers | src/command/close.rs:40-50 | Closing by name stops the containers of that very worktree. |
| CloseCommand.CurrentWindowScheduled | src/command/close.rs:53-57 | Without a name, a current window with the prefix has its containers stopped and is closed by scheduling. |
| CloseCommand.NotFoundNamesHandle | src/command/close.rs:33-39 | The missing-worktree error quotes the name and mentions 'workmux list'. |
| CloseCommand.NoActiveNamesTarget | src/command/close.rs:75-81 | The "No active" error quotes the target and names the kind looked for. |
| CloseCommand.TargetTypeNamesMode | src/command/close.rs:69 | The kind named is "session" exactly in session mode. |
| CloseCommand.TargetType | src/command/close.rs:69 | "session" in session mode, "window" otherwise. |
| SandboxRun.Run | src/command/sandbox_run.rs:24-95 | An empty command is an error before any other step. Configuration, VM and port errors follow in source order, with no arguments built. Otherwise `limactl` gets the argument list, and the exit code is the child's code, 1 without one, or the spawn error. |
| SandboxRun.BuildArgs | src/command/sandbox_run.rs:59-82 | The successive `arg`/`args` calls build the argument list. |
| SandboxRun.PushSetenv | src/command/sandbox_run.rs:63-67 | Loop invariant: the loop appends the setenvs of the set passthrough variables. |
| SandboxRun.PushCommand | src/command/sandbox_run.rs:79-82 | Loop invariant: the loop appends the command's arguments verbatim. |
| SandboxRun.PushGuestEnv | src/command/sandbox_run.rs:70-73 | The four `args` calls append GuestEnv. |
| SandboxRun.LimaArgs | src/command/sandbox_run.rs:59-82 | `shell <vm>`, the passthrough setenvs, the guest setenvs, `--workdir <worktree> --` and the command. ArgsLayout states the layout. |
| SandboxRun.SetenvArgs | src/command/sandbox_run.rs:63-67 | `--setenv VAR=value` for each set passthrough variable. SetenvPassSetVars and UnsetVarIgnored state which ones and in what order. |
| SandboxRun.GuestEnv | src/command/sandbox_run.rs:70-73 | The four guest setenvs. GuestEnvValues states their values. |
| SandboxRun.ArgsLayout | src/command/sandbox_run.rs:59-82 | The layout is `shell <vm>`, the passthrough setenvs, the four guest setenvs, `--workdir <worktree> --`, then the command verbatim and in order. |
| SandboxRun.GuestEnvValues | src/command/sandbox_run.rs:70-73 | The guest variables, in fixed order, are SANDBOX_GUEST=1, RPC_HOST, RPC_PORT and RPC_TOKEN. The port reads back as the bound number. |
| SandboxRun.SetenvPassSetVars | src/command/sandbox_run.rs:63-67 | `--setenv VAR=value` appears for exactly the set passthrough variables, in configuration order, with their values. |
| SandboxRun.UnsetVarIgnored | src/command/sandbox_run.rs:64 | A variable that is not set adds nothing. |
| ListCommand.FormatPrStatus | src/command/list.rs:23-38 | `-` exactly without a PR. Otherwise the text starts with `#`. |
| ListCommand.PrStatusNumber | src/command/list.rs:35 | The text is `#`, the PR number (which reads back), a blank, the colour, the icon and the reset. |
| ListCommand.StylesDistinguishStates | src/command/list.rs:28-32 | Draft, open, merged and closed get four different icons. |
| ListCommand.UnknownStateShownOpen | src/command/list.rs:33 | Any other state is styled as open. |
| ListCommand.StyleOf | src/command/list.rs:28-34 | The icon and colour of each PR state, an open draft first. StylesDistinguishStates and UnknownStateShownOpen state its properties. |
| ListCommand.PathStr | src/command/list.rs:54-63 | An empty or `.` relative path shows as "(here)". Another relative path shows as is. A failed diff shows the absolute path. |
| ListCommand.RowMarkers | src/command/list.rs:65-79 | ✓ exactly with a window and ● exactly with unmerged commits, `-` otherwise, and the PR cell is `-` exactly without a PR. |
| ListCommand.MakeRow | src/command/list.rs:51-80 | The cells of one worktree's row. RowMarkers and PathStr state what each cell shows. |
| ListCommand.Table.RemoveColumn | src/command/list.rs:89-91 | The column is removed from the header and from every row, and a rectangular table stays rectangular. |
| ListCommand.Run | src/command/list.rs:40-96 | Loading errors propagate. No worktrees gives "No worktrees found" and no table. Otherwise the listing of the worktrees. |
| ListCommand.ListingColumns | src/command/list.rs:51-91 | Rows follow worktree order. With `--pr` there are five columns; without it the PR column is gone from the header and from every row. |
| ListCommand.ListingOf | src/command/list.rs:44-91 | No worktrees, or the table of their rows with the PR column removed unless `--pr` is given. ListingColumns states its shape. |
| SetWindowStatus.Run | src/command/set_window_status.rs:20-55 | A loading error propagates. With no current pane the result is Ok with no effects. Otherwise the effects are the status calls, and the result is the `set_status` or `clear_status` outcome. |
| SetWindowStatus.FormatRule | src/command/set_window_status.rs:29-33 | The status format is applied exactly when `status_format` is not false and the command is not `clear`, and then first. |
| SetWindowStatus.DoneStackRule | src/command/set_window_status.rs:35-52 | `done` pushes the pane onto the done stack. Every other command pops it. Exactly one of the two happens, just before the status call. |
| SetWindowStatus.StatusCallRule | src/command/set_window_status.rs:36-51 | Working, waiting and done set their own icon with auto-clear. Clear clears the status and never sets one. Every call is for the current pane. |
| SetWindowStatus.StatusEffects | src/command/set_window_status.rs:29-52 | The calls for one pane, in order. FormatRule, DoneStackRule and StatusCallRule state each part. |

## Left out

- I/O and processes are left out: spawning `zellij`, `limactl`, `docker`/`podman` and
  `sh`, and streaming their output (`stream_command`). Each call's outcome is a
  parameter, and whether an action takes effect is outside the model.
- The RPC server, its acceptor thread and token generation in `sandbox run` are
  parameters: the port binding outcome and the token.
- Delays are not waited for: the 50 ms bang delay is a `Pause` entry in the trace, and
  the 100 ms close delay is a recorded value. `wait_until_windows_closed`, which polls
  with sleeps, is not part of this model.
- `capture_pane` and its temporary file are not part of this model.
- The `{:.1}` formatting of a floating-point delay is modelled as a whole number of
  tenths of a second, because floating point is outside the model.
- `schedule_window_close` formats whole seconds, modelled as milliseconds `/ 1000`.
- JSON decoding of a `limactl list` row is an abstract `RowParser` parameter, because
  serde is a foreign library.
- `pathdiff::diff_paths` is a parameter `diff`. `tabled`'s padding, borders and the
  printing of the table are left out: the model stops at the header and cells.
- `util::prefixed` (src/multiplexer/util.rs) is not part of this model. It is taken to
  be concatenation, as the zellij backend builds full names.
- `tmux::push_done_pane` and `tmux::pop_done_pane` are not part of this model. Their
  calls are recorded as `PushDone` and `PopDone` effects.
- The backend's `set_status`, `clear_status` and `ensure_status_format` are given as
  outcomes.
- The focused tab in live-pane reports is one `dump-layout` snapshot. The source reads
  it again for each client.
- The zellij environment variables are parameters: `ZELLIJ` (whether we are inside a
  session) is a boolean, and `ZELLIJ_SESSION_NAME` and `ZELLIJ_PANE_ID` are optional
  strings.
- Zellij tab effects (`Tabs`): a reference reading of `go-to-tab-name`, `close-tab` and
  `new-tab`, used for stating what traces achieve. Zellij's own behaviour is assumed,
  not modelled.
- A failing `zellij action` in the middle of a trace is not modelled. The traces are
  those of the success path, because the source propagates the first failure and
  stops.
- LimaShims.ShimDir.CreateShimDirectory: failures of `create_dir_all`, `symlink`,
  `rename` and `set_permissions` that come from the host (permissions, a full disk) are
  not modelled. Only the dispatcher write through a link at `_shim` fails, because the
  self-link is the only link this code leaves there.
- LimaShims.ShimDir.CreateShimDirectoryAsWritten: the source's check also accepts the
  names `.` and `..`. For them the source renames `..tmp` or `...tmp` onto the
  directory itself, which `rename` refuses, so the whole call fails and leaves that
  temporary link behind. The as-written model records an entry named `.` or `..`
  instead and succeeds. The corrected `Accepts` refuses both names.
- LimaShims.ShimDir.LinkCommands: the model is sequential. Concurrent supervisors sharing
  the directory, which the source means to be safe, are not modelled; two interleaved
  runs can make `symlink` or `rename` fail.
- Container.EnvArgs and SandboxRun.SetenvArgs: the set variables and the `env` map hold
  only the variables that `std::env::var` reads successfully. A variable whose value is
  not valid Unicode counts as unset there, as in the source.
- Messages are left out: the `✓ Closed` line of `close`, the `tracing` logs of
  `sandbox run` and of the zellij backend, and the warning for a skipped shim name.
- The detached `sh` spawns of `run_deferred_script` and `schedule_cleanup_and_close`
  also run from `/` with `ZELLIJ_PANE_ID` removed from their environment. Only their
  arguments are modelled.
- Paths are strings. `Paths.Parent` handles trailing `/` but not repeated `/` or `.`
  components of `Path::ancestors`. The non-UTF-8 path errors of `create_window`,
  `respawn_pane` and `split_pane` are not modelled.
- `Text.Lines` follows the current `str::lines`: split after `\n`, then drop one `\r`
  before it. A lone `\r` ending an unterminated last line is kept.
- Whitespace is Unicode White_Space, as in `char::is_whitespace`.
- `run_auth`, `ensure_sandbox_config_dirs`, `stop_containers_for_handle`, and the
  existence checks of the sandbox configuration paths are not modelled. The existence
  checks are parameters.
- LimaInstance.Create: the file's contents and the temporary directory are
  parameters. Only whether the write succeeded is modelled.
- `LimaInstance::shell`, `stop` and `is_lima_available` are not part of this model
  beyond their argument lists (`LimaInstance.Argv`).

## Findings

| source | as written | input that shows it | evidently intended | confidence | as-written member | corrected member |
|---|---|---|---|---|---|---|
| src/sandbox/lima/shims.rs:44-47 | The name check accepts any non-empty name without `/` or `\`, including the dispatcher's own name `_shim`. | commands `["_shim"]`: the rename puts a self-link at `_shim`, replacing the dispatcher, and every later run fails writing the dispatcher | refuse `_shim` as a command name, so that the dispatcher survives and reruns succeed | not executed | LimaShims.ShimDir.CreateShimDirectoryAsWritten, LimaShims.SelfLinkReplacesDispatcher, LimaShims.SelfLinkBreaksLaterRuns | LimaShims.ShimDir.CreateShimDirectory, LimaShims.DispatcherKept, LimaShims.CreateTwice |
| src/sandbox/lima/shims.rs:44-57 | A name starting with `.` can equal another command's temporary name `.<cmd>.tmp`, which that command removes. | commands `[".a.tmp", "a"]`: the link `.a.tmp` is created, then removed as `a`'s stale temporary link | refuse names starting with `.`, so that every accepted name ends up linked | not executed | LimaShims.ShimDir.CreateShimDirectoryAsWritten, LimaShims.TmpCollisionLosesLink | LimaShims.ShimDir.CreateShimDirectory, LimaShims.CreateLinksCommands |
