/** Host-exec shims (src/sandbox/lima/shims.rs): a directory holding a dispatcher script
    `_shim` and, for each configured command name, a symbolic link to it named after the
    command. The directory is a map from entry name to entry, changed in place by the
    same file-system steps as the source. */
module LimaShims {
  import opened Wrappers
  import opened Text
  import opened Paths

  /** A directory entry: a regular file with its content and permission bits, or a
      symbolic link with its target. */
  datatype Entry = File(content: string, mode: nat) | Symlink(target: string)

  const DispatcherName := "_shim"
  const Dispatcher := "#!/bin/sh\nexec workmux host-exec \"$(basename \"$0\")\" \"$@\"\n"
  /** 0o755. */
  const ExecMode: nat := 493
  const ShimSubdir := "shims/bin"

  /** The name check the source applies: no `/`, no `\`, not empty. */
  predicate SourceAccepts(cmd: string)
  {
    '/' !in cmd && '\\' !in cmd && cmd != []
  }

  /** The corrected check: also refuses the dispatcher's own name and names that start
      with `.`, which could be another command's temporary link. */
  predicate Accepts(cmd: string)
  {
    SourceAccepts(cmd) && cmd != DispatcherName && cmd[0] != '.'
  }

  /** `.<cmd>.tmp`: the temporary link that is renamed onto `<cmd>`. */
  function TmpName(cmd: string): string
  {
    "." + cmd + ".tmp"
  }

  /** Writing the dispatcher: `fs::write` follows a link standing at `_shim`, and the only
      link this code leaves there points to itself, so the write fails; otherwise the
      file is (re)written and made executable. */
  function WriteDispatcher(e: map<string, Entry>): (r: Result<map<string, Entry>>)
    ensures r.Err? <==> DispatcherName in e && e[DispatcherName].Symlink?
    ensures r.Ok? ==> r.value == e[DispatcherName := File(Dispatcher, ExecMode)]
  {
    if DispatcherName in e && e[DispatcherName].Symlink? then Err("Failed to write shim dispatcher")
    else Ok(e[DispatcherName := File(Dispatcher, ExecMode)])
  }

  /** One accepted command: remove any stale temporary link, link it to `_shim`, and rename
      it onto the command's name. */
  function LinkStep(e: map<string, Entry>, cmd: string): map<string, Entry>
  {
    (e - {TmpName(cmd)})[cmd := Symlink(DispatcherName)]
  }

  /** The directory after the loop over `commands`, skipping those `accept` refuses. */
  function Links(e: map<string, Entry>, commands: seq<string>, accept: string -> bool): map<string, Entry>
  {
    if commands == [] then e
    else
      var before := Links(e, commands[..|commands| - 1], accept);
      var cmd := commands[|commands| - 1];
      if accept(cmd) then LinkStep(before, cmd) else before
  }

  /** The directory after a successful run. */
  function AfterCreate(e: map<string, Entry>, commands: seq<string>, accept: string -> bool): map<string, Entry>
  {
    Links(e[DispatcherName := File(Dispatcher, ExecMode)], commands, accept)
  }

  class ShimDir {
    /** The entries of `<state_dir>/shims/bin`. */
    var entries: map<string, Entry>

    constructor(initial: map<string, Entry>)
      ensures entries == initial
    {
      entries := initial;
    }

    /** `fs::remove_file`, its error ignored. */
    method RemoveFile(name: string)
      modifies this
      ensures entries == old(entries) - {name}
    {
      entries := entries - {name};
    }

    /** `symlink(target, name)` where nothing is named `name`. */
    method MakeSymlink(target: string, name: string)
      requires name !in entries
      modifies this
      ensures entries == old(entries)[name := Symlink(target)]
    {
      entries := entries[name := Symlink(target)];
    }

    /** `fs::rename`, which replaces what stands at `to`. */
    method Rename(from: string, to: string)
      requires from in entries && from != to
      modifies this
      ensures entries == (old(entries) - {from})[to := old(entries)[from]]
    {
      entries := (entries - {from})[to := entries[from]];
    }

    /** The loop over the configured commands. */
    method LinkCommands(commands: seq<string>, accept: string -> bool)
      modifies this
      ensures entries == Links(old(entries), commands, accept)
    {
      ghost var start := entries;
      for i := 0 to |commands|
        invariant entries == Links(start, commands[..i], accept)
      {
        assert commands[..i + 1][..i] == commands[..i];
        var cmd := commands[i];
        if !accept(cmd) {
          continue;
        }
        var tmp := TmpName(cmd);
        assert |tmp| == |cmd| + 5;
        RemoveFile(tmp);
        MakeSymlink(DispatcherName, tmp);
        Rename(tmp, cmd);
        assert entries == LinkStep(Links(start, commands[..i], accept), cmd);
      }
      assert commands[..|commands|] == commands;
    }

    /** `create_shim_directory` with the corrected name check. */
    method CreateShimDirectory(stateDir: string, commands: seq<string>) returns (r: Result<string>)
      modifies this
      ensures r.Err? <==> DispatcherName in old(entries) && old(entries)[DispatcherName].Symlink?
      ensures r.Err? ==> entries == old(entries)
      ensures r.Ok? ==> r.value == JoinPath(stateDir, ShimSubdir) && entries == AfterCreate(old(entries), commands, Accepts)
    {
      var written := WriteDispatcher(entries);
      if written.Err? {
        return Err(written.error);
      }
      entries := written.value;
      LinkCommands(commands, Accepts);
      return Ok(JoinPath(stateDir, ShimSubdir));
    }

    /** `create_shim_directory` as written, with the source's name check. */
    method CreateShimDirectoryAsWritten(stateDir: string, commands: seq<string>) returns (r: Result<string>)
      modifies this
      ensures r.Err? <==> DispatcherName in old(entries) && old(entries)[DispatcherName].Symlink?
      ensures r.Err? ==> entries == old(entries)
      ensures r.Ok? ==> r.value == JoinPath(stateDir, ShimSubdir) && entries == AfterCreate(old(entries), commands, SourceAccepts)
    {
      var written := WriteDispatcher(entries);
      if written.Err? {
        return Err(written.error);
      }
      entries := written.value;
      LinkCommands(commands, SourceAccepts);
      return Ok(JoinPath(stateDir, ShimSubdir));
    }
  }

  // ---------------------------------------------------------------------------
  // What the directory holds afterwards

  /** `k` is a command the corrected check accepts. */
  predicate LinkedName(k: string, commands: seq<string>)
  {
    k in commands && Accepts(k)
  }

  /** `k` is the temporary name of an accepted command. */
  predicate TmpOfAccepted(k: string, commands: seq<string>)
  {
    exists c :: c in commands && Accepts(c) && k == TmpName(c)
  }

  /** A temporary name starts with `.`, so it is never an accepted command. */
  lemma TmpNotAccepted(c: string)
    ensures !Accepts(TmpName(c))
  {
    assert TmpName(c)[0] == '.';
  }

  /** Entry by entry: every accepted command is a link to `_shim`; the temporary links of
      accepted commands are gone; every other entry is as it was. */
  lemma {:induction false} LinksAt(e: map<string, Entry>, commands: seq<string>, k: string)
    ensures LinkedName(k, commands) ==> k in Links(e, commands, Accepts) && Links(e, commands, Accepts)[k] == Symlink(DispatcherName)
    ensures TmpOfAccepted(k, commands) ==> k !in Links(e, commands, Accepts)
    ensures !LinkedName(k, commands) && !TmpOfAccepted(k, commands)
      ==> (k in Links(e, commands, Accepts) <==> k in e)
    ensures !LinkedName(k, commands) && !TmpOfAccepted(k, commands) && k in e
      ==> Links(e, commands, Accepts)[k] == e[k]
  {
    if commands != [] {
      var init, c := commands[..|commands| - 1], commands[|commands| - 1];
      assert commands == init + [c];
      LinksAt(e, init, k);
      assert forall x :: x in commands <==> x in init || x == c;
      if Accepts(c) && k == TmpName(c) {
        TmpNotAccepted(c);
      }
      if Accepts(k) && Accepts(c) {
        assert k != TmpName(c) by { assert TmpName(c)[0] == '.'; }
      }
      if TmpOfAccepted(k, commands) && !TmpOfAccepted(k, init) {
        assert k == TmpName(c) && Accepts(c);
      }
    }
  }

  /** With the corrected check the dispatcher survives: `_shim` is the dispatcher script,
      executable, after every successful run. */
  lemma DispatcherKept(e: map<string, Entry>, commands: seq<string>)
    ensures DispatcherName in AfterCreate(e, commands, Accepts)
    ensures AfterCreate(e, commands, Accepts)[DispatcherName] == File(Dispatcher, ExecMode)
  {
    var d := e[DispatcherName := File(Dispatcher, ExecMode)];
    LinksAt(d, commands, DispatcherName);
  }

  /** Every accepted command ends up as a link to `_shim`, no temporary link of one
      remains, and refused names (with `/` or `\`, or empty) are left alone. */
  lemma CreateLinksCommands(e: map<string, Entry>, commands: seq<string>, k: string)
    ensures LinkedName(k, commands)
      ==> k in AfterCreate(e, commands, Accepts) && AfterCreate(e, commands, Accepts)[k] == Symlink(DispatcherName)
    ensures (exists c :: c in commands && Accepts(c) && k == TmpName(c)) ==> k !in AfterCreate(e, commands, Accepts)
    ensures !Accepts(k) && k != DispatcherName && k in e && !TmpOfAccepted(k, commands)
      ==> k in AfterCreate(e, commands, Accepts) && AfterCreate(e, commands, Accepts)[k] == e[k]
  {
    LinksAt(e[DispatcherName := File(Dispatcher, ExecMode)], commands, k);
  }

  /** Idempotence: a second run succeeds and leaves the directory as the first left it. */
  lemma CreateTwice(e: map<string, Entry>, commands: seq<string>)
    ensures WriteDispatcher(AfterCreate(e, commands, Accepts)).Ok?
    ensures AfterCreate(AfterCreate(e, commands, Accepts), commands, Accepts) == AfterCreate(e, commands, Accepts)
  {
    var once := AfterCreate(e, commands, Accepts);
    var twice := AfterCreate(once, commands, Accepts);
    DispatcherKept(e, commands);
    forall k | true
      ensures k in twice <==> k in once
      ensures k in once ==> twice[k] == once[k]
    {
      LinksAt(e[DispatcherName := File(Dispatcher, ExecMode)], commands, k);
      LinksAt(once[DispatcherName := File(Dispatcher, ExecMode)], commands, k);
    }
  }

  /** The returned path is `<state_dir>/shims/bin`. */
  lemma ShimPath(stateDir: string)
    requires IsDir(stateDir)
    ensures JoinPath(stateDir, ShimSubdir) == stateDir + "/shims/bin"
  {
    assert !StartsWith(ShimSubdir, "/") by {
      assert ShimSubdir[0] == 's';
    }
  }

  // ---------------------------------------------------------------------------
  // The source's check

  /** No configured name is `_shim` or starts with `.`, so the source's check refuses
      exactly what the corrected one refuses. */
  predicate OrdinaryNames(commands: seq<string>)
  {
    forall k :: 0 <= k < |commands| && SourceAccepts(commands[k]) ==> Accepts(commands[k])
  }

  /** On ordinary names the source's loop leaves the directory the corrected loop leaves. */
  lemma {:induction false} LinksAgree(e: map<string, Entry>, commands: seq<string>)
    requires OrdinaryNames(commands)
    ensures Links(e, commands, SourceAccepts) == Links(e, commands, Accepts)
  {
    if commands != [] {
      var init := commands[..|commands| - 1];
      assert forall k :: 0 <= k < |init| ==> init[k] == commands[k];
      LinksAgree(e, init);
    }
  }

  /** The program as written keeps the promises of the corrected one on ordinary names: a
      run leaves the executable dispatcher, links every accepted name to it, and a second
      run succeeds and changes nothing. */
  lemma AsWrittenOnOrdinaryNames(e: map<string, Entry>, commands: seq<string>, k: string)
    requires OrdinaryNames(commands)
    ensures AfterCreate(e, commands, SourceAccepts) == AfterCreate(e, commands, Accepts)
    ensures DispatcherName in AfterCreate(e, commands, SourceAccepts)
      && AfterCreate(e, commands, SourceAccepts)[DispatcherName] == File(Dispatcher, ExecMode)
    ensures k in commands && SourceAccepts(k)
      ==> k in AfterCreate(e, commands, SourceAccepts)
          && AfterCreate(e, commands, SourceAccepts)[k] == Symlink(DispatcherName)
    ensures WriteDispatcher(AfterCreate(e, commands, SourceAccepts)).Ok?
    ensures AfterCreate(AfterCreate(e, commands, SourceAccepts), commands, SourceAccepts)
         == AfterCreate(e, commands, SourceAccepts)
  {
    var d := e[DispatcherName := File(Dispatcher, ExecMode)];
    LinksAgree(d, commands);
    var once := AfterCreate(e, commands, Accepts);
    LinksAgree(once[DispatcherName := File(Dispatcher, ExecMode)], commands);
    DispatcherKept(e, commands);
    if k in commands && SourceAccepts(k) {
      CreateLinksCommands(e, commands, k);
    }
    CreateTwice(e, commands);
  }

  /** The inputs of the source's own tests: `just`, `cargo` and `npm` are all linked, and
      of `valid`, `/bin/evil` and the empty name only `valid` is, the others being left
      as they were. */
  lemma SourceTestInputs(e: map<string, Entry>)
    ensures var r := AfterCreate(e, ["just", "cargo", "npm"], SourceAccepts);
      && DispatcherName in r && r[DispatcherName] == File(Dispatcher, ExecMode)
      && "just" in r && r["just"] == Symlink(DispatcherName)
      && "cargo" in r && r["cargo"] == Symlink(DispatcherName)
      && "npm" in r && r["npm"] == Symlink(DispatcherName)
      && AfterCreate(r, ["just", "cargo", "npm"], SourceAccepts) == r
    ensures var r := AfterCreate(e, ["valid", "/bin/evil", ""], SourceAccepts);
      && "valid" in r && r["valid"] == Symlink(DispatcherName)
      && ("/bin/evil" in r <==> "/bin/evil" in e)
  {
    var ok := ["just", "cargo", "npm"];
    assert SourceAccepts("just") && SourceAccepts("cargo") && SourceAccepts("npm");
    assert OrdinaryNames(ok);
    AsWrittenOnOrdinaryNames(e, ok, "just");
    AsWrittenOnOrdinaryNames(e, ok, "cargo");
    AsWrittenOnOrdinaryNames(e, ok, "npm");
    var mixed := ["valid", "/bin/evil", ""];
    assert "/bin/evil"[0] == '/';
    assert !SourceAccepts("/bin/evil") && !SourceAccepts("");
    assert OrdinaryNames(mixed);
    AsWrittenOnOrdinaryNames(e, mixed, "valid");
    assert !TmpOfAccepted("/bin/evil", mixed) by {
      forall c | c in mixed && Accepts(c) ensures "/bin/evil" != TmpName(c) {
        assert TmpName(c)[0] == '.';
      }
    }
    CreateLinksCommands(e, mixed, "/bin/evil");
    LinksAt(e[DispatcherName := File(Dispatcher, ExecMode)], mixed, "/bin/evil");
  }

  /** The source's check lets the dispatcher's own name through: configuring a command
      `_shim` replaces the dispatcher by a link to itself. */
  lemma SelfLinkReplacesDispatcher(e: map<string, Entry>)
    ensures AfterCreate(e, [DispatcherName], SourceAccepts)[DispatcherName] == Symlink(DispatcherName)
  {
    var d := e[DispatcherName := File(Dispatcher, ExecMode)];
    assert [DispatcherName][..0] == [];
    assert SourceAccepts(DispatcherName) by {
      assert forall i :: 0 <= i < |DispatcherName| ==> DispatcherName[i] != '/' && DispatcherName[i] != '\\';
    }
    assert Links(d, [], SourceAccepts) == d;
    assert Links(d, [DispatcherName], SourceAccepts) == LinkStep(d, DispatcherName);
  }

  /** ... after which every later run fails when writing the dispatcher. */
  lemma SelfLinkBreaksLaterRuns(e: map<string, Entry>)
    ensures WriteDispatcher(AfterCreate(e, [DispatcherName], SourceAccepts)).Err?
  {
    SelfLinkReplacesDispatcher(e);
  }

  /** The source's check also lets `.a.tmp` through; a later command `a` then removes it as
      its stale temporary link, so an accepted command is left without a link. */
  lemma TmpCollisionLosesLink(e: map<string, Entry>)
    ensures ".a.tmp" !in AfterCreate(e, [".a.tmp", "a"], SourceAccepts)
  {
    var d := e[DispatcherName := File(Dispatcher, ExecMode)];
    assert [".a.tmp", "a"][..1] == [".a.tmp"];
    assert [".a.tmp"][..0] == [];
    assert SourceAccepts(".a.tmp") && SourceAccepts("a");
    assert TmpName("a") == ".a.tmp";
    assert Links(d, [], SourceAccepts) == d;
    assert Links(d, [".a.tmp"], SourceAccepts) == LinkStep(d, ".a.tmp");
    assert Links(d, [".a.tmp", "a"], SourceAccepts) == LinkStep(LinkStep(d, ".a.tmp"), "a");
  }
}
