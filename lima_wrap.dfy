/** `wrap_for_lima` (src/sandbox/lima/wrap.rs): the pane command that hands an agent
    command to the `workmux sandbox run` supervisor. Its `shell_escape` is
    `ShellQuote.Escape`. */
module LimaWrap {
  import opened Wrappers
  import opened Text
  import opened ShellQuote

  const RunPrefix := "workmux sandbox run "
  const ShellSeparator := " -- sh -lc "

  /** `wrap_for_lima`. The configuration and VM name are accepted and unused: the
      supervisor resolves them itself. */
  function WrapForLima(command: string, vmName: string, workingDir: string): (r: Result<string>)
    ensures r.Ok?
    ensures r.value == RunPrefix + Quote(workingDir) + ShellSeparator + Quote(command)
  {
    FormatWords(Escape(workingDir), Escape(command), "'", RunPrefix, ShellSeparator,
                "workmux sandbox run '", "' -- sh -lc '");
    Ok("workmux sandbox run '" + Escape(workingDir) + "' -- sh -lc '" + Escape(command) + "'")
  }

  /** Quote-by-quote, the format string lays out the same text as the words it joins. */
  lemma FormatWords(a: string, b: string, sq: string, run: string, sep: string, fmt1: string, fmt2: string)
    requires sq == "'" && run == "workmux sandbox run " && sep == " -- sh -lc "
    requires fmt1 == "workmux sandbox run '" && fmt2 == "' -- sh -lc '"
    ensures fmt1 + a + fmt2 + b + sq == run + (sq + a + sq) + sep + (sq + b + sq)
  {
    assert fmt1 == run + sq;
    assert fmt2 == sq + sep + sq;
  }

  /** The pieces of the wrapped command: it starts with `workmux sandbox run`, then the
      working directory as one single-quoted word, then `-- sh -lc` and the command as
      one single-quoted word. Both words read back, under POSIX single-quote rules, as
      exactly the directory and the command. */
  lemma WrapForLimaWords(command: string, vmName: string, workingDir: string)
    ensures var out := WrapForLima(command, vmName, workingDir).value;
      var dir, cmd := Quote(workingDir), Quote(command);
      && StartsWith(out, RunPrefix)
      && out[|RunPrefix|..|RunPrefix| + |dir|] == dir
      && out[|RunPrefix| + |dir|..|RunPrefix| + |dir| + |ShellSeparator|] == ShellSeparator
      && out[|RunPrefix| + |dir| + |ShellSeparator|..] == cmd
      && Unquote(dir) == Some(workingDir) && Unquote(cmd) == Some(command)
  {
    var out := WrapForLima(command, vmName, workingDir).value;
    var dir, cmd := Quote(workingDir), Quote(command);
    Pieces(RunPrefix, dir, ShellSeparator, cmd);
    UnquoteQuote(workingDir);
    UnquoteQuote(command);
  }

  lemma Pieces(a: string, b: string, c: string, d: string)
    ensures StartsWith(a + b + c + d, a)
    ensures (a + b + c + d)[|a|..|a| + |b|] == b
    ensures (a + b + c + d)[|a| + |b|..|a| + |b| + |c|] == c
    ensures (a + b + c + d)[|a| + |b| + |c|..] == d
  {
    assert (a + b + c + d)[..|a|] == a;
  }

  /** A working directory without single quotes, spaces included, appears verbatim between
      two single quotes. */
  lemma PathAppearsQuoted(command: string, vmName: string, workingDir: string)
    requires '\'' !in workingDir
    ensures Contains(WrapForLima(command, vmName, workingDir).value, "'" + workingDir + "'")
  {
    EscapeIdentity(workingDir);
    ContainsPieces(RunPrefix, Quote(workingDir), ShellSeparator, Quote(command));
  }

  /** The command text passes through unchanged when it has no single quotes (`$HOME`,
      `$(cmd)`, `&&` and blanks need no escape), and each quote in it costs three
      characters. */
  lemma CommandEscapeCounts(command: string, vmName: string, workingDir: string)
    ensures '\'' !in command ==> Contains(WrapForLima(command, vmName, workingDir).value, "'" + command + "'")
    ensures |Escape(command)| == |command| + 3 * multiset(command)['\'']
  {
    if '\'' !in command {
      EscapeIdentity(command);
      ContainsPieces(RunPrefix, Quote(workingDir), ShellSeparator, Quote(command));
    }
    EscapeLength(command);
  }

  lemma ContainsPieces(a: string, b: string, c: string, d: string)
    ensures Contains(a + b + c + d, b) && Contains(a + b + c + d, d)
  {
    var s := a + b + c + d;
    assert s[|a|..|a| + |b|] == b;
    assert s[|a| + |b| + |c|..|a| + |b| + |c| + |d|] == d;
    assert OccursAt(s, b, |a|) && OccursAt(s, d, |a| + |b| + |c|);
    OccursContains(s, b, |a|);
    OccursContains(s, d, |a| + |b| + |c|);
  }

  lemma {:induction false} EscapeLength(s: string)
    ensures |Escape(s)| == |s| + 3 * multiset(s)['\'']
  {
    if s != [] {
      EscapeLength(s[1..]);
      assert s == [s[0]] + s[1..];
      assert multiset(s) == multiset([s[0]]) + multiset(s[1..]);
    }
  }
}
