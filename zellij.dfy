/** The zellij multiplexer backend (src/multiplexer/zellij.rs): the parsers for the
    output of `zellij action list-clients`, `dump-layout` and `query-tab-names`, the
    live-pane reports built from them, and the `zellij action` invocations and shell
    scripts the backend issues.

    Every CLI call's standard output is a parameter (`Result<string>`: an `Err` is a
    failed call). The actions the backend runs are returned, in order, as a trace of
    argument lists. */
module Zellij {
  import opened Wrappers
  import opened Text
  import opened Seqs
  import opened ShellQuote

  /** One row of `zellij action list-clients`. */
  datatype ClientInfo = ClientInfo(paneId: string, runningCommand: string)

  /** What the backend reports about one live pane. Zellij exposes no pid, working
      directory or title, so those are always 0, "" and None. */
  datatype LivePaneInfo = LivePaneInfo(
    pid: nat,
    currentCommand: string,
    workingDir: string,
    title: Option<string>,
    session: Option<string>,
    window: Option<string>)

  /** The `zellij action` subcommands the backend runs. */
  datatype Action =
    | WriteChars(text: string)
    | Write(code: string)
    | GoToTabName(name: string)
    | CloseTab
    | NewTab(name: string, cwd: string)
    | NewPane(direction: string, cwd: string)

  /** The arguments of the `zellij` invocation that runs an action. */
  function Argv(a: Action): seq<string>
  {
    match a
    case WriteChars(text) => ["action", "write-chars", text]
    case Write(code) => ["action", "write", code]
    case GoToTabName(name) => ["action", "go-to-tab-name", name]
    case CloseTab => ["action", "close-tab"]
    case NewTab(name, cwd) => ["action", "new-tab", "--layout", "default", "--name", name, "--cwd", cwd]
    case NewPane(direction, cwd) => ["action", "new-pane", "--direction", direction, "--cwd", cwd]
  }

  /** One step the backend takes: a `zellij` invocation or a pause of some milliseconds. */
  datatype Effect = Run(action: Action) | Pause(ms: nat)

  const Enter := Run(Write("13"))

  function Type(text: string): Effect
  {
    Run(WriteChars(text))
  }

  function GoToTab(name: string): Effect
  {
    Run(GoToTabName(name))
  }

  const Close := Run(CloseTab)

  // ===========================================================================
  // list-clients

  /** A word: what `split_whitespace` yields. */
  predicate Word(w: string)
  {
    w != [] && NoWhitespace(w)
  }

  /** One data row of list-clients: the first field is the client id, the second the
      pane id and the remaining fields, re-joined by single spaces, the command.
      Rows with fewer than two fields give nothing. */
  function ParseClientRow(line: string): Option<ClientInfo>
  {
    var fields := SplitWhitespace(line);
    if |fields| < 2 then None else Some(ClientInfo(fields[1], Join(fields[2..], " ")))
  }

  /** The clients of the given data rows, in row order. */
  function ClientRows(rows: seq<string>): seq<ClientInfo>
  {
    if rows == [] then []
    else
      var last := ParseClientRow(rows[|rows| - 1]);
      ClientRows(rows[..|rows| - 1]) + (if last.Some? then [last.value] else [])
  }

  /** `lines().skip(1)`: drops the header line. */
  function SkipHeader(lines: seq<string>): seq<string>
  {
    if lines == [] then [] else lines[1..]
  }

  /** The clients listed in the output of list-clients. */
  function Clients(output: string): seq<ClientInfo>
  {
    ClientRows(SkipHeader(Lines(output)))
  }

  /** `list_clients`: skips the header and collects one client per row that has at
      least two fields. */
  method ListClients(stdout: Result<string>) returns (r: Result<seq<ClientInfo>>)
    ensures stdout.Err? ==> r == Err(stdout.error)
    ensures stdout.Ok? ==> r == Ok(Clients(stdout.value))
  {
    if stdout.Err? {
      return Err(stdout.error);
    }
    var rows := SkipHeader(Lines(stdout.value));
    var clients: seq<ClientInfo> := [];
    var i := 0;
    while i < |rows|
      invariant 0 <= i <= |rows|
      invariant clients == ClientRows(rows[..i])
    {
      var fields := SplitWhitespace(rows[i]);
      if |fields| >= 2 {
        clients := clients + [ClientInfo(fields[1], Join(fields[2..], " "))];
      }
      assert rows[..i + 1][..i] == rows[..i];
      i := i + 1;
    }
    assert rows[..|rows|] == rows;
    return Ok(clients);
  }

  /** Rows are parsed independently of each other. */
  lemma {:induction false} ClientRowsAppend(a: seq<string>, b: seq<string>)
    ensures ClientRows(a + b) == ClientRows(a) + ClientRows(b)
    decreases |b|
  {
    if b == [] {
      assert a + b == a;
    } else {
      var n := |b|;
      assert (a + b)[..|a + b| - 1] == a + b[..n - 1];
      assert (a + b)[|a + b| - 1] == b[n - 1];
      ClientRowsAppend(a, b[..n - 1]);
    }
  }

  /** A list-clients row as zellij prints it. */
  datatype ClientRow = ClientRow(clientId: string, paneId: string, command: seq<string>)

  predicate WellFormedRow(row: ClientRow)
  {
    Word(row.clientId) && Word(row.paneId)
    && forall k :: 0 <= k < |row.command| ==> Word(row.command[k])
  }

  function RenderRow(row: ClientRow): string
  {
    Join([row.clientId, row.paneId] + row.command, " ")
  }

  lemma {:induction false} JoinWordsHasNoOtherBlank(ws: seq<string>)
    requires forall k :: 0 <= k < |ws| ==> Word(ws[k])
    ensures forall i :: 0 <= i < |Join(ws, " ")| ==> Join(ws, " ")[i] == ' ' || !IsWhitespace(Join(ws, " ")[i])
    ensures |ws| > 0 ==> |Join(ws, " ")| > 0 && !IsWhitespace(Join(ws, " ")[|Join(ws, " ")| - 1])
  {
    if |ws| > 1 {
      JoinWordsHasNoOtherBlank(ws[1..]);
      var rest := Join(ws[1..], " ");
      var j := ws[0] + " " + rest;
      assert forall i :: 0 <= i < |ws[0]| ==> j[i] == ws[0][i];
      assert forall i :: |ws[0]| + 1 <= i < |j| ==> j[i] == rest[i - |ws[0]| - 1];
    }
  }

  lemma RenderedRowIsPlain(row: ClientRow)
    requires WellFormedRow(row)
    ensures PlainLine(RenderRow(row))
  {
    var ws := [row.clientId, row.paneId] + row.command;
    assert forall k :: 0 <= k < |ws| ==> Word(ws[k]);
    JoinWordsHasNoOtherBlank(ws);
    var s := RenderRow(row);
    assert forall i :: 0 <= i < |s| ==> s[i] != '\n';
  }

  /** A printed row parses back to its pane id and its command words joined by single spaces. */
  lemma ParseRenderedRow(row: ClientRow)
    requires WellFormedRow(row)
    ensures ParseClientRow(RenderRow(row)) == Some(ClientInfo(row.paneId, Join(row.command, " ")))
  {
    var ws := [row.clientId, row.paneId] + row.command;
    assert forall k :: 0 <= k < |ws| ==> Word(ws[k]);
    SplitJoin(ws);
    assert ws[2..] == row.command;
  }

  function RenderRows(rows: seq<ClientRow>): seq<string>
  {
    if rows == [] then [] else [RenderRow(rows[0])] + RenderRows(rows[1..])
  }

  function ExpectedClients(rows: seq<ClientRow>): seq<ClientInfo>
  {
    if rows == [] then [] else [ClientInfo(rows[0].paneId, Join(rows[0].command, " "))] + ExpectedClients(rows[1..])
  }

  lemma {:induction false} ClientRowsOfRendered(rows: seq<ClientRow>)
    requires forall k :: 0 <= k < |rows| ==> WellFormedRow(rows[k])
    ensures ClientRows(RenderRows(rows)) == ExpectedClients(rows)
  {
    if rows != [] {
      var first, rest := RenderRow(rows[0]), RenderRows(rows[1..]);
      ClientRowsOfRendered(rows[1..]);
      ParseRenderedRow(rows[0]);
      ClientRowsAppend([first], rest);
      assert ClientRows([first]) == [ClientInfo(rows[0].paneId, Join(rows[0].command, " "))] by {
        assert [first][..0] == [];
      }
    }
  }

  lemma {:induction false} RenderRowsPlain(rows: seq<ClientRow>)
    requires forall k :: 0 <= k < |rows| ==> WellFormedRow(rows[k])
    ensures |RenderRows(rows)| == |rows|
    ensures forall k :: 0 <= k < |rows| ==> PlainLine(RenderRows(rows)[k])
  {
    if rows != [] {
      RenderRowsPlain(rows[1..]);
      RenderedRowIsPlain(rows[0]);
      assert forall k :: 1 <= k < |rows| ==> RenderRows(rows)[k] == RenderRows(rows[1..])[k - 1];
    }
  }

  /** Round trip: list-clients output printed as a header line followed by one line per
      client is read back as exactly those clients, in order. */
  lemma ListClientsReadsPrintedTable(header: string, rows: seq<ClientRow>)
    requires PlainLine(header)
    requires forall k :: 0 <= k < |rows| ==> WellFormedRow(rows[k])
    ensures Clients(Unlines([header] + RenderRows(rows))) == ExpectedClients(rows)
  {
    ClientRowsOfRendered(rows);
    RenderRowsPlain(rows);
    var ls := [header] + RenderRows(rows);
    assert forall k :: 0 <= k < |ls| ==> PlainLine(ls[k]) by {
      forall k | 0 <= k < |ls| ensures PlainLine(ls[k]) {
        if k > 0 { assert ls[k] == RenderRows(rows)[k - 1]; }
      }
    }
    LinesUnlines(ls);
    assert ls[1..] == RenderRows(rows);
  }

  // ===========================================================================
  // dump-layout: the focused tab

  /** The tab name on one line of dump-layout output: the line, trimmed, must start
      with "tab " and contain "focus=true"; the name is what follows the first
      `name="` up to the next `"`. */
  function TabLineName(line: string): (r: Option<string>)
    ensures r.Some? ==> StartsWith(Trim(line), "tab ") && Contains(Trim(line), "focus=true")
    ensures r.Some? ==> '"' !in r.value
  {
    var t := Trim(line);
    if StartsWith(t, "tab ") && Contains(t, "focus=true") then
      match Find(t, "name=\"")
      case None => None
      case Some(start) =>
        var after := t[start + 6..];
        match FindChar(after, '"')
        case None => None
        case Some(end) => Some(after[..end])
    else None
  }

  /** The tab name, if any, on each line. */
  function TabLineNames(lines: seq<string>): (r: seq<Option<string>>)
    ensures |r| == |lines| && forall k :: 0 <= k < |lines| ==> r[k] == TabLineName(lines[k])
  {
    seq(|lines|, k requires 0 <= k < |lines| => TabLineName(lines[k]))
  }

  /** The focused tab named by dump-layout output: the name on the first line that
      names one; None when the call failed. */
  function FocusedTab(dump: Result<string>): Option<string>
  {
    if dump.Err? then None else FirstSome(TabLineNames(Lines(dump.value)))
  }

  /** `focused_tab_name`: scans the lines and returns at the first one naming the focused tab. */
  method FocusedTabName(dump: Result<string>) returns (name: Option<string>)
    ensures name == FocusedTab(dump)
  {
    if dump.Err? {
      return None;
    }
    name := FirstFocusedTab(Lines(dump.value));
  }

  /** The loop of `focused_tab_name` over the lines of the layout dump. */
  method FirstFocusedTab(lines: seq<string>) returns (name: Option<string>)
    ensures name == FirstSome(TabLineNames(lines))
  {
    ghost var names := TabLineNames(lines);
    assert names[0..] == names;
    var i := 0;
    while i < |lines|
      invariant 0 <= i <= |lines|
      invariant FirstSome(names[i..]) == FirstSome(names)
    {
      var tabName := TabLineName(lines[i]);
      assert names[i] == tabName;
      FirstSomeStep(names, i);
      if tabName.Some? {
        return tabName;
      }
      i := i + 1;
    }
    assert names[|lines|..] == [];
    return None;
  }

  lemma FindNameAttribute(rest: string)
    ensures Find("tab name=\"" + rest, "name=\"") == Some(4)
  {
    var t := "tab name=\"" + rest;
    var p := "name=\"";
    assert t[4..10] == p;
    assert OccursAt(t, p, 4);
    forall j | 0 <= j < 4
      ensures !OccursAt(t, p, j)
    {
      assert t[j] != 'n';
      assert j + 6 <= |t| ==> t[j..j + 6][0] == t[j];
    }
    var r := Find(t, p);
    assert r.Some?;
  }

  lemma FindClosingQuote(name: string, rest: string)
    requires '"' !in name
    ensures FindChar(name + "\"" + rest, '"') == Some(|name|)
  {
    var s := name + "\"" + rest;
    var r := FindChar(s, '"');
    assert s[|name|] == '"';
    assert s[..|name|] == name;
    assert forall i :: 0 <= i < |name| ==> s[i] == name[i] && s[i] != '"';
    assert forall i :: |name| < i <= |s| ==> s[..i][|name|] == '"';
  }

  lemma TabLineNameFrom(line: string, t: string, name: string)
    requires Trim(line) == t
    requires StartsWith(t, "tab ") && Contains(t, "focus=true")
    requires Find(t, "name=\"") == Some(4)
    requires 10 <= |t| && FindChar(t[10..], '"') == Some(|name|) && t[10..][..|name|] == name
    ensures TabLineName(line) == Some(name)
  {
  }

  lemma ConcatAssoc(a: string, b: string, c: string, d: string)
    ensures a + (b + (c + d)) == ((a + b) + c) + d
  {
  }

  lemma SuffixContains(a: string, p: string)
    ensures Contains(a + p, p)
  {
    assert (a + p)[|a|..|a| + |p|] == p;
    OccursContains(a + p, p, |a|);
  }

  /** The line dump-layout prints for the focused tab yields the tab's name. */
  lemma FocusedTabLine(indent: string, name: string)
    requires Blank(indent)
    requires '"' !in name
    ensures TabLineName(indent + "tab name=\"" + name + "\" focus=true") == Some(name)
  {
    var close, focus := "\" ", "focus=true";
    assert close + focus == "\" focus=true";
    assert indent + "tab name=\"" + name + "\" focus=true" == indent + "tab name=\"" + name + (close + focus);
    FocusedTabLinePieces(indent, "tab name=\"", name, close, focus);
  }

  lemma FocusedTabLinePieces(indent: string, open: string, name: string, close: string, focus: string)
    requires Blank(indent)
    requires '"' !in name
    requires open == "tab name=\"" && close == "\" " && focus == "focus=true"
    ensures TabLineName(indent + open + name + (close + focus)) == Some(name)
  {
    var t := open + (name + (close + focus));
    TrimTabLine(indent, open, name, close, focus);
    TabLineKeywords(open, name, close, focus);
    FindNameAttribute(name + (close + focus));
    TabLineClosingQuote(open, name, close, focus);
    TabLineNameFrom(indent + open + name + (close + focus), t, name);
  }

  lemma TrimTabLine(indent: string, open: string, name: string, close: string, focus: string)
    requires Blank(indent)
    requires open == "tab name=\"" && focus == "focus=true"
    ensures Trim(indent + open + name + (close + focus)) == open + (name + (close + focus))
  {
    var t := open + (name + (close + focus));
    assert indent + open + name + (close + focus) == indent + t + "";
    assert t[|t| - 1] == focus[9];
    assert t[0] == open[0];
    TrimPadded(indent, t, "");
  }

  lemma TabLineKeywords(open: string, name: string, close: string, focus: string)
    requires open == "tab name=\"" && focus == "focus=true"
    ensures StartsWith(open + (name + (close + focus)), "tab ")
    ensures Contains(open + (name + (close + focus)), "focus=true")
  {
    var t := open + (name + (close + focus));
    assert t[..4] == open[..4];
    ConcatAssoc(open, name, close, focus);
    SuffixContains(open + name + close, focus);
  }

  lemma TabLineClosingQuote(open: string, name: string, close: string, focus: string)
    requires '"' !in name
    requires |open| == 10 && |close| > 0 && close[0] == '"'
    ensures var t := open + (name + (close + focus));
      10 <= |t| && FindChar(t[10..], '"') == Some(|name|) && t[10..][..|name|] == name
  {
    var rest := name + (close + focus);
    var t := open + rest;
    assert t[10..] == rest;
    var after := close[1..] + focus;
    assert close + focus == "\"" + after;
    assert rest == name + "\"" + after;
    FindClosingQuote(name, after);
    assert rest[..|name|] == name;
  }

  // ===========================================================================
  // Live pane information

  /** The first word of the running command, or "" when it has none. */
  function CurrentCommand(runningCommand: string): (c: string)
    ensures c == "" || Word(c)
  {
    var words := SplitWhitespace(runningCommand);
    if words == [] then "" else words[0]
  }

  lemma FirstWordOfCommand(words: seq<string>)
    requires forall k :: 0 <= k < |words| ==> Word(words[k])
    ensures CurrentCommand(Join(words, " ")) == if words == [] then "" else words[0]
  {
    SplitJoin(words);
  }

  function InfoOf(c: ClientInfo, session: Option<string>, window: Option<string>): LivePaneInfo
  {
    LivePaneInfo(0, CurrentCommand(c.runningCommand), "", None, session, window)
  }

  /** The first listed client showing this pane. */
  function FirstClient(cs: seq<ClientInfo>, paneId: string): (r: Option<ClientInfo>)
    ensures r.Some? <==> exists k :: 0 <= k < |cs| && cs[k].paneId == paneId
    ensures r.Some? ==> exists k :: (0 <= k < |cs| && cs[k] == r.value && cs[k].paneId == paneId
      && forall j :: 0 <= j < k ==> cs[j].paneId != paneId)
  {
    if cs == [] then None
    else if cs[0].paneId == paneId then Some(cs[0])
    else
      var r := FirstClient(cs[1..], paneId);
      assert forall k :: 1 <= k < |cs| ==> cs[k] == cs[1..][k - 1];
      r
  }

  /** `get_live_pane_info`: the pane's report when a listed client shows it, Ok(None)
      otherwise; only a failed list-clients call is an error. */
  method GetLivePaneInfo(paneId: string, clientsOut: Result<string>, session: Option<string>, dump: Result<string>)
    returns (r: Result<Option<LivePaneInfo>>)
    ensures clientsOut.Err? <==> r.Err?
    ensures clientsOut.Ok? ==>
      (r.value.Some? <==> exists k :: 0 <= k < |Clients(clientsOut.value)| && Clients(clientsOut.value)[k].paneId == paneId)
    ensures clientsOut.Ok? ==> (r.value ==
      match FirstClient(Clients(clientsOut.value), paneId)
      case None => None
      case Some(c) => Some(InfoOf(c, session, FocusedTab(dump))))
  {
    var listed := ListClients(clientsOut);
    if listed.Err? {
      return Err(listed.error);
    }
    var clients := listed.value;
    var i := 0;
    while i < |clients|
      invariant 0 <= i <= |clients|
      invariant forall j :: 0 <= j < i ==> clients[j].paneId != paneId
    {
      if clients[i].paneId == paneId {
        var window := FocusedTabName(dump);
        FirstClientAt(clients, paneId, i);
        return Ok(Some(InfoOf(clients[i], session, window)));
      }
      i := i + 1;
    }
    return Ok(None);
  }

  lemma FirstClientAt(cs: seq<ClientInfo>, paneId: string, i: nat)
    requires i < |cs| && cs[i].paneId == paneId
    requires forall j :: 0 <= j < i ==> cs[j].paneId != paneId
    ensures FirstClient(cs, paneId) == Some(cs[i])
  {
    var r := FirstClient(cs, paneId);
    var k :| (0 <= k < |cs| && cs[k] == r.value && cs[k].paneId == paneId
      && forall j :: 0 <= j < k ==> cs[j].paneId != paneId);
    assert k == i;
  }

  /** The map built by inserting `info(c)` under `c.paneId` for each client in turn. */
  function ByPane(cs: seq<ClientInfo>, info: ClientInfo -> LivePaneInfo): map<string, LivePaneInfo>
  {
    if cs == [] then map[]
    else
      var n := |cs| - 1;
      ByPane(cs[..n], info)[cs[n].paneId := info(cs[n])]
  }

  /** The batch report: one entry per listed pane id, later rows overwriting earlier ones. */
  function PaneMap(cs: seq<ClientInfo>, session: Option<string>, window: Option<string>): map<string, LivePaneInfo>
  {
    ByPane(cs, c => InfoOf(c, session, window))
  }

  /** The keys are exactly the listed pane ids, and each maps to the value of the last
      client listing it. */
  lemma ByPaneEntries(cs: seq<ClientInfo>, info: ClientInfo -> LivePaneInfo)
    ensures forall id :: id in ByPane(cs, info) <==> exists k :: 0 <= k < |cs| && cs[k].paneId == id
    ensures forall id :: id in ByPane(cs, info) ==> exists k :: (0 <= k < |cs| && cs[k].paneId == id
      && ByPane(cs, info)[id] == info(cs[k])
      && (forall j :: k < j < |cs| ==> cs[j].paneId != id))
  {
    ByPaneKeys(cs, info);
    ByPaneLast(cs, info);
  }

  lemma {:induction false} ByPaneKeys(cs: seq<ClientInfo>, info: ClientInfo -> LivePaneInfo)
    ensures forall id :: id in ByPane(cs, info) <==> exists k :: 0 <= k < |cs| && cs[k].paneId == id
  {
    if cs != [] {
      var n := |cs| - 1;
      ByPaneKeys(cs[..n], info);
      assert forall k :: 0 <= k < n ==> cs[..n][k] == cs[k];
    }
  }

  lemma {:induction false} ByPaneLast(cs: seq<ClientInfo>, info: ClientInfo -> LivePaneInfo)
    ensures forall id :: id in ByPane(cs, info) ==> exists k :: (0 <= k < |cs| && cs[k].paneId == id
      && ByPane(cs, info)[id] == info(cs[k])
      && (forall j :: k < j < |cs| ==> cs[j].paneId != id))
  {
    if cs != [] {
      var n := |cs| - 1;
      var init := ByPane(cs[..n], info);
      var m := ByPane(cs, info);
      ByPaneLast(cs[..n], info);
      forall id | id in m
        ensures exists k :: (0 <= k < |cs| && cs[k].paneId == id && m[id] == info(cs[k])
          && (forall j :: k < j < |cs| ==> cs[j].paneId != id))
      {
        if id != cs[n].paneId {
          var k :| (0 <= k < n && cs[..n][k].paneId == id && init[id] == info(cs[..n][k])
            && (forall j :: k < j < n ==> cs[..n][j].paneId != id));
          assert cs[..n][k] == cs[k];
          assert forall j :: k < j < n ==> cs[..n][j] == cs[j];
          assert cs[k].paneId == id && m[id] == info(cs[k]);
        } else {
          assert cs[n].paneId == id && m[id] == info(cs[n]);
        }
      }
    }
  }

  /** `get_all_live_pane_info`: inserts every listed client's report into a map. */
  method GetAllLivePaneInfo(clientsOut: Result<string>, session: Option<string>, dump: Result<string>)
    returns (r: Result<map<string, LivePaneInfo>>)
    ensures clientsOut.Err? <==> r.Err?
    ensures clientsOut.Ok? ==> r.value == PaneMap(Clients(clientsOut.value), session, FocusedTab(dump))
  {
    var listed := ListClients(clientsOut);
    if listed.Err? {
      return Err(listed.error);
    }
    r := InsertPanes(listed.value, session, dump);
  }

  /** The loop of `get_all_live_pane_info` over the listed clients. */
  method InsertPanes(clients: seq<ClientInfo>, session: Option<string>, dump: Result<string>)
    returns (r: Result<map<string, LivePaneInfo>>)
    ensures r == Ok(PaneMap(clients, session, FocusedTab(dump)))
  {
    var result: map<string, LivePaneInfo> := map[];
    var i := 0;
    while i < |clients|
      invariant 0 <= i <= |clients|
      invariant result == PaneMap(clients[..i], session, FocusedTab(dump))
    {
      var window := FocusedTabName(dump);
      var c := clients[i];
      var currentCommand := CurrentCommand(c.runningCommand);
      result := result[c.paneId := LivePaneInfo(0, currentCommand, "", None, session, window)];
      PaneMapSnoc(clients, i, session, window);
      i := i + 1;
    }
    assert clients[..|clients|] == clients;
    return Ok(result);
  }

  lemma PaneMapSnoc(cs: seq<ClientInfo>, i: nat, session: Option<string>, window: Option<string>)
    requires i < |cs|
    ensures PaneMap(cs[..i + 1], session, window)
      == PaneMap(cs[..i], session, window)[cs[i].paneId := InfoOf(cs[i], session, window)]
  {
    assert cs[..i + 1][..i] == cs[..i];
  }

  /** The batch report agrees with the single-pane query: the same panes are present,
      and a pane whose clients all report the same command (in particular a pane listed
      once) gets the same report. */
  lemma BatchMatchesSingle(cs: seq<ClientInfo>, paneId: string, session: Option<string>, window: Option<string>)
    requires forall i, j :: (0 <= i < |cs| && 0 <= j < |cs| && cs[i].paneId == paneId && cs[j].paneId == paneId
      ==> cs[i].runningCommand == cs[j].runningCommand)
    ensures paneId in PaneMap(cs, session, window) <==> FirstClient(cs, paneId).Some?
    ensures paneId in PaneMap(cs, session, window) ==>
      PaneMap(cs, session, window)[paneId] == InfoOf(FirstClient(cs, paneId).value, session, window)
  {
    var info := c => InfoOf(c, session, window);
    var m := ByPane(cs, info);
    assert m == PaneMap(cs, session, window);
    ByPaneEntries(cs, info);
    if paneId in m {
      var f := FirstClient(cs, paneId);
      var i :| 0 <= i < |cs| && cs[i] == f.value && cs[i].paneId == paneId;
      var l :| 0 <= l < |cs| && cs[l].paneId == paneId && m[paneId] == info(cs[l]);
      assert cs[i].runningCommand == cs[l].runningCommand;
      assert info(cs[l]) == InfoOf(cs[i], session, window);
    }
  }

  // ===========================================================================
  // Tab names

  /** `query_tab_names`: the trimmed lines of `query-tab-names`. */
  function TabNames(output: string): seq<string>
  {
    TrimAll(Lines(output))
  }

  function TrimAll(ls: seq<string>): seq<string>
  {
    seq(|ls|, k requires 0 <= k < |ls| => Trim(ls[k]))
  }

  /** `get_all_window_names`: no tabs outside a session; otherwise the queried names. */
  function AllWindowNames(insideSession: bool, tabQuery: Result<string>): (r: Result<set<string>>)
    ensures !insideSession ==> r == Ok({})
    ensures insideSession ==> (r.Err? <==> tabQuery.Err?)
    ensures insideSession && r.Ok? ==> forall n :: n in r.value <==> n in TabNames(tabQuery.value)
  {
    if !insideSession then Ok({})
    else if tabQuery.Err? then Err(tabQuery.error)
    else Ok(set n | n in TabNames(tabQuery.value))
  }

  /** `window_exists_by_full_name`. */
  function WindowExistsByFullName(fullName: string, insideSession: bool, tabQuery: Result<string>): (r: Result<bool>)
    ensures !insideSession ==> r == Ok(false)
    ensures insideSession && tabQuery.Ok? ==> r == Ok(fullName in TabNames(tabQuery.value))
    ensures insideSession && tabQuery.Err? ==> r.Err?
  {
    if !insideSession then Ok(false)
    else if tabQuery.Err? then Err(tabQuery.error)
    else Ok(exists k :: 0 <= k < |TabNames(tabQuery.value)| && TabNames(tabQuery.value)[k] == fullName)
  }

  /** `filter_active_windows`: the given names that are open tabs, in the given order. */
  function FilterActiveWindows(windows: seq<string>, insideSession: bool, tabQuery: Result<string>): (r: Result<seq<string>>)
    ensures r.Err? <==> AllWindowNames(insideSession, tabQuery).Err?
    ensures r.Ok? ==> forall k :: 0 <= k < |r.value| ==> r.value[k] in windows && r.value[k] in AllWindowNames(insideSession, tabQuery).value
    ensures r.Ok? ==> forall k :: 0 <= k < |windows| && windows[k] in AllWindowNames(insideSession, tabQuery).value ==> windows[k] in r.value
  {
    match AllWindowNames(insideSession, tabQuery)
    case Err(e) => Err(e)
    case Ok(active) => Ok(Filter(windows, w => w in active))
  }

  /** The filter keeps the input order and how often each open name occurs. */
  lemma FilterActiveWindowsOrder(windows: seq<string>, insideSession: bool, tabQuery: Result<string>, w: string)
    requires AllWindowNames(insideSession, tabQuery).Ok?
    ensures IsSubsequence(FilterActiveWindows(windows, insideSession, tabQuery).value, windows)
    ensures w in AllWindowNames(insideSession, tabQuery).value ==>
      multiset(FilterActiveWindows(windows, insideSession, tabQuery).value)[w] == multiset(windows)[w]
  {
    var active := AllWindowNames(insideSession, tabQuery).value;
    FilterIsSubsequence(windows, w => w in active);
    if w in active {
      FilterCount(windows, w => w in active, w);
    }
  }

  // ===========================================================================
  // Environment-derived identity

  /** `pane_id_from_env`: ZELLIJ_PANE_ID holds the number; the backend's id is "terminal_<n>". */
  function CurrentPaneId(zellijPaneIdVar: Option<string>): (r: Option<string>)
    ensures r.Some? <==> zellijPaneIdVar.Some?
    ensures r.Some? ==> StripPrefix(r.value, "terminal_") == Some(zellijPaneIdVar.value)
  {
    match zellijPaneIdVar
    case None => None
    case Some(id) => Some("terminal_" + id)
  }

  /** `instance_id`: the session name, or "default". */
  function InstanceId(sessionNameVar: Option<string>): string
  {
    sessionNameVar.GetOr("default")
  }

  /** `is_running`: inside a session the backend is usable; otherwise it is usable when
      `zellij action dump-screen /dev/null` succeeds. */
  function IsRunning(insideSession: bool, dumpScreenCheck: Result<bool>): (r: Result<bool>)
    ensures insideSession ==> r == Ok(true)
    ensures !insideSession ==> r == dumpScreenCheck
  {
    if insideSession then Ok(true) else dumpScreenCheck
  }

  // ===========================================================================
  // Text delivery

  predicate DigitString(s: string)
  {
    forall i :: 0 <= i < |s| ==> IsDigit(s[i])
  }

  /** What the focused pane receives from one step: `write-chars` sends its text,
      `write N` the byte with code N. */
  function TypedBy(e: Effect): string
  {
    match e
    case Run(WriteChars(text)) => text
    case Run(Write(code)) =>
      if DigitString(code) && ParseDigits(code) < 128 then [ParseDigits(code) as char] else ""
    case _ => ""
  }

  /** The text a trace sends to the focused pane. */
  function Typed(trace: seq<Effect>): string
  {
    if trace == [] then "" else TypedBy(trace[0]) + Typed(trace[1..])
  }

  lemma {:induction false} TypedAppend(a: seq<Effect>, b: seq<Effect>)
    ensures Typed(a + b) == Typed(a) + Typed(b)
  {
    if a != [] {
      assert (a + b)[0] == a[0];
      assert (a + b)[1..] == a[1..] + b;
      TypedAppend(a[1..], b);
    } else {
      assert a + b == b;
    }
  }

  lemma TypedPair(a: Effect, b: Effect)
    ensures Typed([a]) == TypedBy(a)
    ensures Typed([a, b]) == TypedBy(a) + TypedBy(b)
  {
    assert [a][1..] == [];
    assert [a, b][1..] == [b];
    assert [b][1..] == [];
  }

  /** The character a named key stands for in a terminal: carriage return, escape, tab. */
  function NamedKeyChar(key: string): Option<char>
  {
    if key == "Enter" then Some('\r')
    else if key == "Escape" then Some('\U{1b}')
    else if key == "Tab" then Some('\t')
    else None
  }

  /** `send_key`: a named key is sent by its byte code with `write`, anything else
      verbatim with `write-chars`. */
  function SendKey(key: string): seq<Effect>
  {
    var code :=
      if key == "Enter" then Some("13")
      else if key == "Escape" then Some("27")
      else if key == "Tab" then Some("9")
      else None;
    match code
    case Some(c) => [Run(Write(c))]
    case None => [Type(key)]
  }

  /** `send_key` delivers the key's character for the named keys and the key text otherwise,
      in one action. */
  lemma SendKeyDelivers(key: string)
    ensures |SendKey(key)| == 1
    ensures NamedKeyChar(key).Some? <==> SendKey(key)[0].Run? && SendKey(key)[0].action.Write?
    ensures NamedKeyChar(key).None? ==> SendKey(key) == [Type(key)]
    ensures Typed(SendKey(key)) == match NamedKeyChar(key) case Some(c) => [c] case None => key
  {
    if key == "Enter" {
      assert ParseDigits("13") == 13;
    } else if key == "Escape" {
      assert ParseDigits("27") == 27;
    } else if key == "Tab" {
      assert ParseDigits("9") == 9;
    }
  }

  /** `send_keys`: the text, then Enter. */
  function SendKeys(command: string): (trace: seq<Effect>)
  {
    [Type(command), Enter]
  }

  lemma EnterTypesCr()
    ensures TypedBy(Enter) == "\r"
  {
    assert ParseDigits("13") == 13;
  }

  /** `send_keys_to_agent`: for agents that need it, a leading "!" is sent alone and
      followed by a 50 ms pause before the rest. */
  function SendKeysToAgent(command: string, needsBangDelay: bool): (trace: seq<Effect>)
  {
    if needsBangDelay && StartsWith(command, "!") then
      [Type("!"), Pause(50), Type(command[1..]), Enter]
    else SendKeys(command)
  }

  /** Both delivery paths send the command followed by a carriage return. */
  lemma SendKeysToAgentDelivers(command: string, needsBangDelay: bool)
    ensures Typed(SendKeys(command)) == command + "\r"
    ensures Typed(SendKeysToAgent(command, needsBangDelay)) == command + "\r"
  {
    EnterTypesCr();
    TypedPair(Type(command), Enter);
    if needsBangDelay && StartsWith(command, "!") {
      TypedSplit(command[..1], command[1..]);
      assert command[..1] + command[1..] == command;
    }
  }

  /** Typing a head, pausing, then typing the rest and Enter types both parts and a
      carriage return. */
  lemma TypedSplit(head: string, rest: string)
    ensures Typed([Type(head), Pause(50), Type(rest), Enter]) == head + rest + "\r"
  {
    EnterTypesCr();
    TypedAppend([Type(head), Pause(50)], [Type(rest), Enter]);
    assert [Type(head), Pause(50)] + [Type(rest), Enter] == [Type(head), Pause(50), Type(rest), Enter];
    TypedPair(Type(head), Pause(50));
    TypedPair(Type(rest), Enter);
  }

  /** The trace for pasting the given lines: each line, then Enter. */
  function PasteTrace(lines: seq<string>): seq<Effect>
  {
    if lines == [] then [] else PasteTrace(lines[..|lines| - 1]) + [Type(lines[|lines| - 1]), Enter]
  }

  /** Each line followed by a carriage return. */
  function CrLines(lines: seq<string>): string
  {
    if lines == [] then "" else CrLines(lines[..|lines| - 1]) + lines[|lines| - 1] + "\r"
  }

  /** `paste_multiline`: sends the content line by line, each followed by Enter. */
  method PasteMultiline(content: string) returns (trace: seq<Effect>)
    ensures trace == PasteTrace(Lines(content))
  {
    var lines := Lines(content);
    trace := [];
    var i := 0;
    while i < |lines|
      invariant 0 <= i <= |lines|
      invariant trace == PasteTrace(lines[..i])
    {
      trace := trace + [Type(lines[i]), Enter];
      assert lines[..i + 1][..i] == lines[..i];
      i := i + 1;
    }
    assert lines[..|lines|] == lines;
  }

  /** Pasting delivers every line of the content followed by a carriage return. */
  lemma {:induction false} PasteDelivers(lines: seq<string>)
    ensures Typed(PasteTrace(lines)) == CrLines(lines)
  {
    if lines != [] {
      var n := |lines|;
      PasteDelivers(lines[..n - 1]);
      TypedAppend(PasteTrace(lines[..n - 1]), [Type(lines[n - 1]), Enter]);
      EnterTypesCr();
      TypedPair(Type(lines[n - 1]), Enter);
    }
  }

  // ===========================================================================
  // Tabs and panes

  /** A reference reading of the tab actions, for stating what the traces achieve:
      the open tab names and the focused one as far as it is known. `go-to-tab-name`
      focuses an open tab (and does nothing for another name), `close-tab` closes the
      focused tab (after which the focus is not tracked), `new-tab --name` opens and
      focuses a tab. */
  datatype Tabs = Tabs(names: set<string>, focus: Option<string>)

  function StepTabs(t: Tabs, e: Effect): Tabs
  {
    match e
    case Pause(_) => t
    case Run(GoToTabName(name)) => if name in t.names then Tabs(t.names, Some(name)) else t
    case Run(CloseTab) => (match t.focus case Some(f) => Tabs(t.names - {f}, None) case None => t)
    case Run(NewTab(name, _)) => Tabs(t.names + {name}, Some(name))
    case Run(_) => t
  }

  function RunTabs(t: Tabs, trace: seq<Effect>): Tabs
    decreases |trace|
  {
    if trace == [] then t else RunTabs(StepTabs(t, trace[0]), trace[1..])
  }

  /** `create_window`: a tab named prefix + name in the given directory, which stays focused.
      Running the trace opens that tab, whatever tabs were open, and leaves it focused. */
  function CreateWindow(prefix: string, name: string, cwd: string): (r: (string, seq<Effect>))
    ensures r.0 == prefix + name
    ensures forall t :: RunTabs(t, r.1) == Tabs(t.names + {r.0}, Some(r.0))
  {
    var fullName := prefix + name;
    var trace := [Run(NewTab(fullName, cwd))];
    assert forall t :: RunTabs(t, trace) == Tabs(t.names + {fullName}, Some(fullName)) by {
      forall t ensures RunTabs(t, trace) == Tabs(t.names + {fullName}, Some(fullName)) {
        RunTabsSingle(t, trace[0]);
      }
    }
    (fullName, trace)
  }

  /** `kill_window`: focus the tab, then close it. */
  function KillWindow(fullName: string): seq<Effect>
  {
    [GoToTab(fullName), Close]
  }

  /** Killing an open tab closes exactly that tab, whichever tab had the focus. */
  lemma KillWindowCloses(t: Tabs, fullName: string)
    requires fullName in t.names
    ensures RunTabs(t, KillWindow(fullName)).names == t.names - {fullName}
  {
    var t1 := StepTabs(t, GoToTab(fullName));
    assert t1 == Tabs(t.names, Some(fullName));
    assert KillWindow(fullName) == [GoToTab(fullName)] + [Close];
    RunTabsAppend(t, [GoToTab(fullName)], [Close]);
    RunTabsSingle(t, GoToTab(fullName));
    RunTabsSingle(t1, Close);
  }

  /** `select_window`. */
  function SelectWindow(prefix: string, name: string): seq<Effect>
  {
    [GoToTab(prefix + name)]
  }

  lemma SelectWindowFocuses(t: Tabs, prefix: string, name: string)
    requires prefix + name in t.names
    ensures RunTabs(t, SelectWindow(prefix, name)) == Tabs(t.names, Some(prefix + name))
  {
  }

  datatype SplitDirection = Horizontal | Vertical

  /** The `cd` line typed into a new or respawned pane. */
  function CdCommand(cwd: string): string
  {
    "cd '" + Escape(cwd) + "'"
  }

  lemma CdCommandQuotesPath(cwd: string)
    ensures CdCommand(cwd) == "cd " + Quote(cwd)
    ensures Unquote(CdCommand(cwd)[3..]) == Some(cwd)
  {
    UnquoteQuote(cwd);
    assert CdCommand(cwd)[3..] == Quote(cwd);
  }

  /** The keystrokes both pane operations type: the `cd` line, then the command if
      there is one, each followed by Enter. */
  function CdThenCommand(cwd: string, command: Option<string>): seq<Effect>
  {
    [Type(CdCommand(cwd)), Enter] + (match command case Some(c) => [Type(c), Enter] case None => [])
  }

  /** `split_pane`: a new pane side by side (horizontal) or stacked (vertical), then the
      `cd` and the command. The id returned is the environment's pane id, or
      "terminal_<pid>" without one. */
  function SplitPane(direction: SplitDirection, cwd: string, command: Option<string>,
                     zellijPaneIdVar: Option<string>, processId: nat): (r: (seq<Effect>, string))
  {
    var dirArg := match direction case Horizontal => "right" case Vertical => "down";
    ([Run(NewPane(dirArg, cwd))] + CdThenCommand(cwd, command),
     CurrentPaneId(zellijPaneIdVar).GetOr("terminal_" + NatToString(processId)))
  }

  /** `respawn_pane`: zellij cannot respawn a pane, so the `cd` and the command are typed
      into the focused pane; the id is the environment's pane id, or "terminal_0". */
  function RespawnPane(cwd: string, command: Option<string>, zellijPaneIdVar: Option<string>): (r: (seq<Effect>, string))
  {
    (CdThenCommand(cwd, command), CurrentPaneId(zellijPaneIdVar).GetOr("terminal_0"))
  }

  /** The pane receives the `cd` line, then the command line, each ended by a carriage return. */
  lemma CdThenCommandDelivers(cwd: string, command: Option<string>)
    ensures Typed(CdThenCommand(cwd, command))
      == CdCommand(cwd) + "\r" + (match command case Some(c) => c + "\r" case None => "")
  {
    EnterTypesCr();
    var cd := [Type(CdCommand(cwd)), Enter];
    var tail := match command case Some(c) => [Type(c), Enter] case None => [];
    TypedPair(Type(CdCommand(cwd)), Enter);
    if command.Some? {
      TypedPair(Type(command.value), Enter);
    }
    TypedAppend(cd, tail);
  }

  /** Splitting types the same text into the new pane as respawning types into the
      focused one: the new-pane action itself types nothing. */
  lemma SplitPaneDelivers(direction: SplitDirection, cwd: string, command: Option<string>,
                          zellijPaneIdVar: Option<string>, processId: nat)
    ensures Typed(SplitPane(direction, cwd, command, zellijPaneIdVar, processId).0)
      == Typed(RespawnPane(cwd, command, zellijPaneIdVar).0)
  {
    var dirArg := match direction case Horizontal => "right" case Vertical => "down";
    TypedAppend([Run(NewPane(dirArg, cwd))], CdThenCommand(cwd, command));
    TypedPair(Run(NewPane(dirArg, cwd)), Enter);
  }

  // ===========================================================================
  // Shell commands run outside zellij's action interface

  /** `schedule_window_close`: the argument list for `sh`, which sleeps the whole
      seconds of the delay, then focuses and closes the tab. */
  function ScheduleWindowClose(fullName: string, delayMs: nat): (argv: seq<string>)
  {
    ["-c", "sleep " + NatToString(delayMs / 1000) + " && zellij action go-to-tab-name "
      + Quote(fullName) + " && zellij action close-tab"]
  }

  /** The tab name sits in the close command as one quoted word. */
  lemma ScheduleWindowCloseQuotesName(fullName: string, delayMs: nat)
    ensures var cmd := ScheduleWindowClose(fullName, delayMs)[1];
      var pre := "sleep " + NatToString(delayMs / 1000) + " && zellij action go-to-tab-name ";
      StartsWith(cmd, pre) && Unquote(cmd[|pre|..|pre| + |Quote(fullName)|]) == Some(fullName)
  {
    var cmd := ScheduleWindowClose(fullName, delayMs)[1];
    var pre := "sleep " + NatToString(delayMs / 1000) + " && zellij action go-to-tab-name ";
    assert cmd == pre + Quote(fullName) + " && zellij action close-tab";
    assert cmd[..|pre|] == pre;
    assert cmd[|pre|..|pre| + |Quote(fullName)|] == Quote(fullName);
    UnquoteQuote(fullName);
  }

  /** `nohup sh -c '<script>' </dev/null >/dev/null 2>&1 &`. */
  function Detached(script: string): string
  {
    "nohup sh -c " + Quote(script) + " </dev/null >/dev/null 2>&1 &"
  }

  lemma DetachedReadsBack(script: string)
    ensures StartsWith(Detached(script), "nohup sh -c ")
    ensures Unquote(Detached(script)[12..12 + |Quote(script)|]) == Some(script)
  {
    var d := Detached(script);
    assert d == "nohup sh -c " + Quote(script) + " </dev/null >/dev/null 2>&1 &";
    assert d[..12] == "nohup sh -c ";
    assert d[12..12 + |Quote(script)|] == Quote(script);
    UnquoteQuote(script);
  }

  /** `run_deferred_script`: the argument list for `sh`, run from "/" without ZELLIJ_PANE_ID. */
  function RunDeferredScript(script: string): seq<string>
  {
    ["-c", Detached(script)]
  }

  const GoToTabCmd := "zellij action go-to-tab-name "
  /** Output and errors discarded. */
  const Quiet := " >/dev/null 2>&1"
  const ThenCloseTab := "; zellij action close-tab"

  /** `shell_select_window_cmd`. */
  function ShellSelectWindowCmd(fullName: string): string
  {
    GoToTabCmd + Quote(fullName) + Quiet
  }

  /** `shell_kill_window_cmd`: the same focus, then `close-tab`, each silenced. */
  function ShellKillWindowCmd(fullName: string): string
  {
    GoToTabCmd + Quote(fullName) + Quiet + ThenCloseTab + Quiet
  }

  /** Both shell snippets name the tab by one quoted word that reads back as the name,
      and the kill snippet focuses before it closes. */
  lemma ShellTabCommandsQuoteName(fullName: string)
    ensures && StartsWith(ShellSelectWindowCmd(fullName), GoToTabCmd)
            && StartsWith(ShellKillWindowCmd(fullName), ShellSelectWindowCmd(fullName) + ThenCloseTab)
            && Unquote(ShellSelectWindowCmd(fullName)[|GoToTabCmd|..|GoToTabCmd| + |Quote(fullName)|]) == Some(fullName)
  {
    QuotedPieces(GoToTabCmd, Quote(fullName), Quiet, ThenCloseTab + Quiet);
    StartsWithPrefix(ShellSelectWindowCmd(fullName), ThenCloseTab, Quiet);
    UnquoteQuote(fullName);
  }

  /** The pieces of `pre + q + post + more` can be cut out again. */
  lemma QuotedPieces(pre: string, q: string, post: string, more: string)
    ensures StartsWith(pre + q + post, pre)
    ensures (pre + q + post)[|pre|..|pre| + |q|] == q
    ensures pre + q + (post + more) == (pre + q + post) + more
  {
    assert (pre + q + post)[..|pre|] == pre;
  }

  lemma StartsWithPrefix(x: string, y: string, z: string)
    ensures StartsWith(x + (y + z), x + y)
  {
    assert (x + (y + z))[..|x + y|] == x + y;
  }

  // ===========================================================================
  // schedule_cleanup_and_close

  /** `{:.1}` of a number of tenths. */
  function Tenths(t: nat): string
  {
    NatToString(t / 10) + "." + [DigitChar(t % 10)]
  }

  function SleepScript(delayTenths: nat): string
  {
    "sleep " + Tenths(delayTenths) + ";"
  }

  function GoToTabScript(name: string): string
  {
    " zellij action go-to-tab-name " + Quote(name) + " >/dev/null 2>&1;"
  }

  const CloseTabScript := " zellij action close-tab >/dev/null 2>&1;"

  /** The zellij steps of the cleanup script: the pause, the go-to of the target tab
      when there is one, the go-to of the source tab, and close-tab. */
  function CleanupTrace(source: string, target: Option<string>, delayTenths: nat): seq<Effect>
  {
    [Pause(delayTenths * 100)]
      + (match target case Some(t) => [GoToTab(t)] case None => [])
      + [GoToTab(source)]
      + [Close]
  }

  /** The shell text of one step of the cleanup script. */
  function RenderStep(e: Effect): string
  {
    match e
    case Pause(ms) => SleepScript(ms / 100)
    case Run(GoToTabName(name)) => GoToTabScript(name)
    case Run(CloseTab) => CloseTabScript
    case Run(_) => ""
  }

  /** The shell text of the steps, in order. */
  function RenderSteps(trace: seq<Effect>): string
  {
    if trace == [] then "" else RenderSteps(trace[..|trace| - 1]) + RenderStep(trace[|trace| - 1])
  }

  /** The whole cleanup script: the rendered steps, then a blank and the caller's script
      when that is non-empty. */
  function CleanupScript(source: string, target: Option<string>, cleanup: string, delayTenths: nat): string
  {
    RenderSteps(CleanupTrace(source, target, delayTenths)) + (if cleanup != "" then " " + cleanup else "")
  }

  /** `schedule_cleanup_and_close`: builds the script step by step and returns the
      argument list for the detached `sh` that runs it. */
  method ScheduleCleanupAndClose(source: string, target: Option<string>, cleanup: string, delayTenths: nat)
    returns (argv: seq<string>)
    ensures argv == ["-c", Detached(CleanupScript(source, target, cleanup, delayTenths))]
  {
    var script := SleepScript(delayTenths);
    if target.Some? {
      script := script + GoToTabScript(target.value);
    }
    script := script + GoToTabScript(source);
    script := script + CloseTabScript;
    RenderCleanupTrace(source, target, delayTenths);
    ghost var steps := script;
    assert steps == RenderSteps(CleanupTrace(source, target, delayTenths));
    if cleanup != "" {
      script := script + " ";
      script := script + cleanup;
      Assoc(steps, " ", cleanup);
    } else {
      AppendNothing(script);
    }
    return ["-c", Detached(script)];
  }

  lemma AppendNothing(s: string)
    ensures s + "" == s
  {
  }

  lemma RenderSnoc(trace: seq<Effect>, e: Effect)
    ensures RenderSteps(trace + [e]) == RenderSteps(trace) + RenderStep(e)
  {
    assert (trace + [e])[..|trace|] == trace;
  }

  lemma PauseTenths(d: nat)
    ensures RenderStep(Pause(d * 100)) == SleepScript(d)
  {
    assert (d * 100) / 100 == d;
  }

  lemma EmptyConcat(s: string)
    ensures "" + s == s
  {
  }

  /** The text of the cleanup steps, step by step. */
  lemma RenderCleanupTrace(source: string, target: Option<string>, delayTenths: nat)
    ensures RenderSteps(CleanupTrace(source, target, delayTenths))
      == (match target
          case Some(t) => SleepScript(delayTenths) + GoToTabScript(t)
          case None => SleepScript(delayTenths))
        + GoToTabScript(source) + CloseTabScript
  {
    var p := [Pause(delayTenths * 100)];
    var b := match target case Some(t) => [GoToTab(t)] case None => [];
    RenderSnoc(p + b + [GoToTab(source)], Close);
    RenderSnoc(p + b, GoToTab(source));
    RenderPrefix(target, delayTenths);
  }

  lemma RenderPrefix(target: Option<string>, delayTenths: nat)
    ensures RenderSteps([Pause(delayTenths * 100)] + (match target case Some(t) => [GoToTab(t)] case None => []))
      == (match target
          case Some(t) => SleepScript(delayTenths) + GoToTabScript(t)
          case None => SleepScript(delayTenths))
  {
    var p := [Pause(delayTenths * 100)];
    RenderPause(delayTenths);
    if target.Some? {
      RenderSnoc(p, GoToTab(target.value));
    } else {
      AppendEmpty(p);
    }
  }

  lemma AppendEmpty(p: seq<Effect>)
    ensures p + [] == p
  {
  }

  lemma RenderPause(d: nat)
    ensures RenderSteps([Pause(d * 100)]) == SleepScript(d)
  {
    RenderSnoc([], Pause(d * 100));
    assert [] + [Pause(d * 100)] == [Pause(d * 100)];
    PauseTenths(d);
    EmptyConcat(SleepScript(d));
  }

  /** Whatever tab had the focus and whether a target is given, the cleanup steps close
      the source tab and no other. */
  lemma CleanupClosesSource(t: Tabs, source: string, target: Option<string>, delayTenths: nat)
    requires source in t.names
    ensures RunTabs(t, CleanupTrace(source, target, delayTenths)).names == t.names - {source}
  {
    var a := [Pause(delayTenths * 100)];
    var b := match target case Some(n) => [GoToTab(n)] case None => [];
    RunTabsAppend(t, a + b + [GoToTab(source)], [Close]);
    RunTabsAppend(t, a + b, [GoToTab(source)]);
    RunTabsAppend(t, a, b);
    RunTabsSingle(t, Pause(delayTenths * 100));
    var t1 := RunTabs(t, a);
    if target.Some? {
      RunTabsSingle(t1, GoToTab(target.value));
    }
    var t2 := RunTabs(t, a + b);
    assert t2.names == t.names;
    RunTabsSingle(t2, GoToTab(source));
    RunTabsSingle(StepTabs(t2, GoToTab(source)), Close);
  }

  lemma RunTabsSingle(t: Tabs, e: Effect)
    ensures RunTabs(t, [e]) == StepTabs(t, e)
  {
    assert [e][1..] == [];
  }

  lemma {:induction false} RunTabsAppend(t: Tabs, a: seq<Effect>, b: seq<Effect>)
    ensures RunTabs(t, a + b) == RunTabs(RunTabs(t, a), b)
    decreases |a|
  {
    if a != [] {
      assert (a + b)[0] == a[0];
      assert (a + b)[1..] == a[1..] + b;
      RunTabsAppend(StepTabs(t, a[0]), a[1..], b);
    } else {
      assert a + b == b;
    }
  }

  /** The script starts with the pause and, when a cleanup script is given, ends with a
      blank and that script. */
  lemma CleanupScriptShape(source: string, target: Option<string>, cleanup: string, delayTenths: nat)
    ensures StartsWith(CleanupScript(source, target, cleanup, delayTenths), SleepScript(delayTenths))
    ensures cleanup != "" ==> var s := CleanupScript(source, target, cleanup, delayTenths);
      |cleanup| < |s| && s[|s| - |cleanup| - 1..] == " " + cleanup
  {
    RenderCleanupTrace(source, target, delayTenths);
    var head := SleepScript(delayTenths);
    var steps := RenderSteps(CleanupTrace(source, target, delayTenths));
    var tail := if cleanup != "" then " " + cleanup else "";
    var first := match target case Some(t) => head + GoToTabScript(t) case None => head;
    PrefixOfAppend(head, head, if target.Some? then GoToTabScript(target.value) else "");
    PrefixOfAppend(first, head, GoToTabScript(source));
    PrefixOfAppend(first + GoToTabScript(source), head, CloseTabScript);
    PrefixOfAppend(steps, head, tail);
    SuffixOfAppend(steps, tail);
  }

  lemma Assoc(a: string, b: string, c: string)
    ensures (a + b) + c == a + (b + c)
  {
  }

  lemma PrefixOfAppend(a: string, p: string, b: string)
    requires StartsWith(a, p) || a == p
    ensures StartsWith(a + b, p)
  {
    assert (a + b)[..|p|] == a[..|p|];
  }

  lemma SuffixOfAppend(a: string, b: string)
    ensures (a + b)[|a + b| - |b|..] == b
  {
  }
}
