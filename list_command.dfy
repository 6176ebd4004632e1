/** `workmux list` (src/command/list.rs): one table row per worktree with its branch, pull
    request status, window and unmerged-commit markers and path, the PR column dropped
    unless asked for. The worktree list, the current directory and the relative-path
    computation are parameters; the rendered text is left to the table library, so the
    model stops at the table's header and cells. */
module ListCommand {
  import opened Wrappers
  import opened Text

  /** A pull request as `gh` summarises it. */
  datatype PrSummary = PrSummary(number: nat, state: string, isDraft: bool)

  /** What `workflow::list` reports about one worktree. */
  datatype WorktreeInfo = WorktreeInfo(branch: string, path: string, hasTmux: bool,
                                       hasUnmerged: bool, prInfo: Option<PrSummary>)

  /** One row of the table, in column order. */
  datatype WorktreeRow = WorktreeRow(branch: string, prStatus: string, tmuxStatus: string,
                                     unmergedStatus: string, pathStr: string)

  /** The table handed to the renderer, or the message for an empty list. */
  datatype Listing = NoWorktrees | Rendered(header: seq<string>, rows: seq<seq<string>>)

  const Header: seq<string> := ["BRANCH", "PR", "TMUX", "UNMERGED", "PATH"]
  const PrColumn: nat := 1
  const Reset := "\U{1b}[0m"
  const Here := "(here)"
  const Absent := "-"
  const HasTmuxMarker := "\U{2713}"
  const UnmergedMarker := "\U{25CF}"

  /** The Nerd Font icon and ANSI colour of a pull request: gray for a draft, green for
      open, magenta for merged, red for closed, and as open for any other state. */
  datatype PrStyle = PrStyle(icon: char, color: string)

  const DraftStyle := PrStyle('\U{f177}', "\U{1b}[90m")
  const OpenStyle := PrStyle('\U{f407}', "\U{1b}[32m")
  const MergedStyle := PrStyle('\U{f419}', "\U{1b}[35m")
  const ClosedStyle := PrStyle('\U{f406}', "\U{1b}[31m")

  function StyleOf(pr: PrSummary): PrStyle
  {
    if pr.state == "OPEN" && pr.isDraft then DraftStyle
    else if pr.state == "OPEN" then OpenStyle
    else if pr.state == "MERGED" then MergedStyle
    else if pr.state == "CLOSED" then ClosedStyle
    else OpenStyle
  }

  /** `format_pr_status`: `#<number> <colour><icon>` and a colour reset, or `-`. */
  function FormatPrStatus(prInfo: Option<PrSummary>): (s: string)
    ensures prInfo.None? <==> s == Absent
    ensures prInfo.Some? ==> |s| > 0 && s[0] == '#'
  {
    match prInfo
    case None => Absent
    case Some(pr) =>
      var style := StyleOf(pr);
      "#" + NatToString(pr.number) + " " + style.color + [style.icon] + Reset
  }

  /** The PATH cell: the path relative to the current directory, `(here)` for the
      directory itself, the absolute path when no relative one exists. */
  function PathStr(relative: Option<string>, path: string): (s: string)
    ensures relative.Some? && (relative.value == [] || relative.value == ".") ==> s == Here
    ensures relative.Some? && relative.value != [] && relative.value != "." ==> s == relative.value
    ensures relative.None? ==> s == path
  {
    match relative
    case Some(p) => if p == [] || p == "." then Here else p
    case None => path
  }

  /** The row for one worktree; `diff(path, base)` is the relative path, when one exists. */
  function MakeRow(wt: WorktreeInfo, currentDir: string, diff: (string, string) -> Option<string>): WorktreeRow
  {
    WorktreeRow(wt.branch, FormatPrStatus(wt.prInfo),
                if wt.hasTmux then HasTmuxMarker else Absent,
                if wt.hasUnmerged then UnmergedMarker else Absent,
                PathStr(diff(wt.path, currentDir), wt.path))
  }

  function Cells(row: WorktreeRow): seq<string>
  {
    [row.branch, row.prStatus, row.tmuxStatus, row.unmergedStatus, row.pathStr]
  }

  /** `s` without its element at `c`, unchanged when there is none. */
  function RemoveAt(s: seq<string>, c: nat): (r: seq<string>)
    ensures c < |s|
      ==> && |r| == |s| - 1
          && (forall i :: 0 <= i < c ==> r[i] == s[i])
          && (forall i :: c <= i < |r| ==> r[i] == s[i + 1])
    ensures c >= |s| ==> r == s
  {
    if c < |s| then s[..c] + s[c + 1..] else s
  }

  /** The table over the worktree rows, with header and cells; changed in place. */
  class Table {
    var header: seq<string>
    var rows: seq<seq<string>>

    /** Every row has one cell per header. */
    predicate Rectangular()
      reads this
    {
      forall k :: 0 <= k < |rows| ==> |rows[k]| == |header|
    }

    constructor(data: seq<WorktreeRow>)
      ensures header == Header
      ensures rows == seq(|data|, k requires 0 <= k < |data| => Cells(data[k]))
      ensures Rectangular()
    {
      header := Header;
      rows := seq(|data|, k requires 0 <= k < |data| => Cells(data[k]));
    }

    /** `Remove::column`: drops column `c` from the header and from every row. */
    method RemoveColumn(c: nat)
      modifies this
      ensures header == RemoveAt(old(header), c)
      ensures rows == seq(|old(rows)|, k requires 0 <= k < |old(rows)| => RemoveAt(old(rows)[k], c))
      ensures old(Rectangular()) ==> Rectangular()
    {
      var before := rows;
      var kept: seq<seq<string>> := [];
      for k := 0 to |before|
        invariant kept == seq(k, j requires 0 <= j < k => RemoveAt(before[j], c))
      {
        kept := kept + [RemoveAt(before[k], c)];
      }
      header := RemoveAt(header, c);
      rows := kept;
    }
  }

  /** What the command shows, as a function of the worktrees. */
  function ListingOf(worktrees: seq<WorktreeInfo>, showPr: bool, currentDir: string,
                     diff: (string, string) -> Option<string>): Listing
  {
    if worktrees == [] then NoWorktrees
    else
      var cells := seq(|worktrees|, k requires 0 <= k < |worktrees| => Cells(MakeRow(worktrees[k], currentDir, diff)));
      if showPr then Rendered(Header, cells)
      else Rendered(RemoveAt(Header, PrColumn), seq(|cells|, k requires 0 <= k < |cells| => RemoveAt(cells[k], PrColumn)))
  }

  /** `run`. `worktrees` is the outcome of loading the configuration and listing the
      worktrees; `currentDir` that of asking for the current directory, which is asked
      only when there is something to show. */
  method Run(showPr: bool, worktrees: Result<seq<WorktreeInfo>>, currentDir: Result<string>,
             diff: (string, string) -> Option<string>) returns (r: Result<Listing>)
    ensures worktrees.Err? ==> r == Err(worktrees.error)
    ensures worktrees.Ok? && worktrees.value == [] ==> r == Ok(NoWorktrees)
    ensures worktrees.Ok? && worktrees.value != [] && currentDir.Err? ==> r == Err(currentDir.error)
    ensures worktrees.Ok? && currentDir.Ok? ==> r == Ok(ListingOf(worktrees.value, showPr, currentDir.value, diff))
  {
    if worktrees.Err? {
      return Err(worktrees.error);
    }
    var wts := worktrees.value;
    if wts == [] {
      return Ok(NoWorktrees);
    }
    if currentDir.Err? {
      return Err(currentDir.error);
    }
    var data := seq(|wts|, k requires 0 <= k < |wts| => MakeRow(wts[k], currentDir.value, diff));
    var table := new Table(data);
    assert table.rows == seq(|wts|, k requires 0 <= k < |wts| => Cells(MakeRow(wts[k], currentDir.value, diff)));
    if !showPr {
      table.RemoveColumn(PrColumn);
    }
    return Ok(Rendered(table.header, table.rows));
  }

  // ---------------------------------------------------------------------------
  // Properties

  /** Rows follow the worktrees in order. With `--pr` every row has the five columns; without
      it the PR column is gone and row `k` is the branch, the two markers and the path of
      worktree `k`, and the header lacks `PR`. */
  lemma ListingColumns(worktrees: seq<WorktreeInfo>, showPr: bool, currentDir: string,
                       diff: (string, string) -> Option<string>)
    requires worktrees != []
    ensures var l := ListingOf(worktrees, showPr, currentDir, diff);
      && l.Rendered? && |l.rows| == |worktrees|
      && (showPr
          ==> && l.header == Header
              && forall k :: 0 <= k < |worktrees| ==> l.rows[k] == Cells(MakeRow(worktrees[k], currentDir, diff)))
      && (!showPr
          ==> && l.header == ["BRANCH", "TMUX", "UNMERGED", "PATH"]
              && forall k :: 0 <= k < |worktrees| ==>
                   var row := MakeRow(worktrees[k], currentDir, diff);
                   l.rows[k] == [worktrees[k].branch, row.tmuxStatus, row.unmergedStatus, row.pathStr])
  {
    var l := ListingOf(worktrees, showPr, currentDir, diff);
    if !showPr {
      forall k | 0 <= k < |worktrees|
        ensures var row := MakeRow(worktrees[k], currentDir, diff);
          l.rows[k] == [worktrees[k].branch, row.tmuxStatus, row.unmergedStatus, row.pathStr]
      {
        var row := MakeRow(worktrees[k], currentDir, diff);
        assert RemoveAt(Cells(row), PrColumn) == [row.branch, row.tmuxStatus, row.unmergedStatus, row.pathStr];
      }
    }
  }

  /** The markers: ✓ exactly when the worktree has a window, ● exactly when it has
      unmerged commits, `-` otherwise; the PR cell is `-` exactly without a PR. */
  lemma RowMarkers(wt: WorktreeInfo, currentDir: string, diff: (string, string) -> Option<string>)
    ensures var row := MakeRow(wt, currentDir, diff);
      && (row.tmuxStatus == HasTmuxMarker <==> wt.hasTmux)
      && (row.tmuxStatus == Absent <==> !wt.hasTmux)
      && (row.unmergedStatus == UnmergedMarker <==> wt.hasUnmerged)
      && (row.unmergedStatus == Absent <==> !wt.hasUnmerged)
      && (row.prStatus == Absent <==> wt.prInfo.None?)
      && row.branch == wt.branch
  {
    assert HasTmuxMarker != Absent && UnmergedMarker != Absent by {
      assert HasTmuxMarker[0] != Absent[0] && UnmergedMarker[0] != Absent[0];
    }
  }

  /** The PR number reads back from the digits between `#` and the blank, and the rest of
      the cell is the style's colour and icon, then the reset. */
  lemma PrStatusNumber(pr: PrSummary)
    ensures var s := FormatPrStatus(Some(pr));
      var n := |NatToString(pr.number)|;
      && |s| == n + 3 + |StyleOf(pr).color| + |Reset|
      && (forall i :: 1 <= i <= n ==> IsDigit(s[i]))
      && ParseDigits(s[1..n + 1]) == pr.number
      && s[n + 1] == ' '
      && s[n + 2..] == StyleOf(pr).color + [StyleOf(pr).icon] + Reset
  {
    var style := StyleOf(pr);
    var digits, rest := NatToString(pr.number), style.color + [style.icon] + Reset;
    var s := FormatPrStatus(Some(pr));
    assert s == "#" + digits + " " + rest;
    DigitsBetween(digits, rest);
    forall i | 1 <= i <= |digits|
      ensures IsDigit(s[i])
    {
      assert s[i] == s[1..|digits| + 1][i - 1];
    }
    ParseNatToString(pr.number);
  }

  lemma DigitsBetween(digits: string, rest: string)
    ensures var s := "#" + digits + " " + rest;
      && |s| == |digits| + 2 + |rest|
      && s[1..|digits| + 1] == digits && s[|digits| + 1] == ' ' && s[|digits| + 2..] == rest
  {
    var s := "#" + digits + " " + rest;
    assert s == "#" + (digits + (" " + rest));
  }

  /** The four kinds of pull request get four different icons, so the cell tells them
      apart; a state outside the four is shown as open. */
  lemma StylesDistinguishStates(a: PrSummary, b: PrSummary)
    requires a.state in {"OPEN", "MERGED", "CLOSED"} && b.state in {"OPEN", "MERGED", "CLOSED"}
    requires a.state != b.state || (a.state == "OPEN" && a.isDraft != b.isDraft)
    ensures StyleOf(a).icon != StyleOf(b).icon
  {
    assert "OPEN" != "MERGED" && "OPEN" != "CLOSED" && "MERGED" != "CLOSED" by {
      assert "OPEN"[0] != "MERGED"[0] && "OPEN"[0] != "CLOSED"[0] && "MERGED"[0] != "CLOSED"[0];
    }
  }

  lemma UnknownStateShownOpen(pr: PrSummary)
    requires pr.state !in {"OPEN", "MERGED", "CLOSED"}
    ensures StyleOf(pr) == OpenStyle
  {
  }
}
