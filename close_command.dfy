/** `workmux close` (src/command/close.rs): closes the window of a worktree, stopping its
    sandbox containers first, while keeping the worktree. The configuration, git and
    multiplexer queries are parameters; the multiplexer calls made are returned as a
    trace. */
module CloseCommand {
  import opened Wrappers
  import opened Text

  /** How a worktree is opened. */
  datatype TmuxTarget = Window | Session

  /** A multiplexer call that changes something. */
  datatype Effect =
    | StopContainers(handle: string)
    | ScheduleClose(window: string, delayMs: nat)
    | Kill(window: string)

  /** What the multiplexer reports: the current window name (None outside it), the
      window names open, and the outcome of the closing calls. Each query may fail. */
  datatype Mux = Mux(current: Result<Option<string>>, open: Result<set<string>>,
                     schedule: Result<Unit>, kill: Result<Unit>)

  /** The window to close and whether the command runs inside it. */
  datatype Resolved = Resolved(full: string, isCurrent: bool)

  const CloseDelayMs: nat := 100
  const KillFailed := "Failed to close window"

  /** `get_worktree_target`: the worktree's `target` metadata selects session mode only
      when it is exactly `session`. */
  function GetWorktreeTarget(meta: Option<string>): (t: TmuxTarget)
    ensures t == Session <==> meta == Some("session")
  {
    match meta
    case Some(target) => if target == "session" then Session else Window
    case None => Window
  }

  function TargetType(t: TmuxTarget): string
  {
    if t == Session then "session" else "window"
  }

  /** `util::prefixed`, taken to be concatenation, as the Zellij backend writes it. */
  function Prefixed(prefix: string, handle: string): string
  {
    prefix + handle
  }

  const ListHint := "'workmux list'"

  function Quoted(s: string): string
  {
    "'" + s + "'"
  }

  function NotFound(handle: string): string
  {
    "No worktree found with name " + Quoted(handle) + ". Use " + ListHint + " to see available worktrees."
  }

  function NoActive(t: TmuxTarget, full: string): string
  {
    "No active " + TargetType(t) + " found for " + Quoted(full) + ". The worktree exists but has no open " + TargetType(t) + "."
  }

  /** Which window to close. An explicit name must be a worktree (`found`) and gives the
      prefixed window, current when the command runs in it. Without a name, a current
      window carrying the prefix is taken as it is; otherwise the resolved handle,
      prefixed, and not current. */
  function ResolveTarget(name: Option<string>, resolved: string, prefix: string, found: bool,
                         current: Result<Option<string>>): (r: Result<Resolved>)
    ensures name.Some? && !found ==> r == Err(NotFound(name.value))
    ensures r.Ok? ==> current.Ok?
    ensures name.Some? && found && current.Ok?
      ==> && r.Ok? && r.value.full == prefix + name.value
          && (r.value.isCurrent <==> current.value == Some(prefix + name.value))
    ensures name.None? && current.Ok?
      ==> && r.Ok?
          && (r.value.isCurrent <==> current.value.Some? && StartsWith(current.value.value, prefix))
          && (r.value.isCurrent ==> r.value.full == current.value.value)
          && (!r.value.isCurrent ==> r.value.full == prefix + resolved)
  {
    match name
    case Some(handle) =>
      if !found then Err(NotFound(handle))
      else
        var prefixed := Prefixed(prefix, handle);
        if current.Err? then Err(current.error)
        else Ok(Resolved(prefixed, current.value == Some(prefixed)))
    case None =>
      if current.Err? then Err(current.error)
      else match current.value
        case Some(c) =>
          if StartsWith(c, prefix) then Ok(Resolved(c, true))
          else Ok(Resolved(Prefixed(prefix, resolved), false))
        case None => Ok(Resolved(Prefixed(prefix, resolved), false))
  }

  /** The calls made on an open target: stop the containers of the handle the prefix
      leaves, then schedule the close of the current window or kill another one. */
  function CloseEffects(target: Resolved, prefix: string): seq<Effect>
  {
    (match StripPrefix(target.full, prefix)
     case Some(handle) => [StopContainers(handle)]
     case None => [])
    + [if target.isCurrent then ScheduleClose(target.full, CloseDelayMs) else Kill(target.full)]
  }

  /** `run`. `prefix` is the configured window prefix, or the error loading the
      configuration; `resolved` the outcome of `resolve_name(None)`; `meta` the
      worktree's `target` metadata; `found` whether `find_worktree` finds the named
      worktree. */
  method Run(name: Option<string>, prefix: Result<string>, resolved: Result<string>,
             meta: Option<string>, found: bool, mux: Mux)
    returns (r: Result<Unit>, effects: seq<Effect>)
    ensures prefix.Err? ==> r == Err(prefix.error) && effects == []
    ensures prefix.Ok? && name.None? && resolved.Err? ==> r == Err(resolved.error) && effects == []
    ensures prefix.Ok? && (name.Some? || resolved.Ok?) ==>
      var handle := if name.Some? then name.value else resolved.value;
      var target := ResolveTarget(name, handle, prefix.value, found, mux.current);
      && (target.Err? ==> r == Err(target.error) && effects == [])
      && (target.Ok? && mux.open.Err? ==> r == Err(mux.open.error) && effects == [])
      && (target.Ok? && mux.open.Ok? && target.value.full !in mux.open.value
          ==> r == Err(NoActive(GetWorktreeTarget(meta), target.value.full)) && effects == [])
      && (target.Ok? && mux.open.Ok? && target.value.full in mux.open.value
          ==> && effects == CloseEffects(target.value, prefix.value)
              && r == (if target.value.isCurrent then mux.schedule
                       else if mux.kill.Err? then Err(KillFailed) else Ok(Unit)))
  {
    effects := [];
    if prefix.Err? {
      return Err(prefix.error), effects;
    }
    var handle: string;
    if name.Some? {
      handle := name.value;
    } else {
      if resolved.Err? {
        return Err(resolved.error), effects;
      }
      handle := resolved.value;
    }
    var mode := GetWorktreeTarget(meta);
    var target := ResolveTarget(name, handle, prefix.value, found, mux.current);
    if target.Err? {
      return Err(target.error), effects;
    }
    var full := target.value.full;
    if mux.open.Err? {
      return Err(mux.open.error), effects;
    }
    if full !in mux.open.value {
      return Err(NoActive(mode, full)), effects;
    }
    var stripped := StripPrefix(full, prefix.value);
    if stripped.Some? {
      effects := effects + [StopContainers(stripped.value)];
    }
    if target.value.isCurrent {
      effects := effects + [ScheduleClose(full, CloseDelayMs)];
      r := mux.schedule;
    } else {
      effects := effects + [Kill(full)];
      r := if mux.kill.Err? then Err(KillFailed) else Ok(Unit);
    }
  }

  // ---------------------------------------------------------------------------
  // Properties

  /** Exactly one closing call, naming the target, and it is the last one: a scheduled
      close with a 100 ms delay iff the target is current, a kill otherwise. */
  lemma OneCloseCall(target: Resolved, prefix: string)
    ensures var e := CloseEffects(target, prefix);
      && 1 <= |e| <= 2
      && (e[|e| - 1] == ScheduleClose(target.full, 100) <==> target.isCurrent)
      && (e[|e| - 1] == Kill(target.full) <==> !target.isCurrent)
      && forall i :: 0 <= i < |e| - 1 ==> e[i].StopContainers?
  {
  }

  /** Containers are stopped for the handle the prefix leaves, and only when the target
      carries the prefix. */
  lemma StopsPrefixedHandle(target: Resolved, prefix: string)
    ensures StartsWith(target.full, prefix) <==> CloseEffects(target, prefix)[0].StopContainers?
    ensures CloseEffects(target, prefix)[0].StopContainers?
      ==> prefix + CloseEffects(target, prefix)[0].handle == target.full
  {
  }

  /** Closing a worktree by name stops the containers of that very worktree. */
  lemma ExplicitNameStopsItsContainers(h: string, prefix: string, mux: Mux)
    requires mux.current.Ok?
    ensures var t := ResolveTarget(Some(h), h, prefix, true, mux.current);
      t.Ok? && CloseEffects(t.value, prefix)[0] == StopContainers(h)
  {
    var t := ResolveTarget(Some(h), h, prefix, true, mux.current);
    assert StartsWith(prefix + h, prefix) by { assert (prefix + h)[..|prefix|] == prefix; }
    assert (prefix + h)[|prefix|..] == h;
  }

  /** Without a name, a target taken from the current window is always prefixed, so its
      containers are always stopped, and it is closed by scheduling. */
  lemma CurrentWindowScheduled(resolved: string, prefix: string, current: string)
    requires StartsWith(current, prefix)
    ensures var t := ResolveTarget(None, resolved, prefix, false, Ok(Some(current)));
      && t == Ok(Resolved(current, true))
      && CloseEffects(t.value, prefix) == [StopContainers(current[|prefix|..]), ScheduleClose(current, 100)]
  {
  }

  /** A missing worktree is named in the error, which points to `workmux list`. */
  lemma NotFoundNamesHandle(handle: string)
    ensures Contains(NotFound(handle), ListHint) && Contains(NotFound(handle), Quoted(handle))
  {
    FivePieces("No worktree found with name ", Quoted(handle), ". Use ", ListHint,
               " to see available worktrees.");
  }

  /** A target with no open window is named in the error, which says whether a window or
      a session was looked for. */
  lemma NoActiveNamesTarget(meta: Option<string>, full: string)
    ensures Contains(NoActive(GetWorktreeTarget(meta), full), Quoted(full))
    ensures StartsWith(NoActive(GetWorktreeTarget(meta), full), "No active " + TargetType(GetWorktreeTarget(meta)))
  {
    var t := TargetType(GetWorktreeTarget(meta));
    SevenPieces("No active ", t, " found for ", Quoted(full), ". The worktree exists but has no open ", t, ".");
  }

  /** The kind named is `session` exactly in session mode. */
  lemma TargetTypeNamesMode(meta: Option<string>)
    ensures TargetType(GetWorktreeTarget(meta)) == "session" <==> meta == Some("session")
  {
    assert "window"[0] != "session"[0];
  }

  lemma FivePieces(a: string, b: string, c: string, d: string, e: string)
    ensures Contains(a + b + c + d + e, b) && Contains(a + b + c + d + e, d)
  {
    var s := a + b + c + d + e;
    assert s[|a|..|a| + |b|] == b;
    assert s[|a| + |b| + |c|..|a| + |b| + |c| + |d|] == d;
    assert OccursAt(s, b, |a|) && OccursAt(s, d, |a| + |b| + |c|);
    OccursContains(s, b, |a|);
    OccursContains(s, d, |a| + |b| + |c|);
  }

  lemma SevenPieces(a: string, b: string, c: string, d: string, e: string, f: string, g: string)
    ensures Contains(a + b + c + d + e + f + g, d) && StartsWith(a + b + c + d + e + f + g, a + b)
  {
    var s := a + b + c + d + e + f + g;
    var i := |a| + |b| + |c|;
    assert s[i..i + |d|] == d;
    assert s[..|a| + |b|] == a + b;
    assert OccursAt(s, d, i);
    OccursContains(s, d, i);
  }
}
