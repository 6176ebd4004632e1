/** `workmux set-window-status` (src/command/set_window_status.rs): an agent hook that sets
    or clears the status icon of its pane's window and keeps the stack of finished panes.
    The configuration, the current pane and the outcomes of the multiplexer calls are
    parameters; the calls made are returned as a trace. */
module SetWindowStatus {
  import opened Wrappers

  datatype StatusCommand = Working | Waiting | Done | Clear

  /** The configured icons, one per status. */
  datatype StatusIcons = StatusIcons(working: string, waiting: string, done: string)

  /** The part of the configuration the command reads. */
  datatype StatusConfig = StatusConfig(statusFormat: Option<bool>, icons: StatusIcons)

  /** A call made for the pane. */
  datatype Effect =
    | EnsureStatusFormat(pane: string)
    | PushDone(pane: string)
    | PopDone(pane: string)
    | SetStatus(pane: string, icon: string, autoClear: bool)
    | ClearStatus(pane: string)

  /** The icon a setting command shows. */
  function IconOf(cmd: StatusCommand, icons: StatusIcons): string
    requires cmd != Clear
  {
    match cmd
    case Working => icons.working
    case Waiting => icons.waiting
    case Done => icons.done
  }

  /** Whether the status format is (re)applied first: when it is not switched off, and not
      for `clear`, which shows nothing. */
  predicate FormatsStatus(cmd: StatusCommand, config: StatusConfig)
  {
    config.statusFormat.GetOr(true) && cmd != Clear
  }

  /** The calls `run` makes for a pane, in order. */
  function StatusEffects(cmd: StatusCommand, config: StatusConfig, pane: string): seq<Effect>
  {
    (if FormatsStatus(cmd, config) then [EnsureStatusFormat(pane)] else [])
    + (if cmd == Done then [PushDone(pane)] else [PopDone(pane)])
    + (if cmd == Clear then [ClearStatus(pane)] else [SetStatus(pane, IconOf(cmd, config.icons), true)])
  }

  /** `run`. `config` is the loaded configuration or the error loading it; `pane` the
      current pane, None outside a multiplexer; `ensured`, `setOutcome` and `cleared` the outcomes
      of `ensure_status_format`, `set_status` and `clear_status`. */
  method Run(cmd: StatusCommand, config: Result<StatusConfig>, pane: Option<string>,
             ensured: Result<Unit>, setOutcome: Result<Unit>, cleared: Result<Unit>)
    returns (r: Result<Unit>, effects: seq<Effect>)
    ensures config.Err? ==> r == Err(config.error) && effects == []
    ensures config.Ok? && pane.None? ==> r == Ok(Unit) && effects == []
    ensures config.Ok? && pane.Some?
      ==> && effects == StatusEffects(cmd, config.value, pane.value)
          && r == (if cmd == Clear then cleared else setOutcome)
  {
    effects := [];
    if config.Err? {
      return Err(config.error), effects;
    }
    var cfg := config.value;
    if pane.None? {
      return Ok(Unit), effects;
    }
    var p := pane.value;
    if cfg.statusFormat.GetOr(true) && cmd != Clear {
      // Its outcome, `ensured`, is discarded.
      effects := effects + [EnsureStatusFormat(p)];
    }
    match cmd {
      case Working =>
        effects := effects + [PopDone(p)];
        effects := effects + [SetStatus(p, cfg.icons.working, true)];
        r := setOutcome;
      case Waiting =>
        effects := effects + [PopDone(p)];
        effects := effects + [SetStatus(p, cfg.icons.waiting, true)];
        r := setOutcome;
      case Done =>
        effects := effects + [PushDone(p)];
        effects := effects + [SetStatus(p, cfg.icons.done, true)];
        r := setOutcome;
      case Clear =>
        effects := effects + [PopDone(p)];
        effects := effects + [ClearStatus(p)];
        r := cleared;
    }
  }

  // ---------------------------------------------------------------------------
  // Properties

  /** The status format is applied exactly when it is not switched off and the command is
      not `clear`, and then before anything else. */
  lemma FormatRule(cmd: StatusCommand, config: StatusConfig, pane: string)
    ensures var e := StatusEffects(cmd, config, pane);
      && (EnsureStatusFormat(pane) in e <==> config.statusFormat != Some(false) && cmd != Clear)
      && (EnsureStatusFormat(pane) in e ==> e[0] == EnsureStatusFormat(pane))
  {
  }

  /** `done` pushes the pane onto the done stack; every other command pops it; exactly one
      of the two happens. */
  lemma DoneStackRule(cmd: StatusCommand, config: StatusConfig, pane: string)
    ensures var e := StatusEffects(cmd, config, pane);
      && (PushDone(pane) in e <==> cmd == Done)
      && (PopDone(pane) in e <==> cmd != Done)
      && (forall i :: 0 <= i < |e| && (e[i].PushDone? || e[i].PopDone?) ==> i == |e| - 2)
  {
  }

  /** The last call sets the command's own icon with auto-clear for `working`, `waiting`
      and `done`; `clear` clears the status and never sets one. Every call is for the
      current pane. */
  lemma StatusCallRule(cmd: StatusCommand, config: StatusConfig, pane: string)
    ensures var e := StatusEffects(cmd, config, pane);
      && 2 <= |e| <= 3
      && (cmd != Clear ==> e[|e| - 1] == SetStatus(pane, IconOf(cmd, config.icons), true))
      && (cmd == Clear ==> e[|e| - 1] == ClearStatus(pane) && forall i :: 0 <= i < |e| ==> !e[i].SetStatus?)
      && (forall i :: 0 <= i < |e| ==> e[i].pane == pane)
  {
  }
}
