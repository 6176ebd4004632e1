/** Lima VM instance decisions (src/sandbox/lima/instance.rs): the records of
    `limactl list --json`, the running checks, and the order of limactl invocations
    `get_or_create` and `stop_by_name` make. The limactl processes themselves are
    parameters: each invocation's outcome is given. */
module LimaInstance {
  import opened Wrappers
  import opened Text
  import opened Seqs
  import opened Paths

  /** A record of `limactl list --json`. */
  datatype InstanceInfo = InstanceInfo(name: string, status: string, dir: Option<string>)
  {
    /** `LimaInstanceInfo::is_running`. */
    predicate IsRunning()
    {
      status == "Running"
    }
  }

  /** The JSON decoder of one record, which is not part of this model: None when the line
      is not a record. */
  type RowParser = string -> Option<InstanceInfo>

  /** What running a limactl command reports: whether it exited with success, its standard
      output (Err when it is not UTF-8) and its standard error. */
  datatype Output = Output(success: bool, stdout: Result<string>, stderr: string)

  /** `parse_lima_instances`: one record per line that is not blank, in order; the whole
      parse fails at the first line that is not a record, or on output that is not UTF-8. */
  function ParseLimaInstances(stdout: Result<string>, parse: RowParser): (r: Result<seq<InstanceInfo>>)
    ensures stdout.Err? ==> r.Err?
    ensures stdout.Ok? ==> (r.Ok? <==> forall k :: 0 <= k < |Rows(stdout.value)| ==> parse(Rows(stdout.value)[k]).Some?)
    ensures stdout.Ok? && r.Ok? ==> |r.value| == |Rows(stdout.value)|
    ensures stdout.Ok? && r.Ok? ==> forall k :: 0 <= k < |r.value| ==> Some(r.value[k]) == parse(Rows(stdout.value)[k])
  {
    match stdout
    case Err(e) => Err(e)
    case Ok(text) => ParseRows(Rows(text), parse)
  }

  /** The lines that are not blank, in order. */
  function Rows(text: string): (rows: seq<string>)
    ensures forall k :: 0 <= k < |rows| ==> NonBlank(rows[k])
  {
    Filter(Lines(text), NonBlank)
  }

  /** `!l.trim().is_empty()`: the line has a character that is not whitespace. */
  predicate NonBlank(line: string)
  {
    !Blank(line)
  }

  lemma NonBlankIsTrimNonEmpty(line: string)
    ensures NonBlank(line) <==> Trim(line) != []
  {
    TrimBlank(line);
  }

  /** `map(..).collect::<Result<Vec<_>>>()`: stops at the first failure. */
  function ParseRows(rows: seq<string>, parse: RowParser): (r: Result<seq<InstanceInfo>>)
    ensures r.Ok? <==> forall k :: 0 <= k < |rows| ==> parse(rows[k]).Some?
    ensures r.Ok? ==> |r.value| == |rows| && forall k :: 0 <= k < |rows| ==> Some(r.value[k]) == parse(rows[k])
    ensures r.Err? ==> exists k :: 0 <= k < |rows| && parse(rows[k]).None? && r.error == RowError(rows[k])
  {
    if rows == [] then Ok([])
    else match parse(rows[0])
      case None => Err(RowError(rows[0]))
      case Some(info) =>
        match ParseRows(rows[1..], parse)
        case Err(e) =>
          assert forall k :: 1 <= k < |rows| ==> rows[k] == rows[1..][k - 1];
          Err(e)
        case Ok(infos) =>
          assert forall k :: 1 <= k < |rows| ==> rows[k] == rows[1..][k - 1];
          Ok([info] + infos)
  }

  function RowError(line: string): string
  {
    "Failed to parse limactl row: " + line
  }

  /** Blank lines, wherever they are, do not change the result. */
  lemma BlankLinesIgnored(before: seq<string>, blank: string, after: seq<string>, parse: RowParser)
    requires Trim(blank) == []
    ensures ParseRows(Filter(before + [blank] + after, NonBlank), parse)
         == ParseRows(Filter(before + after, NonBlank), parse)
  {
    NonBlankIsTrimNonEmpty(blank);
    FilterAppend(before + [blank], after, NonBlank);
    FilterAppend(before, [blank], NonBlank);
    FilterAppend(before, after, NonBlank);
    assert Filter([blank], NonBlank) == [];
    assert Filter(before, NonBlank) + [] == Filter(before, NonBlank);
  }

  /** The first failing line is the one the error names. */
  lemma {:induction false} FirstBadRowReported(good: seq<string>, bad: string, rest: seq<string>, parse: RowParser)
    requires forall k :: 0 <= k < |good| ==> parse(good[k]).Some?
    requires parse(bad).None?
    ensures ParseRows(good + [bad] + rest, parse) == Err(RowError(bad))
  {
    if good != [] {
      assert (good + [bad] + rest)[1..] == good[1..] + [bad] + rest;
      assert forall k :: 0 <= k < |good| - 1 ==> good[1..][k] == good[k + 1];
      FirstBadRowReported(good[1..], bad, rest, parse);
      assert (good + [bad] + rest)[0] == good[0];
    } else {
      assert (good + [bad] + rest)[0] == bad;
    }
  }

  // ---------------------------------------------------------------------------
  // LimaInstance

  /** `LimaInstance`: its name and the path of its configuration file, which `create`
      writes to `<temp dir>/workmux-lima-<name>.yaml`. */
  datatype Instance = Instance(name: string, configPath: string)

  function ConfigPath(tempDir: string, name: string): (path: string)
    ensures IsDir(tempDir) ==> path == tempDir + "/" + ConfigFileName(name)
    ensures tempDir != [] && tempDir[|tempDir| - 1] == '/' ==> path == tempDir + ConfigFileName(name)
  {
    assert ConfigFileName(name)[0] == 'w';
    JoinPath(tempDir, ConfigFileName(name))
  }

  function ConfigFileName(name: string): string
  {
    "workmux-lima-" + name + ".yaml"
  }

  /** `LimaInstance::create`: fails only when the configuration cannot be written. */
  function Create(name: string, tempDir: string, writeOk: bool): (r: Result<Instance>)
    ensures r.Ok? <==> writeOk
    ensures r.Ok? ==> r.value.name == name
  {
    if writeOk then Ok(Instance(name, ConfigPath(tempDir, name)))
    else Err("Failed to write Lima config to " + ConfigPath(tempDir, name))
  }

  /** `LimaInstance::is_running` over a listing: some record has the instance's name and
      is running. */
  predicate AnyRunning(instances: seq<InstanceInfo>, name: string)
  {
    exists k :: 0 <= k < |instances| && instances[k].name == name && instances[k].IsRunning()
  }

  predicate AnyNamed(instances: seq<InstanceInfo>, name: string)
  {
    exists k :: 0 <= k < |instances| && instances[k].name == name
  }

  /** A running instance is a listed one. */
  lemma RunningIsListed(instances: seq<InstanceInfo>, name: string)
    requires AnyRunning(instances, name)
    ensures AnyNamed(instances, name)
  {
  }

  const ListFailed := "Failed to list Lima instances"

  /** `LimaInstance::is_running`: the outcome of `limactl list --json` (Err when it could
      not be started), checked for success and parsed. */
  function IsRunning(inst: Instance, list: Result<Output>, parse: RowParser): (r: Result<bool>)
    ensures list.Err? || !list.value.success ==> r.Err?
    ensures r.Ok? ==> list.Ok? && ParseLimaInstances(list.value.stdout, parse).Ok?
    ensures r.Ok? ==> (r.value <==> AnyRunning(ParseLimaInstances(list.value.stdout, parse).value, inst.name))
    ensures list.Ok? && list.value.success && ParseLimaInstances(list.value.stdout, parse).Ok?
      ==> r == Ok(AnyRunning(ParseLimaInstances(list.value.stdout, parse).value, inst.name))
  {
    match list
    case Err(_) => Err("Failed to execute limactl list")
    case Ok(out) =>
      if !out.success then Err(ListFailed)
      else match ParseLimaInstances(out.stdout, parse)
        case Err(e) => Err(e)
        case Ok(instances) => Ok(AnyRunning(instances, inst.name))
  }

  // ---------------------------------------------------------------------------
  // limactl invocations

  /** The limactl invocations the model records. */
  datatype Call = List | Start(name: string) | CreateAndStart(name: string, configPath: string)
                | Stop(name: string) | Shell(name: string, command: string)

  /** The arguments each invocation passes to limactl. `Start` boots an existing VM without
      its configuration file; `CreateAndStart` creates it from that file. */
  function Argv(c: Call): seq<string>
  {
    match c
    case List => ["list", "--json"]
    case Start(name) => ["start", "--tty=false", name]
    case CreateAndStart(name, configPath) => ["start", "--name", name, "--tty=false", configPath]
    case Stop(name) => ["stop", name]
    case Shell(name, command) => ["shell", name, "--", "sh", "-c", command]
  }

  /** The outcomes of the limactl invocations of one `get_or_create` call: the first and
      second `list --json`, `start` and `create_and_start` (whose streaming is not part of
      this model: only whether each succeeded). */
  datatype World = World(firstList: Result<Output>, secondList: Result<Output>,
                         start: Result<Unit>, createAndStart: Result<Unit>)

  /** `get_or_create`: the instance and the limactl invocations made, in order. */
  method GetOrCreate(name: string, tempDir: string, writeOk: bool, world: World, parse: RowParser)
    returns (r: Result<Instance>, calls: seq<Call>)
    ensures !writeOk ==> r.Err? && calls == []
    ensures writeOk ==> calls != [] && calls[0] == List
    ensures r.Ok? ==> r.value == Instance(name, ConfigPath(tempDir, name))
    // The first listing cannot be run, fails or cannot be read: its error, and nothing else.
    ensures writeOk && IsRunning(Instance(name, ConfigPath(tempDir, name)), world.firstList, parse).Err?
      ==> r.Err? && calls == [List]
    // Running: nothing is started or created.
    ensures writeOk && IsRunning(Instance(name, ConfigPath(tempDir, name)), world.firstList, parse) == Ok(true)
      ==> r.Ok? && calls == [List]
    // Listed but not running: only `start`.
    ensures writeOk && Listed(name, world.secondList, parse)
      && IsRunning(Instance(name, ConfigPath(tempDir, name)), world.firstList, parse) == Ok(false)
      ==> (calls == [List, List, Start(name)]
           && (r.Ok? <==> world.start.Ok?))
    // Not listed, or the second listing failed: `create_and_start`.
    ensures writeOk && NotListed(name, world.secondList, parse)
      && IsRunning(Instance(name, ConfigPath(tempDir, name)), world.firstList, parse) == Ok(false)
      ==> (calls == [List, List, CreateAndStart(name, ConfigPath(tempDir, name))]
           && (r.Ok? <==> world.createAndStart.Ok?))
    // The second listing cannot be run or cannot be read: its error, and nothing is started.
    ensures writeOk && IsRunning(Instance(name, ConfigPath(tempDir, name)), world.firstList, parse) == Ok(false)
      && !Listed(name, world.secondList, parse) && !NotListed(name, world.secondList, parse)
      ==> r.Err? && calls == [List, List]
    // `start`, which does not pass the configuration file, is used only for a listed VM.
    ensures Start(name) in calls ==> Listed(name, world.secondList, parse)
  {
    calls := [];
    var created := Create(name, tempDir, writeOk);
    if created.Err? {
      return Err(created.error), calls;
    }
    var instance := created.value;
    assert instance == Instance(name, ConfigPath(tempDir, name));
    calls := calls + [List];
    var running := IsRunning(instance, world.firstList, parse);
    if running.Err? {
      return Err(running.error), calls;
    }
    if running.value {
      return Ok(instance), calls;
    }
    var rest;
    r, rest := StartOrCreate(instance, world, parse);
    calls := calls + [List] + rest;
  }

  /** The part of `get_or_create` after the VM was found not running: list again, then
      `start` a listed VM or `create_and_start` an unlisted one. */
  method StartOrCreate(instance: Instance, world: World, parse: RowParser)
    returns (r: Result<Instance>, calls: seq<Call>)
    ensures r.Ok? ==> r.value == instance
    ensures Listed(instance.name, world.secondList, parse)
      ==> calls == [Start(instance.name)] && (r.Ok? <==> world.start.Ok?)
    ensures NotListed(instance.name, world.secondList, parse)
      ==> calls == [CreateAndStart(instance.name, instance.configPath)] && (r.Ok? <==> world.createAndStart.Ok?)
    ensures !Listed(instance.name, world.secondList, parse) && !NotListed(instance.name, world.secondList, parse)
      ==> calls == [] && r.Err?
  {
    var name := instance.name;
    calls := [];
    if world.secondList.Err? {
      return Err("Failed to execute limactl list"), calls;
    }
    var output := world.secondList.value;
    if output.success {
      var instances := ParseLimaInstances(output.stdout, parse);
      if instances.Err? {
        return Err(instances.error), calls;
      }
      if AnyNamed(instances.value, name) {
        calls := calls + [Start(name)];
        if world.start.Err? {
          return Err("Failed to start Lima VM '" + name + "'"), calls;
        }
        return Ok(instance), calls;
      }
    }
    calls := calls + [CreateAndStart(name, instance.configPath)];
    if world.createAndStart.Err? {
      return Err("Failed to create Lima VM '" + name + "'"), calls;
    }
    return Ok(instance), calls;
  }

  /** The second listing ran, succeeded, parsed, and lists the name. */
  predicate Listed(name: string, list: Result<Output>, parse: RowParser)
  {
    && list.Ok? && list.value.success
    && ParseLimaInstances(list.value.stdout, parse).Ok?
    && AnyNamed(ParseLimaInstances(list.value.stdout, parse).value, name)
  }

  /** The second listing ran but reported failure, or parsed without the name. */
  predicate NotListed(name: string, list: Result<Output>, parse: RowParser)
  {
    && list.Ok?
    && (!list.value.success
        || (ParseLimaInstances(list.value.stdout, parse).Ok?
            && !AnyNamed(ParseLimaInstances(list.value.stdout, parse).value, name)))
  }

  /** After a successful first listing that does not show the VM running, exactly one of
      the three branches applies or the second listing itself is an error. */
  lemma BranchesCover(name: string, list: Result<Output>, parse: RowParser)
    ensures !(Listed(name, list, parse) && NotListed(name, list, parse))
    ensures Listed(name, list, parse) || NotListed(name, list, parse)
        || list.Err? || ParseLimaInstances(list.value.stdout, parse).Err?
  {
  }

  /** `stop_by_name`: `limactl stop` (Err when it could not be started); a failure whose
      standard error says "not running" counts as success. */
  function StopByName(name: string, out: Result<Output>): (r: Result<Unit>)
    ensures out.Err? ==> r.Err?
    ensures out.Ok? && out.value.success ==> r.Ok?
    ensures out.Ok? && !out.value.success ==> (r.Ok? <==> Contains(out.value.stderr, "not running"))
  {
    match out
    case Err(_) => Err("Failed to execute limactl stop for '" + name + "'")
    case Ok(o) =>
      if o.success then Ok(Unit)
      else if Contains(o.stderr, "not running") then Ok(Unit)
      else Err("Failed to stop Lima VM '" + name + "': " + o.stderr)
  }
}
