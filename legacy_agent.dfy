/** The first agent (`agent/agent.py`): a POST extracts the first event of
    the array and acts on it at once, with controllers that catch nothing.
    Its `Docker` lets the daemon's NotFound and APIError escape, its
    `schedule_application` sends the memory value to `update_cpu_shares` as
    well, and its `Tc` methods run `tcset` on a container (`--docker`) without
    `check=True`. `Tc` defines `bandwidth` and `latency` twice each; the later
    definition replaces the earlier one, so only the two-argument forms
    exist. */
module LegacyAgent {
  import opened PyJson
  import opened Controllers
  import opened Dispatch
  import opened Extraction

  // ---------------------------------------------------------------------------
  // Tc

  /** `tcset <container> --docker <flag> <value>`: the vector of `bandwidth`
      (`--rate`), `latency` (`--delay`) and `packet_loss` (`--loss`). */
  function TcsetArgs(container: Json, option: Shaping, v: Json): (argv: seq<Json>)
    ensures |argv| == 5
    ensures argv[0] == JStr("tcset") && argv[1] == container && argv[2] == JStr("--docker")
    ensures argv[3] == JStr(Flag(option)) && argv[4] == v
  {
    [JStr("tcset"), container, JStr("--docker"), JStr(Flag(option)), v]
  }

  /** Against the newest agent's `Tc.interface` with only this option set:
      the same option and value, but on a container (`--docker` after the
      name) and without `--overwrite`. */
  lemma DockerTargeted(container: Json, option: Shaping, v: Json)
    requires Truthy(v)
    ensures var newer := InterfaceArgs(container,
        if option == Rate then v else JNull,
        if option == Delay then v else JNull,
        if option == Loss then v else JNull);
      && |newer| == 5 && newer[4] == JStr("--overwrite")
      && TcsetArgs(container, option, v) == newer[..2] + [JStr("--docker")] + newer[2..4]
  {
  }

  /** `subprocess.run` without `check=True`: a non-zero exit status is
      ignored; arguments that are not text raise TypeError and a program that
      cannot be started raises OSError. */
  function RunUnchecked(argv: seq<Json>, run: seq<Json> -> ProcessOutcome): (r: Option<PyError>)
    ensures r.Some? ==> r.value in {TypeError, OsError}
    ensures r.None? <==> AllText(argv) && run(argv) != CannotStart
  {
    if !AllText(argv) then Some(TypeError)
    else if run(argv) == CannotStart then Some(OsError)
    else None
  }

  /** Not checking the exit status raises exactly what a checked run that
      only logs CalledProcessError raises. */
  lemma UncheckedIsLoggedCheck(argv: seq<Json>, run: seq<Json> -> ProcessOutcome)
    ensures RunUnchecked(argv, run) == InterfaceRaised(argv, run)
  {
  }

  // ---------------------------------------------------------------------------
  // Docker

  /** A Docker request with nothing caught: the daemon's error escapes. */
  function DockerRaised(answer: DockerOutcome): (r: Option<PyError>)
    ensures r.None? <==> answer == Success
  {
    match answer
    case Success => None
    case NotFound => Some(DockerNotFound)
    case ApiError => Some(DockerApiError)
  }

  /** The requests in order, until the first the daemon refuses. */
  function Issued(cmds: seq<Command>, docker: Command -> DockerOutcome): (r: Option<PyError>)
    ensures r.None? <==> forall i :: 0 <= i < |cmds| ==> docker(cmds[i]) == Success
    ensures r.Some? ==> exists i :: (0 <= i < |cmds| && r == DockerRaised(docker(cmds[i]))
      && forall j :: 0 <= j < i ==> docker(cmds[j]) == Success)
    decreases |cmds|
  {
    if cmds == [] then None
    else if docker(cmds[0]) != Success then DockerRaised(docker(cmds[0]))
    else
      var rest := Issued(cmds[1..], docker);
      assert forall i :: 1 <= i < |cmds| ==> cmds[i] == cmds[1..][i - 1];
      rest
  }

  // ---------------------------------------------------------------------------
  // Routing

  /** `my_docker.update_cpu_shares(d['name'], d['memory'])`. */
  function MemoryAsCpuCommand(d: Json): Result<Command> {
    var name :- Field(d, "name");
    var memory :- Field(d, "memory");
    Ok(UpdateCpuShares(name, memory))
  }

  /** `schedule_application`: the cpu value, then the memory value, both as
      cpu shares. */
  function ScheduleApplication(f: map<string, Json>): Routing {
    var d := JObj(f);
    var cpu := When(Nothing, Contains(d, "cpu"), CpuCommand(d));
    When(cpu, Contains(d, "memory"), MemoryAsCpuCommand(d))
  }

  /** For a dict with a `name`, the cpu value then the memory value, each
      when present, go to `update_cpu_shares`; the memory limit is never
      updated. Without a `name` either key raises KeyError first. */
  lemma MemoryGoesToCpuShares(f: map<string, Json>)
    ensures "name" in f ==>
      ScheduleApplication(f) == Routing(
        If("cpu" in f, UpdateCpuShares(f["name"], if "cpu" in f then f["cpu"] else JNull))
        + If("memory" in f, UpdateCpuShares(f["name"], if "memory" in f then f["memory"] else JNull)),
        None)
    ensures "name" !in f ==>
      ScheduleApplication(f) == Routing([], if "cpu" in f || "memory" in f then Some(KeyError) else None)
    ensures forall i :: 0 <= i < |ScheduleApplication(f).commands| ==>
      ScheduleApplication(f).commands[i].UpdateCpuShares?
  {
  }

  /** `schedule_interface`: with a bandwidth, one `tcset` on the container
      named by `id`. */
  function ScheduleInterface(f: map<string, Json>): (r: Result<Option<seq<Json>>>)
    ensures "bandwidth" !in f ==> r == Ok(None)
    ensures "bandwidth" in f && "id" in f ==> r == Ok(Some(TcsetArgs(f["id"], Rate, f["bandwidth"])))
    ensures "bandwidth" in f && "id" !in f ==> r == Err(KeyError)
  {
    if "bandwidth" !in f then Ok(None)
    else
      var id :- Field(JObj(f), "id");
      Ok(Some(TcsetArgs(id, Rate, f["bandwidth"])))
  }

  /** `do_POST` after the body is decoded: the exception that escapes. */
  function Post(path: string, request: Json, w: World): (r: Option<PyError>)
    ensures path != "/application" && path != "/interface" ==> r.None?
  {
    if path == "/application" then
      match Extracted(request, ApplicationSources)
      case Err(e) => Some(e)
      case Ok(f) =>
        var routing := ScheduleApplication(f);
        var e := Issued(routing.commands, w.docker);
        if e.Some? then e else routing.fault
    else if path == "/interface" then
      match Extracted(request, InterfaceSources)
      case Err(e) => Some(e)
      case Ok(f) =>
        match ScheduleInterface(f)
        case Err(e) => Some(e)
        case Ok(None) => None
        case Ok(Some(argv)) => RunUnchecked(argv, w.run)
    else None
  }

  /** An extracted application dict has `name` whenever it has `cpu` or
      `memory`. */
  lemma NameFirst(request: Json)
    requires Extracted(request, ApplicationSources).Ok?
    ensures var f := Extracted(request, ApplicationSources).value;
      "cpu" in f || "memory" in f ==> "name" in f
  {
    var f := Extracted(request, ApplicationSources).value;
    ExtractedShape(request, ApplicationSources);
    assert DistinctKeys(ApplicationSources);
    if "cpu" in f {
      PrefixOrder(f, ApplicationSources, 1, 2);
    } else if "memory" in f {
      PrefixOrder(f, ApplicationSources, 1, 3);
    }
  }

  /** An extracted interface dict has `id` whenever it has `bandwidth`. */
  lemma IdFirst(request: Json)
    requires Extracted(request, InterfaceSources).Ok?
    ensures var f := Extracted(request, InterfaceSources).value;
      "bandwidth" in f ==> "id" in f
  {
    var f := Extracted(request, InterfaceSources).value;
    ExtractedShape(request, InterfaceSources);
    assert DistinctKeys(InterfaceSources);
    if "bandwidth" in f {
      PrefixOrder(f, InterfaceSources, 1, 3);
    }
  }

  /** The key lists put `name` before `cpu` and `memory`, and `id` before
      `bandwidth`: an extracted dict never makes the dispatchers raise
      KeyError, so what escapes a POST comes from the array, the daemon or
      the program start. */
  lemma PostNeverRaisesKeyError(path: string, request: Json, w: World)
    ensures Post(path, request, w) != Some(KeyError)
  {
    if path == "/application" && Extracted(request, ApplicationSources).Ok? {
      NameFirst(request);
      MemoryGoesToCpuShares(Extracted(request, ApplicationSources).value);
    } else if path == "/interface" && Extracted(request, InterfaceSources).Ok? {
      IdFirst(request);
    }
  }
}
