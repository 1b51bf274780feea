/** The agent copy deployed with the topology files
    (`mockfog_topology/files/agent.py`). Its status classes are the same code
    as the newest agent's and are modelled once, in `Status`. What differs is
    the request path: each POST builds a fresh `Agent`, extracts the first
    event of the array with `endpoint_application` / `endpoint_interface`, and
    acts on it at once through `scheduler`. This copy's `Docker` keeps no
    status, and its `schedule_interface` calls a `tc.bandwidth` that its `Tc`
    class does not define. */
module TopologyAgent {
  import opened PyJson
  import opened Status
  import opened Controllers
  import opened Dispatch
  import opened Extraction

  /** A Docker request of this copy: success does nothing more, a failure
      logs the same warning as the newest agent's `Docker`, whose `+` raises
      TypeError for a name that is not text. */
  function DockerRaised(cmd: Command, answer: DockerOutcome): (r: Option<PyError>)
    requires cmd.IsDocker()
    ensures r.Some? ==> answer != Success && r == Some(TypeError)
  {
    match answer
    case Success => None
    case NotFound => LogMessage(NotFoundLog(cmd))
    case ApiError => LogMessage(ApiErrorLog(cmd))
  }

  /** On failure this copy raises exactly what the newest agent raises, and
      on success it raises nothing where the newest one may still fail to
      record the change. */
  lemma SameWarnings(t: Tracker, cmd: Command, answer: DockerOutcome)
    requires cmd.IsDocker()
    ensures answer != Success ==> DockerRaised(cmd, answer) == DockerEffect(t, cmd, answer).raised
    ensures answer == Success ==> DockerRaised(cmd, answer).None?
  {
  }

  predicate AllDocker(cmds: seq<Command>) {
    forall i :: 0 <= i < |cmds| ==> cmds[i].IsDocker()
  }

  /** The Docker requests in order, until the first warning that raises. */
  function Issued(cmds: seq<Command>, docker: Command -> DockerOutcome): (r: Option<PyError>)
    requires AllDocker(cmds)
    ensures r.None? <==> forall i :: 0 <= i < |cmds| ==> DockerRaised(cmds[i], docker(cmds[i])).None?
    ensures r.Some? ==> r == Some(TypeError)
    decreases |cmds|
  {
    if cmds == [] then None
    else
      var e := DockerRaised(cmds[0], docker(cmds[0]));
      if e.Some? then e
      else
        var rest := Issued(cmds[1..], docker);
        assert forall i :: 1 <= i < |cmds| ==> cmds[i] == cmds[1..][i - 1];
        rest
  }

  /** A dict holding a prefix of the application keys has `name` whenever
      it has `cpu` or `memory`. */
  lemma NameFirst(f: map<string, Json>)
    requires KeyPrefix(f, ApplicationSources)
    ensures "cpu" in f || "memory" in f ==> "name" in f
  {
    assert DistinctKeys(ApplicationSources);
    if "cpu" in f {
      PrefixOrder(f, ApplicationSources, 1, 2);
    } else if "memory" in f {
      PrefixOrder(f, ApplicationSources, 1, 3);
    }
  }

  /** So reading such a dict for `schedule_application` never raises, and
      only Docker requests are issued. */
  lemma PrefixRouted(f: map<string, Json>)
    requires KeyPrefix(f, ApplicationSources)
    ensures ScheduleApplication(JObj(f)).fault.None?
    ensures AllDocker(ScheduleApplication(JObj(f)).commands)
  {
    NameFirst(f);
    ApplicationOrder(f);
  }

  /** The application extractor's dict is such a prefix. */
  lemma ApplicationRouted(request: Json)
    requires Extracted(request, ApplicationSources).Ok?
    ensures var f := Extracted(request, ApplicationSources).value;
      ScheduleApplication(JObj(f)).fault.None? && AllDocker(ScheduleApplication(JObj(f)).commands)
  {
    ExtractedShape(request, ApplicationSources);
    PrefixRouted(Extracted(request, ApplicationSources).value);
  }

  /** What one POST does: `printed` is the text `scheduler` prints for the
      report path, `raised` the exception that escapes. */
  datatype Outcome = Outcome(printed: Option<string>, raised: Option<PyError>)

  /** `scheduler` on a fresh `Agent`: the application path extracts and
      issues the cpu and memory updates; the interface path extracts and,
      when a bandwidth was read, fails on the missing `Tc.bandwidth`; the
      report path renders the fresh status after one refresh; any other path
      does nothing. */
  function Scheduler(path: string, request: Json, w: World): (r: Outcome)
    ensures r.printed.Some? <==> path == "/reports/"
    ensures path !in {"/application", "/interface", "/reports/"} ==> r == Outcome(None, None)
    ensures path == "/application" && r.raised.Some? ==> r.raised.value in {IndexError, TypeError}
    ensures path == "/interface" ==>
      (r.raised == Some(AttributeError) <==>
       Extracted(request, InterfaceSources).Ok? && "bandwidth" in Extracted(request, InterfaceSources).value)
  {
    if path == "/application" then
      match Extracted(request, ApplicationSources)
      case Err(e) => Outcome(None, Some(e))
      case Ok(f) =>
        ApplicationRouted(request);
        Outcome(None, Issued(ScheduleApplication(JObj(f)).commands, w.docker))
    else if path == "/interface" then
      match Extracted(request, InterfaceSources)
      case Err(e) => Outcome(None, Some(e))
      case Ok(f) => Outcome(None, if "bandwidth" in f then Some(AttributeError) else None)
    else if path == "/reports/" then
      Outcome(Some(AgentJson(RefreshAll(Initial(), w.tcshow))), None)
    else Outcome(None, None)
  }

  /** The report path always shows a status holding only `docker0`: the
      agent is built afresh for every request, so nothing an earlier request
      did can appear in it. */
  lemma {:induction false} ReportShowsFreshAgent(request: Json, w: World)
    ensures var printed := Scheduler("/reports/", request, w).printed;
      && printed.Some?
      && RefreshAll(Initial(), w.tcshow).order == [Docker0]
      && printed.value == AgentJson(RefreshAll(Initial(), w.tcshow))
  {
    var t := Initial();
    assert t.order == [Docker0];
    assert RefreshAll(t, w.tcshow).order == t.order;
  }

  /** An application request whose first event carries a name, a cpu value
      and a memory value issues both updates, cpu first, and nothing else
      escapes when the daemon accepts both. */
  lemma ApplicationCommands(request: Json, name: Json, cpu: Json, memory: Json, w: World)
    requires Extracted(request, ApplicationSources).Ok?
    requires var f := Extracted(request, ApplicationSources).value;
      "name" in f && "cpu" in f && "memory" in f && f["name"] == name && f["cpu"] == cpu && f["memory"] == memory
    ensures ScheduleApplication(JObj(Extracted(request, ApplicationSources).value)).commands
      == [UpdateCpuShares(name, cpu), UpdateMemoryLimit(name, memory)]
    ensures w.docker(UpdateCpuShares(name, cpu)) == Success && w.docker(UpdateMemoryLimit(name, memory)) == Success
      ==> Scheduler("/application", request, w) == Outcome(None, None)
  {
    var f := Extracted(request, ApplicationSources).value;
    ApplicationOrder(f);
    ApplicationRouted(request);
  }
}
