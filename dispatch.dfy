/** Routing of one scheduled event to the controllers (`do_action`,
    `schedule_application`, `schedule_interface`) and the `Agent` that carries
    the commands out. Routing is a pure function from the event to the ordered
    commands it issues; an exception raised while reading the event's fields
    ends the routing where it happens. Carrying out the commands stops at the
    first exception that escapes a controller. */
module Dispatch {
  import opened PyJson
  import opened Status
  import opened Controllers

  /** Everything outside the agent: the Docker daemon's answer to each
      request, the ending of each started program, and the parsed `tcshow`
      output for each container name. */
  datatype World = World(
    docker: Command -> DockerOutcome,
    run: seq<Json> -> ProcessOutcome,
    tcshow: Json -> Option<seq<Rule>>)

  /** The commands a handler issues in order, and the exception that ends it
      while it reads the event (after the listed commands have run). */
  datatype Routing = Routing(commands: seq<Command>, fault: Option<PyError>)

  const Nothing := Routing([], None)

  /** `if <cond>: <command>` after `prior`: once a read has raised, nothing
      further is evaluated. */
  function When(prior: Routing, cond: Result<bool>, next: Result<Command>): (r: Routing)
    ensures prior.fault.Some? ==> r == prior
    ensures |prior.commands| <= |r.commands| <= |prior.commands| + 1
    ensures r.commands[..|prior.commands|] == prior.commands
  {
    if prior.fault.Some? then prior
    else if cond.Err? then Routing(prior.commands, Some(cond.error))
    else if !cond.value then prior
    else if next.Err? then Routing(prior.commands, Some(next.error))
    else Routing(prior.commands + [next.value], None)
  }

  /** `'active' in d and d['active'] == text` (the value is compared as text). */
  function ActiveIs(d: Json, text: string): Result<bool> {
    var present :- Contains(d, "active");
    if !present then Ok(false)
    else
      var v :- Field(d, "active");
      Ok(v == JStr(text))
  }

  function CpuCommand(d: Json): Result<Command> {
    var name :- Field(d, "name");
    var cpu :- Field(d, "cpu");
    Ok(UpdateCpuShares(name, cpu))
  }

  function MemoryCommand(d: Json): Result<Command> {
    var name :- Field(d, "name");
    var memory :- Field(d, "memory");
    Ok(UpdateMemoryLimit(name, memory))
  }

  /** `schedule_application`: the cpu update, then the memory update. */
  function ScheduleApplication(d: Json): Routing {
    var cpu := When(Nothing, Contains(d, "cpu"), CpuCommand(d));
    When(cpu, Contains(d, "memory"), MemoryCommand(d))
  }

  /** `tc.interface(d['id'], <key>=d[<key>])`, the other two values `None`. */
  function ShapeCommand(d: Json, option: Shaping): Result<Command> {
    var id :- Field(d, "id");
    var v :- Field(d, match option case Rate => "bandwidth" case Delay => "delay" case Loss => "loss");
    Ok(match option
       case Rate => Interface(id, v, JNull, JNull)
       case Delay => Interface(id, JNull, v, JNull)
       case Loss => Interface(id, JNull, JNull, v))
  }

  function IdCommand(d: Json, make: Json -> Command): Result<Command> {
    var id :- Field(d, "id");
    Ok(make(id))
  }

  /** `schedule_interface`: bandwidth, enable or disable, delay, loss, and the
      rule listing that always closes it. */
  function ScheduleInterface(d: Json): Routing {
    var rate := When(Nothing, Contains(d, "bandwidth"), ShapeCommand(d, Rate));
    var enable := When(rate, ActiveIs(d, "true"), IdCommand(d, id => Enable(id)));
    var disable := When(enable, ActiveIs(d, "false"), IdCommand(d, id => Disable(id)));
    var delay := When(disable, Contains(d, "delay"), ShapeCommand(d, Delay));
    var loss := When(delay, Contains(d, "loss"), ShapeCommand(d, Loss));
    When(loss, Ok(true), IdCommand(d, id => ShowRules(id)))
  }

  /** `do_action`: the event's `data` is read first, whatever the path. */
  function DoAction(path: string, event: Json): Routing {
    match Field(event, "data")
    case Err(e) => Routing([], Some(e))
    case Ok(d) =>
      if path == "/application" then ScheduleApplication(d)
      else if path == "/interface" then ScheduleInterface(d)
      else Nothing
  }

  /** `[c]` when `b`, else nothing. */
  function If(b: bool, c: Command): seq<Command> {
    if b then [c] else []
  }

  /** For a dict with a `name`, the cpu update (if `cpu` is present) comes
      before the memory update (if `memory` is present), each with the
      event's own values; without a `name`, either key makes it raise
      KeyError before any command. */
  lemma ApplicationOrder(f: map<string, Json>)
    ensures "name" in f ==>
      ScheduleApplication(JObj(f)) == Routing(
        If("cpu" in f, UpdateCpuShares(f["name"], if "cpu" in f then f["cpu"] else JNull))
        + If("memory" in f, UpdateMemoryLimit(f["name"], if "memory" in f then f["memory"] else JNull)),
        None)
    ensures "name" !in f ==>
      ScheduleApplication(JObj(f)) == Routing([], if "cpu" in f || "memory" in f then Some(KeyError) else None)
  {
  }

  /** For a dict with an `id`: bandwidth, then enable exactly when `active` is
      the text `true` or disable exactly when it is `false`, then delay, then
      loss, each only when its key is present, and always the rule listing
      last. */
  lemma InterfaceOrder(f: map<string, Json>)
    requires "id" in f
    ensures var id := f["id"];
      ScheduleInterface(JObj(f)) == Routing(
        If("bandwidth" in f, Interface(id, if "bandwidth" in f then f["bandwidth"] else JNull, JNull, JNull))
        + If("active" in f && f["active"] == JStr("true"), Enable(id))
        + If("active" in f && f["active"] == JStr("false"), Disable(id))
        + If("delay" in f, Interface(id, JNull, if "delay" in f then f["delay"] else JNull, JNull))
        + If("loss" in f, Interface(id, JNull, JNull, if "loss" in f then f["loss"] else JNull))
        + [ShowRules(id)],
        None)
  {
    var d, id := JObj(f), f["id"];
    var rate := If("bandwidth" in f, Interface(id, if "bandwidth" in f then f["bandwidth"] else JNull, JNull, JNull));
    var enable := rate + If("active" in f && f["active"] == JStr("true"), Enable(id));
    var disable := enable + If("active" in f && f["active"] == JStr("false"), Disable(id));
    var delay := disable + If("delay" in f, Interface(id, JNull, if "delay" in f then f["delay"] else JNull, JNull));
    var loss := delay + If("loss" in f, Interface(id, JNull, JNull, if "loss" in f then f["loss"] else JNull));
    var r1 := When(Nothing, Contains(d, "bandwidth"), ShapeCommand(d, Rate));
    assert r1 == Routing(rate, None);
    var r2 := When(r1, ActiveIs(d, "true"), IdCommand(d, id => Enable(id)));
    assert r2 == Routing(enable, None);
    var r3 := When(r2, ActiveIs(d, "false"), IdCommand(d, id => Disable(id)));
    assert r3 == Routing(disable, None);
    var r4 := When(r3, Contains(d, "delay"), ShapeCommand(d, Delay));
    assert r4 == Routing(delay, None);
    var r5 := When(r4, Contains(d, "loss"), ShapeCommand(d, Loss));
    assert r5 == Routing(loss, None);
  }

  /** Without an `id` the first command would need it: KeyError, nothing issued. */
  lemma InterfaceNeedsId(f: map<string, Json>)
    requires "id" !in f
    ensures ScheduleInterface(JObj(f)) == Routing([], Some(KeyError))
  {
  }

  /** Paths other than the two known ones issue nothing; the only possible
      exception is the one reading `data`. */
  lemma OtherPathsIssueNothing(path: string, event: Json)
    requires path != "/application" && path != "/interface"
    ensures DoAction(path, event).commands == []
    ensures DoAction(path, event).fault.Some? <==> !(event.JObj? && "data" in event.fields)
  {
  }

  // ---------------------------------------------------------------------------
  // Carrying out commands

  /** One command against the tracker, with the world's answers. */
  function CommandEffect(t: Tracker, cmd: Command, w: World): Step {
    match cmd
    case Interface(iface, bandwidth, delay, loss) =>
      Step(InterfaceEffect(t, bandwidth, delay, loss),
           InterfaceRaised(InterfaceArgs(iface, bandwidth, delay, loss), w.run))
    case Enable(iface) => Step(t, SwitchRaised(iface, true, w.run))
    case Disable(iface) => Step(t, SwitchRaised(iface, false, w.run))
    case ShowRules(iface) => Step(t, ShowRulesRaised(iface, w.run))
    case _ => DockerEffect(t, cmd, w.docker(cmd))
  }

  /** The commands in order, up to and including the first that raises. */
  function ExecuteAll(t: Tracker, cmds: seq<Command>, w: World): Step {
    if cmds == [] then Step(t, None)
    else
      var prior := ExecuteAll(t, cmds[..|cmds| - 1], w);
      if prior.raised.Some? then prior else CommandEffect(prior.tracker, cmds[|cmds| - 1], w)
  }

  /** A routing carried out: its commands, then the exception that ended it. */
  function Performed(t: Tracker, r: Routing, w: World): Step {
    var s := ExecuteAll(t, r.commands, w);
    if s.raised.Some? then s else Step(s.tracker, r.fault)
  }

  /** Once a command has raised, the commands after it do not run. */
  lemma {:induction false} ExecuteAllStops(t: Tracker, cmds: seq<Command>, i: nat, w: World)
    requires i <= |cmds| && ExecuteAll(t, cmds[..i], w).raised.Some?
    ensures ExecuteAll(t, cmds, w) == ExecuteAll(t, cmds[..i], w)
    decreases |cmds|
  {
    if i < |cmds| {
      var n := |cmds| - 1;
      assert cmds[..n][..i] == cmds[..i];
      ExecuteAllStops(t, cmds[..n], i, w);
    } else {
      assert cmds[..i] == cmds;
    }
  }

  /** Commands that neither shape the interface nor succeed at the daemon
      leave the tracker as it was. */
  lemma {:induction false} OnlySuccessChanges(t: Tracker, cmds: seq<Command>, w: World)
    requires forall i :: 0 <= i < |cmds| ==> !cmds[i].Interface? && (cmds[i].IsDocker() ==> w.docker(cmds[i]) != Success)
    ensures ExecuteAll(t, cmds, w).tracker == t
    decreases |cmds|
  {
    if cmds != [] {
      var n := |cmds| - 1;
      OnlySuccessChanges(t, cmds[..n], w);
      var c := cmds[n];
      if c.IsDocker() {
        DockerChangesOnlyOnSuccess(ExecuteAll(t, cmds[..n], w).tracker, c, w.docker(c));
      }
    }
  }

  /** Every controller call keeps the tracker well formed: names are only
      ever added, once, at the end. */
  lemma EffectKeepsWellFormed(t: Tracker, cmd: Command, w: World)
    requires WellFormed(t)
    ensures WellFormed(CommandEffect(t, cmd, w).tracker)
  {
    if cmd.Interface? {
      var t1 := Shape(t, Rate, cmd.bandwidth);
      var t2 := Shape(t1, Delay, cmd.delay);
      TouchAdds(t, Docker0);
      assert WellFormed(t1);
      TouchAdds(t1, Docker0);
      assert WellFormed(t2);
      TouchAdds(t2, Docker0);
    } else if cmd.IsDocker() {
      TouchAdds(t, cmd.container);
    }
  }

  lemma {:induction false} ExecuteAllWellFormed(t: Tracker, cmds: seq<Command>, w: World)
    requires WellFormed(t)
    ensures WellFormed(ExecuteAll(t, cmds, w).tracker)
    decreases |cmds|
  {
    if cmds != [] {
      var n := |cmds| - 1;
      ExecuteAllWellFormed(t, cmds[..n], w);
      EffectKeepsWellFormed(ExecuteAll(t, cmds[..n], w).tracker, cmds[n], w);
    }
  }

  class Agent {
    const status: AgentStatus
    const docker: Docker
    const tc: Tc

    ghost predicate Valid()
      reads this, status
    {
      status.Valid() && docker.status == status && tc.status == status
    }

    constructor ()
      ensures Valid() && fresh(status) && fresh(status.Repr)
      ensures status.Model() == Initial()
    {
      var s := new AgentStatus();
      status := s;
      docker := new Docker(s);
      tc := new Tc(s);
    }

    /** One controller call. */
    method Execute(cmd: Command, w: World) returns (raised: Option<PyError>)
      requires Valid()
      modifies status, status.Repr
      ensures Valid() && fresh(status.Repr - old(status.Repr))
      ensures Step(status.Model(), raised) == CommandEffect(old(status.Model()), cmd, w)
    {
      match cmd
      case Interface(iface, bandwidth, delay, loss) =>
        var argv;
        argv, raised := tc.Interface(iface, bandwidth, delay, loss, w.run);
      case Enable(iface) =>
        raised := SwitchRaised(iface, true, w.run);
      case Disable(iface) =>
        raised := SwitchRaised(iface, false, w.run);
      case ShowRules(iface) =>
        raised := ShowRulesRaised(iface, w.run);
      case _ =>
        raised := docker.Run(cmd, w.docker(cmd));
    }

    /** The routed commands in order; the first exception ends the action. */
    method Perform(r: Routing, w: World) returns (raised: Option<PyError>)
      requires Valid()
      modifies status, status.Repr
      ensures Valid() && fresh(status.Repr - old(status.Repr))
      ensures Step(status.Model(), raised) == Performed(old(status.Model()), r, w)
    {
      ghost var t := status.Model();
      var i := 0;
      while i < |r.commands|
        invariant i <= |r.commands|
        invariant Valid() && fresh(status.Repr - old(status.Repr))
        invariant ExecuteAll(t, r.commands[..i], w) == Step(status.Model(), None)
      {
        assert r.commands[..i + 1][..i] == r.commands[..i];
        raised := Execute(r.commands[i], w);
        if raised.Some? {
          ExecuteAllStops(t, r.commands, i + 1, w);
          return;
        }
        i := i + 1;
      }
      assert r.commands[..i] == r.commands;
      raised := r.fault;
    }
  }
}
