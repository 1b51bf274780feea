/** The controllers the agent drives: `Docker` (container resources and
    network membership) and `Tc` (traffic control on an interface). The Docker
    daemon and the programs the agent starts are outside the model: a Docker
    request is answered by a `DockerOutcome` and a started program by a
    `ProcessOutcome`, both supplied by the caller. What is modelled is what
    the agent itself does around those calls: which exception escapes, which
    argument vector it builds, and how it updates its status tracker. */
module Controllers {
  import opened PyJson
  import opened Status

  /** The Docker daemon's answer to a request. */
  datatype DockerOutcome = Success | NotFound | ApiError

  /** How a started program ends: exit status zero, a non-zero exit status
      (`check=True` turns it into CalledProcessError), or no process at all
      because the program could not be started (an OSError). */
  datatype ProcessOutcome = Completed | NonZeroExit | CannotStart

  /** The controller operations the agent's handlers issue. `JNull` stands for
      a keyword argument that was not passed (Python's `None`). */
  datatype Command =
    | UpdateCpuShares(container: Json, value: Json)
    | UpdateMemoryLimit(container: Json, value: Json)
    | Connect(network: Json, container: Json)
    | Disconnect(network: Json, container: Json)
    | Interface(iface: Json, bandwidth: Json, delay: Json, loss: Json)
    | Enable(iface: Json)
    | Disable(iface: Json)
    | ShowRules(iface: Json)
  {
    predicate IsDocker() {
      UpdateCpuShares? || UpdateMemoryLimit? || Connect? || Disconnect?
    }
  }

  /** The tracker after an operation, and the exception that escaped it. */
  datatype Step = Step(tracker: Tracker, raised: Option<PyError>)

  predicate AllText(vs: seq<Json>) {
    forall i :: 0 <= i < |vs| ==> vs[i].JStr?
  }

  /** Building a log message with `+`: only strings concatenate with strings. */
  function LogMessage(parts: seq<Json>): (r: Option<PyError>)
    ensures r.None? <==> AllText(parts)
    ensures r.Some? ==> r.value == TypeError
  {
    if AllText(parts) then None else Some(TypeError)
  }

  // ---------------------------------------------------------------------------
  // Docker

  /** The values concatenated into the warning logged when the daemon answers
      NotFound: the container name, or the network name for (dis)connect. */
  function NotFoundLog(cmd: Command): seq<Json>
    requires cmd.IsDocker()
  {
    if cmd.Connect? || cmd.Disconnect? then [cmd.network] else [cmd.container]
  }

  /** The values concatenated into the warning logged on any other API error. */
  function ApiErrorLog(cmd: Command): seq<Json>
    requires cmd.IsDocker()
  {
    if cmd.Connect? || cmd.Disconnect? then [cmd.container, cmd.network] else [cmd.container]
  }

  /** The record of the named container after the change the command makes. */
  function Changed(cmd: Command, rec: Record): Record
    requires cmd.IsDocker()
  {
    match cmd
    case UpdateCpuShares(_, v) => rec.(cpuShares := v)
    case UpdateMemoryLimit(_, v) => rec.(memoryLimit := v)
    case Connect(network, _) => rec.(connections := ConnPut(rec.connections, network, Connected))
    case Disconnect(network, _) => rec.(connections := ConnPut(rec.connections, network, Disconnected))
  }

  /** The effect of `update_cpu_shares`, `update_memory_limit`, `connect` or
      `disconnect` given the daemon's answer. On NotFound or an API error the
      warning is logged and the tracker is untouched. On success the container
      is looked up (created if absent) and its record changed; a list or dict
      as container name, or as network name for (dis)connect, cannot be a dict
      key and raises TypeError. */
  function DockerEffect(t: Tracker, cmd: Command, answer: DockerOutcome): (r: Step)
    requires cmd.IsDocker()
  {
    match answer
    case NotFound => Step(t, LogMessage(NotFoundLog(cmd)))
    case ApiError => Step(t, LogMessage(ApiErrorLog(cmd)))
    case Success =>
      if !Hashable(cmd.container) then Step(t, Some(TypeError))
      else if (cmd.Connect? || cmd.Disconnect?) && !Hashable(cmd.network) then
        Step(Touch(t, cmd.container), Some(TypeError))
      else
        Step(Update(t, cmd.container, Changed(cmd, Lookup(t, cmd.container))), None)
  }

  /** The tracker changes only when the daemon reports success. */
  lemma DockerChangesOnlyOnSuccess(t: Tracker, cmd: Command, answer: DockerOutcome)
    requires cmd.IsDocker()
    ensures DockerEffect(t, cmd, answer).tracker != t ==> answer == Success
    ensures answer != Success ==>
      (DockerEffect(t, cmd, answer).raised.Some? <==>
       !AllText(if answer == NotFound then NotFoundLog(cmd) else ApiErrorLog(cmd)))
  {
  }

  /** On success with usable names, the container's record is the old one (or
      the default) with exactly the commanded change, every other record is
      kept, and nothing escapes. */
  lemma {:induction false} DockerSuccess(t: Tracker, cmd: Command)
    requires cmd.IsDocker() && Hashable(cmd.container)
    requires (cmd.Connect? || cmd.Disconnect?) ==> Hashable(cmd.network)
    ensures DockerEffect(t, cmd, Success).raised == None
    ensures var r := DockerEffect(t, cmd, Success).tracker;
      && cmd.container in r.records
      && r.records[cmd.container] ==
           Changed(cmd, if cmd.container in t.records then t.records[cmd.container] else DefaultRecord())
      && (forall k :: k in t.records && k != cmd.container ==> k in r.records && r.records[k] == t.records[k])
      && r.records.Keys == t.records.Keys + {cmd.container}
  {
    TouchAdds(t, cmd.container);
  }

  /** `connect` records the network as connected and `disconnect` as
      disconnected; the container's other networks keep their states. */
  lemma {:induction false} ConnectionRecorded(t: Tracker, cmd: Command)
    requires (cmd.Connect? || cmd.Disconnect?) && Hashable(cmd.container) && Hashable(cmd.network)
    ensures var rec := DockerEffect(t, cmd, Success).tracker.records[cmd.container];
      && ConnGet(rec.connections, cmd.network) == Some(if cmd.Connect? then Connected else Disconnected)
      && (forall n :: n != cmd.network ==>
            ConnGet(rec.connections, n) == ConnGet(Lookup(t, cmd.container).connections, n))
  {
  }

  /** The lookup followed by the setter is the effect `DockerEffect` states. */
  lemma SucceededEffect(t: Tracker, cmd: Command, rec: Record, after: Tracker)
    requires cmd.IsDocker() && Hashable(cmd.container)
    requires rec == if (cmd.Connect? || cmd.Disconnect?) && !Hashable(cmd.network) then Lookup(t, cmd.container)
                    else Changed(cmd, Lookup(t, cmd.container))
    requires after == Touch(t, cmd.container).(records := Touch(t, cmd.container).records[cmd.container := rec])
    ensures after == DockerEffect(t, cmd, Success).tracker
  {
  }

  class Docker {
    const status: AgentStatus

    constructor (status: AgentStatus)
      ensures this.status == status
    {
      this.status := status;
    }

    /** `update_cpu_shares`, `update_memory_limit`, `connect` and `disconnect`:
        the daemon call (its answer given), then, on success, the lookup and
        the change of the container's record. */
    method Run(cmd: Command, answer: DockerOutcome) returns (raised: Option<PyError>)
      requires cmd.IsDocker() && status.Valid()
      modifies status, status.Repr
      ensures status.Valid() && fresh(status.Repr - old(status.Repr))
      ensures status.Model() == DockerEffect(old(status.Model()), cmd, answer).tracker
      ensures raised == DockerEffect(old(status.Model()), cmd, answer).raised
    {
      if answer == NotFound {
        raised := LogMessage(NotFoundLog(cmd));
      } else if answer == ApiError {
        raised := LogMessage(ApiErrorLog(cmd));
      } else {
        raised := Succeeded(cmd);
      }
    }

    /** The `try` body after the daemon call succeeded:
        `self.status.get_container(name).set_...(...)`. */
    method Succeeded(cmd: Command) returns (raised: Option<PyError>)
      requires cmd.IsDocker() && status.Valid()
      modifies status, status.Repr
      ensures status.Valid() && fresh(status.Repr - old(status.Repr))
      ensures status.Model() == DockerEffect(old(status.Model()), cmd, Success).tracker
      ensures raised == DockerEffect(old(status.Model()), cmd, Success).raised
    {
      var r := status.GetContainer(cmd.container);
      if r.Err? {
        return Some(r.error);
      }
      ghost var looked := status.Model();
      raised := Change(r.value, cmd);
      SucceededEffect(old(status.Model()), cmd, r.value.Rec(), status.Model());
    }

    /** The setter call on the looked-up container object. */
    method Change(c: ContainerStatus, cmd: Command) returns (raised: Option<PyError>)
      requires cmd.IsDocker() && status.Valid()
      requires cmd.container in status.containers && status.containers[cmd.container] == c
      modifies c
      ensures status.Valid()
      ensures raised == if (cmd.Connect? || cmd.Disconnect?) && !Hashable(cmd.network) then Some(TypeError) else None
      ensures c.Rec() == if raised.Some? then old(c.Rec()) else Changed(cmd, old(c.Rec()))
      ensures status.Model() == old(status.Model()).(records := old(status.Model()).records[cmd.container := c.Rec()])
    {
      if cmd.UpdateCpuShares? {
        c.SetCpuShares(cmd.value);
        raised := None;
      } else if cmd.UpdateMemoryLimit? {
        c.SetMemoryLimit(cmd.value);
        raised := None;
      } else {
        raised := c.SetConnectionStatus(cmd.network, if cmd.Connect? then Connected else Disconnected);
      }
      status.RecordChanged(cmd.container);
    }
  }

  // ---------------------------------------------------------------------------
  // Traffic control

  /** The arguments passed to a program must be strings (`subprocess` raises
      TypeError otherwise); with `check=True` a non-zero exit raises
      CalledProcessError and a program that cannot be started raises OSError. */
  function RunChecked(argv: seq<Json>, run: seq<Json> -> ProcessOutcome): (r: Option<PyError>)
    ensures !AllText(argv) ==> r == Some(TypeError)
    ensures AllText(argv) ==> (r.None? <==> run(argv) == Completed)
  {
    if !AllText(argv) then Some(TypeError)
    else match run(argv)
      case Completed => None
      case NonZeroExit => Some(CalledProcessError)
      case CannotStart => Some(OsError)
  }

  /** The three shaping options of `Tc.interface`. */
  datatype Shaping = Rate | Delay | Loss

  /** The `tcset` option of each. */
  function Flag(option: Shaping): string {
    match option
    case Rate => "--rate"
    case Delay => "--delay"
    case Loss => "--loss"
  }

  /** The option and its value, when the value is truthy. */
  function OptionArgs(option: Shaping, v: Json): seq<Json> {
    if Truthy(v) then [JStr(Flag(option)), v] else []
  }

  /** The `tcset` argument vector of `Tc.interface`: the interface, then the
      rate, delay and loss options for the values that are truthy, in that
      order, and the flag that overwrites existing rules. */
  function InterfaceArgs(iface: Json, bandwidth: Json, delay: Json, loss: Json): seq<Json> {
    [JStr("tcset"), iface] + OptionArgs(Rate, bandwidth) + OptionArgs(Delay, delay) + OptionArgs(Loss, loss)
    + [JStr("--overwrite")]
  }

  function Count(b: bool): nat { if b then 1 else 0 }

  /** The vector starts with `tcset` and the interface, ends with
      `--overwrite`, and holds one option/value pair per truthy value, in the
      order rate, delay, loss, each value right after its option. */
  lemma InterfaceArgsShape(iface: Json, bandwidth: Json, delay: Json, loss: Json)
    ensures var a := InterfaceArgs(iface, bandwidth, delay, loss);
      && |a| == 3 + 2 * (Count(Truthy(bandwidth)) + Count(Truthy(delay)) + Count(Truthy(loss)))
      && a[0] == JStr("tcset") && a[1] == iface && a[|a| - 1] == JStr("--overwrite")
      && (Truthy(bandwidth) ==> a[2] == JStr("--rate") && a[3] == bandwidth)
      && (Truthy(delay) ==>
            var p := 2 + 2 * Count(Truthy(bandwidth));
            a[p] == JStr("--delay") && a[p + 1] == delay)
      && (Truthy(loss) ==>
            var p := 2 + 2 * (Count(Truthy(bandwidth)) + Count(Truthy(delay)));
            a[p] == JStr("--loss") && a[p + 1] == loss)
  {
  }
  /** The `docker0` field that records an option's value. */
  function Shaped(rec: Record, option: Shaping, v: Json): Record {
    match option
    case Rate => rec.(bandwidth := v)
    case Delay => rec.(latency := v)
    case Loss => rec.(packetLoss := v)
  }

  /** `get_container("docker0").set_...(v)` when `v` is truthy. */
  function Shape(t: Tracker, option: Shaping, v: Json): Tracker {
    if Truthy(v) then Update(t, Docker0, Shaped(Lookup(t, Docker0), option, v)) else t
  }

  /** The status effect of `Tc.interface`: bandwidth, then delay, then loss. */
  function InterfaceEffect(t: Tracker, bandwidth: Json, delay: Json, loss: Json): Tracker {
    Shape(Shape(Shape(t, Rate, bandwidth), Delay, delay), Loss, loss)
  }

  /** Only the `docker0` record changes, and in it only the fields whose value
      is truthy; the interface named in the call plays no part. */
  lemma {:induction false} InterfaceEffectOnlyDocker0(t: Tracker, bandwidth: Json, delay: Json, loss: Json)
    requires Docker0 in t.records
    ensures var r := InterfaceEffect(t, bandwidth, delay, loss);
      && r.order == t.order && r.records.Keys == t.records.Keys
      && (forall k :: k in t.records && k != Docker0 ==> r.records[k] == t.records[k])
      && r.records[Docker0] == t.records[Docker0].(
           bandwidth := if Truthy(bandwidth) then bandwidth else t.records[Docker0].bandwidth,
           latency := if Truthy(delay) then delay else t.records[Docker0].latency,
           packetLoss := if Truthy(loss) then loss else t.records[Docker0].packetLoss)
  {
    ShapeStep(t, Rate, bandwidth);
    var t1 := Shape(t, Rate, bandwidth);
    ShapeStep(t1, Delay, delay);
    ShapeStep(Shape(t1, Delay, delay), Loss, loss);
  }

  /** One option changes one field of the present `docker0` record. */
  lemma ShapeStep(t: Tracker, option: Shaping, v: Json)
    requires Docker0 in t.records
    ensures Shape(t, option, v).order == t.order
    ensures Shape(t, option, v).records ==
      t.records[Docker0 := if Truthy(v) then Shaped(t.records[Docker0], option, v) else t.records[Docker0]]
  {
  }

  /** The exception `Tc.interface` lets escape: a failed `tcset` is only logged. */
  function InterfaceRaised(argv: seq<Json>, run: seq<Json> -> ProcessOutcome): (r: Option<PyError>)
    ensures r.Some? ==> r.value != CalledProcessError
    ensures r.None? <==> RunChecked(argv, run) in {None, Some(CalledProcessError)}
  {
    var e := RunChecked(argv, run);
    if e == Some(CalledProcessError) then None else e
  }

  /** `Tc.enable` / `Tc.disable`: `ip link set <iface> up|down`; a non-zero exit
      is only logged, anything else escapes. */
  function LinkArgs(iface: Json, up: bool): seq<Json> {
    [JStr("ip"), JStr("link"), JStr("set"), iface, JStr(if up then "up" else "down")]
  }

  function SwitchRaised(iface: Json, up: bool, run: seq<Json> -> ProcessOutcome): (r: Option<PyError>)
    ensures r.Some? ==> r.value != CalledProcessError
    ensures iface.JStr? && run(LinkArgs(iface, up)) != CannotStart ==> r.None?
  {
    var e := RunChecked(LinkArgs(iface, up), run);
    if e == Some(CalledProcessError) then None else e
  }

  /** `Tc.show_rules`: `tcshow <iface>` with `check=True` and nothing caught. */
  function ShowRulesRaised(iface: Json, run: seq<Json> -> ProcessOutcome): (r: Option<PyError>)
    ensures iface.JStr? ==> (r == Some(CalledProcessError) <==> run([JStr("tcshow"), iface]) == NonZeroExit)
  {
    RunChecked([JStr("tcshow"), iface], run)
  }

  class Tc {
    const status: AgentStatus

    constructor (status: AgentStatus)
      ensures this.status == status
    {
      this.status := status;
    }

    /** `Tc.interface`: the argument vector is grown option by option while
        the `docker0` record is updated, then `tcset` runs. */
    method Interface(iface: Json, bandwidth: Json, delay: Json, loss: Json, run: seq<Json> -> ProcessOutcome)
      returns (argv: seq<Json>, raised: Option<PyError>)
      requires status.Valid()
      modifies status, status.Repr
      ensures status.Valid() && fresh(status.Repr - old(status.Repr))
      ensures argv == InterfaceArgs(iface, bandwidth, delay, loss)
      ensures status.Model() == InterfaceEffect(old(status.Model()), bandwidth, delay, loss)
      ensures raised == InterfaceRaised(argv, run)
    {
      argv := [JStr("tcset"), iface];
      argv := AddOption(argv, Rate, bandwidth);
      argv := AddOptions(argv, delay, loss);
      argv := argv + [JStr("--overwrite")];
      raised := InterfaceRaised(argv, run);
    }

    /** The delay and loss blocks of `Tc.interface`. */
    method AddOptions(argv: seq<Json>, delay: Json, loss: Json) returns (extended: seq<Json>)
      requires status.Valid()
      modifies status, status.Repr
      ensures status.Valid() && fresh(status.Repr - old(status.Repr))
      ensures extended == argv + OptionArgs(Delay, delay) + OptionArgs(Loss, loss)
      ensures status.Model() == Shape(Shape(old(status.Model()), Delay, delay), Loss, loss)
    {
      extended := AddOption(argv, Delay, delay);
      extended := AddOption(extended, Loss, loss);
    }

    /** One `if value:` block of `Tc.interface`: extend the vector with the
        option and record the value on `docker0`. */
    method AddOption(argv: seq<Json>, option: Shaping, v: Json) returns (extended: seq<Json>)
      requires status.Valid()
      modifies status, status.Repr
      ensures status.Valid() && fresh(status.Repr - old(status.Repr))
      ensures extended == argv + OptionArgs(option, v)
      ensures status.Model() == Shape(old(status.Model()), option, v)
    {
      extended := argv;
      if Truthy(v) {
        extended := extended + [JStr(Flag(option)), v];
        SetDocker0(option, v);
      }
    }

    /** One `self.status.get_container("docker0").set_...(v)` line. */
    method SetDocker0(option: Shaping, v: Json)
      requires status.Valid() && Truthy(v)
      modifies status, status.Repr
      ensures status.Valid() && fresh(status.Repr - old(status.Repr))
      ensures status.Model() == Shape(old(status.Model()), option, v)
    {
      var r := status.GetContainer(Docker0);
      var c := r.value;
      label Looked:
      if option == Rate {
        c.SetBandwidth(v);
      } else if option == Delay {
        c.SetLatency(v);
      } else {
        c.SetPacketLoss(v);
      }
      status.RecordChanged@Looked(Docker0);
    }
  }
}
