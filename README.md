# MockFogLight node agent — a Dafny model

MockFogLight runs one agent on every node of an emulated fog topology. The
agent takes JSON event arrays over HTTP and turns each event into controller
calls. Docker calls change a container's CPU shares, memory limit or network
membership. `tcset` calls shape the traffic of an interface. The agent keeps
its own record of what it believes each container's configuration is, and it
renders that record as JSON stage reports. The newest agent lives in
`mockfog_agent/mockfog_agent.py`. Three older copies hold the request
extraction and routing code: `mockfog_topology/files/agent.py`,
`agent/agent.py` and `agent/server.py`.

The model has these modules:

- `PyJson` (`json.dfy`): a decoded JSON value. It also gives the Python
  operations the agent applies to such a value, each returning the exception
  kind it raises: `v[key]`, `v[0]`, `in`, `int()`, truthiness, hashability
  and `'%s' %`.
- `Status` (`status.dfy`): the status tracker. `ContainerStatus` and
  `AgentStatus` are classes whose methods update their fields in place, as
  the source's do. Their contracts are stated against a value view:
  `Record`, and `Tracker` (names in insertion order plus their records). The
  view carries the lookup (`Touch`), the refresh from `tcshow` (`Refreshed`,
  `RefreshAll`) and the hand-written JSON text (`ConnectionsJson`,
  `RecordJson`, `AgentJson`). The topology copy's status classes are the
  same code, so they are modelled once, here.
- `Controllers` (`controllers.dfy`): `Docker` and `Tc`.
  - The Docker daemon's answer is a `DockerOutcome` (success, NotFound or
    APIError).
  - A started program's ending is a `ProcessOutcome`.
  - What is modelled is what the agent does around those calls: the status
    change, the argument vector, and the exception that escapes.
- `Dispatch` (`dispatch.dfy`):
  - `do_action`, `schedule_application` and `schedule_interface` are pure
    functions from an event to the ordered commands it issues, plus the
    exception that ends the routing.
  - `Agent` carries the commands out against the status objects.
  - The outside world is a `World` value: the Docker answers, the program
    endings and the parsed `tcshow` output.
- `Batch` (`batch.dfy`): the planning loop of `do_POST`. It gives one action
  entry per event and a report entry one second after the last event. The
  firing order of `sched.scheduler` is a stable sort by time.
- `Handler` (`handler.dfy`):
  - the stage report store of `WebServerHandler` (`_stage_report`,
    `_stage_counter`, `_update_report`);
  - a batch run entry by entry in firing order, until the first exception;
  - the path match of `do_GET`.
- `Extraction` (`extraction.dfy`): `endpoint_application` and
  `endpoint_interface`.
  - The three copies differ only in their key lists, so they share one
    list-driven loop (`Extract`). Copies with the same key list share one
    extractor.
  - `Extracted` is the function that specifies it.
- `TopologyAgent`, `LegacyAgent`, `LegacyServer`: the request paths of the
  three older copies.

Behaviour of the code worth knowing:

- **Report time.** The report entry is scheduled one second after the *last
  event in array order*, not after the latest timestamp. An earlier event
  with a later time therefore fires after the snapshot
  (`Batch.ReportBeforeLaterAction`).
- **Late binding.** Every action closure reads the loop variable `event`
  when it fires. Every action of a batch therefore dispatches the array's
  final event (`Batch.Plan.event`).
- **Exceptions end the batch.** An exception in an action ends the
  scheduler's thread, and the report entry is lost with it
  (`Handler.MissingDataLosesReport`). Such exceptions include:
  - a missing `data` or `name`;
  - a name that is not text in a log message;
  - a failing `tcshow` in `show_rules`, which has `check=True` and nothing
    caught.
- **`do_GET` never serves a report.** It indexes the integer-keyed store
  with the matched *string*, so a matching path raises KeyError
  (`Handler.GetNeverServes`).
- **`active` is compared as text.** It is compared to the strings `'true'`
  and `'false'`. A JSON boolean enables or disables nothing.
- **Topology copy:**
  - its `schedule_interface` calls `tc.bandwidth`, which its `Tc` class does
    not define, so an extracted `bandwidth` raises AttributeError;
  - its `Docker` keeps no status;
  - every POST builds a fresh `Agent`, so `/reports/` always shows only
    `docker0`.
- **First agent (`agent/agent.py`):**
  - `schedule_application` sends the memory value to `update_cpu_shares`;
  - its Docker errors escape;
  - its `tcset` runs without `check=True`.

## Model

| member | source | states |
|---|---|---|
| Status.Initial | mockfog_agent/mockfog_agent.py:132-135 | a fresh status holds exactly `docker0`, well formed |
| Status.Touch | mockfog_agent/mockfog_agent.py:137-141 | after `get_container` the name is present; a present name leaves the status unchanged (idempotent); the topology copy's `get_container` (its lines 134-138) is the same code |
| Status.TouchAdds | mockfog_agent/mockfog_agent.py:137-141 | a lookup adds at most the looked-up name, last, with the default record; every other record is kept; well-formedness is kept |
| Status.Update | mockfog_agent/mockfog_agent.py:137-141 | lookup then change: the order is the lookup's, and only the named record is replaced |
| Status.ConnGet | mockfog_agent/mockfog_agent.py:48-52 | `dict.get` on the connections: found exactly when some pair has the key, and then it is that pair's state |
| Status.ConnPut | mockfog_agent/mockfog_agent.py:54-55 | after `connections[k] = v`, `k` maps to `v` and every other key keeps its state |
| Status.ConnPutKeys | mockfog_agent/mockfog_agent.py:54-55 | an existing key keeps its position; a new key goes last (dict insertion order) |
| Status.ConnPutUnique | mockfog_agent/mockfog_agent.py:54-55 | putting never duplicates a key |
| Status.ConnPutAppends | mockfog_agent/mockfog_agent.py:54-55 | putting an absent key appends the pair |
| Status.LastWithWins | mockfog_agent/mockfog_agent.py:96-102 | for each field, the last outgoing rule carrying it decides; with no such rule the old value stays |
| Status.Refreshed | mockfog_agent/mockfog_agent.py:93-104 | a failed read leaves the record unchanged; otherwise memory, cpu and connections are untouched; the same holds for the topology copy (its lines 90-101) |
| Status.RefreshAll | mockfog_agent/mockfog_agent.py:147-153 | rendering refreshes every record from its own `tcshow`; a record whose name is not text is unchanged (`subprocess.run` raises TypeError inside the bare `except`, lines 93-104); names and order are unchanged; well-formedness is kept |
| Status.JoinCons | mockfog_agent/mockfog_agent.py:109-119 | the separator-building loop: the first part comes first, and each later part is preceded by exactly one separator |
| Status.PairsCons | mockfog_agent/mockfog_agent.py:112-117 | the pairs in insertion order, read from the front |
| Status.ConnectionsJsonShape | mockfog_agent/mockfog_agent.py:109-119 | connections text is `{}` when empty; otherwise `{`, the first pair with no comma before it, `,` before every later pair, then `}`; the topology copy (its lines 106-116) renders the same way |
| Status.JoinAppend | mockfog_agent/mockfog_agent.py:147-153 | one loop pass: a separator unless this is the first part, then the part |
| Status.EntriesCount | mockfog_agent/mockfog_agent.py:147-153 | with every name recorded, exactly one entry per container |
| Status.EntriesSnoc | mockfog_agent/mockfog_agent.py:147-153 | one more container adds its entry last |
| Status.EntryStep | mockfog_agent/mockfog_agent.py:147-153 | one loop pass of `AgentStatus.to_json` extends the text by `,\n    ` (not on the first pass) and the container's entry |
| Status.ContainerStatus.constructor | mockfog_agent/mockfog_agent.py:17-25 | a new record is `256`, `1024`, `""`, `0.0ms`, `0`, with no connections |
| Status.ContainerStatus.SetMemoryLimit | mockfog_agent/mockfog_agent.py:33-34 | only the memory limit changes |
| Status.ContainerStatus.SetCpuShares | mockfog_agent/mockfog_agent.py:39-40 | only the cpu shares change |
| Status.ContainerStatus.SetBandwidth | mockfog_agent/mockfog_agent.py:45-46 | only the bandwidth changes |
| Status.ContainerStatus.SetLatency | mockfog_agent/mockfog_agent.py:60-61 | only the latency changes |
| Status.ContainerStatus.SetPacketLoss | mockfog_agent/mockfog_agent.py:66-67 | only the packet loss changes |
| Status.ContainerStatus.GetConnectionStatus | mockfog_agent/mockfog_agent.py:48-52 | a known network returns its state and changes nothing; an unknown one is inserted as `disconnected` and returns that; an unhashable name raises TypeError |
| Status.ContainerStatus.SetConnectionStatus | mockfog_agent/mockfog_agent.py:54-55 | stores the state under the network, keeping the other networks; an unhashable name raises TypeError and changes nothing |
| Status.ContainerStatus.UpdateValues | mockfog_agent/mockfog_agent.py:69-104 | the rule loop leaves the record as `Refreshed` states |
| Status.ContainerStatus.ToJson | mockfog_agent/mockfog_agent.py:106-128 | refreshes the record, then returns the six-field template with the connections text |
| Status.ContainerStatus.ConnectionsText | mockfog_agent/mockfog_agent.py:109-119 | the connections loop builds `ConnectionsJson` of the current connections |
| Status.AgentStatus.constructor | mockfog_agent/mockfog_agent.py:132-135 | the new status equals `Initial` |
| Status.AgentStatus.GetContainer | mockfog_agent/mockfog_agent.py:137-141 | returns the name's own object; the status becomes `Touch` of the old one; only an absent name gets a fresh object; an unhashable name raises TypeError and changes nothing |
| Status.AgentStatus.AddContainer | mockfog_agent/mockfog_agent.py:138-139 | inserting an absent name adds one fresh default object, last |
| Status.AgentStatus.AddedValid | mockfog_agent/mockfog_agent.py:138-139 | inserting a fresh object under an absent name keeps the status invariant |
| Status.AgentStatus.AddedModel | mockfog_agent/mockfog_agent.py:138-139 | that insertion changes the value view exactly as `Touch` does |
| Status.AgentStatus.ModelWellFormed | mockfog_agent/mockfog_agent.py:131-141 | the status's view always lists each name once, exactly the dict's keys |
| Status.AgentStatus.ToJson | mockfog_agent/mockfog_agent.py:143-156 | every record is refreshed and the text is one `"name": record` entry per container, in insertion order |
| Status.AgentStatus.RenderAll | mockfog_agent/mockfog_agent.py:144-153 | the loop refreshes each container once and joins the entries in order |
| Status.AgentStatus.AppendEntry | mockfog_agent/mockfog_agent.py:148-152 | one pass: separator unless first, then the refreshed container's entry |
| Status.AgentStatus.RenderEntry | mockfog_agent/mockfog_agent.py:151-152 | the entry is the container's name and its refreshed record; no other container changes |
| Status.AgentStatus.RefreshedModel | mockfog_agent/mockfog_agent.py:147-153 | after the loop the status is the old one with every record refreshed |
| Controllers.LogMessage | mockfog_agent/mockfog_agent.py:182-185 | building a warning with `+` raises TypeError exactly when some part is not text |
| Controllers.DockerChangesOnlyOnSuccess | mockfog_agent/mockfog_agent.py:171-244 | the status changes only when the daemon succeeds; on NotFound or APIError only the warning can raise |
| Controllers.DockerSuccess | mockfog_agent/mockfog_agent.py:171-244 | on success the container's record (or a default one) gets exactly the commanded change, others are kept, nothing escapes |
| Controllers.ConnectionRecorded | mockfog_agent/mockfog_agent.py:212-244 | `connect` records `connected`, `disconnect` records `disconnected`; the container's other networks keep their states |
| Controllers.Docker.constructor | mockfog_agent/mockfog_agent.py:162-164 | the controller shares the agent's status object |
| Controllers.Docker.Run | mockfog_agent/mockfog_agent.py:171-244 | the four Docker operations change the status and raise exactly as `DockerEffect` gives |
| Controllers.Docker.Succeeded | mockfog_agent/mockfog_agent.py:178-181 | the `try` body after success: lookup then setter, as `DockerEffect` gives for success |
| Controllers.Docker.Change | mockfog_agent/mockfog_agent.py:180-181 | the setter changes only the looked-up container's record |
| Controllers.RunChecked | mockfog_agent/mockfog_agent.py:304-305 | `check=True`: non-text arguments raise TypeError; otherwise nothing escapes exactly when the program exits with zero |
| Controllers.InterfaceArgsShape | mockfog_agent/mockfog_agent.py:292-303 | argv is `tcset`, the interface, then `--rate`, `--delay`, `--loss` pairs for truthy values in that order, then `--overwrite` |
| Controllers.InterfaceEffectOnlyDocker0 | mockfog_agent/mockfog_agent.py:288-301 | only the `docker0` record changes, whatever the interface, and only in the fields whose value is truthy |
| Controllers.ShapeStep | mockfog_agent/mockfog_agent.py:293-301 | one truthy option changes one field of `docker0` |
| Controllers.InterfaceRaised | mockfog_agent/mockfog_agent.py:304-307 | CalledProcessError is caught; every other failure escapes |
| Controllers.SwitchRaised | mockfog_agent/mockfog_agent.py:331-352 | `ip link set` with a non-zero exit is only logged; text argv on a startable program raises nothing |
| Controllers.ShowRulesRaised | mockfog_agent/mockfog_agent.py:321-322 | `tcshow` with `check=True`: a non-zero exit escapes as CalledProcessError |
| Controllers.Tc.constructor | mockfog_agent/mockfog_agent.py:258-260 | the controller shares the agent's status object |
| Controllers.Tc.Interface | mockfog_agent/mockfog_agent.py:262-307 | argv is `InterfaceArgs`; the `docker0` record gets the truthy values before `tcset` runs; the escaping exception is `InterfaceRaised` |
| Controllers.Tc.AddOptions | mockfog_agent/mockfog_agent.py:296-301 | the delay block, then the loss block |
| Controllers.Tc.AddOption | mockfog_agent/mockfog_agent.py:293-301 | one `if value:` block extends argv with the option and records the value on `docker0` |
| Controllers.Tc.SetDocker0 | mockfog_agent/mockfog_agent.py:295-301 | one `get_container("docker0").set_...` line |
| Dispatch.When | mockfog_agent/mockfog_agent.py:428-435 | an `if` block issues at most one more command after the earlier ones; once a read has raised nothing further runs |
| Dispatch.ApplicationOrder | mockfog_agent/mockfog_agent.py:428-435 | with `name`: the cpu update, then the memory update, each only when its key is present, with the event's values; without `name`: either key raises KeyError before any command |
| Dispatch.InterfaceOrder | mockfog_agent/mockfog_agent.py:438-459 | bandwidth, then enable iff `active` is `'true'` or disable iff it is `'false'`, then delay, then loss, always `show_rules` last |
| Dispatch.InterfaceNeedsId | mockfog_agent/mockfog_agent.py:438-459 | without `id`: KeyError and no command |
| Dispatch.OtherPathsIssueNothing | mockfog_agent/mockfog_agent.py:417-425 | another path issues nothing; it raises only when the event has no `data` |
| Dispatch.ExecuteAllStops | mockfog_agent/mockfog_agent.py:417-459 | after a command raises, the later commands do not run |
| Dispatch.OnlySuccessChanges | mockfog_agent/mockfog_agent.py:171-244 | commands that neither shape an interface nor succeed at the daemon leave the status as it was |
| Dispatch.EffectKeepsWellFormed | mockfog_agent/mockfog_agent.py:171-307 | every controller call keeps the status well formed |
| Dispatch.ExecuteAllWellFormed | mockfog_agent/mockfog_agent.py:417-459 | so does any sequence of them |
| Dispatch.Agent.constructor | mockfog_agent/mockfog_agent.py:355-361 | one fresh status shared by `Docker` and `Tc`, equal to `Initial` |
| Dispatch.Agent.Execute | mockfog_agent/mockfog_agent.py:417-459 | one controller call changes the status and raises as `CommandEffect` gives |
| Dispatch.Agent.Perform | mockfog_agent/mockfog_agent.py:417-425 | the routed commands run in order until the first exception, as `Performed` gives |
| PyJson.IntOfPadded | mockfog_agent/mockfog_agent.py:397 | `int()` of a timestamp string reads back the decimal text of every natural number, whatever whitespace surrounds it (the ASCII space, `\t` to `\r`, and the non-ASCII `str.isspace` characters) |
| PyJson.IntOfSeparatorKept | mockfog_agent/mockfog_agent.py:397 | the ASCII separators `\x1c` to `\x1f` are not stripped: `"\x1c1"` raises ValueError |
| PyJson.IntOfUnderscores | mockfog_agent/mockfog_agent.py:397 | single underscores between digits are accepted: `"1_000"` is 1000 |
| PyJson.IntOfSigned | mockfog_agent/mockfog_agent.py:397 | a `-` or `+` before a grouped digit string gives its value negated or as is |
| PyJson.IntOfMisplacedUnderscores | mockfog_agent/mockfog_agent.py:397 | doubled, leading and trailing underscores raise `ValueError` |
| PyJson.StripLeftSound | mockfog_agent/mockfog_agent.py:397 | the text `int()` parses is its argument minus a leading run of whitespace, and starts with a non-space |
| PyJson.StripRightSound | mockfog_agent/mockfog_agent.py:397 | the text `int()` parses is its argument minus a trailing run of whitespace, and ends with a non-space |
| Batch.PlanDetermined | mockfog_agent/mockfog_agent.py:393-401 | the planning outcome is a function of the body: two outcomes that both meet `PlannedFrom` are equal |
| Batch.PlanEvents | mockfog_agent/mockfog_agent.py:395-401 | the loop over the events meets `Planned`: one action per event in order, the report one second after the last event, AssertionError for no events, otherwise the first failing timestamp's error |
| Batch.PlanBatch | mockfog_agent/mockfog_agent.py:393-401 | one action per event at its timestamp, then the report at the *last* event's time plus 1000 ms; the closure event is the last one; an empty array fails the assert; a bad timestamp raises the first failing `int()`/lookup error |
| Batch.InsertAt | mockfog_agent/mockfog_agent.py:398-401 | entering goes after every queued entry not later than it (ties in entry order) |
| Batch.InsertPermutes | mockfog_agent/mockfog_agent.py:398-401 | entering adds exactly that entry |
| Batch.InsertSorted | mockfog_agent/mockfog_agent.py:398-401 | entering keeps the queue sorted by time |
| Batch.FireOrderSorted | mockfog_agent/mockfog_agent.py:403 | the fired order is sorted by time and is a permutation of the entries |
| Batch.ReportPlacement | mockfog_agent/mockfog_agent.py:401-403 | the report fires after exactly the actions not later than it and before every later one |
| Batch.ReportBeforeLaterAction | mockfog_agent/mockfog_agent.py:396-401 | an array whose first event is later: the report fires between the two actions |
| Handler.Log | mockfog_agent/mockfog_agent.py:366-367 | the store maps `i` to the `i`-th snapshot |
| Handler.LogKeys | mockfog_agent/mockfog_agent.py:366-373 | the keys are exactly `0 .. n-1` |
| Handler.LogAppend | mockfog_agent/mockfog_agent.py:371-373 | storing under the counter uses a free key and keeps every earlier snapshot |
| Handler.Fired | mockfog_agent/mockfog_agent.py:398-403 | running the entries keeps the status well formed and only appends to the store |
| Handler.FireOne | mockfog_agent/mockfog_agent.py:398-401 | an action stores nothing; a report stores one snapshot of the refreshed status |
| Handler.FiredReports | mockfog_agent/mockfog_agent.py:398-403 | at most one snapshot per report entry, and exactly one each when nothing raises |
| Handler.MissingDataLosesReport | mockfog_agent/mockfog_agent.py:417-418 | an event without `data` raises before the report: the batch stores nothing and changes nothing |
| Handler.MatchReports | mockfog_agent/mockfog_agent.py:406 | matches exactly the paths starting `/reports` and a digit; the group is the whole digit run |
| Handler.DigitRun | mockfog_agent/mockfog_agent.py:406 | the longest prefix of decimal digits |
| Handler.StageLookup | mockfog_agent/mockfog_agent.py:411 | a lookup succeeds only for an integer key in the store (booleans are not identified with `0`/`1`, see Left out) |
| Handler.Get | mockfog_agent/mockfog_agent.py:405-414 | an unmatched path is the 404 answer |
| Handler.GetNeverServes | mockfog_agent/mockfog_agent.py:405-414 | no path gets a stored report; a matching path raises KeyError |
| Handler.Server.constructor | mockfog_agent/mockfog_agent.py:364-367 | a fresh agent, an empty store and counter 0 |
| Handler.Server.UpdateReport | mockfog_agent/mockfog_agent.py:370-373 | the refreshed rendering is stored under the counter, which then grows by exactly one; no earlier entry is overwritten |
| Handler.Server.Store | mockfog_agent/mockfog_agent.py:372-373 | the store half of `_update_report` |
| Handler.Server.FireEntry | mockfog_agent/mockfog_agent.py:398-401 | one entry firing matches `FireOne` |
| Handler.Server.RunBatch | mockfog_agent/mockfog_agent.py:403 | the scheduler thread runs the entries in firing order until one raises, as `Fired` gives |
| Handler.Server.Post | mockfog_agent/mockfog_agent.py:393-403 | the plan is `PlannedFrom` the body (one action per event, the report one second after the last event, the first failing `int()`/lookup error); a batch that cannot be planned changes nothing; otherwise the run is `Fired` on the planned order |
| Extraction.Read | mockfog_topology/files/agent.py:353-357 | one right-hand side: the failure of `array[0]` propagates; only KeyError, IndexError and TypeError can arise |
| Extraction.Fill | mockfog_topology/files/agent.py:352-359 | only IndexError or TypeError escape the `try` |
| Extraction.Extracted | mockfog_topology/files/agent.py:350-361 | a missing key never escapes |
| Extraction.Reached | mockfog_topology/files/agent.py:352-357 | the count of leading assignments whose value can be read |
| Extraction.FillOutcome | mockfog_topology/files/agent.py:352-359 | the filling stops at the first unreadable value and raises exactly when that read fails with anything but KeyError |
| Extraction.FillKeys | mockfog_topology/files/agent.py:352-359 | the keys are those read before the first missing one |
| Extraction.FillValues | mockfog_topology/files/agent.py:352-359 | each value read is stored unchanged under its own key |
| Extraction.ExtractedShape | mockfog_topology/files/agent.py:350-361 | the dict's keys are a prefix of the key list, its values equal the input's, and it raises exactly for a non-KeyError failure |
| Extraction.PrefixOrder | mockfog_topology/files/agent.py:352-357 | holding a key means holding every key listed before it |
| Extraction.PrefixWithin | mockfog_topology/files/agent.py:352-357 | only listed keys appear |
| Extraction.FillFirstOnly | agent/server.py:42-45 | only element 0 of the array is consulted |
| Extraction.FirstOnly | agent/server.py:55-58 | two arrays with the same element 0 extract the same |
| Extraction.NoFirstElement | agent/server.py:40-47 | an empty array raises IndexError; a dict yields the empty dict |
| Extraction.Extract | mockfog_topology/files/agent.py:350-361 | the assignment loop returns `Extracted` |
| Extraction.EndpointApplication | mockfog_topology/files/agent.py:350-361 | keys a prefix of `timestamp, name, cpu, memory, active`, values as read; `agent/agent.py` lines 198-209 are the same code |
| Extraction.EndpointInterface | mockfog_topology/files/agent.py:364-374 | keys a prefix of `timestamp, id, active, bandwidth`, values as read; `agent/agent.py` lines 212-222 and `agent/server.py` lines 52-62 are the same code |
| TopologyAgent.DockerRaised | mockfog_topology/files/agent.py:165-228 | this copy's Docker only logs; what escapes is the TypeError of a non-text name in the warning |
| TopologyAgent.SameWarnings | mockfog_topology/files/agent.py:165-228 | on failure it raises exactly what the newest agent raises |
| TopologyAgent.Issued | mockfog_topology/files/agent.py:390-397 | nothing escapes iff no warning raises; anything escaping is TypeError |
| TopologyAgent.NameFirst | mockfog_topology/files/agent.py:352-357 | an extracted dict with `cpu` or `memory` has `name` |
| TopologyAgent.PrefixRouted | mockfog_topology/files/agent.py:390-397 | so routing it never raises and issues only Docker requests |
| TopologyAgent.ApplicationRouted | mockfog_topology/files/agent.py:378-380 | the extractor's result routes without a fault |
| TopologyAgent.Scheduler | mockfog_topology/files/agent.py:377-387 | prints iff the path is `/reports/`; other paths do nothing; application errors are IndexError/TypeError; interface raises AttributeError iff a bandwidth was extracted |
| TopologyAgent.ReportShowsFreshAgent | mockfog_topology/files/agent.py:343-347 | `/reports/` always shows the fresh status holding only `docker0` |
| TopologyAgent.ApplicationCommands | mockfog_topology/files/agent.py:390-397 | name, cpu and memory issue the cpu update then the memory update; with both accepted nothing escapes |
| LegacyAgent.TcsetArgs | agent/agent.py:93-162 | `bandwidth`, `latency` and `packet_loss` build `tcset <name> --docker` followed by `--rate`, `--delay` or `--loss` and the value |
| LegacyAgent.DockerTargeted | agent/agent.py:93-107 | the same option and value as the newest `Tc.interface`, but on a container and without `--overwrite` |
| LegacyAgent.RunUnchecked | agent/agent.py:107 | no `check=True`: only non-text arguments or an unstartable program raise (the NUL-byte ValueError is not modelled, see Left out) |
| LegacyAgent.UncheckedIsLoggedCheck | agent/agent.py:107 | that raises exactly what the newest agent's logged check raises |
| LegacyAgent.DockerRaised | agent/agent.py:20-47 | nothing is caught: the daemon's error escapes exactly on failure |
| LegacyAgent.Issued | agent/agent.py:225-234 | nothing escapes iff every request succeeds; otherwise the first refused request's error |
| LegacyAgent.MemoryGoesToCpuShares | agent/agent.py:225-234 | cpu then memory, both as cpu-share updates, each only when present; the memory limit is never set |
| LegacyAgent.ScheduleInterface | agent/agent.py:237-242 | exactly one `tcset` for a bandwidth, on the container named by `id`; nothing without a bandwidth |
| LegacyAgent.Post | agent/agent.py:187-195 | other paths do nothing |
| LegacyAgent.NameFirst | agent/agent.py:198-209 | the extracted dict has `name` whenever it has `cpu` or `memory` |
| LegacyAgent.IdFirst | agent/agent.py:212-222 | the extracted dict has `id` whenever it has `bandwidth` |
| LegacyAgent.PostNeverRaisesKeyError | agent/agent.py:187-242 | no POST raises KeyError |
| LegacyServer.EndpointApplication | agent/server.py:39-49 | keys a prefix of `timestamp, name, cpu, memory`, never `active` |
| LegacyServer.NoActive | agent/server.py:43-45 | that key list has no `active` |
| LegacyServer.Post | agent/server.py:26-32 | only the two paths extract; a missing key never escapes; an empty array raises IndexError |

## Left out

- HTTP transport is not modelled: the response, headers, content-type
  check, body reading, `json.loads`, `main` and `serve_forever`. A POST
  starts from the decoded body and the request path.
- Threads, the real-time waiting of `sched.scheduler`, and the unsynchronised
  class-level state shared between handler threads are not modelled. A batch
  runs to completion before the next request.
- Timestamps are integer milliseconds. The source's `/ 1000.0` float
  division is not modelled, and neither are floats in JSON values.
- Firing ties in entry order assumes Python 3.10 or later, where
  `sched.Event` carries a sequence number that breaks ties. Python 3.0 to
  3.9 compare events by time and priority only, so entries with equal times
  fire in the order the heap yields them, which need not be entry order.
- The Docker SDK, `tcset`, `tcshow`, `tcdel` and `ip link` are answers in the
  `World` value. Each answer is fixed per command or argument vector, so a
  repeated identical request gets the same answer. Errors the client
  libraries raise themselves, before any request is made, are not answers
  the `World` can give (see the two lines below). Among them is the
  ValueError `subprocess.run` raises for an argument holding a NUL
  character, which nothing in the agents catches. It escapes from
  `Controllers.RunChecked`, `Controllers.InterfaceRaised`,
  `Controllers.SwitchRaised`, `Controllers.ShowRulesRaised` and
  `LegacyAgent.RunUnchecked` as well, and none of their contracts lists it.
- `Controllers.DockerEffect`: the Docker answer is success, NotFound or
  APIError only. The Docker SDK's own argument errors are not modelled:
  `NullResource` for an empty or null container or network name, ValueError
  for a name that is not text, and `DockerException` when `mem_limit` has
  no known unit (`"big"`). The source catches none of them, so they escape
  and end the batch. `Controllers.DockerChangesOnlyOnSuccess` holds only for
  the three modelled answers.
- `Controllers.InterfaceRaised`: the ValueError `subprocess.run` raises for
  an argument holding a NUL character (`"embedded null byte"`) is not
  modelled. `Tc.interface` does not catch it, so it would escape like
  TypeError and OSError.
- Logging and printing are left out, including `show_rules`'s print,
  `print(content_dict)` and the topology `/reports/` print. The print is
  modelled only as the printed text.
- `Docker.run`, `networks`, `stop_all_containers`, `Tc.update_bandwidth`,
  `reset_interface`, `show_tc_rules` and `reset_default_interface` are I/O
  wrappers that the request paths never call.
- The first agent's `Tc` defines one-argument `bandwidth` and `latency`
  first. The later two-argument definitions replace them, so they cannot
  be called.
- `do_GET`'s output beyond the lookup is not modelled, because the lookup
  always fails. `\d` is taken as ASCII digits only.
- `TopologyAgent.Scheduler`: the status effect of the topology copy's
  `update_cpu_shares`/`update_memory_limit` is not returned, because that
  copy keeps no status and the agent is discarded after the request.
- `LegacyAgent.Post`: for the two known paths, the contract states only that
  other paths raise nothing. The full outcome is the body. The key facts
  are stated by `LegacyAgent.PostNeverRaisesKeyError`,
  `LegacyAgent.MemoryGoesToCpuShares` and `LegacyAgent.ScheduleInterface`.
- `PyJson.IntOf`: non-ASCII decimal digits (Arabic-Indic, fullwidth and the
  other Unicode `Nd` digits), which Python's `int()` also accepts, are a
  `ValueError` in the model. The limit on the length of a decimal string
  (4300 digits by default from Python 3.11 and 3.10.7, past which `int()`
  raises ValueError) is not modelled either.
- `PyJson.IntOfPadded`: holds for every natural number because the model
  has no digit-count limit. On Python 3.11 and 3.10.7 or later, a number
  whose decimal text is longer than 4300 digits raises ValueError instead.
- `PyJson.Str`: `str()` of a list or a dict is rendered as the fixed text
  `[...]` or `{...}`, not Python's `repr` of its items. A report line that
  shows such a value, for example a list stored as a bandwidth by
  `Tc.interface`, differs from the source's text.
- `Status.Touch`, `Status.ConnGet` and `Status.ConnPut`: keys are compared as
  JSON values. Python's dicts treat `1` and `True`, and `0` and `False`, as
  the same key (keeping the key inserted first), so a status or connection
  keyed by both is one entry in the source and two in the model.
- `Handler.StageLookup`: for the same reason, a boolean key finds nothing,
  where Python's dict finds the entry under `1` for `True` and under `0` for
  `False`. The handler only passes a string key, so this never arises.
- `Status.Refreshed`: the `tcshow` answer is either unreadable (`None`) or a
  list of rules that map strings to strings. A rule value that is not a dict
  is handled as follows:
  - `"delay" in values` on a string is a substring test. So a string or
    list that holds none of `delay`, `loss` and `rate` reads nothing and
    acts like an empty rule.
  - A number, `null` or a boolean makes the `in` test raise TypeError.
  - A string or list that holds one of the three makes the following
    `values["delay"]` raise TypeError.
  Either TypeError is caught by the bare `except` after the earlier rules
  have been applied, so the source keeps a partial refresh. That answer
  cannot be written as an `Option<seq<Rule>>`, and neither can non-string
  `delay`, `loss` or `rate` values.
- `Handler.Get`: the contract states the unmatched case only. The matched
  case is `Handler.GetNeverServes`.
- `JsonToYaml.py` (file and YAML I/O) and `setup.py` (packaging) are not
  part of this model.
