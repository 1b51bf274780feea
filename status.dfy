/** The agent's believed configuration of every container it has touched:
    `ContainerStatus` (one record of fields, updated in place by its setters and
    by the refresh from `tcshow`) and `AgentStatus` (the insertion-ordered dict
    from container name to its `ContainerStatus`), together with the value-level
    view (`Record`, `Tracker`) their contracts are stated in, and the hand-written
    JSON rendering used for stage reports. */
module Status {
  import opened PyJson

  /** One `outgoing` rule of the parsed `tcshow` output (field name to text). */
  type Rule = map<string, string>

  /** Connection states in dict insertion order, as (network name, state) pairs. */
  type Connections = seq<(Json, string)>

  /** The value held by one `ContainerStatus` object. */
  datatype Record = Record(
    memoryLimit: Json,
    cpuShares: Json,
    bandwidth: Json,
    latency: Json,
    packetLoss: Json,
    connections: Connections)

  /** The value held by `AgentStatus`: container names in insertion order and
      the record of each. */
  datatype Tracker = Tracker(order: seq<Json>, records: map<Json, Record>)

  const Docker0: Json := JStr("docker0")
  const Connected: string := "connected"
  const Disconnected: string := "disconnected"

  /** The fields of a freshly constructed `ContainerStatus`. */
  function DefaultRecord(): Record {
    Record(JStr("256"), JStr("1024"), JStr(""), JStr("0.0ms"), JStr("0"), [])
  }

  // ---------------------------------------------------------------------------
  // Connections: an insertion-ordered dict from network name to state

  predicate UniqueKeys(c: Connections) {
    forall i, j :: 0 <= i < j < |c| ==> c[i].0 != c[j].0
  }

  function ConnKeys(c: Connections): seq<Json> {
    if c == [] then [] else [c[0].0] + ConnKeys(c[1..])
  }

  /** `c.get(k)`. */
  function ConnGet(c: Connections, k: Json): (r: Option<string>)
    ensures r.Some? <==> exists i :: 0 <= i < |c| && c[i].0 == k
    ensures r.Some? && UniqueKeys(c) ==> forall i :: 0 <= i < |c| && c[i].0 == k ==> c[i].1 == r.value
  {
    if c == [] then None
    else if c[0].0 == k then Some(c[0].1)
    else
      var r := ConnGet(c[1..], k);
      assert forall i :: 1 <= i < |c| ==> c[i] == c[1..][i - 1];
      r
  }

  /** `c[k] = v`: the key now maps to `v` and every other key keeps its state. */
  function ConnPut(c: Connections, k: Json, v: string): (r: Connections)
    ensures ConnGet(r, k) == Some(v)
    ensures forall k' :: k' != k ==> ConnGet(r, k') == ConnGet(c, k')
  {
    if c == [] then [(k, v)]
    else if c[0].0 == k then
      var r := [(k, v)] + c[1..];
      assert r[1..] == c[1..];
      r
    else
      var tail := ConnPut(c[1..], k, v);
      var r := [c[0]] + tail;
      assert r[1..] == tail;
      r
  }

  /** An existing key keeps its position; a new key goes last. */
  lemma {:induction false} ConnPutKeys(c: Connections, k: Json, v: string)
    ensures ConnGet(c, k).Some? ==> ConnKeys(ConnPut(c, k, v)) == ConnKeys(c)
    ensures ConnGet(c, k).None? ==> ConnKeys(ConnPut(c, k, v)) == ConnKeys(c) + [k]
    decreases |c|
  {
    if c != [] && c[0].0 != k {
      ConnPutKeys(c[1..], k, v);
      assert ConnPut(c, k, v)[1..] == ConnPut(c[1..], k, v);
      assert ConnGet(c, k) == ConnGet(c[1..], k);
    } else if c != [] {
      assert ConnPut(c, k, v)[1..] == c[1..];
    }
  }

  /** A dict never holds a key twice: putting keeps the keys distinct. */
  lemma {:induction false} ConnPutUnique(c: Connections, k: Json, v: string)
    requires UniqueKeys(c)
    ensures UniqueKeys(ConnPut(c, k, v))
    decreases |c|
  {
    if c != [] && c[0].0 != k {
      var tail := ConnPut(c[1..], k, v);
      assert UniqueKeys(c[1..]) by {
        forall i, j | 0 <= i < j < |c[1..]| ensures c[1..][i].0 != c[1..][j].0 {
          assert c[1..][i] == c[i + 1] && c[1..][j] == c[j + 1];
        }
      }
      ConnPutUnique(c[1..], k, v);
      assert ConnGet(c[1..], c[0].0).None? by {
        forall j | 0 <= j < |c[1..]| ensures c[1..][j].0 != c[0].0 {
          assert c[1..][j] == c[j + 1];
        }
      }
      assert ConnGet(tail, c[0].0).None?;
      var r := ConnPut(c, k, v);
      assert r == [c[0]] + tail;
      forall i, j | 0 <= i < j < |r| ensures r[i].0 != r[j].0 {
        if i == 0 {
          assert r[j] == tail[j - 1];
        } else {
          assert r[i] == tail[i - 1] && r[j] == tail[j - 1];
        }
      }
    } else if c != [] {
      var r := ConnPut(c, k, v);
      forall i, j | 0 <= i < j < |r| ensures r[i].0 != r[j].0 {
        assert r[i].0 == c[i].0 && r[j].0 == c[j].0;
      }
    }
  }

  /** Putting a key that is not yet present appends it. */
  lemma {:induction false} ConnPutAppends(c: Connections, k: Json, v: string)
    requires ConnGet(c, k).None?
    ensures ConnPut(c, k, v) == c + [(k, v)]
    decreases |c|
  {
    if c != [] {
      assert c[0].0 != k && ConnGet(c[1..], k) == ConnGet(c, k);
      ConnPutAppends(c[1..], k, v);
      assert ConnPut(c, k, v) == [c[0]] + ConnPut(c[1..], k, v);
      assert [c[0]] + (c[1..] + [(k, v)]) == c + [(k, v)];
    }
  }

  // ---------------------------------------------------------------------------
  // The tracker value and the effect of a lookup

  predicate Distinct(s: seq<Json>) {
    forall i, j :: 0 <= i < j < |s| ==> s[i] != s[j]
  }

  /** What `AgentStatus` always satisfies: every name is listed once and the
      listed names are exactly the dict's keys. */
  ghost predicate WellFormed(t: Tracker) {
    && Distinct(t.order)
    && (forall k :: k in t.records <==> k in t.order)
  }

  /** A freshly constructed `AgentStatus`. */
  function Initial(): (t: Tracker)
    ensures WellFormed(t)
    ensures t.records.Keys == {Docker0}
  {
    Tracker([Docker0], map[Docker0 := DefaultRecord()])
  }

  /** The state after `get_container(name)`: a default record is added at the end
      when the name is absent; otherwise nothing changes. */
  function Touch(t: Tracker, name: Json): (r: Tracker)
    ensures name in r.records
    ensures name in t.records ==> r == t
  {
    if name in t.records then t
    else Tracker(t.order + [name], t.records[name := DefaultRecord()])
  }

  /** A lookup adds at most the looked-up name, at the end, with a default
      record; it keeps every other record and the tracker's well-formedness. */
  lemma TouchAdds(t: Tracker, name: Json)
    ensures name !in t.records ==>
      Touch(t, name).order == t.order + [name] && Touch(t, name).records[name] == DefaultRecord()
    ensures Touch(t, name).records.Keys == t.records.Keys + {name}
    ensures forall k :: k in t.records ==> Touch(t, name).records[k] == t.records[k]
    ensures WellFormed(t) ==> WellFormed(Touch(t, name))
  {
  }

  /** `get_container(name)` followed by a change `rec` of that container's record. */
  function Update(t: Tracker, name: Json, rec: Record): (r: Tracker)
    requires name in Touch(t, name).records
    ensures r.order == Touch(t, name).order
    ensures r.records == Touch(t, name).records[name := rec]
  {
    var u := Touch(t, name);
    Tracker(u.order, u.records[name := rec])
  }

  /** The record `get_container(name)` hands back. */
  function Lookup(t: Tracker, name: Json): Record {
    Touch(t, name).records[name]
  }

  // ---------------------------------------------------------------------------
  // Refresh from the live `tcshow` rules

  /** Field `key` after walking `rules` in order and overwriting `cur` with every
      rule that carries it. */
  function LastWith(rules: seq<Rule>, key: string, cur: Json): Json {
    if rules == [] then cur
    else if key in rules[|rules| - 1] then JStr(rules[|rules| - 1][key])
    else LastWith(rules[..|rules| - 1], key, cur)
  }

  /** Rule `j` carries `key` and no later rule does. */
  predicate LastCarrier(rules: seq<Rule>, key: string, j: int) {
    0 <= j < |rules| && key in rules[j] && forall i :: j < i < |rules| ==> key !in rules[i]
  }

  /** The last rule that carries `key` decides the value; with none, `cur` stays. */
  lemma {:induction false} LastWithWins(rules: seq<Rule>, key: string, cur: Json)
    ensures (forall i :: 0 <= i < |rules| ==> key !in rules[i]) ==> LastWith(rules, key, cur) == cur
    ensures forall j :: LastCarrier(rules, key, j) ==> LastWith(rules, key, cur) == JStr(rules[j][key])
  {
    if rules != [] {
      var n := |rules| - 1;
      var init := rules[..n];
      LastWithWins(init, key, cur);
      forall j | LastCarrier(rules, key, j)
        ensures LastWith(rules, key, cur) == JStr(rules[j][key])
      {
        if j < n {
          assert key !in rules[n];
          assert LastCarrier(init, key, j);
        }
      }
    }
  }

  /** The record after `update_values`: with no parsed output nothing changes;
      otherwise only latency, packet loss and bandwidth are overwritten, from the
      `delay`, `loss` and `rate` fields of the outgoing rules. */
  function Refreshed(rec: Record, shown: Option<seq<Rule>>): (r: Record)
    ensures shown.None? ==> r == rec
    ensures r.memoryLimit == rec.memoryLimit && r.cpuShares == rec.cpuShares
    ensures r.connections == rec.connections
  {
    match shown
    case None => rec
    case Some(rules) =>
      rec.(latency := LastWith(rules, "delay", rec.latency),
           packetLoss := LastWith(rules, "loss", rec.packetLoss),
           bandwidth := LastWith(rules, "rate", rec.bandwidth))
  }

  /** The parsed `tcshow` output `update_values` gets for a container. A name
      that is not text makes `subprocess.run` raise TypeError inside the
      bare `except`, so no output is read. */
  function Shown(tcshow: Json -> Option<seq<Rule>>, name: Json): Option<seq<Rule>> {
    if name.JStr? then tcshow(name) else None
  }

  /** Every record refreshed with the `tcshow` output for its own name. */
  function RefreshAll(t: Tracker, tcshow: Json -> Option<seq<Rule>>): (r: Tracker)
    ensures r.order == t.order && r.records.Keys == t.records.Keys
    ensures forall k :: k in t.records && !k.JStr? ==> r.records[k] == t.records[k]
    ensures WellFormed(t) ==> WellFormed(r)
  {
    Tracker(t.order, map k | k in t.records :: Refreshed(t.records[k], Shown(tcshow, k)))
  }

  // ---------------------------------------------------------------------------
  // The JSON text of a record and of the whole tracker

  /** The parts separated by `sep`, built left to right as the source's loops do. */
  function Join(sep: string, parts: seq<string>): string {
    if parts == [] then ""
    else if |parts| == 1 then parts[0]
    else Join(sep, parts[..|parts| - 1]) + sep + parts[|parts| - 1]
  }

  /** Read from the front, the first part comes first and every later part is
      preceded by exactly one separator. */
  lemma {:induction false} JoinCons(sep: string, a: string, rest: seq<string>)
    ensures Join(sep, [a] + rest) == if rest == [] then a else a + sep + Join(sep, rest)
    decreases |rest|
  {
    if |rest| >= 2 {
      var init := rest[..|rest| - 1];
      assert ([a] + rest)[..|[a] + rest| - 1] == [a] + init;
      JoinCons(sep, a, init);
    } else if |rest| == 1 {
      assert ([a] + rest)[..1] == [a];
    }
  }

  function PairText(k: Json, v: string): string {
    "\"" + Str(k) + "\": \"" + v + "\""
  }

  function Pairs(c: Connections): (r: seq<string>)
    ensures |r| == |c|
  {
    if c == [] then [] else Pairs(c[..|c| - 1]) + [PairText(c[|c| - 1].0, c[|c| - 1].1)]
  }

  lemma {:induction false} PairsCons(c: Connections)
    requires c != []
    ensures Pairs(c) == [PairText(c[0].0, c[0].1)] + Pairs(c[1..])
    decreases |c|
  {
    if |c| > 1 {
      var init := c[..|c| - 1];
      PairsCons(init);
      assert init[1..] == c[1..][..|c[1..]| - 1];
    }
  }

  /** The connections object: `{`, the pairs in insertion order joined by commas, `}`. */
  function ConnectionsJson(c: Connections): string {
    "{" + Join(",", Pairs(c)) + "}"
  }

  lemma Reassociate(a: string, b: string, c: string)
    ensures a + b + c == a + (b + c)
  {
  }

  /** No comma precedes the first pair; every later pair follows a comma. */
  lemma ConnectionsJsonShape(c: Connections)
    ensures c == [] ==> ConnectionsJson(c) == "{}"
    ensures c != [] ==>
              ConnectionsJson(c) ==
              "{" + PairText(c[0].0, c[0].1) + (if |c| == 1 then "" else "," + Join(",", Pairs(c[1..]))) + "}"
  {
    if c != [] {
      var first := PairText(c[0].0, c[0].1);
      var rest := Pairs(c[1..]);
      PairsCons(c);
      JoinCons(",", first, rest);
      var tail := if |c| == 1 then "" else "," + Join(",", rest);
      if |c| == 1 {
        assert first + tail == first;
      } else {
        Reassociate(first, ",", Join(",", rest));
      }
    }
  }

  /** `ContainerStatus.to_json` after its refresh: the source's string template
      with the six fields filled in. */
  function RecordJson(rec: Record): string {
    "{\n        \"memory_limit\": \"" + Str(rec.memoryLimit)
    + "\",\n        \"cpu_shares\": \"" + Str(rec.cpuShares)
    + "\",\n        \"bandwidth\": \"" + Str(rec.bandwidth)
    + "\",\n        \"latency\": \"" + Str(rec.latency)
    + "\",\n        \"packet_loss\": \"" + Str(rec.packetLoss)
    + "\",\n        \"connections\": " + ConnectionsJson(rec.connections)
    + "\n    }"
  }

  function EntryText(name: Json, rec: Record): string {
    "\"" + Str(name) + "\": " + RecordJson(rec)
  }

  /** One more part appended to a joined text. */
  lemma JoinAppend(prefix: string, sep: string, parts: seq<string>, p: string)
    ensures prefix + Join(sep, parts) + (if parts == [] then "" else sep) + p == prefix + Join(sep, parts + [p])
  {
    assert (parts + [p])[..|parts|] == parts;
  }

  /** The `"name": record` entries of the listed names, in list order (a name
      without a record has no entry; in a well-formed tracker every name has one). */
  function Entries(names: seq<Json>, records: map<Json, Record>): (r: seq<string>)
    ensures |r| <= |names|
  {
    if names == [] then []
    else
      var name := names[|names| - 1];
      Entries(names[..|names| - 1], records) + if name in records then [EntryText(name, records[name])] else []
  }

  /** With every name recorded there is exactly one entry per name. */
  lemma {:induction false} EntriesCount(names: seq<Json>, records: map<Json, Record>)
    requires forall i :: 0 <= i < |names| ==> names[i] in records
    ensures |Entries(names, records)| == |names|
  {
    if names != [] {
      EntriesCount(names[..|names| - 1], records);
    }
  }

  /** Listing one more recorded name adds its entry last. */
  lemma EntriesSnoc(names: seq<Json>, i: int, records: map<Json, Record>)
    requires 0 <= i < |names| && names[i] in records
    ensures Entries(names[..i + 1], records) == Entries(names[..i], records) + [EntryText(names[i], records[names[i]])]
  {
    assert names[..i + 1][..i] == names[..i];
  }

  /** One pass of the loop of `AgentStatus.to_json`: a separator unless this is
      the first entry, then the entry of the `i`-th name. */
  lemma EntryStep(json: string, names: seq<Json>, i: int, records: map<Json, Record>, entry: string)
    requires 0 <= i < |names|
    requires forall j :: 0 <= j < |names| ==> names[j] in records
    requires json == "{\n    " + Join(",\n    ", Entries(names[..i], records)) + (if i == 0 then "" else ",\n    ")
    requires entry == EntryText(names[i], records[names[i]])
    ensures json + entry == "{\n    " + Join(",\n    ", Entries(names[..i + 1], records))
  {
    EntriesSnoc(names, i, records);
    EntriesCount(names[..i], records);
    JoinAppend("{\n    ", ",\n    ", Entries(names[..i], records), entry);
  }

  /** `AgentStatus.to_json`: one `"name": record` entry per container, in insertion order. */
  function AgentJson(t: Tracker): string
    requires WellFormed(t)
  {
    "{\n    " + Join(",\n    ", Entries(t.order, t.records)) + "\n}"
  }

  // ---------------------------------------------------------------------------
  // The objects

  class ContainerStatus {
    const name: Json
    var memoryLimit: Json
    var cpuShares: Json
    var bandwidth: Json
    var latency: Json
    var packetLoss: Json
    var connections: Connections

    function Rec(): Record
      reads this
    {
      Record(memoryLimit, cpuShares, bandwidth, latency, packetLoss, connections)
    }

    constructor (name: Json)
      ensures this.name == name
      ensures Rec() == DefaultRecord()
    {
      this.name := name;
      memoryLimit := JStr("256");
      cpuShares := JStr("1024");
      connections := [];
      bandwidth := JStr("");
      latency := JStr("0.0ms");
      packetLoss := JStr("0");
    }

    method SetMemoryLimit(v: Json)
      modifies this
      ensures Rec() == old(Rec()).(memoryLimit := v)
    {
      memoryLimit := v;
    }

    method SetCpuShares(v: Json)
      modifies this
      ensures Rec() == old(Rec()).(cpuShares := v)
    {
      cpuShares := v;
    }

    method SetBandwidth(v: Json)
      modifies this
      ensures Rec() == old(Rec()).(bandwidth := v)
    {
      bandwidth := v;
    }

    method SetLatency(v: Json)
      modifies this
      ensures Rec() == old(Rec()).(latency := v)
    {
      latency := v;
    }

    method SetPacketLoss(v: Json)
      modifies this
      ensures Rec() == old(Rec()).(packetLoss := v)
    {
      packetLoss := v;
    }

    /** `get_connection_status`: an unknown network is recorded as disconnected
        and that state returned; a known one is returned unchanged. A list or
        dict as network name cannot be a dict key. */
    method GetConnectionStatus(network: Json) returns (r: Result<string>)
      modifies this
      ensures !Hashable(network) ==> r == Err(TypeError) && Rec() == old(Rec())
      ensures Hashable(network) && ConnGet(old(connections), network).Some? ==>
        r == Ok(ConnGet(old(connections), network).value) && Rec() == old(Rec())
      ensures Hashable(network) && ConnGet(old(connections), network).None? ==>
        r == Ok(Disconnected) && Rec() == old(Rec()).(connections := old(connections) + [(network, Disconnected)])
    {
      if !Hashable(network) {
        return Err(TypeError);
      }
      if ConnGet(connections, network).None? {
        ConnPutAppends(connections, network, Disconnected);
        connections := ConnPut(connections, network, Disconnected);
      }
      r := Ok(ConnGet(connections, network).value);
    }

    /** `set_connection_status`. */
    method SetConnectionStatus(network: Json, status: string) returns (raised: Option<PyError>)
      modifies this
      ensures !Hashable(network) ==> raised == Some(TypeError) && Rec() == old(Rec())
      ensures Hashable(network) ==> raised == None && Rec() == old(Rec()).(connections := ConnPut(old(connections), network, status))
    {
      if !Hashable(network) {
        return Some(TypeError);
      }
      connections := ConnPut(connections, network, status);
      raised := None;
    }

    /** `update_values`: walk the outgoing rules in order, overwriting latency,
        packet loss and bandwidth from each rule that carries them; when the
        output could not be read or parsed (`shown` is None) nothing changes. */
    method UpdateValues(shown: Option<seq<Rule>>)
      modifies this
      ensures Rec() == Refreshed(old(Rec()), shown)
    {
      if shown.None? {
        return;
      }
      var rules := shown.value;
      var i := 0;
      while i < |rules|
        invariant 0 <= i <= |rules|
        invariant latency == LastWith(rules[..i], "delay", old(latency))
        invariant packetLoss == LastWith(rules[..i], "loss", old(packetLoss))
        invariant bandwidth == LastWith(rules[..i], "rate", old(bandwidth))
        invariant memoryLimit == old(memoryLimit) && cpuShares == old(cpuShares)
        invariant connections == old(connections)
      {
        var values := rules[i];
        assert rules[..i + 1][..i] == rules[..i];
        if "delay" in values {
          latency := JStr(values["delay"]);
        }
        if "loss" in values {
          packetLoss := JStr(values["loss"]);
        }
        if "rate" in values {
          bandwidth := JStr(values["rate"]);
        }
        i := i + 1;
      }
      assert rules[..i] == rules;
    }

    /** `to_json`: refresh, then render; the connections object is built by a
        loop that puts a comma before every pair except the first. */
    method ToJson(shown: Option<seq<Rule>>) returns (s: string)
      modifies this
      ensures Rec() == Refreshed(old(Rec()), shown)
      ensures s == RecordJson(Rec())
    {
      UpdateValues(shown);
      var connectionsJson := ConnectionsText();
      s := "{\n        \"memory_limit\": \"" + Str(memoryLimit)
        + "\",\n        \"cpu_shares\": \"" + Str(cpuShares)
        + "\",\n        \"bandwidth\": \"" + Str(bandwidth)
        + "\",\n        \"latency\": \"" + Str(latency)
        + "\",\n        \"packet_loss\": \"" + Str(packetLoss)
        + "\",\n        \"connections\": " + connectionsJson
        + "\n    }";
    }

    /** The loop of `to_json` that builds the connections object, putting a
        comma before every pair except the first. */
    method ConnectionsText() returns (text: string)
      ensures text == ConnectionsJson(connections)
    {
      text := "{";
      var i := 0;
      while i < |connections|
        invariant 0 <= i <= |connections|
        invariant text == "{" + Join(",", Pairs(connections[..i]))
      {
        var pair := PairText(connections[i].0, connections[i].1);
        assert connections[..i + 1][..i] == connections[..i];
        assert Pairs(connections[..i + 1]) == Pairs(connections[..i]) + [pair];
        JoinAppend("{", ",", Pairs(connections[..i]), pair);
        if i != 0 {
          text := text + ",";
        }
        text := text + pair;
        i := i + 1;
      }
      assert connections[..i] == connections;
      text := text + "}";
    }
  }

  class AgentStatus {
    var containers: map<Json, ContainerStatus>
    var order: seq<Json>
    ghost var Repr: set<ContainerStatus>

    ghost predicate Valid()
      reads this
    {
      && (forall k :: k in containers ==>
            containers[k] in Repr && containers[k].name == k)
      && Distinct(order)
      && (forall k :: k in containers ==> k in order)
      && (forall j :: 0 <= j < |order| ==> order[j] in containers)
    }

    ghost function Model(): (t: Tracker)
      reads this, Repr
      requires Valid()
    {
      Tracker(order, map k | k in containers :: containers[k].Rec())
    }

    constructor ()
      ensures Valid() && fresh(Repr)
      ensures Model() == Initial()
    {
      var c := new ContainerStatus(Docker0);
      containers := map[Docker0 := c];
      order := [Docker0];
      Repr := {c};
    }

    /** `get_container`: the existing object, or a new default one added last. */
    method GetContainer(name: Json) returns (r: Result<ContainerStatus>)
      requires Valid()
      modifies this
      ensures Valid()
      ensures !Hashable(name) ==> r == Err(TypeError) && Model() == old(Model()) && Repr == old(Repr)
      ensures Hashable(name) ==> r.Ok? && name in containers && r.value == containers[name]
      ensures Hashable(name) ==> Model() == Touch(old(Model()), name)
      ensures Hashable(name) ==> Repr == old(Repr) + {r.value}
      ensures Hashable(name) && name !in old(containers) ==> fresh(r.value)
      ensures fresh(Repr - old(Repr))
    {
      if !Hashable(name) {
        return Err(TypeError);
      }
      if name !in containers {
        AddContainer(name);
      }
      r := Ok(containers[name]);
    }

    /** The branch of `get_container` that creates the missing entry. */
    method AddContainer(name: Json)
      requires Valid() && name !in containers
      modifies this
      ensures Valid()
      ensures name in containers && fresh(containers[name])
      ensures Model() == Touch(old(Model()), name)
      ensures Repr == old(Repr) + {containers[name]}
    {
      var c := new ContainerStatus(name);
      containers := containers[name := c];
      order := order + [name];
      Repr := Repr + {c};
      AddedValid(name, c);
      AddedModel(name, c);
    }

    /** Adding a fresh entry for a missing name keeps the invariant. */
    twostate lemma AddedValid(name: Json, new c: ContainerStatus)
      requires old(Valid()) && name !in old(containers) && c.name == name
      requires containers == old(containers)[name := c] && order == old(order) + [name]
      requires Repr == old(Repr) + {c}
      ensures Valid()
    {
      forall k | k in containers
        ensures containers[k] in Repr && containers[k].name == k && k in order
      {
        if k != name {
          assert containers[k] == old(containers[k]);
          assert k in old(order);
        }
      }
      forall j | 0 <= j < |old(order)| ensures old(order)[j] != name {
        assert old(order)[j] in old(containers);
      }
    }

    /** Adding a default entry for a missing name is the lookup's effect on the tracker. */
    twostate lemma AddedModel(name: Json, new c: ContainerStatus)
      requires old(Valid()) && Valid() && name !in old(containers) && c.Rec() == DefaultRecord()
      requires containers == old(containers)[name := c] && order == old(order) + [name]
      requires forall k :: k in old(containers) ==> unchanged(old(containers[k]))
      ensures Model() == Touch(old(Model()), name)
    {
      assert Model().records == old(Model()).records[name := DefaultRecord()] by {
        forall k | k in containers
          ensures containers[k].Rec() == if k == name then DefaultRecord() else old(Model()).records[k]
        {
          if k != name {
            assert containers[k] == old(containers[k]);
          }
        }
      }
    }

    /** When only the object of `name` has changed, the tracker differs from the
        old one in the record of `name` alone. */
    twostate lemma RecordChanged(name: Json)
      requires old(Valid()) && unchanged(this) && name in containers
      requires forall k :: k in containers && k != name ==> unchanged(containers[k])
      ensures Valid()
      ensures Model() == old(Model()).(records := old(Model()).records[name := containers[name].Rec()])
    {
      assert Model().records == old(Model()).records[name := containers[name].Rec()] by {
        forall k | k in containers
          ensures Model().records[k] == old(Model()).records[name := containers[name].Rec()][k]
        {
          if k != name {
            assert unchanged(containers[k]);
          }
        }
      }
    }

    /** `to_json`: each container in insertion order is refreshed from the
        `tcshow` output for its name and rendered. */
    method ToJson(tcshow: Json -> Option<seq<Rule>>) returns (s: string)
      requires Valid()
      modifies Repr
      ensures Valid() && Repr == old(Repr)
      ensures Model() == RefreshAll(old(Model()), tcshow)
      ensures s == AgentJson(Model())
    {
      ghost var before := Model();
      ghost var after := RefreshAll(before, tcshow).records;
      var json := RenderAll(tcshow, before.records, after);
      RefreshedModel(before, tcshow, after);
      s := json + "\n}";
    }

    /** The loop of `to_json`: every container in insertion order, each
        refreshed as it is rendered. */
    method RenderAll(tcshow: Json -> Option<seq<Rule>>, ghost before: map<Json, Record>, ghost after: map<Json, Record>)
      returns (json: string)
      requires Refreshing(0, tcshow, before, after)
      modifies Repr
      ensures Refreshing(|order|, tcshow, before, after)
      ensures json == "{\n    " + Join(",\n    ", Entries(order, after))
    {
      json := "{\n    ";
      var i := 0;
      while i < |order|
        invariant Refreshing(i, tcshow, before, after)
        invariant json == "{\n    " + Join(",\n    ", Entries(order[..i], after))
      {
        json := AppendEntry(json, i, tcshow, before, after);
        i := i + 1;
      }
      assert order[..i] == order;
    }

    /** The containers during `to_json` after its first `i` passes: those are
        refreshed, the others untouched. */
    ghost predicate Refreshing(i: int, tcshow: Json -> Option<seq<Rule>>,
                               before: map<Json, Record>, after: map<Json, Record>)
      reads this, Repr
    {
      && Valid()
      && 0 <= i <= |order|
      && (forall j :: 0 <= j < |order| ==> order[j] in before && order[j] in after)
      && (forall j :: 0 <= j < |order| ==> after[order[j]] == Refreshed(before[order[j]], Shown(tcshow, order[j])))
      && (forall j :: 0 <= j < |order| ==> containers[order[j]].Rec() == if j < i then after[order[j]] else before[order[j]])
    }

    /** One pass of `to_json`'s loop: the separator unless this is the first
        pass, then the entry of the `i`-th container. */
    method AppendEntry(json: string, i: int, tcshow: Json -> Option<seq<Rule>>,
                       ghost before: map<Json, Record>, ghost after: map<Json, Record>) returns (next: string)
      requires i < |order| && Refreshing(i, tcshow, before, after)
      requires json == "{\n    " + Join(",\n    ", Entries(order[..i], after))
      modifies Repr
      ensures Refreshing(i + 1, tcshow, before, after)
      ensures next == "{\n    " + Join(",\n    ", Entries(order[..i + 1], after))
    {
      next := json;
      if i != 0 {
        next := next + ",\n    ";
      }
      var entry := RenderEntry(i, tcshow, before, after);
      EntryStep(next, order, i, after, entry);
      next := next + entry;
    }

    /** The body of `to_json`'s loop for position `i`: the `"name": ` prefix,
        then the container's own `to_json`, which refreshes it; no other
        container changes. */
    method RenderEntry(i: int, tcshow: Json -> Option<seq<Rule>>,
                       ghost before: map<Json, Record>, ghost after: map<Json, Record>) returns (entry: string)
      requires i < |order| && Refreshing(i, tcshow, before, after)
      modifies containers[order[i]]
      ensures Refreshing(i + 1, tcshow, before, after)
      ensures entry == EntryText(order[i], after[order[i]])
    {
      var name := order[i];
      var c := containers[name];
      entry := "\"" + Str(name) + "\": ";
      var text := c.ToJson(Shown(tcshow, name));
      entry := entry + text;
      forall j | 0 <= j < |order| && j != i
        ensures containers[order[j]].Rec() == old(containers[order[j]].Rec())
      {
        assert containers[order[j]].name != c.name;
      }
    }

    /** The object structure always has a well-formed abstract value. */
    lemma ModelWellFormed()
      requires Valid()
      ensures WellFormed(Model())
    {
    }

    /** After the loop of `to_json` every container holds its refreshed record. */
    lemma RefreshedModel(before: Tracker, tcshow: Json -> Option<seq<Rule>>, after: map<Json, Record>)
      requires Valid()
      requires before.order == order && before.records.Keys == containers.Keys
      requires after == RefreshAll(before, tcshow).records
      requires forall j :: 0 <= j < |order| ==> containers[order[j]].Rec() == after[order[j]]
      ensures Model() == RefreshAll(before, tcshow)
      ensures WellFormed(Model())
    {
      forall k | k in containers
        ensures Model().records[k] == after[k]
      {
        var j :| 0 <= j < |order| && order[j] == k;
      }
      assert Model().records == after;
    }
  }
}
