/** The request handler's shared state and what one submitted batch does to
    it: the stage report store (`_stage_report`, `_stage_counter`), the report
    entry (`_update_report`), the run of a planned batch in firing order, and
    the path match of `do_GET`. */
module Handler {
  import opened PyJson
  import opened Status
  import opened Controllers
  import opened Dispatch
  import opened Batch

  /** The store as a dict: report `i` under key `i`. */
  function Log(reports: seq<string>): (m: map<int, string>)
    ensures forall i :: 0 <= i < |reports| ==> i in m && m[i] == reports[i]
  {
    map i | 0 <= i < |reports| :: reports[i]
  }

  /** The keys are exactly 0 .. n-1: no gap, nothing beyond. */
  lemma LogKeys(reports: seq<string>)
    ensures forall i :: i in Log(reports) <==> 0 <= i < |reports|
  {
  }

  /** Storing under the counter and incrementing it appends: the new key was
      free, and every earlier entry keeps its snapshot. */
  lemma LogAppend(reports: seq<string>, s: string)
    ensures |reports| !in Log(reports)
    ensures Log(reports + [s]) == Log(reports)[|reports| := s]
  {
    assert Log(reports + [s]).Keys == Log(reports)[|reports| := s].Keys;
  }

  /** The state after a batch's entries have fired, and the exception that
      ended the scheduler's thread, if any. */
  datatype Ran = Ran(tracker: Tracker, reports: seq<string>, raised: Option<PyError>)

  /** The entries fired in the given order: every action dispatches `event`
      on `path`; a report refreshes every record from `tcshow` and stores the
      rendering; the first exception stops the scheduler, so nothing after it
      fires. */
  function Fired(t: Tracker, reports: seq<string>, order: seq<Entry>, path: string, event: Json, w: World): (r: Ran)
    requires WellFormed(t)
    ensures WellFormed(r.tracker)
    ensures |reports| <= |r.reports| && r.reports[..|reports|] == reports
    decreases |order|
  {
    if order == [] then Ran(t, reports, None)
    else
      var first := FireOne(t, reports, order[0], path, event, w);
      if first.raised.Some? then first
      else Fired(first.tracker, first.reports, order[1..], path, event, w)
  }

  /** One entry firing. */
  function FireOne(t: Tracker, reports: seq<string>, e: Entry, path: string, event: Json, w: World): (r: Ran)
    requires WellFormed(t)
    ensures WellFormed(r.tracker)
    ensures r.reports == if e.Report? then reports + [AgentJson(r.tracker)] else reports
  {
    match e
    case Action(_) =>
      var routing := DoAction(path, event);
      ExecuteAllWellFormed(t, routing.commands, w);
      var s := Performed(t, routing, w);
      Ran(s.tracker, reports, s.raised)
    case Report(_) =>
      var refreshed := RefreshAll(t, w.tcshow);
      Ran(refreshed, reports + [AgentJson(refreshed)], None)
  }

  /** Only report entries store anything, one snapshot each. */
  function Reports(order: seq<Entry>): nat {
    if order == [] then 0 else (if order[0].Report? then 1 else 0) + Reports(order[1..])
  }

  /** A run stores at most one snapshot per report entry, and exactly one per
      report entry when no exception ends it. */
  lemma {:induction false} FiredReports(t: Tracker, reports: seq<string>, order: seq<Entry>, path: string, event: Json, w: World)
    requires WellFormed(t)
    ensures |Fired(t, reports, order, path, event, w).reports| <= |reports| + Reports(order)
    ensures Fired(t, reports, order, path, event, w).raised.None? ==>
      |Fired(t, reports, order, path, event, w).reports| == |reports| + Reports(order)
    decreases |order|
  {
    if order != [] {
      var first := FireOne(t, reports, order[0], path, event, w);
      if first.raised.None? {
        FiredReports(first.tracker, first.reports, order[1..], path, event, w);
      }
    }
  }

  /** An action whose event has no `data` raises before the report fires:
      the batch stores no snapshot at all. */
  lemma MissingDataLosesReport(t: Tracker, reports: seq<string>, path: string, event: Json, w: World, time: int)
    requires WellFormed(t) && !(event.JObj? && "data" in event.fields)
    ensures Fired(t, reports, [Action(time), Report(time + ReportDelay)], path, event, w)
      == Ran(t, reports, Some(Field(event, "data").error))
  {
  }

  /** `re.match(r'/reports(\d+)', path)`: the path starts with `/reports` and a
      digit; the group is the whole run of digits that follows. */
  function MatchReports(path: string): (r: Option<string>)
    ensures r.Some? <==> |path| > 8 && path[..8] == "/reports" && IsDigit(path[8])
    ensures r.Some? ==> && r.value != [] && AllDigits(r.value)
                        && 8 + |r.value| <= |path| && path[8..8 + |r.value|] == r.value
                        && (8 + |r.value| == |path| || !IsDigit(path[8 + |r.value|]))
  {
    if |path| > 8 && path[..8] == "/reports" && IsDigit(path[8]) then Some(DigitRun(path[8..])) else None
  }

  /** The longest prefix of decimal digits. */
  function DigitRun(s: string): (r: string)
    ensures |r| <= |s| && r == s[..|r|] && AllDigits(r)
    ensures |r| == |s| || !IsDigit(s[|r|])
  {
    if s == [] || !IsDigit(s[0]) then []
    else
      var rest := DigitRun(s[1..]);
      assert s[..1 + |rest|] == [s[0]] + s[1..][..|rest|];
      [s[0]] + rest
  }

  /** `_stage_report[stage]` with the matched text as key: the store's keys are
      integers, so a string key is never found. */
  function StageLookup(store: map<int, string>, key: Json): (r: Result<string>)
    ensures r.Ok? ==> key.JNum? && key.n in store && r.value == store[key.n]
  {
    if key.JNum? && key.n in store then Ok(store[key.n]) else Err(KeyError)
  }

  /** `do_GET`: `None` stands for the 404 answer to an unmatched path. */
  function Get(store: map<int, string>, path: string): (r: Result<Option<string>>)
    ensures MatchReports(path).None? ==> r == Ok(None)
  {
    match MatchReports(path)
    case None => Ok(None)
    case Some(stage) =>
      var report :- StageLookup(store, JStr(stage));
      Ok(Some(report))
  }

  /** Whatever the store holds, no path gets a stored report back: a matching
      path raises KeyError. */
  lemma GetNeverServes(store: map<int, string>, path: string)
    ensures Get(store, path).Ok? ==> Get(store, path).value.None?
    ensures MatchReports(path).Some? ==> Get(store, path) == Err(KeyError)
  {
  }

  /** The class-level state of `WebServerHandler`. */
  class Server {
    const agent: Agent
    var stageReport: map<int, string>
    var stageCounter: int
    ghost var reports: seq<string>

    ghost predicate Valid()
      reads this, agent, agent.status
    {
      agent.Valid() && stageCounter == |reports| && stageReport == Log(reports)
    }

    constructor ()
      ensures Valid() && fresh(agent) && fresh(agent.status) && fresh(agent.status.Repr)
      ensures agent.status.Model() == Initial() && reports == []
    {
      agent := new Agent();
      stageReport := map[];
      stageCounter := 0;
      reports := [];
    }

    /** `_update_report`: the rendering is stored under the counter, which
        then moves on by one. */
    method UpdateReport(tcshow: Json -> Option<seq<Rule>>)
      requires Valid()
      modifies this, agent.status.Repr
      ensures Valid() && agent.status.Repr == old(agent.status.Repr)
      ensures agent.status.Model() == RefreshAll(old(agent.status.Model()), tcshow)
      ensures reports == old(reports) + [AgentJson(agent.status.Model())]
      ensures old(stageCounter) !in old(stageReport) && stageCounter == old(stageCounter) + 1
      ensures stageReport == old(stageReport)[old(stageCounter) := AgentJson(agent.status.Model())]
    {
      var s := agent.status.ToJson(tcshow);
      Store(s);
    }

    /** The store half of `_update_report`. */
    method Store(s: string)
      requires Valid()
      modifies this
      ensures Valid()
      ensures reports == old(reports) + [s]
      ensures old(stageCounter) !in old(stageReport) && stageCounter == old(stageCounter) + 1
      ensures stageReport == old(stageReport)[old(stageCounter) := s]
    {
      LogAppend(reports, s);
      stageReport := stageReport[stageCounter := s];
      stageCounter := stageCounter + 1;
      reports := reports + [s];
    }

    /** One entry firing on the scheduler's thread. */
    method FireEntry(e: Entry, path: string, event: Json, w: World) returns (raised: Option<PyError>)
      requires Valid()
      modifies this, agent.status, agent.status.Repr
      ensures Valid() && fresh(agent.status.Repr - old(agent.status.Repr))
      ensures WellFormed(old(agent.status.Model())) && WellFormed(agent.status.Model())
      ensures Ran(agent.status.Model(), reports, raised) == FireOne(old(agent.status.Model()), old(reports), e, path, event, w)
    {
      agent.status.ModelWellFormed();
      match e
      case Action(_) =>
        raised := agent.Perform(DoAction(path, event), w);
      case Report(_) =>
        UpdateReport(w.tcshow);
        raised := None;
    }

    /** `scheduler.run` on a planned batch: the entries in firing order, each
        action dispatching the loop's final event, until one raises. */
    method RunBatch(path: string, plan: Plan, w: World) returns (raised: Option<PyError>)
      requires Valid()
      modifies this, agent.status, agent.status.Repr
      ensures Valid() && fresh(agent.status.Repr - old(agent.status.Repr))
      ensures WellFormed(old(agent.status.Model()))
      ensures Ran(agent.status.Model(), reports, raised)
        == Fired(old(agent.status.Model()), old(reports), FireOrder(plan.entries), path, plan.event, w)
    {
      var order := FireOrder(plan.entries);
      agent.status.ModelWellFormed();
      ghost var t := agent.status.Model();
      ghost var before := reports;
      var i := 0;
      while i < |order|
        invariant i <= |order|
        invariant Valid() && fresh(agent.status.Repr - old(agent.status.Repr))
        invariant WellFormed(agent.status.Model())
        invariant Fired(t, before, order, path, plan.event, w)
          == Fired(agent.status.Model(), reports, order[i..], path, plan.event, w)
      {
        assert order[i..][1..] == order[i + 1..];
        raised := FireEntry(order[i], path, plan.event, w);
        if raised.Some? {
          return;
        }
        i := i + 1;
      }
      raised := None;
    }

    /** `do_POST` for one batch: plan it, then run it. The plan is the one
        `PlannedFrom` determines for `body`. A batch that cannot be planned
        schedules nothing and changes nothing. */
    method Post(path: string, body: Json, w: World) returns (planned: Result<Plan>, raised: Option<PyError>)
      requires Valid()
      modifies this, agent.status, agent.status.Repr
      ensures PlannedFrom(body, planned)
      ensures Valid() && fresh(agent.status.Repr - old(agent.status.Repr))
      ensures planned.Err? ==> raised.None? && agent.status.Model() == old(agent.status.Model()) && reports == old(reports)
      ensures planned.Ok? ==>
        Ran(agent.status.Model(), reports, raised)
        == Fired(old(agent.status.Model()), old(reports), FireOrder(planned.value.entries), path, planned.value.event, w)
    {
      planned := PlanBatch(body);
      if planned.Err? {
        return planned, None;
      }
      raised := RunBatch(path, planned.value, w);
    }
  }
}
