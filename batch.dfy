/** The scheduling part of `do_POST`: one timed entry per event of the
    submitted array and one report entry one second after the last of them in
    array order, then the order in which `sched.scheduler` fires them. Times
    are integer milliseconds (the source divides by 1000.0 to get seconds). */
module Batch {
  import opened PyJson

  /** A scheduled entry. An action entry is the closure
      `lambda: do_action(self.path, agent, event)`: it reads the loop variable
      `event` when it fires, so it carries no event of its own. */
  datatype Entry = Action(time: int) | Report(time: int)

  /** The entries in the order they were entered, and the value the loop
      variable `event` holds once the loop is over: the value every action
      closure dispatches. */
  datatype Plan = Plan(entries: seq<Entry>, event: Json)

  const ReportDelay: int := 1000

  /** `for event in body`: a list yields its elements, a string its characters;
      a dict yields its keys, which are strings, so a non-empty dict fails at
      the first `event['timestamp']` with TypeError; anything else is not
      iterable. */
  function Events(body: Json): Result<seq<Json>> {
    match body
    case JArr(items) => Ok(items)
    case JStr(s) => Ok(seq(|s|, i requires 0 <= i < |s| => JStr([s[i]])))
    case JObj(f) => if f == map[] then Ok([]) else Err(TypeError)
    case _ => Err(TypeError)
  }

  /** `int(event['timestamp'])`. */
  function Timestamp(event: Json): Result<int> {
    var ts :- Field(event, "timestamp");
    IntOf(ts)
  }

  predicate AllTimed(events: seq<Json>) {
    forall j :: 0 <= j < |events| ==> Timestamp(events[j]).Ok?
  }

  /** What the planning loop of `do_POST` makes of `body`: it enters one
      action per event, keeps the latest `scheduled_time`, asserts that there
      was one, and enters the report one second later. A body that cannot be
      iterated, an empty one, or the first event whose timestamp fails ends
      it with that error; nothing is scheduled then, because the scheduler is
      only started after the loop. */
  predicate PlannedFrom(body: Json, r: Result<Plan>) {
    match Events(body)
    case Err(e) => r == Err(e)
    case Ok(events) => Planned(events, r)
  }

  /** `PlannedFrom` once the body has been iterated into `events`. */
  predicate Planned(events: seq<Json>, r: Result<Plan>) {
    && (events == [] ==> r == Err(AssertionError))
    && (events != [] && r.Err? ==>
         exists j :: 0 <= j < |events| && AllTimed(events[..j]) && Timestamp(events[j]) == Err(r.error))
    && (r.Ok? <==> events != [] && AllTimed(events))
    && (r.Ok? ==>
         var n := |events|;
         && |r.value.entries| == n + 1
         && (forall j :: 0 <= j < n ==> r.value.entries[j] == Action(Timestamp(events[j]).value))
         && r.value.entries[n] == Report(Timestamp(events[n - 1]).value + ReportDelay)
         && r.value.event == events[n - 1])
  }

  /** `PlannedFrom` pins the outcome down: one body has one plan, or one
      error. */
  lemma PlanDetermined(body: Json, r1: Result<Plan>, r2: Result<Plan>)
    requires PlannedFrom(body, r1) && PlannedFrom(body, r2)
    ensures r1 == r2
  {
    if Events(body).Ok? && Events(body).value != [] {
      var events := Events(body).value;
      if r1.Err? {
        var j1 :| 0 <= j1 < |events| && AllTimed(events[..j1]) && Timestamp(events[j1]) == Err(r1.error);
        var j2 :| 0 <= j2 < |events| && AllTimed(events[..j2]) && Timestamp(events[j2]) == Err(r2.error);
        TimedBefore(events, j1);
        TimedBefore(events, j2);
      } else {
        assert r1.value.entries == r2.value.entries;
      }
    }
  }

  lemma TimedBefore(events: seq<Json>, j: int)
    requires 0 <= j <= |events| && AllTimed(events[..j])
    ensures forall k :: 0 <= k < j ==> Timestamp(events[k]).Ok?
  {
    forall k | 0 <= k < j ensures Timestamp(events[k]).Ok? {
      assert events[..j][k] == events[k];
    }
  }

  /** The planning part of `do_POST`: iterate the body, then plan its events. */
  method PlanBatch(body: Json) returns (r: Result<Plan>)
    ensures PlannedFrom(body, r)
  {
    var iterated := Events(body);
    if iterated.Err? {
      return Err(iterated.error);
    }
    r := PlanEvents(iterated.value);
  }

  /** The planning loop of `do_POST` over the iterated events. */
  method PlanEvents(events: seq<Json>) returns (r: Result<Plan>)
    ensures Planned(events, r)
  {
    var entries: seq<Entry> := [];
    var scheduled: Option<int> := None;
    var event := JNull;
    var i := 0;
    while i < |events|
      invariant i <= |events| && |entries| == i
      invariant AllTimed(events[..i])
      invariant forall j :: 0 <= j < i ==> entries[j] == Action(Timestamp(events[j]).value)
      invariant scheduled == if i == 0 then None else Some(Timestamp(events[i - 1]).value)
      invariant i > 0 ==> event == events[i - 1]
    {
      event := events[i];
      var ts := Timestamp(event);
      if ts.Err? {
        assert AllTimed(events[..i]) && Timestamp(events[i]) == Err(ts.error);
        assert events != [] && !AllTimed(events);
        return Err(ts.error);
      }
      assert events[..i + 1] == events[..i] + [events[i]];
      scheduled := Some(ts.value);
      entries := entries + [Action(ts.value)];
      i := i + 1;
    }
    assert events[..i] == events;
    if scheduled.None? {
      assert events == [];
      return Err(AssertionError);
    }
    entries := entries + [Report(scheduled.value + ReportDelay)];
    r := Ok(Plan(entries, event));
    assert events != [] && AllTimed(events);
  }

  // ---------------------------------------------------------------------------
  // Firing order

  predicate Sorted(s: seq<Entry>) {
    forall i, j :: 0 <= i < j < |s| ==> s[i].time <= s[j].time
  }

  /** Entering `e` after the entries already queued: it goes after every entry
      whose time is not later than its own (ties fire in the order entered). */
  function Insert(queue: seq<Entry>, e: Entry): (r: seq<Entry>)
    ensures |r| == |queue| + 1
  {
    if queue == [] || queue[|queue| - 1].time <= e.time then queue + [e]
    else Insert(queue[..|queue| - 1], e) + [queue[|queue| - 1]]
  }

  /** The order in which `scheduler.run` fires the entries: by time, and by
      order of entry among equal times. */
  function FireOrder(entries: seq<Entry>): (r: seq<Entry>)
    ensures |r| == |entries|
  {
    if entries == [] then [] else Insert(FireOrder(entries[..|entries| - 1]), entries[|entries| - 1])
  }

  /** Where `Insert` puts `e`: after the last entry not later than it. */
  function InsertPos(queue: seq<Entry>, e: Entry): (k: nat)
    ensures k <= |queue|
  {
    if queue == [] || queue[|queue| - 1].time <= e.time then |queue| else InsertPos(queue[..|queue| - 1], e)
  }

  /** The entries before position `k` are not later than `e`, those from `k`
      on are later. */
  predicate SplitAt(queue: seq<Entry>, e: Entry, k: int) {
    && 0 <= k <= |queue|
    && (forall i :: 0 <= i < k ==> queue[i].time <= e.time)
    && (forall i :: k <= i < |queue| ==> queue[i].time > e.time)
  }

  /** `Insert` places `e` at `InsertPos` and keeps the queue around it. */
  lemma {:induction false} InsertAt(queue: seq<Entry>, e: Entry)
    ensures Insert(queue, e) == queue[..InsertPos(queue, e)] + [e] + queue[InsertPos(queue, e)..]
    ensures Sorted(queue) ==> SplitAt(queue, e, InsertPos(queue, e))
    decreases |queue|
  {
    var n := |queue|;
    if queue == [] || queue[n - 1].time <= e.time {
      assert queue[..n] == queue && queue[n..] == [];
    } else {
      var init := queue[..n - 1];
      var k := InsertPos(init, e);
      InsertAt(init, e);
      assert init[..k] == queue[..k];
      assert init[k..] + [queue[n - 1]] == queue[k..];
      if Sorted(queue) {
        assert Sorted(init);
        forall i | k <= i < n ensures queue[i].time > e.time {
          if i < n - 1 {
            assert queue[i] == init[i];
          }
        }
      }
    }
  }

  /** Entering adds exactly the entered entry. */
  lemma InsertPermutes(queue: seq<Entry>, e: Entry)
    ensures multiset(Insert(queue, e)) == multiset(queue) + multiset{e}
  {
    var k := InsertPos(queue, e);
    InsertAt(queue, e);
    assert queue == queue[..k] + queue[k..];
  }

  /** Entering into a sorted queue keeps it sorted. */
  lemma InsertSorted(queue: seq<Entry>, e: Entry)
    requires Sorted(queue)
    ensures Sorted(Insert(queue, e))
    ensures multiset(Insert(queue, e)) == multiset(queue) + multiset{e}
  {
    var k := InsertPos(queue, e);
    InsertAt(queue, e);
    var r := Insert(queue, e);
    assert Sorted(r) by {
      forall i | 0 <= i < |r| ensures r[i] == if i < k then queue[i] else if i == k then e else queue[i - 1] {
      }
      forall i, j | 0 <= i < j < |r| ensures r[i].time <= r[j].time {
        if j < k || i > k {
        } else if i == k {
          assert queue[j - 1].time > e.time;
        } else if j == k {
          assert queue[i].time <= e.time;
        } else {
          assert queue[i].time <= queue[j - 1].time;
        }
      }
    }
    InsertPermutes(queue, e);
  }

  /** The fired order is sorted by time and is a rearrangement of the entries. */
  lemma {:induction false} FireOrderSorted(entries: seq<Entry>)
    ensures Sorted(FireOrder(entries))
    ensures multiset(FireOrder(entries)) == multiset(entries)
    decreases |entries|
  {
    if entries != [] {
      var n := |entries| - 1;
      FireOrderSorted(entries[..n]);
      InsertSorted(FireOrder(entries[..n]), entries[n]);
      assert entries == entries[..n] + [entries[n]];
    }
  }

  /** The report, entered last, fires after exactly the actions whose time is
      not later than its own, and before every later one: with the report at
      the last event's time plus one second, an earlier event of the array
      with a later time runs after the snapshot. */
  lemma ReportPlacement(actions: seq<Entry>, report: Entry)
    ensures var f := FireOrder(actions);
      exists k :: SplitAt(f, report, k) && FireOrder(actions + [report]) == f[..k] + [report] + f[k..]
  {
    assert (actions + [report])[..|actions|] == actions;
    FireOrderSorted(actions);
    InsertAt(FireOrder(actions), report);
  }

  /** A two-event batch whose first event is the later one: the report fires
      between the two actions. */
  lemma ReportBeforeLaterAction()
    ensures FireOrder([Action(5000), Action(0), Report(0 + ReportDelay)])
      == [Action(0), Report(1000), Action(5000)]
  {
    assert [Action(5000), Action(0), Report(1000)][..2] == [Action(5000), Action(0)];
    assert [Action(5000), Action(0)][..1] == [Action(5000)];
    assert FireOrder([Action(5000)]) == [Action(5000)];
    assert FireOrder([Action(5000), Action(0)]) == [Action(0), Action(5000)];
    assert [Action(0), Action(5000)][..1] == [Action(0)];
    assert Insert([Action(0)], Report(1000)) == [Action(0), Report(1000)];
  }
}
