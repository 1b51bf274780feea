/** The request extractors `endpoint_application` and `endpoint_interface`.
    Each fills a fresh dict one key at a time from element 0 of the decoded
    request array, taking the value either from that element itself or from
    its `data` dict. The `try` around the assignments catches KeyError only:
    the first missing key ends the filling and the partial dict is returned,
    and any other exception escapes. The three copies of the agent differ only
    in their key lists, so the assignments are modelled as a list of sources
    and one loop over it. */
module Extraction {
  import opened PyJson

  /** One assignment: `content_dict[key] = array[0][key]` when `inData` is
      false, `content_dict[key] = array[0]['data'][key]` when it is true. */
  datatype Source = Source(key: string, inData: bool)

  function Top(key: string): Source { Source(key, false) }

  function InData(key: string): Source { Source(key, true) }

  predicate DistinctKeys(sources: seq<Source>) {
    forall i, j :: 0 <= i < j < |sources| ==> sources[i].key != sources[j].key
  }

  /** The keys of the given assignments. */
  function KeysOf(sources: seq<Source>): set<string> {
    set i | 0 <= i < |sources| :: sources[i].key
  }

  /** The right-hand side of one assignment; `array[0]` is evaluated afresh
      by every assignment. */
  function Read(request: Json, s: Source): (r: Result<Json>)
    ensures Item0(request).Err? ==> r == Err(Item0(request).error)
    ensures r.Err? ==> r.error in {KeyError, IndexError, TypeError}
  {
    var first :- Item0(request);
    if s.inData then
      var data :- Field(first, "data");
      Field(data, s.key)
    else Field(first, s.key)
  }

  /** The assignments still to run, starting from the dict filled so far. */
  function Fill(request: Json, sources: seq<Source>, content: map<string, Json>): (r: Result<map<string, Json>>)
    ensures r.Err? ==> r.error in {IndexError, TypeError}
    decreases |sources|
  {
    if sources == [] then Ok(content)
    else
      match Read(request, sources[0])
      case Err(e) => if e == KeyError then Ok(content) else Err(e)
      case Ok(v) => Fill(request, sources[1..], content[sources[0].key := v])
  }

  /** What an extractor returns, or the exception that escapes it: a missing
      key never escapes. */
  function Extracted(request: Json, sources: seq<Source>): (r: Result<map<string, Json>>)
    ensures r.Err? ==> r.error in {IndexError, TypeError}
  {
    Fill(request, sources, map[])
  }

  /** The number of leading assignments whose right-hand side can be read. */
  function Reached(request: Json, sources: seq<Source>): (n: nat)
    ensures n <= |sources|
    ensures forall i :: 0 <= i < n ==> Read(request, sources[i]).Ok?
    ensures n < |sources| ==> Read(request, sources[n]).Err?
    decreases |sources|
  {
    if sources == [] || Read(request, sources[0]).Err? then 0
    else
      var rest := Reached(request, sources[1..]);
      assert forall i :: 1 <= i < 1 + rest ==> sources[i] == sources[1..][i - 1];
      1 + rest
  }

  /** The keys of a non-empty prefix: the first key and those after it. */
  lemma KeysOfCons(sources: seq<Source>, n: nat)
    requires 1 <= n <= |sources|
    ensures KeysOf(sources[..n]) == {sources[0].key} + KeysOf(sources[1..][..n - 1])
  {
    var head := sources[..n];
    var tail := sources[1..][..n - 1];
    assert forall i :: 1 <= i < n ==> head[i] == tail[i - 1];
    forall k | k in KeysOf(tail) ensures k in KeysOf(head) {
      var i :| 0 <= i < |tail| && tail[i].key == k;
      assert head[i + 1] == tail[i];
    }
  }

  /** The assignments run from `content` on stop at the first unreadable
      value, and raise exactly when that read fails with anything but
      KeyError. */
  lemma {:induction false} FillOutcome(request: Json, sources: seq<Source>, content: map<string, Json>)
    ensures var r := Fill(request, sources, content);
      var n := Reached(request, sources);
      && (r.Err? <==> n < |sources| && Read(request, sources[n]).error != KeyError)
      && (r.Err? ==> r.error == Read(request, sources[n]).error)
    decreases |sources|
  {
    if sources != [] && Read(request, sources[0]).Ok? {
      FillOutcome(request, sources[1..], content[sources[0].key := Read(request, sources[0]).value]);
    }
  }

  /** When nothing escapes, the dict holds the keys it held before plus
      exactly the keys read before the first missing one. */
  lemma {:induction false} FillKeys(request: Json, sources: seq<Source>, content: map<string, Json>)
    ensures var r := Fill(request, sources, content);
      r.Ok? ==> r.value.Keys == content.Keys + KeysOf(sources[..Reached(request, sources)])
    decreases |sources|
  {
    var n := Reached(request, sources);
    if sources != [] && Read(request, sources[0]).Ok? {
      FillKeys(request, sources[1..], content[sources[0].key := Read(request, sources[0]).value]);
      KeysOfCons(sources, n);
    } else {
      assert KeysOf(sources[..n]) == {};
    }
  }

  /** When nothing escapes, earlier entries keep their values and every value
      read is stored unchanged under its own key. */
  lemma {:induction false} FillValues(request: Json, sources: seq<Source>, content: map<string, Json>)
    requires DistinctKeys(sources)
    requires forall i :: 0 <= i < |sources| ==> sources[i].key !in content
    ensures var r := Fill(request, sources, content);
      && (r.Ok? ==> forall k :: k in content ==> k in r.value && r.value[k] == content[k])
      && (r.Ok? ==> forall i :: 0 <= i < Reached(request, sources) ==>
            sources[i].key in r.value && r.value[sources[i].key] == Read(request, sources[i]).value)
    decreases |sources|
  {
    if sources != [] && Read(request, sources[0]).Ok? {
      var rest := sources[1..];
      assert forall i :: 0 <= i < |rest| ==> rest[i] == sources[i + 1];
      FillValues(request, rest, content[sources[0].key := Read(request, sources[0]).value]);
    }
  }

  /** The dict's keys are the first `n` keys of the list, for some `n`. */
  predicate KeyPrefix(content: map<string, Json>, sources: seq<Source>) {
    exists n :: 0 <= n <= |sources| && content.Keys == KeysOf(sources[..n])
  }

  /** An extractor returns the values read before the first missing key,
      unchanged and under their own keys, so the dict's keys are a prefix of
      the key list; it raises exactly when a read fails with anything but
      KeyError. */
  lemma ExtractedShape(request: Json, sources: seq<Source>)
    requires DistinctKeys(sources)
    ensures var r := Extracted(request, sources);
      var n := Reached(request, sources);
      && (r.Err? <==> n < |sources| && Read(request, sources[n]).error != KeyError)
      && (r.Err? ==> r.error == Read(request, sources[n]).error)
      && (r.Ok? ==> r.value.Keys == KeysOf(sources[..n]) && KeyPrefix(r.value, sources))
      && (r.Ok? ==> forall i :: 0 <= i < n ==> r.value[sources[i].key] == Read(request, sources[i]).value)
  {
    FillOutcome(request, sources, map[]);
    FillKeys(request, sources, map[]);
    FillValues(request, sources, map[]);
  }

  /** A key-prefix dict is closed towards the front of the list: holding a
      key means holding every key listed before it. */
  lemma PrefixOrder(content: map<string, Json>, sources: seq<Source>, i: nat, j: nat)
    requires DistinctKeys(sources) && KeyPrefix(content, sources)
    requires i < j < |sources| && sources[j].key in content
    ensures sources[i].key in content
  {
    var n :| 0 <= n <= |sources| && content.Keys == KeysOf(sources[..n]);
    var m :| 0 <= m < n && sources[..n][m].key == sources[j].key;
    assert m == j;
    assert sources[..n][i] == sources[i];
  }

  /** A key-prefix dict holds only listed keys. */
  lemma PrefixWithin(content: map<string, Json>, sources: seq<Source>, key: string)
    requires KeyPrefix(content, sources)
    requires forall i :: 0 <= i < |sources| ==> sources[i].key != key
    ensures key !in content
  {
    var n :| 0 <= n <= |sources| && content.Keys == KeysOf(sources[..n]);
    assert forall i :: 0 <= i < n ==> sources[..n][i] == sources[i];
  }

  /** Only element 0 of the array is ever consulted. */
  lemma {:induction false} FillFirstOnly(a: Json, b: Json, sources: seq<Source>, content: map<string, Json>)
    requires Item0(a) == Item0(b)
    ensures Fill(a, sources, content) == Fill(b, sources, content)
    decreases |sources|
  {
    if sources != [] {
      assert Read(a, sources[0]) == Read(b, sources[0]);
      if Read(a, sources[0]).Ok? {
        FillFirstOnly(a, b, sources[1..], content[sources[0].key := Read(a, sources[0]).value]);
      }
    }
  }

  lemma FirstOnly(a: Json, b: Json, sources: seq<Source>)
    requires Item0(a) == Item0(b)
    ensures Extracted(a, sources) == Extracted(b, sources)
  {
    FillFirstOnly(a, b, sources, map[]);
  }

  /** An empty array raises IndexError at the first assignment: the `except
      KeyError` does not absorb it. A dict has no element 0 and raises
      KeyError there, which is absorbed: the result is the empty dict. */
  lemma NoFirstElement(sources: seq<Source>, fields: map<string, Json>)
    requires sources != []
    ensures Extracted(JArr([]), sources) == Err(IndexError)
    ensures Extracted(JObj(fields), sources) == Ok(map[])
  {
  }

  /** The extractor as the source runs it: one assignment after another into
      a dict that starts empty. */
  method Extract(request: Json, sources: seq<Source>) returns (r: Result<map<string, Json>>)
    ensures r == Extracted(request, sources)
  {
    var content: map<string, Json> := map[];
    var i := 0;
    while i < |sources|
      invariant i <= |sources|
      invariant Fill(request, sources, map[]) == Fill(request, sources[i..], content)
    {
      var v := Read(request, sources[i]);
      if v.Err? {
        if v.error == KeyError {
          return Ok(content);
        }
        return Err(v.error);
      }
      assert sources[i..][1..] == sources[i + 1..];
      content := content[sources[i].key := v.value];
      i := i + 1;
    }
    assert sources[i..] == [];
    r := Ok(content);
  }

  /** The application keys of the topology copy and of the first agent. */
  const ApplicationSources: seq<Source> :=
    [Top("timestamp"), InData("name"), InData("cpu"), InData("memory"), InData("active")]

  /** The interface keys, the same in all three copies. */
  const InterfaceSources: seq<Source> :=
    [Top("timestamp"), InData("id"), InData("active"), InData("bandwidth")]

  /** `endpoint_application` of the topology copy and of the first agent. */
  method EndpointApplication(request: Json) returns (r: Result<map<string, Json>>)
    ensures r == Extracted(request, ApplicationSources)
    ensures r.Ok? ==> KeyPrefix(r.value, ApplicationSources)
  {
    r := Extract(request, ApplicationSources);
    ExtractedShape(request, ApplicationSources);
  }

  /** `endpoint_interface` of all three copies. */
  method EndpointInterface(request: Json) returns (r: Result<map<string, Json>>)
    ensures r == Extracted(request, InterfaceSources)
    ensures r.Ok? ==> KeyPrefix(r.value, InterfaceSources)
  {
    r := Extract(request, InterfaceSources);
    ExtractedShape(request, InterfaceSources);
  }
}
