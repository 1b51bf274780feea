/** The stand-alone request server (`agent/server.py`): a POST to a known
    path only extracts the first event of the array and prints the dict;
    nothing is dispatched. Its application extractor stops before `active`. */
module LegacyServer {
  import opened PyJson
  import opened Extraction

  /** This copy's application keys: no `active`. */
  const ServerApplicationSources: seq<Source> :=
    [Top("timestamp"), InData("name"), InData("cpu"), InData("memory")]

  /** `endpoint_application`. */
  method EndpointApplication(request: Json) returns (r: Result<map<string, Json>>)
    ensures r == Extracted(request, ServerApplicationSources)
    ensures r.Ok? ==> KeyPrefix(r.value, ServerApplicationSources) && "active" !in r.value
  {
    r := Extract(request, ServerApplicationSources);
    ExtractedShape(request, ServerApplicationSources);
    if r.Ok? {
      NoActive(r.value);
    }
  }

  /** This copy's application key list ends before `active`. */
  lemma NoActive(f: map<string, Json>)
    requires KeyPrefix(f, ServerApplicationSources)
    ensures "active" !in f
  {
    PrefixWithin(f, ServerApplicationSources, "active");
  }

  /** `do_POST` after the body is decoded: the dict it prints, `None` for a
      path it ignores, or the exception that escapes the extractor. A missing
      key never escapes; an empty array does. */
  method Post(path: string, request: Json) returns (r: Result<Option<map<string, Json>>>)
    ensures path != "/application" && path != "/interface" ==> r == Ok(None)
    ensures path == "/application" ==>
      r == (match Extracted(request, ServerApplicationSources)
            case Ok(f) => Ok(Some(f))
            case Err(e) => Err(e))
    ensures path == "/interface" ==>
      r == (match Extracted(request, InterfaceSources)
            case Ok(f) => Ok(Some(f))
            case Err(e) => Err(e))
    ensures r.Err? ==> r.error in {IndexError, TypeError}
    ensures request == JArr([]) && (path == "/application" || path == "/interface") ==> r == Err(IndexError)
  {
    r := Ok(None);
    var content: Result<map<string, Json>>;
    if path == "/application" {
      content := EndpointApplication(request);
    } else if path == "/interface" {
      content := EndpointInterface(request);
    } else {
      return;
    }
    NoFirstElement(ServerApplicationSources, map[]);
    NoFirstElement(InterfaceSources, map[]);
    if content.Err? {
      return Err(content.error);
    }
    r := Ok(Some(content.value));
  }
}
