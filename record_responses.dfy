/**
 * The recorder: runs the fixed request script against the reference
 * solution and builds the golden trace (record_responses.py: REQUEST_LIST
 * and main). Nothing catches an exception here, so any one aborts the run.
 */
module RecordResponses {
  import opened Wrappers
  import opened JsonValue
  import opened Harness

  /** The fixed request script, in the order it is issued. */
  const RequestList: seq<string> := [
    "/cbr/daily",
    "/cbr/key_indicators",
    "/api/asset/list",
    "/api/asset/add/USD/dollars/120.0/5.6",
    "/api/asset/add/EUR/euro/12.0/1.2",
    "/api/asset/add/Silver/Ag/50.5/10.1",
    "/api/asset/add/INR/Indian/10.5/99.1",
    "/api/asset/add/Yen/JPY/1.5/1.7",
    "/api/asset/add/Yen/JPY/1.5/1.7",
    "/api/asset/list",
    "/api/asset/get?name=dollars&name=euro&name=Unknown",
    "/api/asset/calculate_revenue?period=1&period=2&period=5",
    "/api/asset/cleanup",
    "/api/asset/list"
  ]

  /**
   * What the script exercises: fourteen requests; the same asset is added
   * twice in a row, and the asset list is fetched before any add, after the
   * adds and after the cleanup.
   */
  lemma RequestScript()
    ensures |RequestList| == 14
    ensures RequestList[7] == RequestList[8] == "/api/asset/add/Yen/JPY/1.5/1.7"
    ensures RequestList[2] == RequestList[9] == RequestList[13] == "/api/asset/list"
    ensures RequestList[12] == "/api/asset/cleanup"
  {
  }

  /** No request of `script`, issued in order, raises. */
  predicate ScriptCompletes(get: (nat, string) -> Outcome, script: seq<string>)
  {
    forall i :: 0 <= i < |script| ==> get(i, script[i]).Responded?
  }

  /** Recording completes: neither parse function raises and no scripted request raises. */
  predicate RecordingCompletes(sub: Submission, fixtures: Fixtures)
  {
    && sub.parseCurrencyBaseDaily(fixtures.currencyBaseDaily).Returned?
    && sub.parseKeyIndicators(fixtures.keyIndicators).Returned?
    && ScriptCompletes(sub.get, RequestList)
  }

  /**
   * The triples recorded for `script`: one per entry, in script order, with
   * the request URL, the status copied unchanged and the decoded body.
   */
  function RecordedTriples(get: (nat, string) -> Outcome, script: seq<string>,
                           decode: string -> Option<Json>): (ts: seq<Triple>)
    requires ScriptCompletes(get, script)
    ensures |ts| == |script|
    ensures forall i :: 0 <= i < |script| ==>
              && ts[i].url == script[i]
              && ts[i].status == get(i, script[i]).status
              && ts[i].body == DecodeBody(decode, get(i, script[i]).text)
  {
    seq(|script|, i requires 0 <= i < |script| =>
      Triple(script[i], get(i, script[i]).status, DecodeBody(decode, get(i, script[i]).text)))
  }

  /**
   * The trace a recording run produces, or None when it aborts: the
   * triples recorded for the request script, and both parse outputs
   * stored unchanged.
   */
  function Recording(sub: Submission, fixtures: Fixtures, decode: string -> Option<Json>): (t: Option<Trace>)
    ensures t.Some? <==> RecordingCompletes(sub, fixtures)
    ensures t.Some? ==> t.value.currencyBaseDaily == sub.parseCurrencyBaseDaily(fixtures.currencyBaseDaily).value
    ensures t.Some? ==> t.value.keyIndicators == sub.parseKeyIndicators(fixtures.keyIndicators).value
    ensures t.Some? ==> |t.value.requests| == |RequestList|
    ensures t.Some? ==> forall i :: 0 <= i < |RequestList| ==>
              && t.value.requests[i].url == RequestList[i]
              && t.value.requests[i].status == sub.get(i, RequestList[i]).status
              && t.value.requests[i].body == DecodeBody(decode, sub.get(i, RequestList[i]).text)
  {
    if RecordingCompletes(sub, fixtures) then
      Some(Trace(sub.parseCurrencyBaseDaily(fixtures.currencyBaseDaily).value,
                 sub.parseKeyIndicators(fixtures.keyIndicators).value,
                 RecordedTriples(sub.get, RequestList, decode)))
    else
      None
  }

  /**
   * The `for url in REQUEST_LIST` loop of `main`: issue each request in
   * order and append its encoded triple; a raise aborts the whole run.
   */
  method RecordRequests(get: (nat, string) -> Outcome, script: seq<string>, decode: string -> Option<Json>)
    returns (reqRes: Option<seq<Json>>)
    ensures reqRes.Some? <==> ScriptCompletes(get, script)
    ensures reqRes.Some? ==>
              && |reqRes.value| == |script|
              && forall i :: 0 <= i < |script| ==>
                   reqRes.value[i] == EncodeTriple(RecordedTriples(get, script, decode)[i])
  {
    var done: seq<Json> := [];
    for i := 0 to |script|
      invariant |done| == i
      invariant forall j :: 0 <= j < i ==> get(j, script[j]).Responded?
      invariant forall j :: 0 <= j < i ==>
                  done[j] == EncodeTriple(Triple(script[j], get(j, script[j]).status,
                                                 DecodeBody(decode, get(j, script[j]).text)))
    {
      var response := get(i, script[i]);
      if response.Raised? {
        return None;
      }
      done := done + [EncodeTriple(Triple(script[i], response.status, DecodeBody(decode, response.text)))];
    }
    return Some(done);
  }

  /**
   * `main` without the file write: fill `total` key by key; the dictionary
   * it returns is what would be serialized to `expected.json`.
   */
  method Record(sub: Submission, fixtures: Fixtures, decode: string -> Option<Json>)
    returns (total: Option<map<string, Json>>)
    ensures total.Some? <==> RecordingCompletes(sub, fixtures)
    ensures total.Some? ==> total.value == TraceDocument(Recording(sub, fixtures, decode).value)
  {
    var doc: map<string, Json> := map[];

    var daily := sub.parseCurrencyBaseDaily(fixtures.currencyBaseDaily);
    if daily.ParseRaised? {
      return None;
    }
    doc := doc[DailyKey := daily.value];
    var keyIndicators := sub.parseKeyIndicators(fixtures.keyIndicators);
    if keyIndicators.ParseRaised? {
      return None;
    }
    doc := doc[KeyIndicatorsKey := keyIndicators.value];

    var reqRes := RecordRequests(sub.get, RequestList, decode);
    if reqRes.None? {
      return None;
    }
    doc := doc[RequestsKey := JArr(reqRes.value)];

    ghost var t := Recording(sub, fixtures, decode).value;
    assert reqRes.value == TraceDocument(t)[RequestsKey].items;
    return Some(doc);
  }
}
