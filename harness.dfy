/**
 * What the recorder and the scoring server share: the submitted solution seen from
 * outside, the response-body decoding policy, and the golden trace
 * (`expected.json`) with its document layout.
 */
module Harness {
  import opened Wrappers
  import opened JsonValue

  /** What one `test_client.get(url)` yields: a status and the body's text, or an exception. */
  datatype Outcome =
    | Responded(status: int, text: string)
    | Raised(message: string, traceback: string)

  /** What one call of a fixture-parsing function yields. */
  datatype ParseOutcome =
    | Returned(value: Json)
    | ParseRaised(message: string, traceback: string)

  /** The contents of the two static HTML fixtures, read once at start-up. */
  datatype Fixtures = Fixtures(currencyBaseDaily: string, keyIndicators: string)

  /**
   * A loaded solution module, as an opaque oracle. `get(i, url)` is what the
   * i-th GET request (counting from 0) issued to a freshly loaded module
   * yields for `url`, so a solution with internal state is covered.
   */
  datatype Submission = Submission(
    parseCurrencyBaseDaily: string -> ParseOutcome,
    parseKeyIndicators: string -> ParseOutcome,
    get: (nat, string) -> Outcome)

  const DailyKey := "cbr_currency_base_daily"
  const KeyIndicatorsKey := "cbr_key_indicators"
  const RequestsKey := "requests"

  /**
   * The body policy of both tools: `json.loads` of the text when it parses
   * (`decode` returns Some), the raw text as a string otherwise.
   */
  function DecodeBody(decode: string -> Option<Json>, text: string): (body: Json)
    ensures decode(text).Some? ==> body == decode(text).value
    ensures decode(text).None? ==> body == JStr(text)
  {
    match decode(text)
    case Some(j) => j
    case None => JStr(text)
  }

  /** One recorded request: `[url, status_code, body]`. */
  datatype Triple = Triple(url: string, status: int, body: Json)

  /** The golden trace: both parse outputs and the recorded requests in script order. */
  datatype Trace = Trace(currencyBaseDaily: Json, keyIndicators: Json, requests: seq<Triple>)

  /** The `[url, status_code, body]` list written for one triple. */
  function EncodeTriple(t: Triple): Json
  {
    JArr([JStr(t.url), JNum(t.status as real), t.body])
  }

  /** The trace as the dictionary that is serialized to `expected.json`. */
  function TraceDocument(t: Trace): (doc: map<string, Json>)
    ensures doc.Keys == {DailyKey, KeyIndicatorsKey, RequestsKey}
    ensures doc[DailyKey] == t.currencyBaseDaily
    ensures doc[KeyIndicatorsKey] == t.keyIndicators
    ensures doc[RequestsKey].JArr? && |doc[RequestsKey].items| == |t.requests|
    ensures forall i :: 0 <= i < |t.requests| ==> doc[RequestsKey].items[i] == EncodeTriple(t.requests[i])
  {
    map[DailyKey := t.currencyBaseDaily,
        KeyIndicatorsKey := t.keyIndicators,
        RequestsKey := JArr(seq(|t.requests|, i requires 0 <= i < |t.requests| => EncodeTriple(t.requests[i])))]
  }

  /** Unpacking `(url, status_code, expected_response)` from one list entry. */
  function ReadTriple(j: Json): (r: Option<Triple>)
    ensures r.Some? ==> EncodeTriple(r.value) == j
  {
    match j
    case JArr(xs) =>
      if |xs| == 3 && xs[0].JStr? && xs[1].JNum? && xs[1].n.Floor as real == xs[1].n then
        assert xs == [xs[0], xs[1], xs[2]];
        Some(Triple(xs[0].s, xs[1].n.Floor, xs[2]))
      else
        None
    case _ => None
  }

  /** Reading back a written triple gives that triple: the status survives as an integral number. */
  lemma ReadEncodedTriple(t: Triple)
    ensures ReadTriple(EncodeTriple(t)) == Some(t)
  {
  }

  /** How the scoring server reads a loaded `expected.json`; None where that lookup would fail. */
  function ReadTrace(doc: Json): (r: Option<Trace>)
    ensures r.Some? ==> doc.JObj? && DailyKey in doc.fields && KeyIndicatorsKey in doc.fields
    ensures r.Some? ==> r.value.currencyBaseDaily == doc.fields[DailyKey]
    ensures r.Some? ==> r.value.keyIndicators == doc.fields[KeyIndicatorsKey]
    ensures r.Some? ==> RequestsKey in doc.fields && doc.fields[RequestsKey].JArr?
    ensures r.Some? ==> |r.value.requests| == |doc.fields[RequestsKey].items|
    ensures r.Some? ==> forall i :: 0 <= i < |doc.fields[RequestsKey].items| ==>
              ReadTriple(doc.fields[RequestsKey].items[i]) == Some(r.value.requests[i])
  {
    if doc.JObj? && DailyKey in doc.fields && KeyIndicatorsKey in doc.fields
       && RequestsKey in doc.fields && doc.fields[RequestsKey].JArr? then
      var items := doc.fields[RequestsKey].items;
      if forall i :: 0 <= i < |items| ==> ReadTriple(items[i]).Some? then
        Some(Trace(doc.fields[DailyKey], doc.fields[KeyIndicatorsKey],
                   seq(|items|, i requires 0 <= i < |items| => ReadTriple(items[i]).value)))
      else
        None
    else
      None
  }

  /** A written trace reads back as the same trace. */
  lemma ReadTraceDocument(t: Trace)
    ensures ReadTrace(JObj(TraceDocument(t))) == Some(t)
  {
    var items := TraceDocument(t)[RequestsKey].items;
    forall i | 0 <= i < |items| ensures ReadTriple(items[i]) == Some(t.requests[i]) {
      assert items[i] == EncodeTriple(t.requests[i]);
    }
    var back := seq(|items|, i requires 0 <= i < |items| => ReadTriple(items[i]).value);
    assert back == t.requests;
  }
}
