/**
 * The scoring server: replays the golden trace against a submitted solution and
 * builds the score report (server.py: test_solution, test_parse,
 * format_error).
 */
module Server {
  import opened Wrappers
  import opened JsonValue
  import opened Harness

  // ---------------------------------------------------------------- errors

  /** `s.replace("\n", "</br>")`: every newline becomes `</br>`, all else is kept. */
  function ReplaceNewlines(s: string): (r: string)
    ensures forall i :: 0 <= i < |r| ==> r[i] != '\n'
    ensures |r| >= |s|
  {
    if s == [] then []
    else (if s[0] == '\n' then "</br>" else [s[0]]) + ReplaceNewlines(s[1..])
  }

  /** The rewrite works piece by piece: it distributes over concatenation. */
  lemma {:induction false} ReplaceNewlinesAppend(s: string, t: string)
    ensures ReplaceNewlines(s + t) == ReplaceNewlines(s) + ReplaceNewlines(t)
  {
    if s == [] {
      assert s + t == t;
    } else {
      assert (s + t)[0] == s[0] && (s + t)[1..] == s[1..] + t;
      ReplaceNewlinesAppend(s[1..], t);
    }
  }

  /** Text without newlines is left exactly as it is. */
  lemma {:induction false} ReplaceNewlinesKeeps(s: string)
    requires forall i :: 0 <= i < |s| ==> s[i] != '\n'
    ensures ReplaceNewlines(s) == s
  {
    if s != [] {
      ReplaceNewlinesKeeps(s[1..]);
    }
  }

  /**
   * `format_error`: the exception's text and the traceback, joined by a
   * newline, with every newline turned into `</br>`. The result is never
   * empty and contains no newline.
   */
  function FormatError(message: string, traceback: string): (r: string)
    ensures forall i :: 0 <= i < |r| ==> r[i] != '\n'
    ensures r == ReplaceNewlines(message) + "</br>" + ReplaceNewlines(traceback)
    ensures |r| >= |message| + |traceback| + 5
  {
    ReplaceNewlinesAppend(message, "\n" + traceback);
    ReplaceNewlinesAppend("\n", traceback);
    var joined := message + "\n" + traceback;  // "\n".join([message, traceback])
    assert joined == message + ("\n" + traceback);
    ReplaceNewlines(joined)
  }

  // ----------------------------------------------------------- test_parse

  /** The report entry for one fixture-parsing function. */
  datatype ParseReport =
    | ParseMismatch(expected: Json, actual: Json)
    | ParseError(error: string)
    | ParseOk(actual: Json)

  /**
   * `test_parse`: a one-key dictionary under `expectedKey` holding exactly
   * one of a mismatch (the result differs from the recorded one), an error
   * (the function raised) or the result alone (it equals the recorded one).
   */
  function TestParse(outcome: ParseOutcome, expected: Json, expectedKey: string): (r: map<string, ParseReport>)
    ensures r.Keys == {expectedKey}
    ensures outcome.ParseRaised? <==> r[expectedKey].ParseError?
    ensures outcome.ParseRaised? ==>
              r[expectedKey] == ParseError(FormatError(outcome.message, outcome.traceback))
    ensures (outcome.Returned? && !PyEq(outcome.value, expected)) <==> r[expectedKey].ParseMismatch?
    ensures r[expectedKey].ParseMismatch? ==> r[expectedKey] == ParseMismatch(expected, outcome.value)
    ensures (outcome.Returned? && PyEq(outcome.value, expected)) <==> r[expectedKey].ParseOk?
    ensures r[expectedKey].ParseOk? ==> r[expectedKey] == ParseOk(outcome.value)
  {
    match outcome
    case Returned(actual) =>
      if !PyEq(actual, expected) then map[expectedKey := ParseMismatch(expected, actual)]
      else map[expectedKey := ParseOk(actual)]
    case ParseRaised(message, traceback) =>
      var error := FormatError(message, traceback);
      // `if error:` — a formatted error always holds "</br>", so it is never falsy
      if error != [] then map[expectedKey := ParseError(error)]
      else assert false; map[]
  }

  // -------------------------------------------------------- test_solution

  /** A status and a body, as the report shows them. */
  datatype Observed = Observed(status: int, response: Json)

  /** The report entry for one replayed request. */
  datatype RequestEntry =
    | Mismatch(url: string, actual: Observed, expected: Observed)
    | Passed(url: string, actual: Observed)
    | Errored(url: string, error: string)

  /**
   * The mismatch test of the verdict loop: the statuses differ, or the
   * status is 200, the recorded body is not a string and the bodies differ.
   */
  predicate Differs(expectedStatus: int, expectedBody: Json, actualStatus: int, actualBody: Json)
    ensures expectedStatus != actualStatus ==> Differs(expectedStatus, expectedBody, actualStatus, actualBody)
    ensures expectedStatus == actualStatus && (expectedStatus != 200 || expectedBody.JStr?) ==>
              !Differs(expectedStatus, expectedBody, actualStatus, actualBody)
    ensures expectedStatus == actualStatus == 200 && !expectedBody.JStr? ==>
              (Differs(expectedStatus, expectedBody, actualStatus, actualBody) <==> !PyEq(expectedBody, actualBody))
  {
    expectedStatus != actualStatus
    || (expectedStatus == 200 && !expectedBody.JStr? && !PyEq(expectedBody, actualBody))
  }

  /** The verdict on one recorded triple, given what replaying its request yields. */
  function GradeRequest(expected: Triple, outcome: Outcome, decode: string -> Option<Json>): (e: RequestEntry)
    ensures e.url == expected.url
    ensures outcome.Raised? <==> e.Errored?
    ensures outcome.Raised? ==> e.error == FormatError(outcome.message, outcome.traceback)
    ensures outcome.Responded? ==> e.actual == Observed(outcome.status, DecodeBody(decode, outcome.text))
    ensures e.Mismatch? ==> e.expected == Observed(expected.status, expected.body)
    // the verdict, case by case
    ensures outcome.Responded? && outcome.status != expected.status ==> e.Mismatch?
    ensures outcome.Responded? && outcome.status == expected.status && expected.status != 200 ==> e.Passed?
    ensures outcome.Responded? && outcome.status == expected.status == 200 && expected.body.JStr? ==> e.Passed?
    ensures outcome.Responded? && outcome.status == expected.status == 200 && !expected.body.JStr? ==>
              (e.Mismatch? <==> !PyEq(expected.body, DecodeBody(decode, outcome.text)))
  {
    match outcome
    case Raised(message, traceback) => Errored(expected.url, FormatError(message, traceback))
    case Responded(status, text) =>
      var actual := Observed(status, DecodeBody(decode, text));
      if Differs(expected.status, expected.body, status, actual.response) then
        Mismatch(expected.url, actual, Observed(expected.status, expected.body))
      else
        Passed(expected.url, actual)
  }

  /**
   * The verdicts on all recorded triples: one entry per triple, in trace
   * order, the i-th graded against the i-th request issued.
   */
  function GradeRequests(expected: seq<Triple>, get: (nat, string) -> Outcome,
                         decode: string -> Option<Json>): (entries: seq<RequestEntry>)
    ensures |entries| == |expected|
    ensures forall i :: 0 <= i < |expected| ==> entries[i].url == expected[i].url
    ensures forall i :: 0 <= i < |expected| ==> entries[i] == GradeRequest(expected[i], get(i, expected[i].url), decode)
  {
    var entries := seq(|expected|, i requires 0 <= i < |expected| => GradeRequest(expected[i], get(i, expected[i].url), decode));
    assert forall i :: 0 <= i < |expected| ==> entries[i] == GradeRequest(expected[i], get(i, expected[i].url), decode);
    entries
  }

  /** The score report: the two parse entries and the request entries. */
  datatype Report = Report(parses: map<string, ParseReport>, requests: seq<RequestEntry>)

  /** The report `test_solution` builds for a submission against the golden trace. */
  function Grade(expected: Trace, sub: Submission, fixtures: Fixtures,
                 decode: string -> Option<Json>): (r: Report)
    ensures r.parses.Keys == {DailyKey, KeyIndicatorsKey}
    ensures r.parses[DailyKey]
            == TestParse(sub.parseCurrencyBaseDaily(fixtures.currencyBaseDaily), expected.currencyBaseDaily, DailyKey)[DailyKey]
    ensures r.parses[KeyIndicatorsKey]
            == TestParse(sub.parseKeyIndicators(fixtures.keyIndicators), expected.keyIndicators, KeyIndicatorsKey)[KeyIndicatorsKey]
    ensures |r.requests| == |expected.requests|
    ensures forall i :: 0 <= i < |expected.requests| ==>
              r.requests[i] == GradeRequest(expected.requests[i], sub.get(i, expected.requests[i].url), decode)
  {
    Report(
      TestParse(sub.parseCurrencyBaseDaily(fixtures.currencyBaseDaily), expected.currencyBaseDaily, DailyKey)
      + TestParse(sub.parseKeyIndicators(fixtures.keyIndicators), expected.keyIndicators, KeyIndicatorsKey),
      GradeRequests(expected.requests, sub.get, decode))
  }

  /**
   * `test_solution`: test both parse functions, then replay every recorded
   * request in order, appending one entry per request; a request that
   * raises yields an error entry and the loop goes on.
   */
  method TestSolution(expected: Trace, sub: Submission, fixtures: Fixtures,
                      decode: string -> Option<Json>) returns (res: Report)
    ensures res == Grade(expected, sub, fixtures, decode)
    ensures |res.requests| == |expected.requests|
    ensures forall i :: 0 <= i < |expected.requests| ==>
              res.requests[i] == GradeRequest(expected.requests[i], sub.get(i, expected.requests[i].url), decode)
  {
    var parses: map<string, ParseReport> := map[];
    parses := parses + TestParse(sub.parseCurrencyBaseDaily(fixtures.currencyBaseDaily), expected.currencyBaseDaily, DailyKey);
    parses := parses + TestParse(sub.parseKeyIndicators(fixtures.keyIndicators), expected.keyIndicators, KeyIndicatorsKey);

    var responseRes: seq<RequestEntry> := [];
    for i := 0 to |expected.requests|
      invariant |responseRes| == i
      invariant forall j :: 0 <= j < i ==>
                  responseRes[j] == GradeRequest(expected.requests[j], sub.get(j, expected.requests[j].url), decode)
    {
      var triple := expected.requests[i];
      var outcome := sub.get(i, triple.url);
      match outcome {
        case Raised(message, traceback) =>
          responseRes := responseRes + [Errored(triple.url, FormatError(message, traceback))];
        case Responded(actualStatus, text) =>
          var actualResponse := DecodeBody(decode, text);
          if Differs(triple.status, triple.body, actualStatus, actualResponse) {
            responseRes := responseRes + [Mismatch(triple.url, Observed(actualStatus, actualResponse),
                                                   Observed(triple.status, triple.body))];
          } else {
            responseRes := responseRes + [Passed(triple.url, Observed(actualStatus, actualResponse))];
          }
      }
    }
    res := Report(parses, responseRes);
    assert res.requests == GradeRequests(expected.requests, sub.get, decode);
  }

  /** Grading a parse function against the very value it returned reports that value alone. */
  lemma ParseAgainstItself(value: Json, expectedKey: string)
    ensures TestParse(Returned(value), value, expectedKey) == map[expectedKey := ParseOk(value)]
  {
    PyEqReflexive(value);
  }
}
