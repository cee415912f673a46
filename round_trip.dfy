/**
 * Recorder and scoring server together: grading a solution against the trace
 * recorded from the same outcomes (one `Submission` value, so the same
 * parse results and the same responses to the same requests in the same
 * order) reports nothing but successes.
 */
module RoundTrip {
  import opened Wrappers
  import opened JsonValue
  import opened Harness
  import opened Server
  import opened RecordResponses

  /** Every entry of the report is a success: no mismatch, no error. */
  predicate AllPassed(r: Report)
  {
    && (forall k :: k in r.parses ==> r.parses[k].ParseOk?)
    && (forall i :: 0 <= i < |r.requests| ==> r.requests[i].Passed?)
  }

  /**
   * One request graded against the very response it was recorded from is
   * an actual-only success carrying the recorded status and body.
   */
  lemma GradeAgainstOwnResponse(triple: Triple, outcome: Outcome, decode: string -> Option<Json>)
    requires outcome.Responded?
    requires triple.status == outcome.status && triple.body == DecodeBody(decode, outcome.text)
    ensures GradeRequest(triple, outcome, decode) == Passed(triple.url, Observed(triple.status, triple.body))
  {
    PyEqReflexive(triple.body);
  }

  /**
   * Grading the recorded trace against the outcomes it was recorded from:
   * each request entry is an actual-only success carrying the recorded
   * status and body, and each parse entry is the recorded value alone.
   */
  lemma RecordThenGrade(sub: Submission, fixtures: Fixtures, decode: string -> Option<Json>, t: Trace)
    requires Recording(sub, fixtures, decode) == Some(t)
    ensures AllPassed(Grade(t, sub, fixtures, decode))
    ensures Grade(t, sub, fixtures, decode).parses[DailyKey] == ParseOk(t.currencyBaseDaily)
    ensures Grade(t, sub, fixtures, decode).parses[KeyIndicatorsKey] == ParseOk(t.keyIndicators)
    ensures forall i :: 0 <= i < |t.requests| ==>
              Grade(t, sub, fixtures, decode).requests[i]
              == Passed(t.requests[i].url, Observed(t.requests[i].status, t.requests[i].body))
  {
    var r := Grade(t, sub, fixtures, decode);
    ParseAgainstItself(t.currencyBaseDaily, DailyKey);
    ParseAgainstItself(t.keyIndicators, KeyIndicatorsKey);
    forall i | 0 <= i < |t.requests|
      ensures r.requests[i] == Passed(t.requests[i].url, Observed(t.requests[i].status, t.requests[i].body))
    {
      GradeAgainstOwnResponse(t.requests[i], sub.get(i, t.requests[i].url), decode);
    }
  }

  /**
   * The same through `expected.json`: the document the recorder writes
   * reads back as a trace, and grading the solution against it passes.
   */
  lemma RecordWriteReadGrade(sub: Submission, fixtures: Fixtures, decode: string -> Option<Json>,
                             doc: map<string, Json>)
    requires RecordingCompletes(sub, fixtures)
    requires doc == TraceDocument(Recording(sub, fixtures, decode).value)
    ensures ReadTrace(JObj(doc)).Some?
    ensures AllPassed(Grade(ReadTrace(JObj(doc)).value, sub, fixtures, decode))
  {
    ReadTraceDocument(Recording(sub, fixtures, decode).value);
    RecordThenGrade(sub, fixtures, decode, Recording(sub, fixtures, decode).value);
  }
}
